/**
 The broker's handlers in their own form. Between any two accesses of a handler everybody else may act; every access is
 a step of the machine in module Broker, so whatever holds of all its runs holds of this code.
 */
module Handlers {
  import opened Base
  import opened Sanitize
  import Store
  import Cluster
  import opened Broker
  import opened BrokerInvariant
  import opened BrokerTheorems
  import opened Sparing

  // ----- Loops of the handlers -----

  method ToGroupRefs(ms: seq<Membership>) returns (out: seq<GroupRef>)
    ensures out == GroupRefs(ms)
  {
    out := [];
    for i := 0 to |ms|
      invariant out == GroupRefs(ms)[..i]
    {
      out := out + [GroupRef(ms[i].gid, ms[i].name, ms[i].domain)];
    }
  }

  method FromGroupRefs(gs: seq<GroupRef>) returns (out: seq<Membership>)
    ensures out == Memberships(gs)
    ensures GroupRefs(out) == gs
  {
    out := [];
    for i := 0 to |gs|
      invariant out == Memberships(gs)[..i]
    {
      out := out + [Cluster.Membership(gs[i].gid, gs[i].name, gs[i].domain)];
    }
  }

  method Gids(ms: seq<Membership>) returns (out: seq<string>)
    ensures out == GidList(ms)
    ensures (set g | g in out) == Cluster.Gids(ms)
  {
    out := [];
    for i := 0 to |ms|
      invariant out == GidList(ms)[..i]
    {
      out := out + [ms[i].gid];
    }
    assert forall m | m in ms :: m.gid in out by {
      forall m | m in ms ensures m.gid in out {
        var i :| 0 <= i < |ms| && ms[i] == m;
        assert out[i] == m.gid;
      }
    }
  }

  method DomainAllowed(cfg: Config, domain: string) returns (ok: bool)
    ensures ok == AllowedDomain(cfg, domain)
  {
    for i := 0 to |cfg.domains|
      invariant forall j | 0 <= j < i :: !cfg.fold(cfg.domains[j], domain)
    {
      if cfg.fold(cfg.domains[i], domain) { return true; }
    }
    return false;
  }

  method RedirectAllowed(cfg: Config, uri: string) returns (ok: bool)
    ensures ok <==> uri in cfg.redirects
  {
    for i := 0 to |cfg.redirects|
      invariant uri !in cfg.redirects[..i]
    {
      if cfg.redirects[i] == uri { return true; }
    }
    assert cfg.redirects[..|cfg.redirects|] == cfg.redirects;
    return false;
  }

  /** `scope[i..j]` is a whole word. */
  predicate WordAt(scope: string, i: nat, j: nat) {
    && i < j <= |scope| && (forall k | i <= k < j :: !Space(scope[k]))
    && (i == 0 || Space(scope[i - 1])) && (j == |scope| || Space(scope[j]))
  }

  /** scopeHas: cut the scope into words and compare each. */
  method HasScope(scope: string, want: string) returns (ok: bool)
    ensures ok <==> ScopeHas(scope, want)
  {
    var i := 0;
    ok := false;
    while i < |scope|
      invariant i <= |scope| && (i == 0 || i == |scope| || Space(scope[i - 1]))
      invariant !ok && forall a: nat, b: nat | WordAt(scope, a, b) && a < i :: scope[a..b] != want
    {
      var j := i;
      while j < |scope| && !Space(scope[j])
        invariant i <= j <= |scope| && forall k | i <= k < j :: !Space(scope[k])
      {
        j := j + 1;
      }
      if i < j && scope[i..j] == want {
        assert WordAt(scope, i, j);
        WordIsScope(scope, i, j);
        return true;
      }
      forall a: nat, b: nat | WordAt(scope, a, b) && i <= a <= j ensures scope[a..b] != want {
        if a > i { assert false; }
      }
      i := if j < |scope| then j + 1 else j;
    }
    if ScopeHas(scope, want) { ScopeIsWord(scope, want); }
  }

  lemma WordIsScope(scope: string, i: nat, j: nat)
    requires WordAt(scope, i, j)
    ensures ScopeHas(scope, scope[i..j])
  {
  }

  lemma ScopeIsWord(scope: string, want: string)
    requires ScopeHas(scope, want)
    ensures exists a: nat, b: nat :: WordAt(scope, a, b) && scope[a..b] == want
  {
    var i, j :| 0 <= i < j <= |scope| && scope[i..j] == want && (forall c | c in scope[i..j] :: !Space(c))
      && (i == 0 || Space(scope[i - 1])) && (j == |scope| || Space(scope[j]));
    assert forall k | i <= k < j :: scope[k] == scope[i..j][k - i];
    assert WordAt(scope, i, j);
  }

  /** Words with single spaces between them. */
  function Joined(words: seq<string>): string {
    if words == [] then "" else if |words| == 1 then words[0] else words[0] + " " + Joined(words[1..])
  }

  /** `want` is a whole word of `scope`. */
  ghost predicate HasWord(scope: string, want: string) {
    exists a: nat, b: nat :: WordAt(scope, a, b) && scope[a..b] == want
  }

  /** A scope has exactly the words that it was put together from. */
  lemma ScopeOfWords(words: seq<string>, want: string)
    requires forall w | w in words :: w != "" && forall c | c in w :: !Space(c)
    ensures ScopeHas(Joined(words), want) <==> want in words
  {
    WordsJoined(words, want);
    if ScopeHas(Joined(words), want) { ScopeIsWord(Joined(words), want); }
    if HasWord(Joined(words), want) {
      var a: nat, b: nat :| WordAt(Joined(words), a, b) && Joined(words)[a..b] == want;
      WordIsScope(Joined(words), a, b);
    }
  }

  lemma {:induction false} WordsJoined(words: seq<string>, want: string)
    requires forall w | w in words :: w != "" && forall c | c in w :: !Space(c)
    ensures HasWord(Joined(words), want) <==> want in words
  {
    if |words| == 1 {
      assert words[0] in words;
      OneWord(words[0], want);
    } else if words != [] {
      assert words[0] in words && forall w | w in words[1..] :: w in words;
      WordsJoined(words[1..], want);
      FirstWord(words[0], Joined(words[1..]), want);
    }
  }

  lemma OneWord(w: string, want: string)
    requires w != "" && forall c | c in w :: !Space(c)
    ensures HasWord(w, want) <==> want == w
  {
    assert w[0..|w|] == w;
    if HasWord(w, want) {
      var a: nat, b: nat :| WordAt(w, a, b) && w[a..b] == want;
      assert a == 0 && b == |w|;
    }
    assert WordAt(w, 0, |w|);
  }

  lemma FirstWord(w: string, rest: string, want: string)
    requires w != "" && forall c | c in w :: !Space(c)
    ensures HasWord(w + " " + rest, want) <==> want == w || HasWord(rest, want)
  {
    var all, n := w + " " + rest, |w| + 1;
    if HasWord(all, want) {
      var a: nat, b: nat :| WordAt(all, a, b) && all[a..b] == want;
      if a < n {
        WordBefore(w, rest, a, b);
      } else {
        WordOfRest(w, rest, a, b);
        SliceOfRest(w, rest, a, b);
      }
    }
    if want == w { WordBefore(w, rest, 0, |w|); }
    if HasWord(rest, want) {
      var a: nat, b: nat :| WordAt(rest, a, b) && rest[a..b] == want;
      WordOfWhole(w, rest, a, b);
      SliceOfWhole(w, rest, a, b);
    }
  }

  lemma Parts(w: string, rest: string)
    ensures var all := w + " " + rest;
      && (forall i | 0 <= i < |w| :: all[i] == w[i]) && all[|w|] == ' ' && all[0..|w|] == w
      && (forall i | |w| < i < |all| :: all[i] == rest[i - |w| - 1])
  {
  }

  /** The only word that begins in the first one, or in the space after it, is the first one. */
  lemma WordBefore(w: string, rest: string, a: nat, b: nat)
    requires w != "" && forall c | c in w :: !Space(c)
    requires a <= |w|
    ensures WordAt(w + " " + rest, a, b) <==> a == 0 && b == |w|
    ensures (w + " " + rest)[0..|w|] == w
  {
    var all := w + " " + rest;
    Parts(w, rest);
    forall i | 0 <= i < |w| ensures !Space(all[i]) { assert w[i] in w; }
  }

  lemma SliceOfWhole(w: string, rest: string, a: nat, b: nat)
    requires a <= b <= |rest|
    ensures (w + " " + rest)[a + |w| + 1..b + |w| + 1] == rest[a..b]
  {
  }

  lemma SliceOfRest(w: string, rest: string, a: nat, b: nat)
    requires |w| < a <= b <= |w + " " + rest|
    ensures rest[a - |w| - 1..b - |w| - 1] == (w + " " + rest)[a..b]
  {
  }

  /** A word of the rest is a word of the whole. */
  lemma WordOfWhole(w: string, rest: string, a: nat, b: nat)
    requires WordAt(rest, a, b)
    ensures WordAt(w + " " + rest, a + |w| + 1, b + |w| + 1)
  {
    var all, n := w + " " + rest, |w| + 1;
    Parts(w, rest);
    forall k | a + n <= k < b + n ensures !Space(all[k]) { assert all[k] == rest[k - n]; }
    if a > 0 { assert all[a + n - 1] == rest[a - 1]; }
    if b < |rest| { assert all[b + n] == rest[b]; }
  }

  /** A word that begins after the first one is a word of the rest. */
  lemma WordOfRest(w: string, rest: string, a: nat, b: nat)
    requires WordAt(w + " " + rest, a, b) && |w| < a
    ensures WordAt(rest, a - |w| - 1, b - |w| - 1)
  {
    var all, n := w + " " + rest, |w| + 1;
    Parts(w, rest);
    forall k | a - n <= k < b - n ensures !Space(rest[k]) { assert all[k + n] == rest[k]; }
    if a > n { assert all[a - 1] == rest[a - n - 1]; }
    if b < |all| { assert all[b] == rest[b - n]; }
  }

  // ----- Handlers -----

  /** What a handler answers: an error page, a redirect with an error, a redirect to the identity provider, a redirect
      with a code, an OAuth error, or tokens. */
  datatype Reply =
    | BadRequest
    | RedirectError(uri: string, state: string, code: string)
    | ToProvider(key: string, nonce: string)
    | RedirectCode(uri: string, state: string, code: string)
    | OAuthError(status: int, code: string)
    | Tokens(tokens: Issued)

  /** The steps that others take while handler `h` waits. */
  predicate Foreign(t: Step, h: nat) {
    match t
    case Tick(_) => true
    case Sweep(_) => true
    case Restart => false
    case Authorize(_, _, _, _) => true
    case Exchange(_, _) => true
    case _ => t.h != h
  }

  /** A step of handler `g` or of nobody. */
  ghost predicate OnlyBy(s: State, s': State, g: nat) {
    s.now <= s'.now && forall h | h != g ::
      (h in s'.handlers <==> h in s.handlers) && (h in s.handlers ==> s'.handlers[h] == s.handlers[h])
  }

  lemma PutSame(cfg: Config, s: State, g: nat, job: Job, n: nat, access: Access, token: string, o: Outcome)
    ensures var s' := DoSaveRefresh(cfg, s, g, job, n, access, token, o); s'.handlers - {g} == s.handlers - {g}
  {
    var s1 := PutRefresh(cfg, s, job, n, token);
    Replaced(s.handlers, s.handlers - {g}, g);
    if o == Ok && job.flow.ForCode? {
      var w := SavingCode(job.flow.auth, TokensOf(cfg, job, access, token), job.login);
      Replaced(s.handlers, s.handlers[g := w], g);
    } else if o == Ok {
    } else if o == Lost {
    } else {
    }
  }

  lemma OnlyOne(s: State, s': State, g: nat)
    requires s'.handlers - {g} == s.handlers - {g} && s.now <= s'.now
    ensures OnlyBy(s, s', g)
  {
    forall h | h != g
      ensures (h in s'.handlers <==> h in s.handlers) && (h in s.handlers ==> s'.handlers[h] == s.handlers[h])
    {
      assert h in s'.handlers - {g} <==> h in s.handlers - {g};
      if h in s.handlers { assert (s'.handlers - {g})[h] == (s.handlers - {g})[h]; }
    }
  }

  lemma SaveRefreshOnly(cfg: Config, s: State, g: nat, job: Job, n: nat, access: Access, token: string, o: Outcome)
    ensures OnlyBy(s, DoSaveRefresh(cfg, s, g, job, n, access, token, o), g)
  {
    PutSame(cfg, s, g, job, n, access, token, o);
    OnlyOne(s, DoSaveRefresh(cfg, s, g, job, n, access, token, o), g);
  }

  lemma RefreshOnly(cfg: Config, s: State, g: nat, f: Form, o: Outcome)
    requires g !in s.handlers
    ensures OnlyBy(s, DoRefresh(cfg, s, g, f, o), g)
  {
    RefreshIs(cfg, s, g, f, o);
    OnlyOne(s, DoRefresh(cfg, s, g, f, o), g);
  }

  lemma HandlersOnly(cfg: Config, s: State, t: Step)
    requires CanStep(s, t)
    requires (t.Authenticate? || t.Upsert? || t.Wait? || t.Mint? || t.SaveRefresh? || t.SaveCode? || t.Die?)
    ensures OnlyBy(s, DoStep(cfg, s, t), t.h)
  {
    match t
    case Authenticate(h, a) => AuthenticateOnly(cfg, s, h, s.handlers[h].auth, s.handlers[h].src, a);
    case Upsert(h, stamp, o) => UpsertOnly(s, h, s.handlers[h].job, stamp, o);
    case Wait(h, ok) => if ok { GoOnly(s, s, h, Minting(s.handlers[h].job, s.handlers[h].n)); } else { EndOnly(s, h); }
    case Mint(h, text) => MintOnly(cfg, s, h, s.handlers[h].job, s.handlers[h].n, text);
    case SaveRefresh(h, token, o) =>
      SaveRefreshOnly(cfg, s, h, s.handlers[h].job, s.handlers[h].n, s.handlers[h].access, token, o);
    case SaveCode(h, code, o) =>
      SaveCodeOnly(s, h, s.handlers[h].auth, s.handlers[h].tokens, s.handlers[h].login, code, o);
    case Die(h) => EndOnly(s, h);
  }

  lemma MintOnly(cfg: Config, s: State, h: nat, job: Job, n: nat, text: Option<string>)
    ensures OnlyBy(s, DoMint(cfg, s, h, job, n, text), h)
  {
  }

  lemma AuthenticateOnly(cfg: Config, s: State, h: nat, ar: AuthRequest, src: nat, a: Option<Identity>)
    ensures OnlyBy(s, DoAuthenticate(cfg, s, h, ar, src, a), h)
  {
    if a.None? || !Vetted(cfg, a.value) {
      EndOnly(s, h);
    } else {
      GoOnly(s, s.(log := NoteLogin(s.log, h, src, a.value, s.now)), h,
             Upserting(Job(ForCode(ar), a.value, ar.client, ar.nonce, |s.log.logins|)));
    }
  }

  lemma EndOnly(s: State, h: nat)
    ensures OnlyBy(s, End(s, h), h)
  {
  }

  lemma GoOnly(s: State, s': State, h: nat, w: Handler)
    requires s'.handlers == s.handlers && s.now == s'.now
    ensures OnlyBy(s, Go(s', h, w), h)
  {
  }

  lemma UpsertOnly(s: State, h: nat, job: Job, stamp: int, o: Outcome)
    ensures OnlyBy(s, DoUpsert(s, h, job, stamp, o), h)
  {
  }

  lemma SaveCodeOnly(s: State, h: nat, ar: AuthRequest, tokens: Issued, l: nat, code: string, o: Outcome)
    ensures OnlyBy(s, DoSaveCode(s, h, ar, tokens, l, code, o), h)
  {
  }

  lemma NobodyOnly(cfg: Config, s: State, t: Step, h: nat)
    requires CanStep(s, t) && (t.Tick? || t.Sweep? || t.Authorize? || t.Exchange?)
    ensures DoStep(cfg, s, t).handlers == s.handlers && s.now <= DoStep(cfg, s, t).now
  {
    match t
    case Exchange(f, o) =>
    case Authorize(q, key, nonce, o) => AuthorizeOnly(cfg, s, q, key, nonce, o);
    case _ =>
  }

  lemma AuthorizeOnly(cfg: Config, s: State, q: Query, key: string, nonce: string, o: Outcome)
    ensures DoAuthorize(cfg, s, q, key, nonce, o).handlers == s.handlers
    ensures DoAuthorize(cfg, s, q, key, nonce, o).now == s.now
  {
  }

  lemma HandlerUntouched(cfg: Config, s: State, t: Step, h: nat)
    requires CanStep(s, t) && Foreign(t, h)
    ensures var s' := DoStep(cfg, s, t);
      && (h in s'.handlers <==> h in s.handlers) && (h in s.handlers ==> s'.handlers[h] == s.handlers[h])
      && s.now <= s'.now
  {
    if t.Tick? || t.Sweep? || t.Authorize? || t.Exchange? {
      NobodyOnly(cfg, s, t, h);
    } else if t.Callback? {
        assert OnlyBy(s, DoStep(cfg, s, t), t.h);
    } else if t.Refresh? {
      RefreshOnly(cfg, s, t.h, t.form, t.outcome);
    } else {
      HandlersOnly(cfg, s, t);
    }
  }

  /** There is always another random token. */
  lemma FreshExists(used: set<string>)
    ensures exists t: string :: t !in used
  {
    var t := LongerThanAll(used);
    assert t !in used;
  }

  lemma {:induction false} LongerThanAll(used: set<string>) returns (t: string)
    ensures forall u | u in used :: |u| < |t|
  {
    if used == {} {
      t := "";
    } else {
      var u :| u in used;
      var v := LongerThanAll(used - {u});
      t := v + u + "x";
      forall x | x in used ensures |x| < |t| { if x != u { assert x in used - {u}; } }
    }
  }

  class Server {
    const cfg: Config
    var s: State

    // the run so far
    ghost var steps: seq<Step>

    ghost predicate Valid()
      reads this
    {
      Reached(cfg, steps, s)
    }

    constructor (cfg: Config)
      ensures Valid() && s == START && this.cfg == cfg
    {
      this.cfg := cfg;
      s, steps := START, [];
    }

    method Take(t: Step)
      requires Valid() && CanStep(s, t)
      modifies this
      ensures Valid() && s == DoStep(cfg, old(s), t) && steps == old(steps) + [t]
    {
      RunExtends(cfg, START, steps, t);
      s := DoStep(cfg, s, t);
      steps := steps + [t];
    }

    /** Any number of steps of everybody else, who do not present the secrets in `spared`. */
    method Others(h: nat, spared: set<string>)
      requires Valid() && forall k | k in spared :: k in s.used
      modifies this
      ensures Valid() && old(steps) <= steps && old(s.now) <= s.now && Same(h, old(s))
      ensures forall k | k in spared :: Kept(old(s), s, k)
    {
      var n :| 0 <= n;
      for i := 0 to n
        invariant Valid() && old(steps) <= steps && old(s.now) <= s.now && Same(h, old(s))
        invariant forall k | k in spared :: Kept(old(s), s, k)
      {
        var t: Step := *;
        if CanStep(s, t) && Foreign(t, h) && forall k | k in spared :: Spares(t, k) {
          HandlerUntouched(cfg, s, t, h);
          forall k | k in spared ensures Kept(old(s), DoStep(cfg, s, t), k) { KeptNext(cfg, steps, old(s), s, t, k); }
          Take(t);
        }
      }
    }

    /** Time passes up to `until`, with everybody else acting. */
    method Pass(h: nat, until: int, spared: set<string>)
      requires Valid() && s.now <= until && forall k | k in spared :: k in s.used
      modifies this
      ensures Valid() && old(steps) <= steps && s.now == until && Same(h, old(s))
      ensures forall k | k in spared :: Kept(old(s), s, k)
    {
      var n :| 0 <= n;
      for i := 0 to n
        invariant Valid() && old(steps) <= steps && old(s.now) <= s.now <= until && Same(h, old(s))
        invariant forall k | k in spared :: Kept(old(s), s, k)
      {
        var t: Step := *;
        if CanStep(s, t) && Foreign(t, h) && (t.Tick? ==> t.until <= until) && forall k | k in spared :: Spares(t, k) {
          HandlerUntouched(cfg, s, t, h);
          TimeKept(cfg, s, t, until);
          forall k | k in spared ensures Kept(old(s), DoStep(cfg, s, t), k) { KeptNext(cfg, steps, old(s), s, t, k); }
          Take(t);
        }
      }
      forall k | k in spared ensures Kept(old(s), DoStep(cfg, s, Tick(until)), k) {
        KeptNext(cfg, steps, old(s), s, Tick(until), k);
      }
      Take(Tick(until));
    }

    predicate Same(h: nat, was: State)
      reads this
    {
      (h in s.handlers <==> h in was.handlers) && (h in was.handlers ==> s.handlers[h] == was.handlers[h])
    }

    method RandToken() returns (t: string)
      requires Valid()
      ensures t !in s.used
    {
      FreshExists(s.used);
      t :| t !in s.used;
    }

    /** How an access of the handler ends; well, when it is lucky. */
    method Outcomes(lucky: bool) returns (o: Outcome)
      ensures lucky ==> o == Ok
    {
      o := *;
      if lucky { o := Ok; }
    }

    /** Authorize. It never redirects to a URI that is not registered, and sends to the identity provider exactly when
        the request is acceptable and could be stored. What it stores is what the query says, and the nonce that it
        sends along. */
    method Authorize(q: Query, lucky: bool) returns (r: Reply)
      requires Valid()
      modifies this
      ensures Valid() && old(steps) <= steps && s.now == old(s.now) && s.handlers == old(s.handlers)
      ensures r == BadRequest <==> q.client != cfg.client || q.redirect !in cfg.redirects
      ensures !r.BadRequest? && !r.ToProvider? ==>
        r == RedirectError(q.redirect, q.state,
                           if q.responseType != "code" then "unsupported_response_type"
                           else if !ScopeHas(q.scope, "openid") then "invalid_scope"
                           else if q.challenge == "" || q.challengeMethod != "S256" then "invalid_request"
                           else "server_error")
      ensures lucky && r.RedirectError? ==> r.code != "server_error"
      ensures r.ToProvider? ==>
        && q.responseType == "code" && ScopeHas(q.scope, "openid")
        && q.challenge != "" && q.challengeMethod == "S256"
      ensures r.ToProvider? ==>
        && r.key != r.nonce && r.key !in old(s).used && r.nonce !in old(s).used
        && r.key in s.auth && s.auth[r.key].exp == s.now + 600 * SECOND
        && var ar := s.auth[r.key].val;
        && ar.client == q.client && ar.redirect == q.redirect && ar.state == q.state && ar.nonce == q.nonce
        && ar.challenge == q.challenge && ar.challengeMethod == "S256" && ar.scope == q.scope && ar.idpNonce == r.nonce
    {
      var registered := RedirectAllowed(cfg, q.redirect);
      if q.client != cfg.client || !registered { return BadRequest; }
      if q.responseType != "code" { return RedirectError(q.redirect, q.state, "unsupported_response_type"); }
      var openid := HasScope(q.scope, "openid");
      if !openid { return RedirectError(q.redirect, q.state, "invalid_scope"); }
      if q.challenge == "" || q.challengeMethod != "S256" {
        return RedirectError(q.redirect, q.state, "invalid_request");
      }
      var key := RandToken();
      FreshExists(s.used + {key});
      var nonce :| nonce !in s.used + {key};
      var o := Outcomes(lucky);
      AuthorizeOnly(cfg, s, q, key, nonce, o);
      Take(Step.Authorize(q, key, nonce, o));
      if o != Ok { return RedirectError(q.redirect, q.state, "server_error"); }
      return ToProvider(key, nonce);
    }

    /** handleAuthCode: the code is spent whatever the answer, and tokens are answered exactly when the grant allows. */
    method HandleAuthCode(f: Form, lucky: bool) returns (r: Reply)
      requires Valid()
      modifies this
      ensures Valid() && old(steps) <= steps && s.now == old(s.now) && s.handlers == old(s.handlers)
      ensures forall k | Holding(old(s), k) :: Holding(s, k)
      ensures r.Tokens? || r in {OAuthError(400, "invalid_grant"), OAuthError(401, "invalid_client")}
      ensures r.Tokens? ==> f.code !in s.codes && Granted(cfg, old(s), f) && r.tokens == old(s).codes[f.code].val.tokens
      ensures r.Tokens? ==>
        s.log.responses == old(s).log.responses + [Response(ByCode(f.code), f, r.tokens, CodeLogin(old(s).log, f.code),
                                                            s.now)]
      ensures r.OAuthError? ==> s.log.responses == old(s).log.responses
      ensures lucky ==> f.code !in s.codes && (r.Tokens? <==> Granted(cfg, old(s), f))
      ensures lucky ==>
        (r == OAuthError(401, "invalid_client") <==>
         && f.code in old(s).codes && s.now <= old(s).codes[f.code].exp
         && ClientOf(f) == old(s).codes[f.code].val.client && f.redirect == old(s).codes[f.code].val.redirect
         && cfg.secret != "" && f.secret != cfg.secret
         && !(f.secret == "" && f.basic.Some? && f.basic.value.1 == cfg.secret))
    {
      var o := Outcomes(lucky);
      var g := Live(s.codes, f.code, s.now);
      ExchangeIs(cfg, s, f, o);
      forall k | Holding(s, k) ensures Holding(DoExchange(cfg, s, f, o), k) { ExchangeHolds(cfg, s, f, o, k); }
      Take(Exchange(f, o));
      if o != Ok || g.None? { return OAuthError(400, "invalid_grant"); }
      if ClientOf(f) != g.value.client || f.redirect != g.value.redirect { return OAuthError(400, "invalid_grant"); }
      if cfg.secret != "" && SecretOf(f) != cfg.secret { return OAuthError(401, "invalid_client"); }
      if cfg.hash(f.verifier) != g.value.challenge { return OAuthError(400, "invalid_grant"); }
      return Tokens(g.value.tokens);
    }

    // ----- issueTokens -----

    predicate Running(h: nat, w: Handler)
      reads this
    {
      h in s.handlers && s.handlers[h] == w
    }

    method Upsert(h: nat, job: Job, lucky: bool) returns (err: bool, n: nat)
      requires Valid() && Running(h, Upserting(job))
      modifies this
      ensures Valid() && old(steps) <= steps && old(s.now) <= s.now
      ensures if err then h !in s.handlers else Running(h, Waiting(job, n))
      ensures lucky ==> !err
    {
      Others(h, {});
      var o := Outcomes(lucky);
      var stamp :| stamp <= s.now;
      n := |s.log.renewals|;
      UpsertIs(s, h, job, stamp, o);
      Take(Step.Upsert(h, stamp, o));
      err := o != Ok;
    }

    method WaitBinded(h: nat, job: Job, n: nat, lucky: bool) returns (err: bool)
      requires Valid() && Running(h, Waiting(job, n))
      modifies this
      ensures Valid() && old(steps) <= steps && old(s.now) <= s.now
      ensures if err then h !in s.handlers else Running(h, Minting(job, n))
      ensures lucky ==> !err
    {
      Others(h, {});
      var ok: bool := *;
      ok := ok || lucky;
      Take(Wait(h, ok));
      err := !ok;
    }

    /** Mint the ServiceAccount token; signing the id_token may fail as well. */
    method Mint(h: nat, job: Job, n: nat, lucky: bool) returns (access: Option<Access>)
      requires Valid() && Running(h, Minting(job, n))
      modifies this
      ensures Valid() && old(steps) <= steps && old(s.now) <= s.now
      ensures if access.None? then h !in s.handlers else Running(h, SavingRefresh(job, n, access.value))
      ensures access.Some? ==> access.value.account == SanitizeName(cfg.lower, job.id.email)
      ensures lucky ==> access.Some?
    {
      Others(h, {});
      var text: Option<string> := *;
      if lucky && text.None? { text := Some(""); }
      MintIs(cfg, s, h, job, n, text);
      Take(Step.Mint(h, text));
      access := if text.None? then None else Some(Access(SanitizeName(cfg.lower, job.id.email), text.value));
    }

    /** Store the next refresh token; for a refresh grant this is also the answer. */
    method SaveRefresh(h: nat, job: Job, n: nat, access: Access, lucky: bool) returns (t: Option<Issued>)
      requires Valid() && Running(h, SavingRefresh(job, n, access))
      modifies this
      ensures Valid() && old(steps) <= steps && old(s.now) <= s.now
      ensures t.None? ==> h !in s.handlers
      ensures t.Some? ==> Settled(cfg, s, h, job, t.value)
      ensures lucky ==> t.Some?
    {
      Others(h, {});
      var token := RandToken();
      var o := Outcomes(lucky);
      MintedForUser(cfg, steps, s, h);
      SaveIs(cfg, s, h, job, n, access, token, o);
      Take(Step.SaveRefresh(h, token, o));
      t := if o == Ok then Some(TokensOf(cfg, job, access, token)) else None;
    }

    /** The two calls of the binder. */
    method Bind(h: nat, job: Job, lucky: bool) returns (err: bool, n: nat)
      requires Valid() && Running(h, Upserting(job))
      modifies this
      ensures Valid() && old(steps) <= steps && old(s.now) <= s.now
      ensures if err then h !in s.handlers else Running(h, Minting(job, n))
      ensures lucky ==> !err
    {
      err, n := Upsert(h, job, lucky);
      if !err { err := WaitBinded(h, job, n, lucky); }
    }

    /** issueTokens: the tokens speak of the identity it was called with, and the refresh token has been stored for it
        and will last for the configured lifetime from now. */
    method IssueTokens(h: nat, job: Job, lucky: bool) returns (t: Option<Issued>)
      requires Valid() && Running(h, Upserting(job))
      modifies this
      ensures Valid() && old(steps) <= steps && old(s.now) <= s.now
      ensures t.None? ==> h !in s.handlers
      ensures t.Some? ==> Settled(cfg, s, h, job, t.value)
      ensures lucky ==> t.Some?
    {
      var err, n := Bind(h, job, lucky);
      if err { return None; }
      var access := Mint(h, job, n, lucky);
      if access.None? { return None; }
      t := SaveRefresh(h, job, n, access.value, lucky);
    }

    // ----- The handlers that issue tokens -----

    /** The first half of Callback: up to the policy check. */
    method Login(h: nat, key: string, error: string, answer: Option<Identity>, lucky: bool)
      returns (r: Option<Reply>, ar: AuthRequest, job: Job, ghost asked: Option<string>)
      requires Valid() && h !in s.handlers
      modifies this
      ensures Valid() && old(steps) <= steps && old(s.now) <= s.now
      ensures r.Some? ==>
        h !in s.handlers && (r.value.BadRequest? || (r.value.RedirectError? && r.value.uri in cfg.redirects))
      ensures r.Some? && r.value.RedirectError? ==>
        && key in old(s).auth
        && r.value == RedirectError(old(s).auth[key].val.redirect, old(s).auth[key].val.state,
                                    if error != "" then error else "access_denied")
      ensures lucky ==> (r == Some(BadRequest) <==> Live(old(s).auth, key, old(s).now).None?)
      ensures asked.Some? ==> key in old(s).auth && asked == Some(old(s).auth[key].val.idpNonce)
      ensures r.None? ==> asked.Some?
      ensures r.None? ==>
        Admits(cfg, old(s), key, error, answer) && ar == old(s).auth[key].val && ar.redirect in cfg.redirects
      ensures r.None? ==> IsJob(job, ar, answer.value) && Running(h, Upserting(job))
      ensures lucky ==> (r.None? <==> Admits(cfg, old(s), key, error, answer))
    {
      var o := Outcomes(lucky);
      var found := Live(s.auth, key, s.now);
      if found.Some? {
        ar := found.value;
        RegisteredRedirect(cfg, steps, s, key);
      } else {
        ar := AuthRequest("", "", "", "", "", "", "", "");
      }
      job := Job(ForCode(ar), Identity("", "", false, "", "", []), "", "", 0);
      CallbackIs(s, h, key, error, o);
      Take(Step.Callback(h, key, error, o));
      if o != Ok || found.None? { return Some(BadRequest), ar, job, None; }
      if error != "" { return Some(RedirectError(ar.redirect, ar.state, error)), ar, job, None; }
      r, job := Authenticated(h, ar, s.handlers[h].src, ar.idpNonce, answer);
      asked := Some(ar.idpNonce);
    }

    /** The identity provider's answer when asked to confirm a nonce, and the policy. */
    method Authenticated(h: nat, ar: AuthRequest, src: nat, ghost nonce: string, answer: Option<Identity>)
      returns (r: Option<Reply>, job: Job)
      requires Valid() && Running(h, Authenticating(ar, src))
      modifies this
      ensures Valid() && old(steps) <= steps && old(s.now) <= s.now
      ensures r.None? <==> answer.Some? && Vetted(cfg, answer.value)
      ensures r.Some? ==> h !in s.handlers && r.value == RedirectError(ar.redirect, ar.state, "access_denied")
      ensures r.None? ==> IsJob(job, ar, answer.value) && Running(h, Upserting(job))
    {
      Others(h, {});
      var id := if answer.Some? then answer.value else Identity("", "", false, "", "", []);
      job := Job(ForCode(ar), id, ar.client, ar.nonce, |s.log.logins|);
      AuthenticateIs(cfg, s, h, ar, src, answer);
      Take(Authenticate(h, answer));
      var allowed := DomainAllowed(cfg, id.domain);
      r := if answer.None? || !id.verified || !allowed then Some(RedirectError(ar.redirect, ar.state, "access_denied"))
          else None;
    }

    /** Callback, for any answer of the identity provider, which it asks to confirm the nonce of the request. Whatever
        happens, it redirects to registered URIs only, with the request's state; a code that it hands out belongs to the
        request it was called for and the identity that was vetted. If all calls go through, it hands one out exactly
        when the request is live and the identity vetted. */
    method Callback(h: nat, key: string, error: string, answer: Option<Identity>, lucky: bool)
      returns (r: Reply, ghost asked: Option<string>)
      requires Valid() && h !in s.handlers
      modifies this
      ensures Valid() && old(steps) <= steps && old(s.now) <= s.now && h !in s.handlers
      ensures r.BadRequest? || r.RedirectError? || r.RedirectCode?
      ensures r.RedirectError? || r.RedirectCode? ==>
        && r.uri in cfg.redirects && key in old(s).auth
        && r.uri == old(s).auth[key].val.redirect && r.state == old(s).auth[key].val.state
      ensures asked.Some? ==> key in old(s).auth && asked == Some(old(s).auth[key].val.idpNonce)
      ensures r.RedirectCode? ==> asked.Some?
      ensures lucky ==>
        (r == BadRequest <==> key !in old(s).auth || old(s).auth[key].exp < old(s).now)
      ensures lucky && r.RedirectError? ==> r.code == (if error != "" then error else "access_denied")
      ensures r.RedirectCode? ==>
        && Admits(cfg, old(s), key, error, answer)
        && Hands(cfg, s, r.code, old(s).auth[key].val, answer.value)
      ensures r.RedirectCode? ==> Opens(s, s.codes[r.code].val.tokens.refresh, CodeLogin(s.log, r.code))
      ensures lucky ==> (r.RedirectCode? <==> Admits(cfg, old(s), key, error, answer))
    {
      var refusal, ar, job;
      refusal, ar, job, asked := Login(h, key, error, answer, lucky);
      if refusal.Some? { return refusal.value, asked; }
      var t := IssueTokens(h, job, lucky);
      if t.None? { return RedirectError(ar.redirect, ar.state, "server_error"), asked; }
      TokenEntry(cfg, steps, s, t.value.refresh);
      SavedIsUsed(cfg, steps, s, t.value.refresh);
      r := IssueCode(h, ar, t.value, job.login, lucky);
    }

    /** The second half of Callback: the code. */
    method IssueCode(h: nat, ar: AuthRequest, t: Issued, l: nat, lucky: bool) returns (r: Reply)
      requires Valid() && Running(h, SavingCode(ar, t, l)) && t.refresh in s.used && Opens(s, t.refresh, l)
      modifies this
      ensures Valid() && old(steps) <= steps && old(s.now) <= s.now && h !in s.handlers
      ensures r.RedirectError? || r.RedirectCode?
      ensures r.uri == ar.redirect && r.state == ar.state
      ensures r.RedirectCode? ==> r.code in s.codes && s.codes[r.code] == Store.Entry(GrantFor(ar, t), s.now + CODE_TTL)
      ensures r.RedirectCode? ==> CodeLogin(s.log, r.code) == l && Opens(s, t.refresh, l)
      ensures lucky ==> r.RedirectCode?
    {
      Others(h, {t.refresh});
      var code := RandToken();
      var o := Outcomes(lucky);
      CodeIs(s, h, ar, t, l, code, o);
      StepHolding(cfg, steps, s, SaveCode(h, code, o), t.refresh);
      Take(SaveCode(h, code, o));
      r := if o == Ok then RedirectCode(ar.redirect, ar.state, code)
          else RedirectError(ar.redirect, ar.state, "server_error");
    }

    /** The whole code grant of a client, with pauses between its requests: all accesses of its handlers going
        through, and everybody else doing what they like except losing the store or presenting its secrets, it ends in
        tokens, of the identity that logged in, if and only if the request was acceptable, the login came back within
        the lifetime of the request and the identity was vetted, and the client presents the code within its lifetime
        with its own redirect URI, credentials and a verifier of its challenge. The login is sent back to the client's
        URI with the client's state; the provider is asked to confirm the nonce that it was sent. The refresh token
        opens a session. */
    method CodeFlow(h: nat, q: Query, login: nat, answer: Option<Identity>, pause: nat, f: Form)
      returns (r: Reply, back: Reply, ghost sent: Option<string>, ghost asked: Option<string>)
      requires Valid() && h !in s.handlers
      modifies this
      ensures Valid() && old(steps) <= steps && h !in s.handlers
      ensures back.RedirectCode? <==>
        && q.client == cfg.client && q.redirect in cfg.redirects && q.responseType == "code"
        && ScopeHas(q.scope, "openid") && q.challenge != "" && q.challengeMethod == "S256"
        && login <= 600 * SECOND && answer.Some? && answer.value.verified
        && (exists i | 0 <= i < |cfg.domains| :: cfg.fold(cfg.domains[i], answer.value.domain))
      ensures back.RedirectCode? ==> back.uri == q.redirect && back.state == q.state
      ensures back.RedirectCode? ==> sent.Some? && asked == sent
      ensures asked.Some? ==> asked == sent
      ensures r.Tokens? <==>
        && back.RedirectCode? && pause <= 120 * SECOND && f.redirect == q.redirect
        && (|| (f.client != "" && f.client == cfg.client)
            || (f.client == "" && f.basic.Some? && f.basic.value.0 == cfg.client)
            || (f.client == "" && f.basic.None? && cfg.client == ""))
        && (|| cfg.secret == "" || f.secret == cfg.secret
            || (f.secret == "" && f.basic.Some? && f.basic.value.1 == cfg.secret))
        && cfg.hash(f.verifier) == q.challenge
      ensures r.Tokens? ==> Speak(cfg, r.tokens, answer.value, cfg.client, q.nonce) && Holding(s, r.tokens.refresh)
    {
      sent, asked := None, None;
      r := Authorize(q, true);
      back := r;
      if !r.ToProvider? { return; }
      sent := Some(r.nonce);
      ghost var ar := s.auth[r.key].val;
      back, asked := LoginAfter(h, r.key, ar, login, answer);
      r := back;
      if !r.RedirectCode? { return; }
      r := ExchangeAfter(h, r.code, ar, answer.value, pause, f);
    }

    /** The login comes back after a pause. */
    method LoginAfter(h: nat, key: string, ghost ar: AuthRequest, pause: nat, answer: Option<Identity>)
      returns (r: Reply, ghost asked: Option<string>)
      requires Valid() && h !in s.handlers
      requires key in s.auth && s.auth[key] == Store.Entry(ar, s.now + 600 * SECOND)
      modifies this
      ensures Valid() && old(steps) <= steps && h !in s.handlers
      ensures r.BadRequest? || r.RedirectError? || r.RedirectCode?
      ensures r.RedirectCode? <==> pause <= 600 * SECOND && answer.Some? && Vetted(cfg, answer.value)
      ensures r.RedirectCode? ==> r.uri == ar.redirect && r.state == ar.state && asked.Some?
      ensures asked.Some? ==> asked == Some(ar.idpNonce)
      ensures r.RedirectCode? ==>
        Hands(cfg, s, r.code, ar, answer.value) && Holding(s, s.codes[r.code].val.tokens.refresh)
    {
      StoredIsUsed(cfg, steps, s, key);
      Pass(h, s.now + pause, {key});
      assert Live(s.auth, key, s.now).Some? <==> pause <= 600 * SECOND;
      r, asked := Callback(h, key, "", answer, true);
    }

    /** The code is presented after a pause. */
    method ExchangeAfter(h: nat, code: string, ghost ar: AuthRequest, ghost id: Identity, pause: nat, f: Form)
      returns (r: Reply)
      requires Valid() && h !in s.handlers && Hands(cfg, s, code, ar, id)
      requires Holding(s, s.codes[code].val.tokens.refresh)
      modifies this
      ensures Valid() && old(steps) <= steps && h !in s.handlers
      ensures r.Tokens? <==>
        && pause <= CODE_TTL && ClientOf(f) == ar.client && f.redirect == ar.redirect && SecretOk(cfg, f)
        && cfg.hash(f.verifier) == ar.challenge
      ensures r.Tokens? ==>
        Speak(cfg, r.tokens, id, ar.client, ar.nonce) && Holding(s, r.tokens.refresh)
    {
      ghost var grant := s.codes[code];
      var token := s.codes[code].val.tokens.refresh;
      CodeIsUsed(cfg, steps, s, code);
      SavedIsUsed(cfg, steps, s, token);
      Pass(h, s.now + pause, {code, token});
      assert Live(s.codes, code, s.now) == if pause <= CODE_TTL then Some(grant.val) else None;
      r := HandleAuthCode(f.(code := code), true);
    }

    /** handleRefresh: the token is spent, and when all goes well it is answered with the tokens of the next one, which
        lasts for the configured lifetime from now, if and only if it was live and the form shows the client's id and
        secret. */
    method HandleRefresh(h: nat, f: Form, lucky: bool) returns (r: Reply)
      requires Valid() && h !in s.handlers
      modifies this
      ensures Valid() && old(steps) <= steps && old(s.now) <= s.now && h !in s.handlers
      ensures r.OAuthError? || r.Tokens?
      ensures r.Tokens? ==> Renewed(cfg, s, f, TokenLogin(old(s).log, f.token), r.tokens)
      ensures r.Tokens? || (lucky && r == OAuthError(401, "invalid_client")) ==> Showing(old(s), f)
      ensures r.Tokens? ==>
        || cfg.secret == "" || f.secret == cfg.secret
        || (f.secret == "" && f.basic.Some? && f.basic.value.1 == cfg.secret)
      ensures r.Tokens? ==>
        var g := old(s).refresh[f.token].val; Speak(cfg, r.tokens, IdentityOf(g), g.client, "")
      ensures lucky && Showing(old(s), f) ==>
        (r.Tokens? <==>
         || cfg.secret == "" || f.secret == cfg.secret
         || (f.secret == "" && f.basic.Some? && f.basic.value.1 == cfg.secret))
      ensures lucky && r.OAuthError? ==> s == old(s).(refresh := old(s).refresh - {f.token})
      ensures lucky && r.OAuthError? ==>
        r == if Showing(old(s), f) then OAuthError(401, "invalid_client") else OAuthError(400, "invalid_grant")
    {
      var refusal, job := ClaimRefresh(h, f, lucky);
      if refusal.Some? { return refusal.value; }
      var t := IssueTokens(h, job, lucky);
      if t.None? { return OAuthError(500, "server_error"); }
      SettledRenews(cfg, s, h, job, t.value);
      return Tokens(t.value);
    }

    /** The first half of handleRefresh: take the token, check the client, and read the identity back. */
    method ClaimRefresh(h: nat, f: Form, lucky: bool) returns (r: Option<Reply>, job: Job)
      requires Valid() && h !in s.handlers
      modifies this
      ensures Valid() && old(steps) <= steps && s.now == old(s.now)
      ensures r.Some? ==> r.value.OAuthError? && h !in s.handlers
      ensures lucky && r.Some? ==>
        r.value == if Showing(old(s), f) then OAuthError(401, "invalid_client") else OAuthError(400, "invalid_grant")
      ensures r.None? ==>
        && Renewable(cfg, old(s), f)
        && job == Job(ForRefresh(f), IdentityOf(old(s).refresh[f.token].val), ClientOf(f), "",
                      TokenLogin(old(s).log, f.token))
      ensures r.None? ==> Running(h, Upserting(job))
      ensures lucky ==> (r.None? <==> Renewable(cfg, old(s), f))
      ensures lucky && r.Some? ==> s == old(s).(refresh := old(s).refresh - {f.token})
    {
      var o := Outcomes(lucky);
      var g := Live(s.refresh, f.token, s.now);
      var l := TokenLogin(s.log, f.token);
      job := Job(ForRefresh(f), Identity("", "", false, "", "", []), "", "", l);
      RefreshIs(cfg, s, h, f, o);
      Take(Refresh(h, f, o));
      ghost var granted := o == Ok && Renewable(cfg, old(s), f);
      assert granted ==> Running(h, Upserting(Job(ForRefresh(f), IdentityOf(g.value), g.value.client, "", l)));
      assert !granted ==> h !in s.handlers;
      if o != Ok || g.None? { return Some(OAuthError(400, "invalid_grant")), job; }
      if ClientOf(f) != g.value.client { return Some(OAuthError(400, "invalid_grant")), job; }
      if cfg.secret != "" && SecretOf(f) != cfg.secret { return Some(OAuthError(401, "invalid_client")), job; }
      var groups := FromGroupRefs(g.value.groups);
      var id := Identity(g.value.subject, g.value.email, g.value.verified, g.value.domain, g.value.name, groups);
      assert Renewable(cfg, old(s), f) && id == IdentityOf(g.value);
      return None, Job(ForRefresh(f), id, g.value.client, "", l);
    }

    // ----- A session -----

    /** A pause since the token was saved, then a refresh. */
    method NextRefresh(h: nat, token: string, gap: nat) returns (alive: bool, next: string)
      requires Valid() && h !in s.handlers && token in s.refresh && token in s.log.savedOf
      requires s.now <= s.log.savedOf[token].at + gap
      modifies this
      ensures Valid() && old(steps) <= steps && h !in s.handlers
      ensures alive <==> gap <= cfg.refreshLifetime
      ensures if alive then IsLatest(cfg, s, old(s).log.savedOf[token].login, next)
          else Dead(s, old(s).log.savedOf[token].login)
    {
      var l, due := s.log.savedOf[token].login, s.log.savedOf[token].at + gap;
      TokenEntry(cfg, steps, s, token);
      SavedIsUsed(cfg, steps, s, token);
      Pass(h, due, {token});
      if token in s.refresh { TokenEntry(cfg, steps, s, token); OnlyToken(cfg, steps, s, l, token); }
      var f := Form(cfg.client, cfg.secret, None, "", "", "", token);
      ghost var before := s;
      var r := HandleRefresh(h, f, true);
      alive := r.Tokens?;
      next := if alive then r.tokens.refresh else token;
      if alive { LatestSaved(cfg, steps, s, l, next); } else { RefusedIsDead(before, s, l, token); }
    }

    /** A client that refreshes after each of the gaps, counted from the saving of a token to the claim of it, all
        accesses of its handlers going through, and everybody else doing what they like except losing the store or
        presenting its tokens. The session is alive at the end, with a token that lasts for another lifetime, if and
        only if no gap was longer than the lifetime; there is no bound on the number of gaps or their sum. After one
        longer gap its lineage is dead. */
    method Session(h: nat, first: string, gaps: seq<nat>) returns (alive: bool, token: string)
      requires Valid() && h !in s.handlers && first in s.refresh && first in s.log.savedOf
      requires gaps != [] ==> s.now <= s.log.savedOf[first].at + gaps[0]
      modifies this
      ensures Valid() && old(steps) <= steps
      ensures alive <==> forall i | 0 <= i < |gaps| :: gaps[i] <= cfg.refreshLifetime
      ensures gaps != [] ==>
        var l := old(s).log.savedOf[first].login; if alive then IsLatest(cfg, s, l, token) else Dead(s, l)
    {
      alive, token := true, first;
      ghost var l := s.log.savedOf[first].login;
      for i := 0 to |gaps|
        invariant Valid() && old(steps) <= steps && h !in s.handlers
        invariant alive <==> forall j | 0 <= j < i :: gaps[j] <= cfg.refreshLifetime
        invariant i == 0 ==> s == old(s) && token == first
        invariant i > 0 ==> if alive then IsLatest(cfg, s, l, token) else Dead(s, l)
      {
        if alive { alive, token := NextRefresh(h, token, gaps[i]); }
      }
    }
  }

  /** Token `t` of login `l` has just been saved. */
  predicate IsLatest(cfg: Config, s: State, l: nat, t: string) {
    && TokenOf(s, t, l) && s.refresh[t].exp == s.now + cfg.refreshLifetime && s.log.savedOf[t].at == s.now
  }

  /** The refresh token `t` was saved for login `l`, and has not been lost since. */
  predicate Opens(s: State, t: string, l: nat) {
    Holding(s, t) && s.log.savedOf[t].login == l
  }

  lemma TimeKept(cfg: Config, s: State, t: Step, until: int)
    requires CanStep(s, t) && s.now <= until && (t.Tick? ==> t.until <= until)
    ensures DoStep(cfg, s, t).now <= until
  {
    match t
    case SaveRefresh(h, token, o) =>
      SaveRefreshOnly(cfg, s, h, s.handlers[h].job, s.handlers[h].n, s.handlers[h].access, token, o);
    case _ =>
  }

  lemma ExchangeHolds(cfg: Config, s: State, f: Form, o: Outcome, k: string)
    requires Holding(s, k)
    ensures Holding(DoExchange(cfg, s, f, o), k)
  {
    var s', l := DoExchange(cfg, s, f, o), s.log.savedOf[k].login;
    if k !in s.refresh {
      ExchangeNothing(cfg, s, f, o, l);
      StaysDead(s, s', l, |s.log.renewals|);
    }
    ExchangeKeeps(cfg, s, f, o);
  }

  lemma ExchangeKeeps(cfg: Config, s: State, f: Form, o: Outcome)
    ensures var s' := DoExchange(cfg, s, f, o); s'.refresh == s.refresh && s'.log.savedOf == s.log.savedOf
  {
    if o == Ok && Granted(cfg, s, f) {
    } else if o == Refused {
    } else {
    }
  }

  lemma StoredIsUsed(cfg: Config, steps: seq<Step>, s: State, key: string)
    requires Reached(cfg, steps, s) && key in s.auth
    ensures key in s.used
  {
    ReachedInv(cfg, steps, s);
    assert AuthOk(s, key, s.auth[key]);
  }

  lemma CodeIsUsed(cfg: Config, steps: seq<Step>, s: State, code: string)
    requires Reached(cfg, steps, s) && code in s.codes
    ensures code in s.used
  {
    ReachedInv(cfg, steps, s);
    assert CodeOk(cfg, s, code, s.codes[code]) && CodedOk(s, code, s.log.codeOf[code]);
  }

  lemma LatestSaved(cfg: Config, steps: seq<Step>, s: State, l: nat, t: string)
    requires Reached(cfg, steps, s) && TokenOf(s, t, l) && s.refresh[t].exp == s.now + cfg.refreshLifetime
    ensures IsLatest(cfg, s, l, t)
  {
    TokenEntry(cfg, steps, s, t);
  }

  lemma RefusedIsDead(s: State, s': State, l: nat, t: string)
    requires s' == s.(refresh := s.refresh - {t})
    requires if t in s.refresh then Alone(s, l, t) else Dead(s, l)
    ensures Dead(s', l)
  {
  }

  /** The refresh token is live, and the form shows the id of its client: in its body or, where that has none, by HTTP
      Basic authentication. */
  predicate Showing(s: State, f: Form) {
    && f.token in s.refresh && s.now <= s.refresh[f.token].exp
    && var client := s.refresh[f.token].val.client;
    || (f.client != "" && f.client == client)
    || (f.client == "" && f.basic.Some? && f.basic.value.0 == client)
    || (f.client == "" && f.basic.None? && client == "")
  }

  /** ... and its secret, in the same way. */
  predicate Renewable(cfg: Config, s: State, f: Form) {
    && Showing(s, f)
    && (|| cfg.secret == "" || f.secret == cfg.secret
        || (f.secret == "" && f.basic.Some? && f.basic.value.1 == cfg.secret))
  }

  /** The response of a rotation, and the next token. */
  predicate Renewed(cfg: Config, s: State, f: Form, l: nat, t: Issued) {
    && |s.log.responses| > 0 && s.log.responses[|s.log.responses| - 1] == Response(ByRefresh(f.token), f, t, l, s.now)
    && TokenOf(s, t.refresh, l) && s.refresh[t.refresh].exp == s.now + cfg.refreshLifetime
  }

  lemma RegisteredRedirect(cfg: Config, steps: seq<Step>, s: State, key: string)
    requires Reached(cfg, steps, s) && key in s.auth
    ensures s.auth[key].val.redirect in cfg.redirects
  {
    ReachedInv(cfg, steps, s);
    assert AuthOk(s, key, s.auth[key]);
    assert RequestOk(cfg, s, s.log.authorizes[s.log.authOf[key]]);
  }

  lemma MintedForUser(cfg: Config, steps: seq<Step>, s: State, h: nat)
    requires Reached(cfg, steps, s) && h in s.handlers && s.handlers[h].SavingRefresh?
    ensures s.handlers[h].access.account == SanitizeName(cfg.lower, s.handlers[h].job.id.email)
  {
    ReachedInv(cfg, steps, s);
    assert HandlerOk(cfg, s, h, s.handlers[h]);
  }

  lemma SettledRenews(cfg: Config, s: State, h: nat, job: Job, t: Issued)
    requires Settled(cfg, s, h, job, t) && job.flow.ForRefresh?
    ensures Renewed(cfg, s, job.flow.form, job.login, t) && h !in s.handlers
  {
  }

  lemma RefreshIs(cfg: Config, s: State, h: nat, f: Form, o: Outcome)
    requires h !in s.handlers
    ensures var s' := DoRefresh(cfg, s, h, f, o);
      && s'.now == s.now && s'.handlers - {h} == s.handlers - {h}
      && (if o == Ok && Renewable(cfg, s, f) then
            && h in s'.handlers
            && s'.handlers[h] == Upserting(Job(ForRefresh(f), IdentityOf(s.refresh[f.token].val),
                                               s.refresh[f.token].val.client, "", TokenLogin(s.log, f.token)))
          else h !in s'.handlers && (o != Refused ==> s' == s.(refresh := s.refresh - {f.token})))
  {
    if o == Ok && Renewable(cfg, s, f) {
    } else if o == Refused {
    }
  }

  lemma CallbackIs(s: State, h: nat, key: string, error: string, o: Outcome)
    requires h !in s.handlers
    ensures var s' := DoCallback(s, h, key, error, o);
      && s'.now == s.now
      && (if o == Ok && Live(s.auth, key, s.now).Some? && error == "" then
            h in s'.handlers && s'.handlers[h] == Authenticating(s.auth[key].val, AuthIndex(s.log, key))
          else h !in s'.handlers)
  {
  }

  lemma AuthenticateIs(cfg: Config, s: State, h: nat, ar: AuthRequest, src: nat, a: Option<Identity>)
    ensures var s' := DoAuthenticate(cfg, s, h, ar, src, a);
      && s'.now == s.now
      && (if a.Some? && Vetted(cfg, a.value) then
            h in s'.handlers && s'.handlers[h]
                == Upserting(Job(ForCode(ar), a.value, ar.client, ar.nonce, |s.log.logins|))
          else h !in s'.handlers)
  {
  }

  lemma CodeIs(s: State, h: nat, ar: AuthRequest, t: Issued, l: nat, code: string, o: Outcome)
    ensures var s' := DoSaveCode(s, h, ar, t, l, code, o);
      && s'.now == s.now && h !in s'.handlers
      && (o != Refused ==>
          code in s'.codes && s'.codes[code] == Store.Entry(GrantFor(ar, t), s.now + CODE_TTL)
              && CodeLogin(s'.log, code) == l)
      && s'.refresh == s.refresh && s'.log.savedOf == s.log.savedOf
  {
    if o != Refused {
    } else {
    }
  }

  /** What Callback stores behind a code. */
  function GrantFor(ar: AuthRequest, t: Issued): CodeGrant {
    CodeGrant(ar.client, ar.redirect, ar.challenge, ar.nonce, t.id.email, t)
  }

  /** The request behind `key` is live, and the identity provider vouches for somebody the policy admits. */
  predicate Admits(cfg: Config, s: State, key: string, error: string, answer: Option<Identity>) {
    Live(s.auth, key, s.now).Some? && error == "" && answer.Some? && Vetted(cfg, answer.value)
  }

  predicate IsJob(job: Job, ar: AuthRequest, id: Identity) {
    job == Job(ForCode(ar), id, ar.client, ar.nonce, job.login)
  }

  /** The code stands for the request, and its tokens speak of the identity. */
  predicate Hands(cfg: Config, s: State, code: string, ar: AuthRequest, id: Identity) {
    && code in s.codes && s.codes[code] == Store.Entry(GrantFor(ar, s.codes[code].val.tokens), s.now + CODE_TTL)
    && Speak(cfg, s.codes[code].val.tokens, id, ar.client, ar.nonce)
  }

  /** What a successful issueTokens leaves behind. */
  predicate Settled(cfg: Config, s: State, h: nat, job: Job, t: Issued) {
    && Speak(cfg, t, job.id, job.client, job.nonce) && TokenOf(s, t.refresh, job.login)
    && s.refresh[t.refresh] == Store.Entry(GrantOf(job.client, job.id), s.now + cfg.refreshLifetime)
    && match job.flow
       case ForCode(ar) => h in s.handlers && s.handlers[h] == SavingCode(ar, t, job.login)
       case ForRefresh(f) =>
         && h !in s.handlers && |s.log.responses| > 0
         && s.log.responses[|s.log.responses| - 1] == Response(ByRefresh(f.token), f, t, job.login, s.now)
  }

  lemma UpsertIs(s: State, h: nat, job: Job, stamp: int, o: Outcome)
    ensures var s' := DoUpsert(s, h, job, stamp, o);
      && s'.now == s.now && s'.handlers - {h} == s.handlers - {h}
      && if o == Ok then h in s'.handlers && s'.handlers[h] == Waiting(job, |s.log.renewals|) else h !in s'.handlers
  {
  }

  lemma MintIs(cfg: Config, s: State, h: nat, job: Job, n: nat, text: Option<string>)
    ensures var s' := DoMint(cfg, s, h, job, n, text);
      && s'.now == s.now && s'.handlers - {h} == s.handlers - {h}
      && if text.None? then h !in s'.handlers
         else
           && h in s'.handlers
           && s'.handlers[h] == SavingRefresh(job, n, Access(SanitizeName(cfg.lower, job.id.email), text.value))
  {
  }

  lemma SaveFails(cfg: Config, s: State, h: nat, job: Job, n: nat, access: Access, token: string, o: Outcome)
    requires o != Ok
    ensures var s' := DoSaveRefresh(cfg, s, h, job, n, access, token, o);
      s'.now == s.now && s'.handlers - {h} == s.handlers - {h} && h !in s'.handlers
  {
    Replaced(s.handlers, s.handlers - {h}, h);
    if o == Lost {
    } else {
    }
  }

  lemma SaveGoesOn(cfg: Config, s: State, h: nat, job: Job, n: nat, access: Access, token: string)
    requires access.account == SanitizeName(cfg.lower, job.id.email) && job.flow.ForCode?
    ensures var s' := DoSaveRefresh(cfg, s, h, job, n, access, token, Ok);
      s'.now == s.now && s'.handlers - {h} == s.handlers - {h}
          && Settled(cfg, s', h, job, TokensOf(cfg, job, access, token))
  {
    Replaced(s.handlers, DoSaveRefresh(cfg, s, h, job, n, access, token, Ok).handlers, h);
  }

  lemma SaveAnswers(cfg: Config, s: State, h: nat, job: Job, n: nat, access: Access, token: string)
    requires access.account == SanitizeName(cfg.lower, job.id.email) && job.flow.ForRefresh?
    ensures var s' := DoSaveRefresh(cfg, s, h, job, n, access, token, Ok);
      s'.now == s.now && s'.handlers - {h} == s.handlers - {h}
          && Settled(cfg, s', h, job, TokensOf(cfg, job, access, token))
  {
    Replaced(s.handlers, s.handlers - {h}, h);
  }

  lemma SaveIs(cfg: Config, s: State, h: nat, job: Job, n: nat, access: Access, token: string, o: Outcome)
    requires access.account == SanitizeName(cfg.lower, job.id.email)
    ensures var s' := DoSaveRefresh(cfg, s, h, job, n, access, token, o);
      && s'.now == s.now && s'.handlers - {h} == s.handlers - {h}
      && (if o == Ok then Settled(cfg, s', h, job, TokensOf(cfg, job, access, token)) else h !in s'.handlers)
  {
    if o != Ok {
      SaveFails(cfg, s, h, job, n, access, token, o);
    } else if job.flow.ForCode? {
      SaveGoesOn(cfg, s, h, job, n, access, token);
    } else {
      SaveAnswers(cfg, s, h, job, n, access, token);
    }
  }

  /** The code is live, and the form proves the right to it: redirect URI, verifier, and the client's id and secret,
      each in its body or, where that has none, by HTTP Basic authentication. */
  predicate Granted(cfg: Config, s: State, f: Form) {
    && f.code in s.codes && s.now <= s.codes[f.code].exp
    && var g := s.codes[f.code].val;
    && f.redirect == g.redirect && cfg.hash(f.verifier) == g.challenge
    && (|| (f.client != "" && f.client == g.client)
        || (f.client == "" && f.basic.Some? && f.basic.value.0 == g.client)
        || (f.client == "" && f.basic.None? && g.client == ""))
    && (|| cfg.secret == "" || f.secret == cfg.secret
        || (f.secret == "" && f.basic.Some? && f.basic.value.1 == cfg.secret))
  }

  lemma ExchangeIs(cfg: Config, s: State, f: Form, o: Outcome)
    ensures var s' := DoExchange(cfg, s, f, o);
      && s'.now == s.now
      && (o != Refused ==> f.code !in s'.codes)
      && (if o == Ok && Granted(cfg, s, f) then
            s'.log.responses == s.log.responses + [Response(ByCode(f.code), f, s.codes[f.code].val.tokens,
                                                            CodeLogin(s.log, f.code), s.now)]
          else s'.log.responses == s.log.responses)
  {
    if o == Ok && Granted(cfg, s, f) {
    } else if o == Refused {
    } else {
    }
  }
}
