/** What the invariant means for every run of the broker, however requests interleave and accesses fail. */
module BrokerTheorems {
  import opened Base
  import opened Sanitize
  import Store
  import opened Broker
  import opened BrokerInvariant

  ghost predicate Reached(cfg: Config, steps: seq<Step>, s: State) {
    Run(cfg, START, steps) == Some(s)
  }

  lemma ReachedInv(cfg: Config, steps: seq<Step>, s: State)
    requires Reached(cfg, steps, s)
    ensures Inv(cfg, s)
  {
    RunKeeps(cfg, START, steps);
  }

  // ----- The code grant -----

  /** Each code, and even each Authorize, leads to at most one token response by code; each refresh token to at most
      one by refresh. */
  lemma AtMostOneResponse(cfg: Config, steps: seq<Step>, s: State, i: nat, j: nat)
    requires Reached(cfg, steps, s) && i < |s.log.responses| && j < |s.log.responses|
    ensures s.log.responses[i].proof == s.log.responses[j].proof ==> i == j
    ensures s.log.responses[i].login < |s.log.logins| && s.log.responses[j].login < |s.log.logins|
    ensures
      && s.log.responses[i].proof.ByCode? && s.log.responses[j].proof.ByCode?
      && s.log.logins[s.log.responses[i].login].auth == s.log.logins[s.log.responses[j].login].auth
      ==> i == j
  {
    ReachedInv(cfg, steps, s);
    var x, y := s.log.responses[i], s.log.responses[j];
    assert ResponseOk(cfg, s, i, x) && ResponseOk(cfg, s, j, y);
    assert LoginOk(cfg, s, x.login, s.log.logins[x.login]) && LoginOk(cfg, s, y.login, s.log.logins[y.login]);
  }

  /** A token response by code traces back to one accepted Authorize: the same client, the registered redirect URI it
      named, and a challenge that the presented verifier matches; it comes within the lifetime of a code that was
      issued after a vetted login on that Authorize, and its id_token is for the nonce of that Authorize. */
  lemma CodeResponseTraces(cfg: Config, steps: seq<Step>, s: State, i: nat)
    requires Reached(cfg, steps, s) && i < |s.log.responses| && s.log.responses[i].proof.ByCode?
    ensures var r := s.log.responses[i];
      && r.login < |s.log.logins| && s.log.logins[r.login].auth < |s.log.authorizes| && r.form.code in s.log.codeOf
      && var l := s.log.logins[r.login]; var a := s.log.authorizes[l.auth]; var issued := s.log.codeOf[r.form.code].at;
      && a.query.client == cfg.client && a.query.responseType == "code" && ScopeHas(a.query.scope, "openid")
      && a.query.redirect == r.form.redirect && r.form.redirect in cfg.redirects
      && a.query.challengeMethod == "S256" && a.query.challenge == cfg.hash(r.form.verifier) != ""
      && a.at <= l.at <= issued <= r.at <= issued + 120 * SECOND
      && r.proof == ByCode(r.form.code) && r.tokens.id.nonce == a.query.nonce
  {
    ReachedInv(cfg, steps, s);
    var r := s.log.responses[i];
    assert ResponseOk(cfg, s, i, r);
    assert LoginOk(cfg, s, r.login, s.log.logins[r.login]);
    assert RequestOk(cfg, s, s.log.authorizes[s.log.logins[r.login].auth]);
    assert CodedOk(s, r.form.code, s.log.codeOf[r.form.code]);
  }

  /** Every token response was asked for with the client's id and secret, each in the form or, where that has none, by
      HTTP Basic authentication. */
  lemma AskedByClient(cfg: Config, steps: seq<Step>, s: State, i: nat)
    requires Reached(cfg, steps, s) && i < |s.log.responses|
    ensures var f := s.log.responses[i].form;
      || (f.client != "" && f.client == cfg.client)
      || (f.client == "" && f.basic.Some? && f.basic.value.0 == cfg.client)
      || (f.client == "" && f.basic.None? && cfg.client == "")
    ensures var f := s.log.responses[i].form;
      cfg.secret != "" ==>
        f.secret == cfg.secret || (f.secret == "" && f.basic.Some? && f.basic.value.1 == cfg.secret)
  {
    ReachedInv(cfg, steps, s);
    assert ResponseOk(cfg, s, i, s.log.responses[i]);
  }

  /** The tokens state the identity, field by field. */
  predicate Speak(cfg: Config, t: Issued, id: Identity, client: string, nonce: string) {
    && t.id.aud == client && t.id.nonce == nonce
    && t.id.sub == (if id.subject != "" then id.subject else id.email)
    && t.id.email == id.email && t.id.verified == id.verified && t.id.name == id.name
    && |t.id.groups| == |id.groups| && (forall j | 0 <= j < |id.groups| :: t.id.groups[j] == id.groups[j].gid)
    && t.access.account == SanitizeName(cfg.lower, id.email) && t.expiresIn == cfg.tokenSeconds
  }

  /** The login behind every token response was verified and of an allowed domain, and the tokens state its identity,
      field by field, for the client and for the nonce of its Authorize; after a refresh, for none. */
  lemma ResponsesSpeak(cfg: Config, steps: seq<Step>, s: State, i: nat)
    requires Reached(cfg, steps, s) && i < |s.log.responses|
    ensures var r := s.log.responses[i];
      && r.login < |s.log.logins| && s.log.logins[r.login].auth < |s.log.authorizes|
      && var l := s.log.logins[r.login];
      && l.id.verified && (exists j | 0 <= j < |cfg.domains| :: cfg.fold(cfg.domains[j], l.id.domain))
      && Speak(cfg, r.tokens, l.id, cfg.client,
               if r.proof.ByCode? then s.log.authorizes[l.auth].query.nonce else "")
  {
    ReachedInv(cfg, steps, s);
    var r := s.log.responses[i];
    assert ResponseOk(cfg, s, i, r);
    assert LoginOk(cfg, s, r.login, s.log.logins[r.login]);
    assert RequestOk(cfg, s, s.log.authorizes[s.log.logins[r.login].auth]);
  }

  // ----- Secrets are good for one claim -----

  /** The secret that a step claims. */
  function ClaimedBy(t: Step): Option<string> {
    match t
    case Callback(_, key, _, _) => Some(key)
    case Exchange(f, _) => Some(f.code)
    case Refresh(_, f, _) => Some(f.token)
    case _ => None
  }

  /** What the step would claim it from does not have the secret. */
  predicate Gone(s: State, t: Step, key: string) {
    key in s.used && match t
      case Callback(_, _, _, _) => key !in s.auth
      case Exchange(_, _) => key !in s.codes
      case _ => key !in s.refresh
  }

  lemma ClaimSpends(cfg: Config, s: State, t: Step)
    requires CanStep(s, t) && ClaimedBy(t).Some? && t.outcome != Refused && ClaimedBy(t).value in s.used
    ensures Gone(DoStep(cfg, s, t), t, ClaimedBy(t).value)
  {
    match t
    case Callback(h, key, error, o) =>
    case Exchange(f, o) =>
    case Refresh(h, f, o) =>
  }

  /** The secret does not come back. */
  predicate NotBack(s: State, s': State, key: string) {
    && s.used <= s'.used && (key in s'.auth ==> key in s.auth) && (key in s'.codes ==> key in s.codes)
    && (key in s'.refresh ==> key in s.refresh)
  }

  lemma StepNotBack(cfg: Config, s: State, u: Step, key: string)
    requires CanStep(s, u) && key in s.used
    ensures NotBack(s, DoStep(cfg, s, u), key)
  {
    match u
    case SaveRefresh(h, token, o) =>
      SaveNotBack(cfg, s, h, s.handlers[h].job, s.handlers[h].n, s.handlers[h].access, token, o, key);
    case Callback(h, k, error, o) => CallbackNotBack(s, h, k, error, o, key);
    case Exchange(f, o) => ExchangeNotBack(cfg, s, f, o, key);
    case Refresh(h, f, o) => RefreshNotBack(cfg, s, h, f, o, key);
    case Authorize(q, k, nonce, o) => AuthorizeNotBack(cfg, s, q, k, nonce, o, key);
    case Mint(h, text) => MintNotBack(cfg, s, h, s.handlers[h].job, s.handlers[h].n, text, key);
    case _ =>
  }

  lemma CallbackNotBack(s: State, h: nat, k: string, error: string, o: Outcome, key: string)
    ensures NotBack(s, DoCallback(s, h, k, error, o), key)
  {
  }

  lemma ExchangeNotBack(cfg: Config, s: State, f: Form, o: Outcome, key: string)
    ensures NotBack(s, DoExchange(cfg, s, f, o), key)
  {
  }

  lemma RefreshNotBack(cfg: Config, s: State, h: nat, f: Form, o: Outcome, key: string)
    ensures NotBack(s, DoRefresh(cfg, s, h, f, o), key)
  {
  }

  lemma AuthorizeNotBack(cfg: Config, s: State, q: Query, k: string, nonce: string, o: Outcome, key: string)
    requires k !in s.used && key in s.used
    ensures NotBack(s, DoAuthorize(cfg, s, q, k, nonce, o), key)
  {
  }

  lemma MintNotBack(cfg: Config, s: State, h: nat, job: Job, n: nat, text: Option<string>, key: string)
    ensures NotBack(s, DoMint(cfg, s, h, job, n, text), key)
  {
  }

  lemma SaveNotBack(cfg: Config, s: State, h: nat, job: Job, n: nat, access: Access, token: string, o: Outcome,
                    key: string)
    requires token !in s.used && key in s.used
    ensures NotBack(s, DoSaveRefresh(cfg, s, h, job, n, access, token, o), key)
  {
    if o == Lost {
    } else if o == Refused {
    } else if job.flow.ForCode? {
    } else {
    }
  }

  /** A state, a code or a refresh token that was claimed once, whatever came of the claim, is never there again. */
  lemma {:induction false} ClaimedOnce(cfg: Config, s: State, t: Step, steps: seq<Step>, end: State)
    requires CanStep(s, t) && ClaimedBy(t).Some? && t.outcome != Refused && ClaimedBy(t).value in s.used
    requires Run(cfg, DoStep(cfg, s, t), steps) == Some(end)
    ensures Gone(end, t, ClaimedBy(t).value)
  {
    if steps == [] {
      ClaimSpends(cfg, s, t);
    } else {
      var before := Run(cfg, DoStep(cfg, s, t), steps[..|steps| - 1]).value;
      ClaimedOnce(cfg, s, t, steps[..|steps| - 1], before);
      StepNotBack(cfg, before, steps[|steps| - 1], ClaimedBy(t).value);
    }
  }

  // ----- The lineage of a login -----

  /** The handler is on the way to a new refresh token of login `l`. */
  predicate Carries(w: Handler, l: nat) {
    && (w.Upserting? || w.Waiting? || w.Minting? || w.SavingRefresh?)
    && w.job.login == l
  }

  predicate TokenOf(s: State, t: string, l: nat) {
    t in s.refresh && t in s.log.savedOf && s.log.savedOf[t].login == l
  }

  /** A login has at most one stored refresh token, and none while a handler works on the next one; there is at most one
      such handler. */
  lemma OneTokenPerLogin(cfg: Config, steps: seq<Step>, s: State, l: nat)
    requires Reached(cfg, steps, s)
    ensures forall t, u | TokenOf(s, t, l) && TokenOf(s, u, l) :: t == u
    ensures forall t, h | TokenOf(s, t, l) && h in s.handlers :: !Carries(s.handlers[h], l)
    ensures forall h, g | h in s.handlers && g in s.handlers && Carries(s.handlers[h], l)
        && Carries(s.handlers[g], l) :: h == g
  {
    ReachedInv(cfg, steps, s);
    forall t | TokenOf(s, t, l) ensures TokenIsAt(s, l, Stored(Store.Refresh, t)) { TokenKnown(cfg, s, l, t); }
    forall h | h in s.handlers && Carries(s.handlers[h], l)
      ensures TokenIsAt(s, l, Held(h)) { CarrierKnown(cfg, s, l, h); }
  }

  predicate TokenIsAt(s: State, l: nat, w: Whereabouts) {
    l < |s.log.logins| && s.log.logins[l].token == w
  }

  lemma TokenKnown(cfg: Config, s: State, l: nat, t: string)
    requires Inv(cfg, s) && TokenOf(s, t, l)
    ensures TokenIsAt(s, l, Stored(Store.Refresh, t))
  {
    assert TokenOk(cfg, s, t, s.refresh[t]);
  }

  lemma CarrierKnown(cfg: Config, s: State, l: nat, h: nat)
    requires Inv(cfg, s) && h in s.handlers && Carries(s.handlers[h], l)
    ensures TokenIsAt(s, l, Held(h))
  {
    assert HandlerOk(cfg, s, h, s.handlers[h]);
  }

  /** Through any number of rotations the identity and the groups are those of the login: in the stored grant, in every
      Upsert, and in every token response. Every login is verified and of an allowed domain. */
  lemma IdentityUnchanged(cfg: Config, steps: seq<Step>, s: State)
    requires Reached(cfg, steps, s)
    ensures forall l | 0 <= l < |s.log.logins| ::
      && s.log.logins[l].id.verified
      && exists j | 0 <= j < |cfg.domains| :: cfg.fold(cfg.domains[j], s.log.logins[l].id.domain)
    ensures forall t | t in s.refresh ::
      && t in s.log.savedOf && s.log.savedOf[t].login < |s.log.logins|
      && IdentityOf(s.refresh[t].val) == s.log.logins[s.log.savedOf[t].login].id
    ensures forall n | 0 <= n < |s.log.renewals| ::
      s.log.renewals[n].login < |s.log.logins| && s.log.renewals[n].id == s.log.logins[s.log.renewals[n].login].id
    ensures forall i | 0 <= i < |s.log.responses| ::
      && s.log.responses[i].login < |s.log.logins|
      && var id := s.log.logins[s.log.responses[i].login].id; var c := s.log.responses[i].tokens;
      && c.id.email == id.email && c.id.groups == GidList(id.groups)
      && c.access.account == SanitizeName(cfg.lower, id.email)
  {
    ReachedInv(cfg, steps, s);
    forall l | 0 <= l < |s.log.logins|
      ensures Vetted(cfg, s.log.logins[l].id) { assert LoginOk(cfg, s, l, s.log.logins[l]); }
    forall t | t in s.refresh
      ensures t in s.log.savedOf && s.log.savedOf[t].login < |s.log.logins|
      ensures IdentityOf(s.refresh[t].val) == s.log.logins[s.log.savedOf[t].login].id
    {
      assert TokenOk(cfg, s, t, s.refresh[t]);
      GrantRoundTrip(cfg.client, s.log.logins[s.log.savedOf[t].login].id);
    }
    forall n | 0 <= n < |s.log.renewals|
      ensures s.log.renewals[n].login < |s.log.logins|
      ensures s.log.renewals[n].id == s.log.logins[s.log.renewals[n].login].id
    {
      assert RenewalOk(s, s.log.renewals[n]);
    }
    forall i | 0 <= i < |s.log.responses|
      ensures s.log.responses[i].login < |s.log.logins|
      ensures (exists nonce :: TokensOk(cfg, s, s.log.responses[i].tokens, s.log.responses[i].login, nonce))
    {
      ResponseTokens(cfg, s, i);
    }
  }

  lemma ResponseTokens(cfg: Config, s: State, i: nat)
    requires Inv(cfg, s) && i < |s.log.responses|
    ensures exists nonce :: TokensOk(cfg, s, s.log.responses[i].tokens, s.log.responses[i].login, nonce)
  {
    var r := s.log.responses[i];
    assert ResponseOk(cfg, s, i, r);
    var nonce := if r.proof.ByCode? then RequestBehind(s, r.login).nonce else "";
    assert TokensOk(cfg, s, r.tokens, r.login, nonce);
  }

  // ----- The end of a lineage -----

  /** No unexpired token, and nobody on the way to one. */
  predicate Dead(s: State, l: nat) {
    && l < |s.log.logins|
    && (forall h | h in s.handlers :: !Carries(s.handlers[h], l))
    && (forall t | t in s.refresh && TokenOf(s, t, l) :: s.refresh[t].exp < s.now)
  }

  /** No Upsert since the first `n` was for login `l`. */
  predicate SilentSince(s: State, l: nat, n: nat) {
    n <= |s.log.renewals| && (forall i | n <= i < |s.log.renewals| :: s.log.renewals[i].login != l)
  }

  /** Nothing new for login `l`. */
  predicate NothingNew(s: State, s': State, l: nat) {
    && |s.log.logins| <= |s'.log.logins| && s.now <= s'.now
    && (forall h | h in s'.handlers && Carries(s'.handlers[h], l) :: h in s.handlers && Carries(s.handlers[h], l))
    && (forall t | t in s'.refresh && TokenOf(s', t, l) :: TokenOf(s, t, l) && s'.refresh[t] == s.refresh[t])
    && s.log.renewals <= s'.log.renewals
    && (forall i | |s.log.renewals| <= i < |s'.log.renewals| :: s'.log.renewals[i].login != l)
  }

  lemma StaysDead(s: State, s': State, l: nat, n: nat)
    requires Dead(s, l) && SilentSince(s, l, n) && NothingNew(s, s', l)
    ensures Dead(s', l) && SilentSince(s', l, n)
  {
    forall i | n <= i < |s'.log.renewals| ensures s'.log.renewals[i].login != l {
      if i < |s.log.renewals| { assert s'.log.renewals[i] == s.log.renewals[i]; }
    }
  }

  lemma RefreshNothing(cfg: Config, s: State, h: nat, f: Form, o: Outcome, l: nat)
    requires Dead(s, l) && (f.token in s.refresh ==> TokenOk(cfg, s, f.token, s.refresh[f.token]))
    ensures NothingNew(s, DoRefresh(cfg, s, h, f, o), l)
  {
    var g := Live(s.refresh, f.token, s.now);
    if o != Ok || g.None? || ClientOf(f) != g.value.client || !SecretOk(cfg, f) {
    } else {
      assert !TokenOf(s, f.token, l);
    }
  }

  lemma PutNothing(cfg: Config, s: State, job: Job, n: nat, token: string, l: nat)
    requires job.login != l
    ensures NothingNew(s, PutRefresh(cfg, s, job, n, token), l)
  {
  }

  lemma SaveNothing(cfg: Config, s: State, h: nat, job: Job, n: nat, access: Access, token: string, o: Outcome, l: nat)
    requires job.login != l
    ensures NothingNew(s, DoSaveRefresh(cfg, s, h, job, n, access, token, o), l)
  {
    PutNothing(cfg, s, job, n, token, l);
    if o == Lost {
    } else if o == Refused {
    } else if job.flow.ForCode? {
    }
  }

  lemma UpsertNothing(s: State, h: nat, job: Job, stamp: int, o: Outcome, l: nat)
    requires job.login != l
    ensures NothingNew(s, DoUpsert(s, h, job, stamp, o), l)
  {
  }

  lemma AuthenticateNothing(cfg: Config, s: State, h: nat, ar: AuthRequest, src: nat, a: Option<Identity>, l: nat)
    requires l < |s.log.logins|
    ensures NothingNew(s, DoAuthenticate(cfg, s, h, ar, src, a), l)
  {
    if a.None? || !Vetted(cfg, a.value) {
      EndNothing(s, h, l);
    } else {
    }
  }

  lemma CallbackNothing(s: State, h: nat, key: string, error: string, o: Outcome, l: nat)
    ensures NothingNew(s, DoCallback(s, h, key, error, o), l)
  {
  }

  lemma ExchangeNothing(cfg: Config, s: State, f: Form, o: Outcome, l: nat)
    ensures NothingNew(s, DoExchange(cfg, s, f, o), l)
  {
  }

  lemma MintNothing(cfg: Config, s: State, h: nat, job: Job, n: nat, text: Option<string>, l: nat)
    requires job.login != l
    ensures NothingNew(s, DoMint(cfg, s, h, job, n, text), l)
    ensures NothingNew(s, Go(s, h, Minting(job, n)), l) && NothingNew(s, End(s, h), l)
  {
  }

  lemma SaveCodeNothing(s: State, h: nat, ar: AuthRequest, tokens: Issued, login: nat, code: string, o: Outcome, l: nat)
    ensures NothingNew(s, DoSaveCode(s, h, ar, tokens, login, code, o), l)
  {
  }

  lemma AuthorizeNothing(cfg: Config, s: State, q: Query, key: string, nonce: string, o: Outcome, l: nat)
    ensures NothingNew(s, DoAuthorize(cfg, s, q, key, nonce, o), l)
  {
  }

  lemma EndNothing(s: State, h: nat, l: nat)
    ensures NothingNew(s, End(s, h), l)
  {
  }

  lemma SweepNothing(cfg: Config, s: State, t: Step, l: nat)
    requires CanStep(s, t) && (t.Tick? || t.Sweep? || t.Restart?)
    ensures NothingNew(s, DoStep(cfg, s, t), l)
  {
  }

  /** A step of a running handler. */
  lemma HandlerNothing(cfg: Config, s: State, t: Step, l: nat)
    requires CanStep(s, t) && Dead(s, l)
    requires t.Wait? || t.Authenticate? || t.Upsert? || t.Mint? || t.SaveRefresh? || t.SaveCode?
    ensures NothingNew(s, DoStep(cfg, s, t), l)
  {
    var x := s.handlers[t.h];
    assert !Carries(x, l);
    match t
    case Wait(h, ok) => MintNothing(cfg, s, h, x.job, x.n, None, l);
    case Authenticate(h, a) => AuthenticateNothing(cfg, s, h, x.auth, x.src, a, l);
    case Upsert(h, stamp, o) => UpsertNothing(s, h, x.job, stamp, o, l);
    case Mint(h, text) => MintNothing(cfg, s, h, x.job, x.n, text, l);
    case SaveRefresh(h, token, o) => SaveNothing(cfg, s, h, x.job, x.n, x.access, token, o, l);
    case SaveCode(h, code, o) => SaveCodeNothing(s, h, x.auth, x.tokens, x.login, code, o, l);
  }

  lemma StepNothing(cfg: Config, s: State, t: Step, l: nat)
    requires CanStep(s, t) && Dead(s, l)
    requires t.Refresh? && t.form.token in s.refresh ==> TokenOk(cfg, s, t.form.token, s.refresh[t.form.token])
    ensures NothingNew(s, DoStep(cfg, s, t), l)
  {
    match t
    case Authorize(q, key, nonce, o) => AuthorizeNothing(cfg, s, q, key, nonce, o, l);
    case Callback(h, key, error, o) => CallbackNothing(s, h, key, error, o, l);
    case Exchange(f, o) => ExchangeNothing(cfg, s, f, o, l);
    case Refresh(h, f, o) => RefreshNothing(cfg, s, h, f, o, l);
    case Die(h) => EndNothing(s, h, l);
    case Tick(_) => SweepNothing(cfg, s, t, l);
    case Sweep(_) => SweepNothing(cfg, s, t, l);
    case Restart => SweepNothing(cfg, s, t, l);
    case _ => HandlerNothing(cfg, s, t, l);
  }

  lemma StepStaysDead(cfg: Config, s: State, t: Step, l: nat, n: nat)
    requires Inv(cfg, s) && CanStep(s, t) && Dead(s, l) && SilentSince(s, l, n)
    ensures Dead(DoStep(cfg, s, t), l) && SilentSince(DoStep(cfg, s, t), l, n)
  {
    StepNothing(cfg, s, t, l);
    StaysDead(s, DoStep(cfg, s, t), l, n);
  }

  /** A lineage that has died stays dead, and is never the reason of an Upsert again. */
  lemma {:induction false} DeadForever(cfg: Config, s: State, steps: seq<Step>, l: nat)
    requires Inv(cfg, s) && Dead(s, l) && Run(cfg, s, steps).Some?
    ensures Dead(Run(cfg, s, steps).value, l) && SilentSince(Run(cfg, s, steps).value, l, |s.log.renewals|)
  {
    if steps != [] {
      var before := steps[..|steps| - 1];
      DeadForever(cfg, s, before, l);
      RunKeeps(cfg, s, before);
      StepStaysDead(cfg, Run(cfg, s, before).value, steps[|steps| - 1], l, |s.log.renewals|);
    }
  }
}
