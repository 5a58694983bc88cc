/**
 The broker as a step machine: the authorization-code grant with PKCE (sections 4.1.2 and 4.1.3 of RFC 6749, section
 4.6 of RFC 7636) and rotating refresh tokens (section 6 of RFC 6749). Handlers of many requests run at once; one step
 is one access to the store, the cluster or the identity provider, and any of them may fail.
 */
module Broker {
  import opened Base
  import opened Sanitize
  import Store
  import Cluster

  type Membership = Cluster.Membership
  type Entry<V> = Store.Entry<V>

  const AUTH_REQUEST_TTL: int := 600 * SECOND
  const CODE_TTL: int := 120 * SECOND

  // ----- Records -----

  /** Who the identity provider says somebody is. */
  datatype Identity = Identity(subject: string, email: string, verified: bool, domain: string, name: string,
                               groups: seq<Membership>)

  datatype AuthRequest = AuthRequest(client: string, redirect: string, state: string, nonce: string, challenge: string,
                                     challengeMethod: string, scope: string, idpNonce: string)

  datatype GroupRef = GroupRef(gid: string, name: string, domain: string)

  datatype RefreshGrant = RefreshGrant(client: string, email: string, subject: string, name: string, verified: bool,
                                       domain: string, groups: seq<GroupRef>)

  /** A ServiceAccount token, with the account it was minted for. */
  datatype Access = Access(account: string, text: string)

  /** What the broker signs into an id_token. */
  datatype Claims = Claims(sub: string, aud: string, nonce: string, email: string, verified: bool, name: string,
                           groups: seq<string>)

  datatype Issued = Issued(access: Access, id: Claims, refresh: string, expiresIn: int)

  datatype CodeGrant = CodeGrant(client: string, redirect: string, challenge: string, nonce: string, subject: string,
                                 tokens: Issued)

  /** The configuration. The S256 hash, Go's case folding and lowering are parameters. */
  datatype Config = Config(client: string, secret: string, redirects: seq<string>, domains: seq<string>,
                           refreshLifetime: int,
                           tokenSeconds: int, hash: string -> string, fold: (string, string) -> bool,
                               lower: char -> char)

  /** The query of an /authorize request. */
  datatype Query = Query(client: string, redirect: string, responseType: string, scope: string, challenge: string,
                         challengeMethod: string, state: string, nonce: string)

  /** The form of a /token request, and the credentials of its Authorization header. */
  datatype Form = Form(client: string, secret: string, basic: Option<(string, string)>, code: string, redirect: string,
                       verifier: string, token: string)

  // ----- Pure parts of the handlers -----

  predicate AllowedDomain(cfg: Config, domain: string) {
    exists i | 0 <= i < |cfg.domains| :: cfg.fold(cfg.domains[i], domain)
  }

  /** The policy of Callback: a verified email within an allowed domain. */
  predicate Vetted(cfg: Config, id: Identity) {
    id.verified && AllowedDomain(cfg, id.domain)
  }

  /** unicode.IsSpace. */
  predicate Space(c: char) {
    || '\t' <= c <= '\r' || '\U{2000}' <= c <= '\U{200A}'
    || c in {' ', '\U{85}', '\U{A0}', '\U{1680}', '\U{2028}', '\U{2029}', '\U{202F}', '\U{205F}', '\U{3000}'}
  }

  /** `want` is one of the space-separated words of `scope`. */
  predicate ScopeHas(scope: string, want: string) {
    exists i, j | 0 <= i < j <= |scope| ::
      && scope[i..j] == want && (forall c | c in scope[i..j] :: !Space(c))
      && (i == 0 || Space(scope[i - 1])) && (j == |scope| || Space(scope[j]))
  }

  predicate Acceptable(cfg: Config, q: Query) {
    && q.client == cfg.client && q.redirect in cfg.redirects
    && q.responseType == "code" && ScopeHas(q.scope, "openid")
    && q.challenge != "" && q.challengeMethod == "S256"
  }

  function RequestOf(q: Query, idpNonce: string): AuthRequest {
    AuthRequest(q.client, q.redirect, q.state, q.nonce, q.challenge, "S256", q.scope, idpNonce)
  }

  /** The client id of the form body or, without one, of HTTP Basic authentication. */
  function ClientOf(f: Form): string {
    if f.client != "" then f.client else if f.basic.Some? then f.basic.value.0 else ""
  }

  function SecretOf(f: Form): string {
    if f.secret != "" then f.secret else if f.basic.Some? then f.basic.value.1 else ""
  }

  predicate SecretOk(cfg: Config, f: Form) {
    cfg.secret != "" ==> SecretOf(f) == cfg.secret
  }

  predicate Exchangeable(cfg: Config, f: Form, g: CodeGrant) {
    && ClientOf(f) == g.client && f.redirect == g.redirect
    && SecretOk(cfg, f) && cfg.hash(f.verifier) == g.challenge
  }

  function GroupRefs(ms: seq<Membership>): seq<GroupRef> {
    seq(|ms|, i requires 0 <= i < |ms| => GroupRef(ms[i].gid, ms[i].name, ms[i].domain))
  }

  function Memberships(gs: seq<GroupRef>): seq<Membership> {
    seq(|gs|, i requires 0 <= i < |gs| => Cluster.Membership(gs[i].gid, gs[i].name, gs[i].domain))
  }

  function GrantOf(client: string, id: Identity): RefreshGrant {
    RefreshGrant(client, id.email, id.subject, id.name, id.verified, id.domain, GroupRefs(id.groups))
  }

  function IdentityOf(g: RefreshGrant): Identity {
    Identity(g.subject, g.email, g.verified, g.domain, g.name, Memberships(g.groups))
  }

  /** Storing an identity behind a refresh token and reading it back loses nothing. */
  lemma GrantRoundTrip(client: string, id: Identity)
    ensures IdentityOf(GrantOf(client, id)) == id && GrantOf(client, id).client == client
  {
    assert Memberships(GroupRefs(id.groups)) == id.groups;
  }

  function GidList(ms: seq<Membership>): seq<string> {
    seq(|ms|, i requires 0 <= i < |ms| => ms[i].gid)
  }

  function ClaimsOf(id: Identity, client: string, nonce: string): Claims {
    Claims(if id.subject == "" then id.email
           else id.subject, client, nonce, id.email, id.verified, id.name, GidList(id.groups))
  }

  // ----- State -----

  /** What tokens are issued for: the callback of an authorization, or the rotation of a refresh token. */
  datatype Flow = ForCode(auth: AuthRequest) | ForRefresh(form: Form)

  /** A call of issueTokens. `login` is history: the login that the identity descends from. */
  datatype Job = Job(flow: Flow, id: Identity, client: string, nonce: string, login: nat)

  /** Where a handler stands. `src`, `n` and `login` are history: the Authorize, the Upsert and the login it stems
      from. */
  datatype Handler =
    | Authenticating(auth: AuthRequest, src: nat)
    | Upserting(job: Job)
    | Waiting(job: Job, n: nat)
    | Minting(job: Job, n: nat)
    | SavingRefresh(job: Job, n: nat, access: Access)
    | SavingCode(auth: AuthRequest, tokens: Issued, login: nat)

  /** History: where an authorization request, the refresh token of a login and its code last were. */
  datatype Whereabouts = Nowhere | Stored(kind: Store.Kind, key: string) | Held(h: nat) | Became(i: nat)

  datatype Authorized = Authorized(query: Query, request: AuthRequest, at: int, now: Whereabouts)
  datatype Login = Login(id: Identity, auth: nat, at: int, token: Whereabouts, code: Whereabouts)
  datatype Renewal = Renewal(id: Identity, login: nat, stamp: int)
  datatype Coded = Coded(login: nat, at: int)
  datatype Saved = Saved(login: nat, n: nat, at: int)

  /** The proof that a token response was asked for with. */
  datatype Proof = ByCode(code: string) | ByRefresh(token: string)
  datatype Response = Response(proof: Proof, form: Form, tokens: Issued, login: nat, at: int)

  /** History: what was accepted, who logged in, what was written to the cluster, what was answered, and where each
      key of the store came from. `rotated` says which handler or which response a refresh token went to. */
  datatype Log = Log(authorizes: seq<Authorized>, logins: seq<Login>, renewals: seq<Renewal>, responses: seq<Response>,
                     authOf: map<string, nat>, codeOf: map<string, Coded>, savedOf: map<string, Saved>,
                     rotated: map<string, Whereabouts>)

  /** `used` are the random tokens drawn so far. */
  datatype State = State(now: int, auth: map<string, Entry<AuthRequest>>, codes: map<string, Entry<CodeGrant>>,
                         refresh: map<string, Entry<RefreshGrant>>, handlers: map<nat, Handler>, used: set<string>,
                             log: Log)

  const START: State := State(0, map[], map[], map[], map[], {}, Log([], [], [], [], map[], map[], map[], map[]))

  datatype Step =
    | Tick(until: int)
    | Sweep(tick: int)
    | Restart
    | Die(h: nat)
    | Authorize(q: Query, key: string, idpNonce: string, outcome: Outcome)
    | Callback(h: nat, key: string, error: string, outcome: Outcome)
    | Authenticate(h: nat, answer: Option<Identity>)
    | Upsert(h: nat, stamp: int, outcome: Outcome)
    | Wait(h: nat, ok: bool)
    | Mint(h: nat, text: Option<string>)
    | SaveRefresh(h: nat, token: string, outcome: Outcome)
    | SaveCode(h: nat, code: string, outcome: Outcome)
    | Exchange(form: Form, outcome: Outcome)
    | Refresh(h: nat, form: Form, outcome: Outcome)

  // ----- Steps -----

  predicate At(s: State, h: nat, t: Step) {
    h in s.handlers && match t
      case Authenticate(_, _) => s.handlers[h].Authenticating?
      case Upsert(_, _, _) => s.handlers[h].Upserting?
      case Wait(_, _) => s.handlers[h].Waiting?
      case Mint(_, _) => s.handlers[h].Minting?
      case SaveRefresh(_, _, _) => s.handlers[h].SavingRefresh?
      case SaveCode(_, _, _) => s.handlers[h].SavingCode?
      case _ => true
  }

  /** Time does not go back, a sweep's tick lies in the past, and randToken never repeats itself. */
  predicate CanStep(s: State, t: Step) {
    match t
    case Tick(until) => s.now <= until
    case Sweep(tick) => tick <= s.now
    case Restart => true
    case Authorize(_, key, nonce, _) => key !in s.used && nonce !in s.used && key != nonce
    case Callback(h, _, _, _) => h !in s.handlers
    case Upsert(h, stamp, _) => At(s, h, t) && stamp <= s.now
    case SaveRefresh(h, token, _) => At(s, h, t) && token !in s.used
    case SaveCode(h, code, _) => At(s, h, t) && code !in s.used
    case Exchange(_, _) => true
    case Refresh(h, _, _) => h !in s.handlers
    case _ => At(s, t.h, t)
  }

  function Live<V>(m: map<string, Entry<V>>, key: string, now: int): Option<V> {
    if key in m && now <= m[key].exp then Some(m[key].val) else None
  }

  function End(s: State, h: nat): State {
    s.(handlers := s.handlers - {h})
  }

  function Go(s: State, h: nat, w: Handler): State {
    s.(handlers := s.handlers[h := w])
  }

  // ----- History -----

  // It is updated where there is an entry to update, and read as 0 where there is none.

  function AuthIndex(g: Log, key: string): nat {
    if key in g.authOf then g.authOf[key] else 0
  }

  function CodeLogin(g: Log, code: string): nat {
    if code in g.codeOf then g.codeOf[code].login else 0
  }

  function TokenLogin(g: Log, token: string): nat {
    if token in g.savedOf then g.savedOf[token].login else 0
  }

  function RequestsWith(q: seq<Authorized>, i: nat, w: Whereabouts): (r: seq<Authorized>)
    ensures |r| == |q|
  {
    if i < |q| then q[i := q[i].(now := w)] else q
  }

  function TokensWith(q: seq<Login>, l: nat, w: Whereabouts): (r: seq<Login>)
    ensures |r| == |q|
  {
    if l < |q| then q[l := q[l].(token := w)] else q
  }

  function CodesWith(q: seq<Login>, l: nat, w: Whereabouts): (r: seq<Login>)
    ensures |r| == |q|
  {
    if l < |q| then q[l := q[l].(code := w)] else q
  }

  /** A request was stored under `key`. */
  function NoteRequest(g: Log, key: string, q: Query, ar: AuthRequest, now: int): Log {
    g.(authOf := g.authOf[key := |g.authorizes|],
       authorizes := g.authorizes + [Authorized(q, ar, now, Stored(Store.Auth, key))])
  }

  /** Handler `h` has the request that was stored under `key`. */
  function NoteCallback(g: Log, key: string, h: nat): Log {
    g.(authorizes := RequestsWith(g.authorizes, AuthIndex(g, key), Held(h)))
  }

  /** Request `src` became a login, which handler `h` works for. */
  function NoteLogin(g: Log, h: nat, src: nat, id: Identity, now: int): Log {
    g.(authorizes := RequestsWith(g.authorizes, src, Became(|g.logins|)),
       logins := g.logins + [Login(id, src, now, Held(h), Held(h))])
  }

  function NoteRenewal(g: Log, job: Job, stamp: int): Log {
    g.(renewals := g.renewals + [Renewal(job.id, job.login, stamp)])
  }

  /** The lineage of the job's login is stored under `token`. */
  function NoteSaved(g: Log, job: Job, n: nat, token: string, now: int): Log {
    g.(savedOf := g.savedOf[token := Saved(job.login, n, now)],
       logins := TokensWith(g.logins, job.login, Stored(Store.Refresh, token)))
  }

  /** A refresh grant was answered. */
  function NoteRotated(g: Log, form: Form, login: nat, tokens: Issued, now: int): Log {
    g.(responses := g.responses + [Response(ByRefresh(form.token), form, tokens, login, now)],
       rotated := g.rotated[form.token := Became(|g.responses|)])
  }

  function NoteCode(g: Log, code: string, login: nat, now: int): Log {
    g.(codeOf := g.codeOf[code := Coded(login, now)], logins := CodesWith(g.logins, login, Stored(Store.Code, code)))
  }

  /** A code was answered. */
  function NoteExchange(g: Log, form: Form, tokens: Issued, now: int): Log {
    g.(responses := g.responses + [Response(ByCode(form.code), form, tokens, CodeLogin(g, form.code), now)],
       logins := CodesWith(g.logins, CodeLogin(g, form.code), Became(|g.responses|)))
  }

  /** Handler `h` has taken the refresh token `t`. */
  function NoteRefresh(g: Log, t: string, h: nat): Log {
    g.(rotated := g.rotated[t := Held(h)], logins := TokensWith(g.logins, TokenLogin(g, t), Held(h)))
  }

  // ----- One function per step -----

  function DoAuthorize(cfg: Config, s: State, q: Query, key: string, nonce: string, outcome: Outcome): State {
    if !Acceptable(cfg, q) then s
    else if outcome == Refused then s.(used := s.used + {key, nonce})
    else
      var ar := RequestOf(q, nonce);
      s.(used := s.used + {key, nonce}, auth := s.auth[key := Store.Entry(ar, s.now + AUTH_REQUEST_TTL)],
         log := NoteRequest(s.log, key, q, ar, s.now))
  }

  function DoCallback(s: State, h: nat, key: string, error: string, outcome: Outcome): State {
    var found := Live(s.auth, key, s.now);
    if outcome == Refused then s
    else if outcome == Lost || found.None? || error != "" then s.(auth := s.auth - {key})
    else
      s.(auth := s.auth - {key}, log := NoteCallback(s.log, key, h),
         handlers := s.handlers[h := Authenticating(found.value, AuthIndex(s.log, key))])
  }

  function DoAuthenticate(cfg: Config, s: State, h: nat, ar: AuthRequest, src: nat, answer: Option<Identity>): State {
    if answer.None? || !Vetted(cfg, answer.value) then End(s, h)
    else
      s.(log := NoteLogin(s.log, h, src, answer.value, s.now),
         handlers := s.handlers[h := Upserting(Job(ForCode(ar), answer.value, ar.client, ar.nonce, |s.log.logins|))])
  }

  function DoUpsert(s: State, h: nat, job: Job, stamp: int, outcome: Outcome): State {
    if outcome == Refused then End(s, h)
    else
      s.(log := NoteRenewal(s.log, job, stamp),
         handlers := if outcome == Lost then s.handlers - {h} else s.handlers[h := Waiting(job, |s.log.renewals|)])
  }

  function DoMint(cfg: Config, s: State, h: nat, job: Job, n: nat, text: Option<string>): State {
    if text.None? then End(s, h)
    else Go(s, h, SavingRefresh(job, n, Access(SanitizeName(cfg.lower, job.id.email), text.value)))
  }

  function TokensOf(cfg: Config, job: Job, access: Access, token: string): Issued {
    Issued(access, ClaimsOf(job.id, job.client, job.nonce), token, cfg.tokenSeconds)
  }

  /** The new refresh token is stored. */
  function PutRefresh(cfg: Config, s: State, job: Job, n: nat, token: string): State {
    s.(used := s.used + {token},
       refresh := s.refresh[token := Store.Entry(GrantOf(job.client, job.id), s.now + cfg.refreshLifetime)],
       log := NoteSaved(s.log, job, n, token, s.now))
  }

  /** The handler's last step for a refresh grant, its next one for a code. */
  function Settle(s: State, h: nat, job: Job, tokens: Issued): State {
    match job.flow
    case ForCode(ar) => Go(s, h, SavingCode(ar, tokens, job.login))
    case ForRefresh(form) => End(s.(log := NoteRotated(s.log, form, job.login, tokens, s.now)), h)
  }

  function DoSaveRefresh(cfg: Config, s: State, h: nat, job: Job, n: nat, access: Access, token: string,
                         outcome: Outcome): State {
    match outcome
    case Refused => End(s.(used := s.used + {token}), h)
    case Lost => End(PutRefresh(cfg, s, job, n, token), h)
    case Ok => Settle(PutRefresh(cfg, s, job, n, token), h, job, TokensOf(cfg, job, access, token))
  }

  function DoSaveCode(s: State, h: nat, ar: AuthRequest, tokens: Issued, login: nat, code: string,
                      outcome: Outcome): State {
    if outcome == Refused then End(s.(used := s.used + {code}), h)
    else
      var g := CodeGrant(ar.client, ar.redirect, ar.challenge, ar.nonce, tokens.id.email, tokens);
      s.(used := s.used + {code}, codes := s.codes[code := Store.Entry(g, s.now + CODE_TTL)],
         handlers := s.handlers - {h},
         log := NoteCode(s.log, code, login, s.now))
  }

  /** handleAuthCode: the code is gone whatever the checks say. */
  function DoExchange(cfg: Config, s: State, f: Form, outcome: Outcome): State {
    var g := Live(s.codes, f.code, s.now);
    if outcome == Refused then s
    else if outcome == Lost || g.None? || !Exchangeable(cfg, f, g.value) then s.(codes := s.codes - {f.code})
    else s.(codes := s.codes - {f.code}, log := NoteExchange(s.log, f, g.value.tokens, s.now))
  }

  /** handleRefresh up to issueTokens: the token is gone whatever the checks say. */
  function DoRefresh(cfg: Config, s: State, h: nat, f: Form, outcome: Outcome): State {
    var g := Live(s.refresh, f.token, s.now);
    if outcome == Refused then s
    else if outcome == Lost || g.None? || ClientOf(f) != g.value.client || !SecretOk(cfg, f) then
        s.(refresh := s.refresh - {f.token})
    else
      s.(refresh := s.refresh - {f.token}, log := NoteRefresh(s.log, f.token, h),
         handlers := s.handlers[h := Upserting(Job(ForRefresh(f), IdentityOf(g.value), g.value.client, "",
                                                   TokenLogin(s.log, f.token)))])
  }

  function DoStep(cfg: Config, s: State, t: Step): State
    requires CanStep(s, t)
  {
    match t
    case Tick(until) => s.(now := until)
    case Sweep(tick) => s.(auth := Store.Unexpired(s.auth, tick), codes := Store.Unexpired(s.codes, tick),
                           refresh := Store.Unexpired(s.refresh, tick))
    case Restart => s.(auth := map[], codes := map[], refresh := map[], handlers := map[])
    case Die(h) => End(s, h)
    case Authorize(q, key, nonce, o) => DoAuthorize(cfg, s, q, key, nonce, o)
    case Callback(h, key, error, o) => DoCallback(s, h, key, error, o)
    case Authenticate(h, a) => DoAuthenticate(cfg, s, h, s.handlers[h].auth, s.handlers[h].src, a)
    case Upsert(h, stamp, o) => DoUpsert(s, h, s.handlers[h].job, stamp, o)
    case Wait(h, ok) => if ok then Go(s, h, Minting(s.handlers[h].job, s.handlers[h].n)) else End(s, h)
    case Mint(h, text) => DoMint(cfg, s, h, s.handlers[h].job, s.handlers[h].n, text)
    case SaveRefresh(h, token, o) =>
      DoSaveRefresh(cfg, s, h, s.handlers[h].job, s.handlers[h].n, s.handlers[h].access, token, o)
    case SaveCode(h, code, o) =>
      DoSaveCode(s, h, s.handlers[h].auth, s.handlers[h].tokens, s.handlers[h].login, code, o)
    case Exchange(f, o) => DoExchange(cfg, s, f, o)
    case Refresh(h, f, o) => DoRefresh(cfg, s, h, f, o)
  }

  /** Where a sequence of steps leads, or None when one of them is not possible. */
  ghost function Run(cfg: Config, s: State, steps: seq<Step>): Option<State> {
    if steps == [] then Some(s)
    else
      var r := Run(cfg, s, steps[..|steps| - 1]);
      if r.Some? && CanStep(r.value, steps[|steps| - 1]) then Some(DoStep(cfg, r.value, steps[|steps| - 1])) else None
  }

  lemma RunExtends(cfg: Config, s: State, steps: seq<Step>, t: Step)
    requires Run(cfg, s, steps).Some? && CanStep(Run(cfg, s, steps).value, t)
    ensures Run(cfg, s, steps + [t]) == Some(DoStep(cfg, Run(cfg, s, steps).value, t))
  {
    assert (steps + [t])[..|steps|] == steps;
  }
}
