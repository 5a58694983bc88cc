/** What every step of the broker keeps. */
module BrokerInvariant {
  import opened Base
  import opened Sanitize
  import Store
  import opened Broker

  /** A stored request says what the query said, and the query was acceptable. */
  predicate RequestOk(cfg: Config, s: State, a: Authorized) {
    && a.request.client == a.query.client == cfg.client
    && a.request.redirect == a.query.redirect && a.query.redirect in cfg.redirects
    && a.request.scope == a.query.scope && ScopeHas(a.query.scope, "openid") && a.query.responseType == "code"
    && a.request.challenge == a.query.challenge != ""
    && a.request.challengeMethod == a.query.challengeMethod == "S256"
    && a.request.state == a.query.state && a.request.nonce == a.query.nonce && a.at <= s.now
  }

  /** A stored request is known by the key it was stored under. */
  predicate AuthOk(s: State, key: string, e: Entry<AuthRequest>) {
    && key in s.used && key in s.log.authOf && s.log.authOf[key] < |s.log.authorizes|
    && var a := s.log.authorizes[s.log.authOf[key]];
    && e == Store.Entry(a.request, a.at + AUTH_REQUEST_TTL)
    && a.now == Stored(Store.Auth, key)
  }

  /** A login is vetted, and the only one that its Authorize became. */
  predicate LoginOk(cfg: Config, s: State, i: nat, l: Login) {
    && Vetted(cfg, l.id) && l.at <= s.now
    && l.auth < |s.log.authorizes| && s.log.authorizes[l.auth].now == Became(i) && s.log.authorizes[l.auth].at <= l.at
  }

  function RequestBehind(s: State, l: nat): AuthRequest
    requires l < |s.log.logins| && s.log.logins[l].auth < |s.log.authorizes|
  {
    s.log.authorizes[s.log.logins[l].auth].request
  }

  predicate KnownLogin(s: State, l: nat) {
    l < |s.log.logins| && s.log.logins[l].auth < |s.log.authorizes|
  }

  /** A call of issueTokens carries the login's identity, and is the only one that holds its lineage. */
  predicate JobOk(cfg: Config, s: State, h: nat, job: Job) {
    && KnownLogin(s, job.login) && job.id == s.log.logins[job.login].id && job.client == cfg.client
    && s.log.logins[job.login].token == Held(h)
    && match job.flow
       case ForCode(ar) => ar == RequestBehind(s, job.login) && job.nonce == ar.nonce
           && s.log.logins[job.login].code == Held(h)
       case ForRefresh(f) =>
         && job.nonce == "" && f.token in s.log.savedOf && s.log.savedOf[f.token].login == job.login
         && f.token in s.log.rotated && s.log.rotated[f.token] == Held(h) && ClientOf(f) == cfg.client
         && SecretOk(cfg, f)
  }

  /** Tokens speak of the login's identity, and their refresh token is of its lineage. */
  predicate TokensOk(cfg: Config, s: State, t: Issued, l: nat, nonce: string) {
    && l < |s.log.logins| && t.id == ClaimsOf(s.log.logins[l].id, cfg.client, nonce)
    && t.access.account == SanitizeName(cfg.lower, s.log.logins[l].id.email) && t.expiresIn == cfg.tokenSeconds
    && t.refresh in s.log.savedOf && s.log.savedOf[t.refresh].login == l
  }

  predicate RenewedBy(s: State, n: nat, l: nat) {
    n < |s.log.renewals| && s.log.renewals[n].login == l
  }

  predicate HandlerOk(cfg: Config, s: State, h: nat, w: Handler) {
    match w
    case Authenticating(ar, src) =>
      src < |s.log.authorizes| && s.log.authorizes[src].request == ar && s.log.authorizes[src].now == Held(h)
    case Upserting(job) => JobOk(cfg, s, h, job)
    case Waiting(job, n) => JobOk(cfg, s, h, job) && RenewedBy(s, n, job.login)
    case Minting(job, n) => JobOk(cfg, s, h, job) && RenewedBy(s, n, job.login)
    case SavingRefresh(job, n, access) =>
      JobOk(cfg, s, h, job) && RenewedBy(s, n, job.login) && access.account == SanitizeName(cfg.lower, job.id.email)
    case SavingCode(ar, tokens, l) =>
      KnownLogin(s, l) && ar == RequestBehind(s, l) && s.log.logins[l].code == Held(h)
          && TokensOk(cfg, s, tokens, l, ar.nonce)
  }

  /** A stored code belongs to the login that it is the only code of. */
  predicate CodeOk(cfg: Config, s: State, c: string, e: Entry<CodeGrant>) {
    && c in s.log.codeOf && KnownLogin(s, s.log.codeOf[c].login)
    && var l := s.log.codeOf[c].login; var ar := RequestBehind(s, l);
    && s.log.logins[l].code == Stored(Store.Code, c) && e.exp == s.log.codeOf[c].at + CODE_TTL
    && e.val.client == ar.client && e.val.redirect == ar.redirect && e.val.challenge == ar.challenge
    && e.val.nonce == ar.nonce
    && e.val.subject == s.log.logins[l].id.email && TokensOk(cfg, s, e.val.tokens, l, ar.nonce)
  }

  predicate CodedOk(s: State, c: string, x: Coded) {
    c in s.used && x.login < |s.log.logins| && s.log.logins[x.login].at <= x.at <= s.now
  }

  /** A stored refresh token holds the login's identity, and is the only one of its lineage. */
  predicate TokenOk(cfg: Config, s: State, t: string, e: Entry<RefreshGrant>) {
    && t in s.log.savedOf && t !in s.log.rotated && s.log.savedOf[t].login < |s.log.logins|
    && var l := s.log.logins[s.log.savedOf[t].login];
    && l.token == Stored(Store.Refresh, t)
    && e == Store.Entry(GrantOf(cfg.client, l.id), s.log.savedOf[t].at + cfg.refreshLifetime)
  }

  predicate SavedOk(s: State, t: string, x: Saved) {
    && t in s.used && x.login < |s.log.logins| && x.at <= s.now
    && RenewedBy(s, x.n, x.login) && s.log.renewals[x.n].stamp <= x.at
  }

  /** Every Upsert carries the identity of a login. */
  predicate RenewalOk(s: State, r: Renewal) {
    r.login < |s.log.logins| && r.id == s.log.logins[r.login].id && r.stamp <= s.now
  }

  predicate ResponseOk(cfg: Config, s: State, i: nat, r: Response) {
    && KnownLogin(s, r.login) && ClientOf(r.form) == cfg.client && SecretOk(cfg, r.form) && r.at <= s.now
    && match r.proof
       case ByCode(c) =>
         var ar := RequestBehind(s, r.login);
         && c == r.form.code && c in s.log.codeOf && s.log.codeOf[c].login == r.login
         && s.log.logins[r.login].code == Became(i)
         && r.form.redirect == ar.redirect && cfg.hash(r.form.verifier) == ar.challenge
         && s.log.codeOf[c].at <= r.at <= s.log.codeOf[c].at + CODE_TTL && TokensOk(cfg, s, r.tokens, r.login, ar.nonce)
       case ByRefresh(t) =>
         && t == r.form.token && t in s.log.savedOf && s.log.savedOf[t].login == r.login
         && t in s.log.rotated && s.log.rotated[t] == Became(i) && TokensOk(cfg, s, r.tokens, r.login, "")
  }

  predicate Requests(cfg: Config, s: State) {
    && (forall i | 0 <= i < |s.log.authorizes| :: RequestOk(cfg, s, s.log.authorizes[i]))
    && (forall k | k in s.log.authOf :: k in s.used && s.log.authOf[k] < |s.log.authorizes|)
  }

  predicate Auths(s: State) {
    forall k | k in s.auth :: AuthOk(s, k, s.auth[k])
  }

  predicate Logins(cfg: Config, s: State) {
    forall i | 0 <= i < |s.log.logins| :: LoginOk(cfg, s, i, s.log.logins[i])
  }

  predicate Handlers(cfg: Config, s: State) {
    forall h | h in s.handlers :: HandlerOk(cfg, s, h, s.handlers[h])
  }

  predicate Codes(cfg: Config, s: State) {
    && (forall c | c in s.codes :: CodeOk(cfg, s, c, s.codes[c]))
    && (forall c | c in s.log.codeOf :: CodedOk(s, c, s.log.codeOf[c]))
  }

  predicate Tokens(cfg: Config, s: State) {
    && (forall t | t in s.refresh :: TokenOk(cfg, s, t, s.refresh[t]))
    && (forall t | t in s.log.savedOf :: SavedOk(s, t, s.log.savedOf[t]))
    && (forall t | t in s.log.rotated :: t in s.log.savedOf)
  }

  predicate Renewals(s: State) {
    forall i | 0 <= i < |s.log.renewals| :: RenewalOk(s, s.log.renewals[i])
  }

  predicate Responses(cfg: Config, s: State) {
    forall i | 0 <= i < |s.log.responses| :: ResponseOk(cfg, s, i, s.log.responses[i])
  }

  predicate Inv(cfg: Config, s: State) {
    && Requests(cfg, s) && Auths(s) && Logins(cfg, s) && Handlers(cfg, s) && Codes(cfg, s) && Tokens(cfg, s)
    && Renewals(s) && Responses(cfg, s)
  }

  // ----- What stays when history grows and one thing moves -----

  /** History only grows, and but for the thing that was at `w` everything is where it was. */
  ghost predicate LogGrows(g: Log, g': Log, w: Whereabouts) {
    && g.renewals <= g'.renewals && g.responses <= g'.responses
    && |g.authorizes| <= |g'.authorizes| && |g.logins| <= |g'.logins|
    && (forall i | 0 <= i < |g.authorizes| :: SameRequest(g.authorizes[i], g'.authorizes[i], w))
    && (forall l | 0 <= l < |g.logins| :: SameLogin(g.logins[l], g'.logins[l], w))
    && (forall k | k in g.authOf :: k in g'.authOf && g'.authOf[k] == g.authOf[k])
    && (forall c | c in g.codeOf :: c in g'.codeOf && g'.codeOf[c] == g.codeOf[c])
    && (forall t | t in g.savedOf :: t in g'.savedOf && g'.savedOf[t] == g.savedOf[t])
    && (forall t | t in g.rotated :: t in g'.rotated && (g'.rotated[t] == g.rotated[t] || g.rotated[t] == w))
    && (forall t | t in g'.rotated :: t in g.rotated || w == Stored(Store.Refresh, t))
  }

  ghost predicate Grows(s: State, s': State, w: Whereabouts) {
    s.now <= s'.now && s.used <= s'.used && LogGrows(s.log, s'.log, w)
  }

  predicate SameRequest(a: Authorized, a': Authorized, w: Whereabouts) {
    a'.query == a.query && a'.request == a.request && a'.at == a.at && (a'.now == a.now || a.now == w)
  }

  predicate SameLogin(l: Login, l': Login, w: Whereabouts) {
    l'.id == l.id && l'.auth == l.auth && l'.at == l.at && (l'.token == l.token || l.token == w)
        && (l'.code == l.code || l.code == w)
  }

  lemma AuthStays(s: State, s': State, w: Whereabouts, k: string, e: Entry<AuthRequest>)
    requires Grows(s, s', w) && AuthOk(s, k, e) && w != Stored(Store.Auth, k)
    ensures AuthOk(s', k, e)
  {
    assert SameRequest(s.log.authorizes[s.log.authOf[k]], s'.log.authorizes[s.log.authOf[k]], w);
  }

  lemma LoginStays(cfg: Config, s: State, s': State, w: Whereabouts, i: nat)
    requires Grows(s, s', w) && !w.Became? && i < |s.log.logins| && LoginOk(cfg, s, i, s.log.logins[i])
    ensures LoginOk(cfg, s', i, s'.log.logins[i])
  {
    assert SameLogin(s.log.logins[i], s'.log.logins[i], w);
    assert SameRequest(s.log.authorizes[s.log.logins[i].auth], s'.log.authorizes[s.log.logins[i].auth], w);
  }

  lemma RequestStays(s: State, s': State, w: Whereabouts, l: nat)
    requires Grows(s, s', w) && KnownLogin(s, l)
    ensures KnownLogin(s', l) && RequestBehind(s', l) == RequestBehind(s, l)
    ensures SameLogin(s.log.logins[l], s'.log.logins[l], w)
  {
    assert SameLogin(s.log.logins[l], s'.log.logins[l], w);
    assert SameRequest(s.log.authorizes[s.log.logins[l].auth], s'.log.authorizes[s.log.logins[l].auth], w);
  }

  lemma TokensStay(cfg: Config, s: State, s': State, w: Whereabouts, t: Issued, l: nat, nonce: string)
    requires Grows(s, s', w) && TokensOk(cfg, s, t, l, nonce)
    ensures TokensOk(cfg, s', t, l, nonce)
  {
    assert SameLogin(s.log.logins[l], s'.log.logins[l], w);
  }

  lemma JobStays(cfg: Config, s: State, s': State, w: Whereabouts, h: nat, job: Job)
    requires Grows(s, s', w) && w != Held(h) && JobOk(cfg, s, h, job)
    ensures JobOk(cfg, s', h, job)
  {
    RequestStays(s, s', w, job.login);
  }

  lemma RenewedStays(s: State, s': State, w: Whereabouts, n: nat, l: nat)
    requires Grows(s, s', w) && RenewedBy(s, n, l)
    ensures RenewedBy(s', n, l) && s'.log.renewals[n] == s.log.renewals[n]
  {
  }

  lemma HandlerStays(cfg: Config, s: State, s': State, w: Whereabouts, h: nat, x: Handler)
    requires Grows(s, s', w) && w != Held(h) && HandlerOk(cfg, s, h, x)
    ensures HandlerOk(cfg, s', h, x)
  {
    match x
    case Authenticating(ar, src) => assert SameRequest(s.log.authorizes[src], s'.log.authorizes[src], w);
    case SavingCode(ar, tokens, l) =>
      RequestStays(s, s', w, l);
      TokensStay(cfg, s, s', w, tokens, l, ar.nonce);
    case Upserting(job) => JobStays(cfg, s, s', w, h, job);
    case _ =>
      JobStays(cfg, s, s', w, h, x.job);
      RenewedStays(s, s', w, x.n, x.job.login);
  }

  lemma CodeStays(cfg: Config, s: State, s': State, w: Whereabouts, c: string, e: Entry<CodeGrant>)
    requires Grows(s, s', w) && w != Stored(Store.Code, c) && CodeOk(cfg, s, c, e)
    ensures CodeOk(cfg, s', c, e)
  {
    var l := s.log.codeOf[c].login;
    RequestStays(s, s', w, l);
    TokensStay(cfg, s, s', w, e.val.tokens, l, e.val.nonce);
  }

  lemma TokenStays(cfg: Config, s: State, s': State, w: Whereabouts, t: string, e: Entry<RefreshGrant>)
    requires Grows(s, s', w) && w != Stored(Store.Refresh, t) && TokenOk(cfg, s, t, e)
    ensures TokenOk(cfg, s', t, e)
  {
    assert SameLogin(s.log.logins[s.log.savedOf[t].login], s'.log.logins[s.log.savedOf[t].login], w);
  }

  lemma HistoryStays(s: State, s': State, w: Whereabouts)
    requires Grows(s, s', w)
    ensures forall c, x: Coded | CodedOk(s, c, x) :: CodedOk(s', c, x)
    ensures forall t, x: Saved | SavedOk(s, t, x) :: SavedOk(s', t, x)
    ensures forall r | RenewalOk(s, r) :: RenewalOk(s', r)
  {
    forall c, x: Coded | CodedOk(s, c, x)
      ensures CodedOk(s', c, x) { assert SameLogin(s.log.logins[x.login], s'.log.logins[x.login], w); }
    forall t, x: Saved | SavedOk(s, t, x) ensures SavedOk(s', t, x) { RenewedStays(s, s', w, x.n, x.login); }
    forall r | RenewalOk(s, r)
      ensures RenewalOk(s', r) { assert SameLogin(s.log.logins[r.login], s'.log.logins[r.login], w); }
  }

  lemma ResponseStays(cfg: Config, s: State, s': State, w: Whereabouts, i: nat, r: Response)
    requires Grows(s, s', w) && !w.Became? && ResponseOk(cfg, s, i, r)
    ensures ResponseOk(cfg, s', i, r)
  {
    RequestStays(s, s', w, r.login);
    TokensStay(cfg, s, s', w, r.tokens, r.login, if r.proof.ByCode? then RequestBehind(s, r.login).nonce else "");
  }

  /** Everything of `s` that was not at `w` is as it should be in `s'`. */
  ghost predicate Stays(cfg: Config, s: State, s': State, w: Whereabouts) {
    && |s.log.authorizes| <= |s'.log.authorizes| && |s.log.logins| <= |s'.log.logins|
    && (forall i | 0 <= i < |s.log.authorizes| :: RequestOk(cfg, s', s'.log.authorizes[i]))
    && (forall k | k in s.log.authOf :: k in s'.used && s.log.authOf[k] < |s'.log.authorizes|)
    && (forall k | k in s.auth && w != Stored(Store.Auth, k) :: AuthOk(s', k, s.auth[k]))
    && (forall i | 0 <= i < |s.log.logins| :: LoginOk(cfg, s', i, s'.log.logins[i]))
    && (forall h | h in s.handlers && w != Held(h) :: HandlerOk(cfg, s', h, s.handlers[h]))
    && (forall c | c in s.codes && w != Stored(Store.Code, c) :: CodeOk(cfg, s', c, s.codes[c]))
    && (forall c | c in s.log.codeOf :: CodedOk(s', c, s.log.codeOf[c]))
    && (forall t | t in s.refresh && w != Stored(Store.Refresh, t) :: TokenOk(cfg, s', t, s.refresh[t]))
    && (forall t | t in s.log.savedOf :: SavedOk(s', t, s.log.savedOf[t]))
    && (forall i | 0 <= i < |s.log.renewals| :: RenewalOk(s', s.log.renewals[i]))
    && (forall i | 0 <= i < |s.log.responses| :: ResponseOk(cfg, s', i, s.log.responses[i]))
  }

  lemma Frame(cfg: Config, s: State, s': State, w: Whereabouts)
    requires Inv(cfg, s) && Grows(s, s', w) && !w.Became?
    ensures Stays(cfg, s, s', w)
  {
    HistoryStays(s, s', w);
    forall i | 0 <= i < |s.log.authorizes| ensures RequestOk(cfg, s', s'.log.authorizes[i]) {
      assert RequestOk(cfg, s, s.log.authorizes[i]) && SameRequest(s.log.authorizes[i], s'.log.authorizes[i], w);
    }
    forall k | k in s.auth && w != Stored(Store.Auth, k)
      ensures AuthOk(s', k, s.auth[k]) { AuthStays(s, s', w, k, s.auth[k]); }
    forall i | 0 <= i < |s.log.logins| ensures LoginOk(cfg, s', i, s'.log.logins[i]) { LoginStays(cfg, s, s', w, i); }
    forall h | h in s.handlers && w != Held(h) ensures HandlerOk(cfg, s', h, s.handlers[h]) {
      HandlerStays(cfg, s, s', w, h, s.handlers[h]);
    }
    forall c | c in s.codes && w != Stored(Store.Code, c)
      ensures CodeOk(cfg, s', c, s.codes[c]) { CodeStays(cfg, s, s', w, c, s.codes[c]); }
    forall t | t in s.refresh && w != Stored(Store.Refresh, t) ensures TokenOk(cfg, s', t, s.refresh[t]) {
      TokenStays(cfg, s, s', w, t, s.refresh[t]);
    }
    forall i | 0 <= i < |s.log.responses| ensures ResponseOk(cfg, s', i, s.log.responses[i]) {
      ResponseStays(cfg, s, s', w, i, s.log.responses[i]);
    }
  }

  // Whatever `s'` has that `s` had not is as it should be: one predicate per part of the state.

  predicate Either(kept: bool, ok: bool) {
    kept || ok
  }

  ghost predicate NewRequests(cfg: Config, s: State, s': State, w: Whereabouts) {
    && (forall i | |s.log.authorizes| <= i < |s'.log.authorizes| :: RequestOk(cfg, s', s'.log.authorizes[i]))
    && (forall k | k in s'.log.authOf ::
          Either(k in s.log.authOf && s'.log.authOf[k] == s.log.authOf[k], k in s'.used
                 && s'.log.authOf[k] < |s'.log.authorizes|))
    && (forall k | k in s'.auth ::
          Either(k in s.auth && w != Stored(Store.Auth, k) && s'.auth[k] == s.auth[k], AuthOk(s', k, s'.auth[k])))
  }

  ghost predicate NewLogins(cfg: Config, s: State, s': State) {
    forall i | |s.log.logins| <= i < |s'.log.logins| :: LoginOk(cfg, s', i, s'.log.logins[i])
  }

  ghost predicate NewHandlers(cfg: Config, s: State, s': State, w: Whereabouts) {
    forall h | h in s'.handlers ::
      Either(h in s.handlers && w != Held(h) && s'.handlers[h] == s.handlers[h], HandlerOk(cfg, s', h, s'.handlers[h]))
  }

  ghost predicate NewCodes(cfg: Config, s: State, s': State, w: Whereabouts) {
    && (forall c | c in s'.codes ::
          Either(c in s.codes && w != Stored(Store.Code, c)
                 && s'.codes[c] == s.codes[c], CodeOk(cfg, s', c, s'.codes[c])))
    && (forall c | c in s'.log.codeOf ::
        Either(c in s.log.codeOf && s'.log.codeOf[c] == s.log.codeOf[c], CodedOk(s', c, s'.log.codeOf[c])))
  }

  ghost predicate NewTokens(cfg: Config, s: State, s': State, w: Whereabouts) {
    && (forall t | t in s'.refresh ::
          Either(t in s.refresh && w != Stored(Store.Refresh, t)
                 && s'.refresh[t] == s.refresh[t], TokenOk(cfg, s', t, s'.refresh[t])))
    && (forall t | t in s'.log.savedOf ::
        Either(t in s.log.savedOf && s'.log.savedOf[t] == s.log.savedOf[t], SavedOk(s', t, s'.log.savedOf[t])))
    && (forall t | t in s'.log.rotated :: t in s'.log.savedOf)
  }

  ghost predicate NewAnswers(cfg: Config, s: State, s': State) {
    && (forall i | |s.log.renewals| <= i < |s'.log.renewals| :: RenewalOk(s', s'.log.renewals[i]))
    && (forall i | |s.log.responses| <= i < |s'.log.responses| :: ResponseOk(cfg, s', i, s'.log.responses[i]))
  }

  /** One thing moved from `w`, and what is new is as it should be. */
  ghost predicate Moves(cfg: Config, s: State, s': State, w: Whereabouts) {
    && Grows(s, s', w) && !w.Became?
    && NewRequests(cfg, s, s', w) && NewLogins(cfg, s, s') && NewHandlers(cfg, s, s', w) && NewCodes(cfg, s, s', w)
    && NewTokens(cfg, s, s', w) && NewAnswers(cfg, s, s')
  }

  lemma Rebuild(cfg: Config, s: State, s': State, w: Whereabouts)
    requires Inv(cfg, s) && Moves(cfg, s, s', w)
    ensures Inv(cfg, s')
  {
    Frame(cfg, s, s', w);
    JoinedRequests(cfg, s, s', w);
    JoinedHandlers(cfg, s, s', w);
    JoinedCodes(cfg, s, s', w);
    JoinedTokens(cfg, s, s', w);
    JoinedAnswers(cfg, s, s', w);
  }

  lemma JoinedRequests(cfg: Config, s: State, s': State, w: Whereabouts)
    requires Stays(cfg, s, s', w) && NewRequests(cfg, s, s', w) && NewLogins(cfg, s, s')
    ensures Requests(cfg, s') && Auths(s') && Logins(cfg, s')
  {
  }

  lemma JoinedHandlers(cfg: Config, s: State, s': State, w: Whereabouts)
    requires Stays(cfg, s, s', w) && NewHandlers(cfg, s, s', w)
    ensures Handlers(cfg, s')
  {
  }

  lemma JoinedCodes(cfg: Config, s: State, s': State, w: Whereabouts)
    requires Stays(cfg, s, s', w) && NewCodes(cfg, s, s', w)
    ensures Codes(cfg, s')
  {
  }

  lemma JoinedTokens(cfg: Config, s: State, s': State, w: Whereabouts)
    requires Stays(cfg, s, s', w) && NewTokens(cfg, s, s', w)
    ensures Tokens(cfg, s')
  {
  }

  lemma JoinedAnswers(cfg: Config, s: State, s': State, w: Whereabouts)
    requires Stays(cfg, s, s', w) && NewAnswers(cfg, s, s') && s.log.renewals <= s'.log.renewals
    requires s.log.responses <= s'.log.responses
    ensures Renewals(s') && Responses(cfg, s')
  {
    forall i | 0 <= i < |s'.log.responses| ensures ResponseOk(cfg, s', i, s'.log.responses[i]) {
      if i < |s.log.responses| { assert s'.log.responses[i] == s.log.responses[i]; }
    }
    forall i | 0 <= i < |s'.log.renewals| ensures RenewalOk(s', s'.log.renewals[i]) {
      if i < |s.log.renewals| { assert s'.log.renewals[i] == s.log.renewals[i]; }
    }
  }

  // Parts that a step leaves alone.

  lemma SameRequests(cfg: Config, s: State, s': State, w: Whereabouts)
    requires s'.auth == s.auth && s'.log.authOf == s.log.authOf && |s'.log.authorizes| == |s.log.authorizes|
    requires !(w.Stored? && w.kind.Auth?)
    ensures NewRequests(cfg, s, s', w)
  {
  }

  lemma SameCodes(cfg: Config, s: State, s': State, w: Whereabouts)
    requires s'.codes == s.codes && s'.log.codeOf == s.log.codeOf && !(w.Stored? && w.kind.Code?)
    ensures NewCodes(cfg, s, s', w)
  {
  }

  lemma SameTokens(cfg: Config, s: State, s': State, w: Whereabouts)
    requires s'.refresh == s.refresh && s'.log.savedOf == s.log.savedOf && s'.log.rotated.Keys == s.log.rotated.Keys
    requires !(w.Stored? && w.kind.Refresh?)
    requires RotatedSaved(s)
    ensures NewTokens(cfg, s, s', w)
  {
    forall t | t in s'.log.rotated ensures t in s'.log.savedOf { assert t in s.log.rotated.Keys; }
  }

  predicate RotatedSaved(s: State) {
    forall t | t in s.log.rotated :: t in s.log.savedOf
  }

  lemma OneHandler(cfg: Config, s: State, s': State, w: Whereabouts, h: nat)
    requires s'.handlers - {h} == s.handlers - {h} && (w == Held(h) || !w.Held?)
    requires h in s'.handlers ==> HandlerOk(cfg, s', h, s'.handlers[h])
    ensures NewHandlers(cfg, s, s', w)
  {
    forall x | x in s'.handlers && x != h ensures x in s.handlers && s'.handlers[x] == s.handlers[x] {
      assert x in s'.handlers - {h} && (s'.handlers - {h})[x] == s'.handlers[x];
      assert (s.handlers - {h})[x] == s.handlers[x];
    }
  }

  lemma Replaced(m: map<nat, Handler>, m': map<nat, Handler>, h: nat)
    requires m' == m - {h} || (h in m' && m' == m[h := m'[h]])
    ensures m' - {h} == m - {h}
  {
  }

  lemma SameHandlers(cfg: Config, s: State, s': State, w: Whereabouts)
    requires s'.handlers == s.handlers && !w.Held?
    ensures NewHandlers(cfg, s, s', w)
  {
  }

  // ----- What each step moves and makes -----

  /** Only handler `h` goes on or ends. */
  lemma GoesOn(cfg: Config, s: State, s': State, h: nat)
    requires s' == s.(handlers := s'.handlers) && s'.handlers - {h} == s.handlers - {h} && RotatedSaved(s)
    requires h in s'.handlers ==> HandlerOk(cfg, s, h, s'.handlers[h])
    ensures Moves(cfg, s, s', Held(h))
  {
    if h in s'.handlers { HandlerStays(cfg, s, s', Nowhere, h, s'.handlers[h]); }
    OneHandler(cfg, s, s', Held(h), h);
    SameRequests(cfg, s, s', Held(h));
    SameCodes(cfg, s, s', Held(h));
    SameTokens(cfg, s, s', Held(h));
  }

  lemma Ends(cfg: Config, s: State, h: nat)
    requires RotatedSaved(s)
    ensures Moves(cfg, s, End(s, h), Held(h))
  {
    Replaced(s.handlers, s.handlers - {h}, h);
    GoesOn(cfg, s, End(s, h), h);
  }

  lemma Waits(cfg: Config, s: State, h: nat, job: Job, n: nat)
    requires HandlerOk(cfg, s, h, Waiting(job, n)) && RotatedSaved(s)
    ensures Moves(cfg, s, Go(s, h, Minting(job, n)), Held(h))
  {
    Replaced(s.handlers, s.handlers[h := Minting(job, n)], h);
    GoesOn(cfg, s, Go(s, h, Minting(job, n)), h);
  }

  lemma Mints(cfg: Config, s: State, h: nat, job: Job, n: nat, text: Option<string>)
    requires HandlerOk(cfg, s, h, Minting(job, n)) && RotatedSaved(s)
    ensures Moves(cfg, s, DoMint(cfg, s, h, job, n, text), Held(h))
  {
    if text.None? {
      Ends(cfg, s, h);
    } else {
      var w := SavingRefresh(job, n, Access(SanitizeName(cfg.lower, job.id.email), text.value));
      Replaced(s.handlers, s.handlers[h := w], h);
      GoesOn(cfg, s, Go(s, h, w), h);
    }
  }

  /** A random token was drawn for nothing. */
  lemma EndsUsing(cfg: Config, s: State, h: nat, token: string)
    requires RotatedSaved(s)
    ensures Moves(cfg, s, End(s.(used := s.used + {token}), h), Held(h))
  {
    var s', w := End(s.(used := s.used + {token}), h), Held(h);
    Replaced(s.handlers, s.handlers - {h}, h);
    OneHandler(cfg, s, s', w, h);
    SameRequests(cfg, s, s', w);
    SameCodes(cfg, s, s', w);
    SameTokens(cfg, s, s', w);
  }

  // Authorize.

  lemma NoteRequestGrows(g: Log, key: string, q: Query, ar: AuthRequest, now: int)
    requires key !in g.authOf
    ensures LogGrows(g, NoteRequest(g, key, q, ar, now), Nowhere)
  {
  }

  lemma RequestStored(cfg: Config, s: State, s': State, q: Query, key: string, nonce: string)
    requires Acceptable(cfg, q) && key !in s.log.authOf && RotatedSaved(s)
    requires s' == s.(used := s.used + {key, nonce},
                      auth := s.auth[key := Store.Entry(RequestOf(q, nonce), s.now + AUTH_REQUEST_TTL)],
                      log := NoteRequest(s.log, key, q, RequestOf(q, nonce), s.now))
    ensures Moves(cfg, s, s', Nowhere)
  {
    NoteRequestGrows(s.log, key, q, RequestOf(q, nonce), s.now);
    SameHandlers(cfg, s, s', Nowhere);
    SameCodes(cfg, s, s', Nowhere);
    SameTokens(cfg, s, s', Nowhere);
    assert RequestOk(cfg, s', s'.log.authorizes[|s.log.authorizes|]);
    assert AuthOk(s', key, s'.auth[key]);
  }

  lemma Draws(cfg: Config, s: State, used: set<string>)
    requires s.used <= used && RotatedSaved(s)
    ensures Moves(cfg, s, s.(used := used), Nowhere)
  {
    SameHandlers(cfg, s, s.(used := used), Nowhere);
    SameRequests(cfg, s, s.(used := used), Nowhere);
    SameCodes(cfg, s, s.(used := used), Nowhere);
    SameTokens(cfg, s, s.(used := used), Nowhere);
  }

  lemma Authorizes(cfg: Config, s: State, q: Query, key: string, nonce: string, o: Outcome)
    requires Acceptable(cfg, q) && key !in s.log.authOf && RotatedSaved(s)
    ensures Moves(cfg, s, DoAuthorize(cfg, s, q, key, nonce, o), Nowhere)
  {
    if o == Refused {
      Draws(cfg, s, s.used + {key, nonce});
    } else {
      RequestStored(cfg, s, DoAuthorize(cfg, s, q, key, nonce, o), q, key, nonce);
    }
  }

  // Callback.

  lemma NoteCallbackGrows(g: Log, key: string, h: nat)
    requires key in g.authOf && g.authOf[key] < |g.authorizes|
    requires g.authorizes[g.authOf[key]].now == Stored(Store.Auth, key)
    ensures LogGrows(g, NoteCallback(g, key, h), Stored(Store.Auth, key))
  {
  }

  /** A request left the store. */
  lemma RequestTaken(cfg: Config, s: State, s': State, key: string)
    requires s' == s.(auth := s.auth - {key}, handlers := s'.handlers, log := s.log.(authorizes := s'.log.authorizes))
    requires |s'.log.authorizes| == |s.log.authorizes| && RotatedSaved(s)
    ensures var w := Stored(Store.Auth, key);
      && NewRequests(cfg, s, s', w) && NewLogins(cfg, s, s') && NewCodes(cfg, s, s', w) && NewTokens(cfg, s, s', w)
      && NewAnswers(cfg, s, s')
  {
    SameCodes(cfg, s, s', Stored(Store.Auth, key));
    SameTokens(cfg, s, s', Stored(Store.Auth, key));
  }

  lemma CallsHeld(cfg: Config, s: State, s': State, h: nat, key: string)
    requires h !in s.handlers && key in s.auth && AuthOk(s, key, s.auth[key]) && RotatedSaved(s)
    requires s' == s.(auth := s.auth - {key}, log := NoteCallback(s.log, key, h),
                      handlers := s.handlers[h := Authenticating(s.auth[key].val, AuthIndex(s.log, key))])
    ensures Moves(cfg, s, s', Stored(Store.Auth, key))
  {
    RequestTaken(cfg, s, s', key);
    NoteCallbackGrows(s.log, key, h);
    Replaced(s.handlers, s'.handlers, h);
    OneHandler(cfg, s, s', Stored(Store.Auth, key), h);
  }

  lemma CallsFail(cfg: Config, s: State, key: string)
    requires RotatedSaved(s)
    ensures Moves(cfg, s, s.(auth := s.auth - {key}), Stored(Store.Auth, key))
  {
    RequestTaken(cfg, s, s.(auth := s.auth - {key}), key);
    SameHandlers(cfg, s, s.(auth := s.auth - {key}), Stored(Store.Auth, key));
  }

  lemma Calls(cfg: Config, s: State, h: nat, key: string, error: string, o: Outcome)
    requires h !in s.handlers && o != Refused && (key in s.auth ==> AuthOk(s, key, s.auth[key])) && RotatedSaved(s)
    ensures Moves(cfg, s, DoCallback(s, h, key, error, o), Stored(Store.Auth, key))
  {
    if o == Lost || Live(s.auth, key, s.now).None? || error != "" {
      CallsFail(cfg, s, key);
    } else {
      CallsHeld(cfg, s, DoCallback(s, h, key, error, o), h, key);
    }
  }

  // Authenticate.

  lemma NoteLoginGrows(g: Log, h: nat, src: nat, id: Identity, now: int)
    requires src < |g.authorizes| && g.authorizes[src].now == Held(h)
    ensures LogGrows(g, NoteLogin(g, h, src, id, now), Held(h))
  {
  }

  /** The new login, and the call of issueTokens that it starts. */
  lemma LoginMade(cfg: Config, s: State, s': State, h: nat, ar: AuthRequest, src: nat, id: Identity)
    requires HandlerOk(cfg, s, h, Authenticating(ar, src)) && RequestOk(cfg, s, s.log.authorizes[src])
    requires Vetted(cfg, id)
    requires s'.now == s.now && s'.log == NoteLogin(s.log, h, src, id, s.now)
    ensures NewLogins(cfg, s, s')
    ensures HandlerOk(cfg, s', h, Upserting(Job(ForCode(ar), id, ar.client, ar.nonce, |s.log.logins|)))
  {
  }

  lemma Enters(cfg: Config, s: State, s': State, h: nat, ar: AuthRequest, src: nat, id: Identity)
    requires HandlerOk(cfg, s, h, Authenticating(ar, src)) && RequestOk(cfg, s, s.log.authorizes[src])
    requires Vetted(cfg, id) && RotatedSaved(s)
    requires s' == s.(log := NoteLogin(s.log, h, src, id, s.now),
                      handlers := s.handlers[h := Upserting(Job(ForCode(ar), id, ar.client, ar.nonce, |s.log.logins|))])
    ensures Moves(cfg, s, s', Held(h))
  {
    NoteLoginGrows(s.log, h, src, id, s.now);
    LoginMade(cfg, s, s', h, ar, src, id);
    Replaced(s.handlers, s'.handlers, h);
    OneHandler(cfg, s, s', Held(h), h);
    SameRequests(cfg, s, s', Held(h));
    SameCodes(cfg, s, s', Held(h));
    SameTokens(cfg, s, s', Held(h));
  }

  lemma Authenticates(cfg: Config, s: State, h: nat, ar: AuthRequest, src: nat, a: Option<Identity>)
    requires HandlerOk(cfg, s, h, Authenticating(ar, src)) && RequestOk(cfg, s, s.log.authorizes[src])
    requires RotatedSaved(s)
    ensures Moves(cfg, s, DoAuthenticate(cfg, s, h, ar, src, a), Held(h))
  {
    if a.None? || !Vetted(cfg, a.value) {
      Ends(cfg, s, h);
    } else {
      Enters(cfg, s, DoAuthenticate(cfg, s, h, ar, src, a), h, ar, src, a.value);
    }
  }

  // Upsert.

  lemma Renews(cfg: Config, s: State, h: nat, job: Job, stamp: int, o: Outcome)
    requires HandlerOk(cfg, s, h, Upserting(job)) && RotatedSaved(s) && stamp <= s.now
    ensures Moves(cfg, s, DoUpsert(s, h, job, stamp, o), Held(h))
  {
    if o == Refused {
      Ends(cfg, s, h);
    } else {
      var s' := DoUpsert(s, h, job, stamp, o);
      assert LogGrows(s.log, s'.log, Nowhere) && LogGrows(s.log, s'.log, Held(h));
      Written(cfg, s, s', h, job, stamp);
    }
  }

  lemma Written(cfg: Config, s: State, s': State, h: nat, job: Job, stamp: int)
    requires HandlerOk(cfg, s, h, Upserting(job)) && RotatedSaved(s) && stamp <= s.now
    requires s' == s.(log := NoteRenewal(s.log, job, stamp), handlers := s'.handlers)
    requires s'.handlers == s.handlers - {h} || s'.handlers == s.handlers[h := Waiting(job, |s.log.renewals|)]
    requires LogGrows(s.log, s'.log, Nowhere) && LogGrows(s.log, s'.log, Held(h))
    ensures Moves(cfg, s, s', Held(h))
  {
    JobStays(cfg, s, s', Nowhere, h, job);
    Replaced(s.handlers, s'.handlers, h);
    OneHandler(cfg, s, s', Held(h), h);
    SameRequests(cfg, s, s', Held(h));
    SameCodes(cfg, s, s', Held(h));
    SameTokens(cfg, s, s', Held(h));
  }

  // SaveRefresh.

  lemma NoteSavedGrows(g: Log, h: nat, job: Job, n: nat, token: string, now: int)
    requires job.login < |g.logins| && g.logins[job.login].token == Held(h) && token !in g.savedOf
    ensures LogGrows(g, NoteSaved(g, job, n, token, now), Held(h))
  {
  }

  /** What saving the token makes, whatever the handler does next. */
  lemma Saves(cfg: Config, s: State, s': State, h: nat, job: Job, n: nat, token: string)
    requires JobOk(cfg, s, h, job) && RenewedBy(s, n, job.login) && token !in s.log.savedOf && RotatedSaved(s)
    requires RenewalOk(s, s.log.renewals[n]) && s'.now == s.now && s'.used == s.used + {token}
    requires s'.refresh == s.refresh[token := Store.Entry(GrantOf(job.client, job.id), s.now + cfg.refreshLifetime)]
    requires var g := NoteSaved(s.log, job, n, token, s.now);
      s'.log == g.(responses := s'.log.responses, rotated := s'.log.rotated)
          && s'.log.rotated.Keys == s.log.rotated.Keys
    ensures NewTokens(cfg, s, s', Held(h))
  {
    assert token !in s.log.rotated.Keys;
    assert SavedOk(s', token, s'.log.savedOf[token]);
    assert TokenOk(cfg, s', token, s'.refresh[token]);
    forall t | t in s'.log.rotated ensures t in s'.log.savedOf { assert t in s.log.rotated.Keys; }
  }

  lemma SavesAndEnds(cfg: Config, s: State, h: nat, job: Job, n: nat, token: string)
    requires JobOk(cfg, s, h, job) && RenewedBy(s, n, job.login) && token !in s.log.savedOf && RotatedSaved(s)
    requires RenewalOk(s, s.log.renewals[n])
    ensures Moves(cfg, s, End(PutRefresh(cfg, s, job, n, token), h), Held(h))
  {
    var s', w := End(PutRefresh(cfg, s, job, n, token), h), Held(h);
    NoteSavedGrows(s.log, h, job, n, token, s.now);
    Saves(cfg, s, s', h, job, n, token);
    Replaced(s.handlers, s'.handlers, h);
    OneHandler(cfg, s, s', w, h);
    SameRequests(cfg, s, s', w);
    SameCodes(cfg, s, s', w);
  }

  lemma CodeIsNext(cfg: Config, s: State, s': State, h: nat, job: Job, n: nat, access: Access, token: string)
    requires HandlerOk(cfg, s, h, SavingRefresh(job, n, access)) && job.flow.ForCode?
    requires s'.log == NoteSaved(s.log, job, n, token, s.now)
    ensures HandlerOk(cfg, s', h, SavingCode(job.flow.auth, TokensOf(cfg, job, access, token), job.login))
  {
  }

  /** The token is saved, and a code is next. */
  lemma SavesForCode(cfg: Config, s: State, h: nat, job: Job, n: nat, access: Access, token: string)
    requires HandlerOk(cfg, s, h, SavingRefresh(job, n, access)) && token !in s.log.savedOf && RotatedSaved(s)
    requires RenewalOk(s, s.log.renewals[n]) && job.flow.ForCode?
    ensures Moves(cfg, s, DoSaveRefresh(cfg, s, h, job, n, access, token, Ok), Held(h))
  {
    var s', w := DoSaveRefresh(cfg, s, h, job, n, access, token, Ok), Held(h);
    NoteSavedGrows(s.log, h, job, n, token, s.now);
    Saves(cfg, s, s', h, job, n, token);
    CodeIsNext(cfg, s, s', h, job, n, access, token);
    Replaced(s.handlers, s'.handlers, h);
    OneHandler(cfg, s, s', w, h);
    SameRequests(cfg, s, s', w);
    SameCodes(cfg, s, s', w);
  }

  lemma NoteRotatedGrows(g: Log, h: nat, job: Job, n: nat, tokens: Issued, token: string, now: int)
    requires job.login < |g.logins| && g.logins[job.login].token == Held(h) && token !in g.savedOf
    requires job.flow.ForRefresh?
    requires job.flow.form.token in g.rotated && g.rotated[job.flow.form.token] == Held(h)
    ensures LogGrows(g, NoteRotated(NoteSaved(g, job, n, token, now), job.flow.form, job.login, tokens, now), Held(h))
  {
    NoteSavedGrows(g, h, job, n, token, now);
  }

  lemma RefreshAnswered(cfg: Config, s: State, s': State, h: nat, job: Job, n: nat, access: Access, token: string)
    requires HandlerOk(cfg, s, h, SavingRefresh(job, n, access)) && job.flow.ForRefresh? && s'.now == s.now
    requires token !in s.log.savedOf
    requires s'.log == NoteRotated(NoteSaved(s.log, job, n, token, s.now), job.flow.form, job.login,
                                   TokensOf(cfg, job, access, token), s.now)
    ensures NewAnswers(cfg, s, s')
  {
    assert ResponseOk(cfg, s', |s.log.responses|, s'.log.responses[|s.log.responses|]);
  }

  /** What saving a token leaves alone. */
  lemma SavesElse(cfg: Config, s: State, s': State, h: nat)
    requires s'.auth == s.auth && s'.codes == s.codes && s'.log.authorizes == s.log.authorizes
    requires s'.log.authOf == s.log.authOf && s'.log.codeOf == s.log.codeOf && |s'.log.logins| == |s.log.logins|
    requires s'.handlers - {h} == s.handlers - {h} && (h in s'.handlers ==> HandlerOk(cfg, s', h, s'.handlers[h]))
    ensures NewRequests(cfg, s, s', Held(h)) && NewLogins(cfg, s, s') && NewHandlers(cfg, s, s', Held(h))
    ensures NewCodes(cfg, s, s', Held(h))
  {
    OneHandler(cfg, s, s', Held(h), h);
    SameRequests(cfg, s, s', Held(h));
    SameCodes(cfg, s, s', Held(h));
  }

  lemma RefreshSettled(cfg: Config, s: State, s': State, h: nat, job: Job, n: nat, access: Access, token: string)
    requires HandlerOk(cfg, s, h, SavingRefresh(job, n, access)) && token !in s.log.savedOf && RotatedSaved(s)
    requires RenewalOk(s, s.log.renewals[n]) && job.flow.ForRefresh?
    requires s'.now == s.now && s'.auth == s.auth && s'.codes == s.codes && s'.used == s.used + {token}
    requires s'.handlers == s.handlers - {h}
    requires s'.refresh
          == s.refresh[token := Store.Entry(GrantOf(job.client, job.id), s.now + cfg.refreshLifetime)]
    requires s'.log == NoteRotated(NoteSaved(s.log, job, n, token, s.now), job.flow.form, job.login,
                                   TokensOf(cfg, job, access, token), s.now)
    ensures Moves(cfg, s, s', Held(h))
  {
    NoteRotatedGrows(s.log, h, job, n, TokensOf(cfg, job, access, token), token, s.now);
    RefreshAnswered(cfg, s, s', h, job, n, access, token);
    assert s'.log.rotated.Keys == s.log.rotated.Keys;
    Saves(cfg, s, s', h, job, n, token);
    Replaced(s.handlers, s'.handlers, h);
    SavesElse(cfg, s, s', h);
  }

  /** The token is saved, and the refresh grant is answered. */
  lemma SavesForRefresh(cfg: Config, s: State, h: nat, job: Job, n: nat, access: Access, token: string)
    requires HandlerOk(cfg, s, h, SavingRefresh(job, n, access)) && token !in s.log.savedOf && RotatedSaved(s)
    requires RenewalOk(s, s.log.renewals[n]) && job.flow.ForRefresh?
    ensures Moves(cfg, s, DoSaveRefresh(cfg, s, h, job, n, access, token, Ok), Held(h))
  {
    RefreshSettled(cfg, s, DoSaveRefresh(cfg, s, h, job, n, access, token, Ok), h, job, n, access, token);
  }

  lemma SavesToken(cfg: Config, s: State, h: nat, job: Job, n: nat, access: Access, token: string, o: Outcome)
    requires HandlerOk(cfg, s, h, SavingRefresh(job, n, access)) && token !in s.log.savedOf && RotatedSaved(s)
    requires RenewalOk(s, s.log.renewals[n])
    ensures Moves(cfg, s, DoSaveRefresh(cfg, s, h, job, n, access, token, o), Held(h))
  {
    match o
    case Lost => SavesAndEnds(cfg, s, h, job, n, token);
    case Refused => EndsUsing(cfg, s, h, token);
    case Ok =>
      if job.flow.ForCode? {
        SavesForCode(cfg, s, h, job, n, access, token);
      } else {
        SavesForRefresh(cfg, s, h, job, n, access, token);
      }
  }

  // SaveCode.

  lemma NoteCodeGrows(g: Log, h: nat, code: string, l: nat, now: int)
    requires l < |g.logins| && g.logins[l].code == Held(h) && code !in g.codeOf
    ensures LogGrows(g, NoteCode(g, code, l, now), Held(h))
  {
  }

  lemma CodeMade(cfg: Config, s: State, s': State, h: nat, ar: AuthRequest, tokens: Issued, l: nat, code: string)
    requires HandlerOk(cfg, s, h, SavingCode(ar, tokens, l)) && LoginOk(cfg, s, l, s.log.logins[l])
    requires s'.log == NoteCode(s.log, code, l, s.now) && s'.now == s.now && s'.used == s.used + {code}
    requires var g := CodeGrant(ar.client, ar.redirect, ar.challenge, ar.nonce, tokens.id.email, tokens);
      s'.codes == s.codes[code := Store.Entry(g, s.now + CODE_TTL)]
    ensures NewCodes(cfg, s, s', Held(h))
  {
    assert CodeOk(cfg, s', code, s'.codes[code]) && CodedOk(s', code, s'.log.codeOf[code]);
  }

  lemma SavesCode(cfg: Config, s: State, h: nat, ar: AuthRequest, tokens: Issued, l: nat, code: string, o: Outcome)
    requires HandlerOk(cfg, s, h, SavingCode(ar, tokens, l)) && code !in s.log.codeOf && RotatedSaved(s)
    requires LoginOk(cfg, s, l, s.log.logins[l])
    ensures Moves(cfg, s, DoSaveCode(s, h, ar, tokens, l, code, o), Held(h))
  {
    if o == Refused {
      EndsUsing(cfg, s, h, code);
    } else {
      var s', w := DoSaveCode(s, h, ar, tokens, l, code, o), Held(h);
      NoteCodeGrows(s.log, h, code, l, s.now);
      CodeMade(cfg, s, s', h, ar, tokens, l, code);
      Replaced(s.handlers, s'.handlers, h);
      OneHandler(cfg, s, s', w, h);
      SameRequests(cfg, s, s', w);
      SameTokens(cfg, s, s', w);
    }
  }

  // Exchange.

  lemma NoteExchangeGrows(g: Log, f: Form, tokens: Issued, now: int)
    requires f.code in g.codeOf && g.codeOf[f.code].login < |g.logins|
    requires g.logins[g.codeOf[f.code].login].code == Stored(Store.Code, f.code)
    ensures LogGrows(g, NoteExchange(g, f, tokens, now), Stored(Store.Code, f.code))
  {
  }

  lemma CodeAnswered(cfg: Config, s: State, s': State, f: Form)
    requires f.code in s.codes && CodeOk(cfg, s, f.code, s.codes[f.code]) && CodedOk(s, f.code, s.log.codeOf[f.code])
    requires RequestBehind(s, s.log.codeOf[f.code].login).client == cfg.client
    requires s.now <= s.codes[f.code].exp && Exchangeable(cfg, f, s.codes[f.code].val)
    requires s'.now == s.now && s'.log == NoteExchange(s.log, f, s.codes[f.code].val.tokens, s.now)
    ensures NewAnswers(cfg, s, s')
  {
    assert ResponseOk(cfg, s', |s.log.responses|, s'.log.responses[|s.log.responses|]);
  }

  /** A code left the store. */
  lemma CodeTaken(cfg: Config, s: State, s': State, c: string)
    requires s' == s.(codes := s.codes - {c}, log := s.log.(logins := s'.log.logins, responses := s'.log.responses))
    requires |s'.log.logins| == |s.log.logins| && RotatedSaved(s)
    ensures var w := Stored(Store.Code, c);
      && NewRequests(cfg, s, s', w) && NewLogins(cfg, s, s') && NewHandlers(cfg, s, s', w) && NewCodes(cfg, s, s', w)
      && NewTokens(cfg, s, s', w)
  {
    SameHandlers(cfg, s, s', Stored(Store.Code, c));
    SameRequests(cfg, s, s', Stored(Store.Code, c));
    SameTokens(cfg, s, s', Stored(Store.Code, c));
  }

  lemma Exchanges(cfg: Config, s: State, f: Form, o: Outcome)
    requires o != Refused
    requires (f.code in s.codes ==> CodeOk(cfg, s, f.code, s.codes[f.code]) && CodedOk(s, f.code, s.log.codeOf[f.code]))
    requires f.code in s.codes ==> RequestBehind(s, s.log.codeOf[f.code].login).client == cfg.client
    requires RotatedSaved(s)
    ensures Moves(cfg, s, DoExchange(cfg, s, f, o), Stored(Store.Code, f.code))
  {
    var s', g := DoExchange(cfg, s, f, o), Live(s.codes, f.code, s.now);
    CodeTaken(cfg, s, s', f.code);
    if o == Lost || g.None? || !Exchangeable(cfg, f, g.value) {
    } else {
      NoteExchangeGrows(s.log, f, g.value.tokens, s.now);
      CodeAnswered(cfg, s, s', f);
    }
  }

  // Refresh.

  lemma NoteRefreshGrows(g: Log, t: string, h: nat)
    requires t in g.savedOf && g.savedOf[t].login < |g.logins|
    requires g.logins[g.savedOf[t].login].token == Stored(Store.Refresh, t)
    requires t !in g.rotated
    ensures LogGrows(g, NoteRefresh(g, t, h), Stored(Store.Refresh, t))
  {
  }

  lemma RefreshHeld(cfg: Config, s: State, s': State, h: nat, f: Form)
    requires f.token in s.refresh && TokenOk(cfg, s, f.token, s.refresh[f.token])
    requires LoginOk(cfg, s, s.log.savedOf[f.token].login, s.log.logins[s.log.savedOf[f.token].login])
    requires s'.log == NoteRefresh(s.log, f.token, h) && ClientOf(f) == cfg.client && SecretOk(cfg, f)
    ensures var g := s.refresh[f.token].val;
      HandlerOk(cfg, s', h, Upserting(Job(ForRefresh(f), IdentityOf(g), g.client, "", TokenLogin(s.log, f.token))))
  {
    GrantRoundTrip(cfg.client, s.log.logins[s.log.savedOf[f.token].login].id);
  }

  /** A refresh token left the store. */
  lemma TokenTaken(cfg: Config, s: State, s': State, t: string)
    requires s' == s.(refresh := s.refresh - {t}, handlers := s'.handlers,
                      log := s.log.(logins := s'.log.logins, rotated := s'.log.rotated))
    requires |s'.log.logins| == |s.log.logins| && RotatedSaved(s)
    requires (forall u | u in s'.log.rotated :: u in s.log.savedOf)
    ensures var w := Stored(Store.Refresh, t);
      && NewRequests(cfg, s, s', w) && NewLogins(cfg, s, s') && NewCodes(cfg, s, s', w) && NewTokens(cfg, s, s', w)
      && NewAnswers(cfg, s, s')
  {
    SameRequests(cfg, s, s', Stored(Store.Refresh, t));
    SameCodes(cfg, s, s', Stored(Store.Refresh, t));
  }

  lemma Refreshes(cfg: Config, s: State, h: nat, f: Form, o: Outcome)
    requires h !in s.handlers && o != Refused && RotatedSaved(s)
    requires f.token in s.refresh ==>
      && TokenOk(cfg, s, f.token, s.refresh[f.token])
      && LoginOk(cfg, s, s.log.savedOf[f.token].login, s.log.logins[s.log.savedOf[f.token].login])
    ensures Moves(cfg, s, DoRefresh(cfg, s, h, f, o), Stored(Store.Refresh, f.token))
  {
    var s', g, w := DoRefresh(cfg, s, h, f, o), Live(s.refresh, f.token, s.now), Stored(Store.Refresh, f.token);
    TokenTaken(cfg, s, s', f.token);
    if o == Lost || g.None? || ClientOf(f) != g.value.client || !SecretOk(cfg, f) {
      SameHandlers(cfg, s, s', w);
    } else {
      NoteRefreshGrows(s.log, f.token, h);
      RefreshHeld(cfg, s, s', h, f);
      Replaced(s.handlers, s'.handlers, h);
      OneHandler(cfg, s, s', w, h);
    }
  }

  // The clock and the store.

  /** Time passes, or entries and handlers are lost. */
  lemma Loses(cfg: Config, s: State, s': State)
    requires s' == s.(now := s'.now, auth := s'.auth, codes := s'.codes, refresh := s'.refresh, handlers := s'.handlers)
    requires s.now <= s'.now
    requires Part(s'.auth, s.auth) && Part(s'.codes, s.codes) && Part(s'.refresh, s.refresh) && RotatedSaved(s)
    requires s'.handlers == s.handlers || s'.handlers == map[]
    ensures Moves(cfg, s, s', Nowhere)
  {
  }

  predicate Part<V(==)>(m': map<string, V>, m: map<string, V>) {
    forall k | k in m' :: k in m && m'[k] == m[k]
  }

  lemma Sweeps(cfg: Config, s: State, t: Step)
    requires CanStep(s, t) && (t.Tick? || t.Sweep? || t.Restart?) && RotatedSaved(s)
    ensures Moves(cfg, s, DoStep(cfg, s, t), Nowhere)
  {
    Loses(cfg, s, DoStep(cfg, s, t));
  }

  /** What the invariant says about a running handler. */
  predicate HandlerKnown(cfg: Config, s: State, h: nat, x: Handler) {
    && RotatedSaved(s) && HandlerOk(cfg, s, h, x)
    && match x
       case Authenticating(_, src) => RequestOk(cfg, s, s.log.authorizes[src])
       case SavingRefresh(_, n, _) => RenewalOk(s, s.log.renewals[n])
       case SavingCode(_, _, l) => LoginOk(cfg, s, l, s.log.logins[l])
       case _ => true
  }

  lemma KnowHandler(cfg: Config, s: State, h: nat)
    requires Inv(cfg, s) && h in s.handlers
    ensures HandlerKnown(cfg, s, h, s.handlers[h])
    ensures s.log.savedOf.Keys <= s.used && s.log.codeOf.Keys <= s.used
  {
    assert HandlerOk(cfg, s, h, s.handlers[h]);
    forall t | t in s.log.savedOf ensures t in s.used { assert SavedOk(s, t, s.log.savedOf[t]); }
    forall c | c in s.log.codeOf ensures c in s.used { assert CodedOk(s, c, s.log.codeOf[c]); }
  }

  /** A step of a running handler. */
  lemma HandlerMoves(cfg: Config, s: State, t: Step)
    requires CanStep(s, t) && s.log.savedOf.Keys <= s.used && s.log.codeOf.Keys <= s.used
    requires t.Die? || t.Wait? || t.Authenticate? || t.Upsert? || t.Mint? || t.SaveRefresh? || t.SaveCode?
    requires HandlerKnown(cfg, s, t.h, s.handlers[t.h])
    ensures Moves(cfg, s, DoStep(cfg, s, t), Held(t.h))
  {
    var x := s.handlers[t.h];
    match t
    case Authenticate(h, a) => Authenticates(cfg, s, h, x.auth, x.src, a);
    case Upsert(h, stamp, o) => Renews(cfg, s, h, x.job, stamp, o);
    case Mint(h, text) => Mints(cfg, s, h, x.job, x.n, text);
    case SaveRefresh(h, token, o) =>
      assert token !in s.log.savedOf.Keys;
      SavesToken(cfg, s, h, x.job, x.n, x.access, token, o);
    case SaveCode(h, code, o) =>
      assert code !in s.log.codeOf.Keys;
      SavesCode(cfg, s, h, x.auth, x.tokens, x.login, code, o);
    case Wait(h, ok) => if ok { Waits(cfg, s, h, x.job, x.n); } else { Ends(cfg, s, h); }
    case Die(h) => Ends(cfg, s, h);
  }

  /** What the invariant says about the store's entries that a request may claim. */
  predicate RequestKnown(cfg: Config, s: State, t: Step) {
    && RotatedSaved(s) && s.log.authOf.Keys <= s.used
    && match t
       case Callback(_, key, _, _) => key in s.auth ==> AuthOk(s, key, s.auth[key])
       case Exchange(f, _) =>
         f.code in s.codes ==>
           && CodeOk(cfg, s, f.code, s.codes[f.code]) && CodedOk(s, f.code, s.log.codeOf[f.code])
           && RequestBehind(s, s.log.codeOf[f.code].login).client == cfg.client
       case Refresh(_, f, _) =>
         f.token in s.refresh ==>
           TokenOk(cfg, s, f.token, s.refresh[f.token])
               && LoginOk(cfg, s, s.log.savedOf[f.token].login, s.log.logins[s.log.savedOf[f.token].login])
       case _ => true
  }

  lemma KnowRequest(cfg: Config, s: State, t: Step)
    requires Inv(cfg, s)
    ensures RequestKnown(cfg, s, t)
  {
    KnowKeys(cfg, s);
    match t
    case Exchange(f, o) => if f.code in s.codes { KnowCode(cfg, s, f.code); }
    case Refresh(h, f, o) => if f.token in s.refresh { KnowToken(cfg, s, f.token); }
    case _ =>
  }

  lemma KnowKeys(cfg: Config, s: State)
    requires Inv(cfg, s)
    ensures RotatedSaved(s) && s.log.authOf.Keys <= s.used && Auths(s)
  {
    forall k | k in s.log.authOf ensures k in s.used {}
  }

  lemma KnowCode(cfg: Config, s: State, c: string)
    requires Inv(cfg, s) && c in s.codes
    ensures CodeOk(cfg, s, c, s.codes[c]) && CodedOk(s, c, s.log.codeOf[c])
    ensures RequestBehind(s, s.log.codeOf[c].login).client == cfg.client
  {
    assert CodeOk(cfg, s, c, s.codes[c]);
    assert RequestOk(cfg, s, s.log.authorizes[s.log.logins[s.log.codeOf[c].login].auth]);
  }

  lemma KnowToken(cfg: Config, s: State, t: string)
    requires Inv(cfg, s) && t in s.refresh
    ensures TokenOk(cfg, s, t, s.refresh[t])
    ensures LoginOk(cfg, s, s.log.savedOf[t].login, s.log.logins[s.log.savedOf[t].login])
  {
    assert TokenOk(cfg, s, t, s.refresh[t]);
  }

  /** A request, or a step of the clock or the store. */
  lemma RequestMoves(cfg: Config, s: State, t: Step) returns (w: Whereabouts)
    requires RequestKnown(cfg, s, t) && CanStep(s, t)
    requires t.Tick? || t.Sweep? || t.Restart? || t.Authorize? || t.Callback? || t.Exchange? || t.Refresh?
    ensures DoStep(cfg, s, t) == s || Moves(cfg, s, DoStep(cfg, s, t), w)
  {
    match t
    case Authorize(q, key, nonce, o) =>
      assert key !in s.log.authOf.Keys;
      if Acceptable(cfg, q) { Authorizes(cfg, s, q, key, nonce, o); }
      w := Nowhere;
    case Callback(h, key, error, o) =>
      if o != Refused { Calls(cfg, s, h, key, error, o); }
      w := Stored(Store.Auth, key);
    case Exchange(f, o) =>
      if o != Refused { Exchanges(cfg, s, f, o); }
      w := Stored(Store.Code, f.code);
    case Refresh(h, f, o) =>
      if o != Refused { Refreshes(cfg, s, h, f, o); }
      w := Stored(Store.Refresh, f.token);
    case _ =>
      Sweeps(cfg, s, t);
      w := Nowhere;
  }

  /** Every step moves at most one thing, and what it makes is as it should be. */
  lemma StepMoves(cfg: Config, s: State, t: Step) returns (w: Whereabouts)
    requires Inv(cfg, s) && CanStep(s, t)
    ensures DoStep(cfg, s, t) == s || Moves(cfg, s, DoStep(cfg, s, t), w)
  {
    if t.Die? || t.Wait? || t.Authenticate? || t.Upsert? || t.Mint? || t.SaveRefresh? || t.SaveCode? {
      KnowHandler(cfg, s, t.h);
      HandlerMoves(cfg, s, t);
      w := Held(t.h);
    } else {
      KnowRequest(cfg, s, t);
      w := RequestMoves(cfg, s, t);
    }
  }

  lemma StepKeeps(cfg: Config, s: State, t: Step)
    requires Inv(cfg, s) && CanStep(s, t)
    ensures Inv(cfg, DoStep(cfg, s, t))
  {
    var w := StepMoves(cfg, s, t);
    if DoStep(cfg, s, t) != s { Rebuild(cfg, s, DoStep(cfg, s, t), w); }
  }

  lemma {:induction false} RunKeeps(cfg: Config, s: State, steps: seq<Step>)
    requires Inv(cfg, s) && Run(cfg, s, steps).Some?
    ensures Inv(cfg, Run(cfg, s, steps).value)
  {
    if steps != [] {
      RunKeeps(cfg, s, steps[..|steps| - 1]);
      StepKeeps(cfg, Run(cfg, s, steps[..|steps| - 1]).value, steps[|steps| - 1]);
    }
  }
}
