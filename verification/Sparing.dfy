/**
 What becomes of a secret of the broker that nobody else presents: its entry in the store stays until it expires, and a
 refresh token is the hold of its login's lineage until then.
 */
module Sparing {
  import opened Base
  import Store
  import opened Broker
  import opened BrokerInvariant
  import opened BrokerTheorems

  /** The step does not present `k`, and does not lose the store. */
  predicate Spares(t: Step, k: string) {
    match t
    case Restart => false
    case Callback(_, key, _, _) => key != k
    case Exchange(f, _) => f.code != k
    case Refresh(_, f, _) => f.token != k
    case _ => true
  }

  /** The entry of `k` is as it was, or has expired and is gone; there is no new one. */
  predicate SparedIn<V(==)>(m: map<string, Entry<V>>, m': map<string, Entry<V>>, k: string, now: int) {
    if k !in m then k !in m' else if k in m' then m'[k] == m[k] else m[k].exp < now
  }

  predicate Spared(s: State, s': State, k: string) {
    && s.now <= s'.now && k in s'.used
    && SparedIn(s.auth, s'.auth, k, s'.now) && SparedIn(s.codes, s'.codes, k, s'.now)
    && SparedIn(s.refresh, s'.refresh, k, s'.now)
  }

  lemma AuthorizeSpares(cfg: Config, s: State, q: Query, key: string, nonce: string, o: Outcome, k: string)
    requires k in s.used && key !in s.used
    ensures Spared(s, DoAuthorize(cfg, s, q, key, nonce, o), k)
  {
    if !Acceptable(cfg, q) {
    } else if o == Refused {
    } else {
    }
  }

  lemma CallbackSpares(s: State, h: nat, key: string, error: string, o: Outcome, k: string)
    requires k in s.used && key != k
    ensures Spared(s, DoCallback(s, h, key, error, o), k)
  {
    if o == Refused {
    } else if o == Lost || Live(s.auth, key, s.now).None? || error != "" {
    } else {
    }
  }

  lemma SaveRefreshSpares(cfg: Config, s: State, h: nat, job: Job, n: nat, access: Access, token: string, o: Outcome,
                          k: string)
    requires k in s.used && token !in s.used
    ensures Spared(s, DoSaveRefresh(cfg, s, h, job, n, access, token, o), k)
  {
    match o
    case Lost =>
    case Refused =>
    case Ok => if job.flow.ForCode? {}
  }

  lemma SaveCodeSpares(s: State, h: nat, ar: AuthRequest, t: Issued, l: nat, code: string, o: Outcome, k: string)
    requires k in s.used && code !in s.used
    ensures Spared(s, DoSaveCode(s, h, ar, t, l, code, o), k)
  {
    if o == Refused {
    } else {
    }
  }

  lemma ExchangeSpares(cfg: Config, s: State, f: Form, o: Outcome, k: string)
    requires k in s.used && f.code != k
    ensures Spared(s, DoExchange(cfg, s, f, o), k)
  {
    var g := Live(s.codes, f.code, s.now);
    if o == Refused {
    } else if o == Lost || g.None? || !Exchangeable(cfg, f, g.value) {
    } else {
    }
  }

  lemma RefreshSpares(cfg: Config, s: State, h: nat, f: Form, o: Outcome, k: string)
    requires k in s.used && f.token != k
    ensures Spared(s, DoRefresh(cfg, s, h, f, o), k)
  {
    var g := Live(s.refresh, f.token, s.now);
    if o == Refused {
    } else if o == Lost || g.None? || ClientOf(f) != g.value.client || !SecretOk(cfg, f) {
    } else {
    }
  }

  /** Handlers that only move on. */
  lemma MoveSpares(cfg: Config, s: State, t: Step, k: string)
    requires CanStep(s, t) && k in s.used && (t.Die? || t.Authenticate? || t.Upsert? || t.Wait? || t.Mint?)
    ensures Spared(s, DoStep(cfg, s, t), k)
  {
    match t
    case Authenticate(h, a) => if a.None? || !Vetted(cfg, a.value) {} else {}
    case Upsert(h, _, o) => if o == Refused {} else {}
    case Mint(h, text) => if text.None? {} else {}
    case _ =>
  }

  lemma StepSpares(cfg: Config, s: State, t: Step, k: string)
    requires CanStep(s, t) && k in s.used && Spares(t, k)
    ensures Spared(s, DoStep(cfg, s, t), k)
  {
    match t
    case Authorize(q, key, nonce, o) => AuthorizeSpares(cfg, s, q, key, nonce, o, k);
    case Callback(h, key, error, o) => CallbackSpares(s, h, key, error, o, k);
    case SaveRefresh(h, token, o) =>
      SaveRefreshSpares(cfg, s, h, s.handlers[h].job, s.handlers[h].n, s.handlers[h].access, token, o, k);
    case SaveCode(h, code, o) =>
      SaveCodeSpares(s, h, s.handlers[h].auth, s.handlers[h].tokens, s.handlers[h].login, code, o, k);
    case Exchange(f, o) => ExchangeSpares(cfg, s, f, o, k);
    case Refresh(h, f, o) => RefreshSpares(cfg, s, h, f, o, k);
    case Tick(_) =>
    case Sweep(_) =>
    case _ => MoveSpares(cfg, s, t, k);
  }

  // ----- The hold of a lineage -----

  /** The refresh token `k` is still in the store, or the lineage of its login has died. */
  predicate Holding(s: State, k: string) {
    k in s.log.savedOf && (k in s.refresh || Dead(s, s.log.savedOf[k].login))
  }

  /** `t` is the only token of login `l`, and nobody works on another. */
  predicate Alone(s: State, l: nat, t: string) {
    && l < |s.log.logins|
    && (forall h | h in s.handlers :: !Carries(s.handlers[h], l))
    && (forall u | u in s.refresh && TokenOf(s, u, l) :: u == t)
  }

  lemma OnlyToken(cfg: Config, steps: seq<Step>, s: State, l: nat, t: string)
    requires Reached(cfg, steps, s) && TokenOf(s, t, l)
    ensures Alone(s, l, t)
  {
    OneTokenPerLogin(cfg, steps, s, l);
    ReachedInv(cfg, steps, s);
    TokenKnown(cfg, s, l, t);
  }

  /** What the store has for a refresh token. */
  lemma TokenEntry(cfg: Config, steps: seq<Step>, s: State, t: string)
    requires Reached(cfg, steps, s) && t in s.refresh
    ensures t in s.log.savedOf && s.refresh[t].exp == s.log.savedOf[t].at + cfg.refreshLifetime
    ensures s.refresh[t].val.client == cfg.client && TokenOf(s, t, s.log.savedOf[t].login)
  {
    ReachedInv(cfg, steps, s);
    assert TokenOk(cfg, s, t, s.refresh[t]);
  }

  lemma SavedIsUsed(cfg: Config, steps: seq<Step>, s: State, t: string)
    requires Reached(cfg, steps, s) && t in s.log.savedOf
    ensures t in s.used && s.log.savedOf[t].login < |s.log.logins|
  {
    ReachedInv(cfg, steps, s);
    assert SavedOk(s, t, s.log.savedOf[t]);
  }

  /** What is saved stays saved. */
  lemma SavedStays(cfg: Config, steps: seq<Step>, s: State, t: Step, k: string)
    requires Reached(cfg, steps, s) && CanStep(s, t) && k in s.log.savedOf
    ensures k in DoStep(cfg, s, t).log.savedOf && DoStep(cfg, s, t).log.savedOf[k] == s.log.savedOf[k]
  {
    ReachedInv(cfg, steps, s);
    var w := StepMoves(cfg, s, t);
  }

  /** An expired token that is alone means that the lineage has died. */
  lemma ExpiredIsDead(s: State, l: nat, t: string)
    requires Alone(s, l, t) && t in s.refresh && s.refresh[t].exp < s.now
    ensures Dead(s, l)
  {
  }

  lemma StepHolding(cfg: Config, steps: seq<Step>, s: State, t: Step, k: string)
    requires Reached(cfg, steps, s) && CanStep(s, t) && Spares(t, k) && Holding(s, k)
    ensures Holding(DoStep(cfg, s, t), k) && DoStep(cfg, s, t).log.savedOf[k] == s.log.savedOf[k]
  {
    var s', l := DoStep(cfg, s, t), s.log.savedOf[k].login;
    SavedStays(cfg, steps, s, t, k);
    if k !in s'.refresh {
      if k in s.refresh { SweptIsDead(cfg, steps, s, t, k); }
      ReachedInv(cfg, steps, s);
      StepStaysDead(cfg, s, t, l, |s.log.renewals|);
    }
  }

  lemma SweptIsDead(cfg: Config, steps: seq<Step>, s: State, t: Step, k: string)
    requires Reached(cfg, steps, s) && CanStep(s, t) && Spares(t, k)
    requires k in s.refresh && k in s.log.savedOf && k !in DoStep(cfg, s, t).refresh
    ensures Dead(s, s.log.savedOf[k].login)
  {
    SavedIsUsed(cfg, steps, s, k);
    StepSpares(cfg, s, t, k);
    TokenEntry(cfg, steps, s, k);
    OnlyToken(cfg, steps, s, s.log.savedOf[k].login, k);
    OnlySweeps(cfg, s, t, k);
    ExpiredIsDead(s, s.log.savedOf[k].login, k);
  }

  /** Only a sweep takes a token away that is not presented. */
  lemma OnlySweeps(cfg: Config, s: State, t: Step, k: string)
    requires CanStep(s, t) && Spares(t, k) && k in s.refresh && k !in DoStep(cfg, s, t).refresh
    ensures s.refresh[k].exp < s.now
  {
    match t
    case SaveRefresh(h, token, o) =>
      StaysInStore(cfg, s, h, s.handlers[h].job, s.handlers[h].n, s.handlers[h].access, token, o, k);
    case Sweep(tick) =>
    case _ =>
  }

  lemma StaysInStore(cfg: Config, s: State, h: nat, job: Job, n: nat, access: Access, token: string, o: Outcome,
                     k: string)
    requires k in s.refresh
    ensures k in DoSaveRefresh(cfg, s, h, job, n, access, token, o).refresh
  {
    match o
    case Lost =>
    case Refused =>
    case Ok => if job.flow.ForCode? {}
  }

  /** Both, for a secret that nobody presented on the way from `s` to `s'`. */
  predicate Kept(s: State, s': State, k: string) {
    Spared(s, s', k) && (Holding(s, k) ==> Holding(s', k) && s'.log.savedOf[k] == s.log.savedOf[k])
  }

  lemma KeptNext(cfg: Config, steps: seq<Step>, was: State, s: State, t: Step, k: string)
    requires Reached(cfg, steps, s) && CanStep(s, t) && Spares(t, k) && Kept(was, s, k)
    ensures Kept(was, DoStep(cfg, s, t), k)
  {
    StepSpares(cfg, s, t, k);
    if Holding(s, k) { StepHolding(cfg, steps, s, t, k); }
  }
}
