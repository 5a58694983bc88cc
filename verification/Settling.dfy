/**
 What reconciles do to a CR that nobody else touches: the part of the cluster that they depend on, the steps that leave
 it alone, and how far the CR is from rest.
 */
module Settling {
  import opened Base
  import opened Naming
  import opened StatusPatch
  import opened Cluster
  import opened Operator
  import opened OperatorInvariant
  import opened OperatorTheorems
  import opened SyncTheorems

  /** How the calls of a reconcile go: as they may; all of them through, an account being created aside; or all of them
      through while nobody else touches the CR, its account and the roles. */
  datatype Mode = Anything | Lucky | Calm

  /** The same, whatever others do. */
  function Own(m: Mode): Mode {
    if m == Anything then Anything else Lucky
  }

  // ----- What the reconciles of one CR depend on -----

  function OwnMap(m: map<BindKey, RoleBinding>, uid: string): map<BindKey, RoleBinding> {
    map bk | bk in m && m[bk].owner == Some(uid) :: m[bk]
  }

  /** The cluster as far as the reconciles of a stored CR depend on it, the clock aside: the CR, its account, the roles,
      and the bindings that it owns. */
  function View(c: State, k: Key): State
    requires k in c.binds
  {
    var b := c.binds[k];
    State(0, map[k := b], map a | a in c.accounts && a == SubjectOf(k, b) :: c.accounts[a], c.roles,
          OwnMap(c.bindings, b.uid), map[], 0, [], map[], {})
  }

  lemma ViewOwned(c: State, k: Key)
    requires k in c.binds
    ensures var uid := c.binds[k].uid;
      forall p :: Owned(View(c, k), uid, p) == Owned(c, uid, p)
  {
  }

  /** Others may do anything but touch the CR, its account or the roles, and the clock stays before the expiry. The UID
      `spare` is the one that the account of the CR gets when it is created, and goes to nobody else. */
  predicate Quiet(c: State, t: Step, k: Key, spare: string)
    requires k in c.binds
  {
    match t
    case Outside(a) => QuietAction(c, a, k, spare)
    case Start(l) => l != k
    case Crash(l) => l != k
    case Advance(l, a) => l != k && a.uid != spare
  }

  predicate QuietAction(c: State, a: Action, k: Key, spare: string)
    requires k in c.binds
  {
    match a
    case Tick(until) => c.binds[k].spec.ttl.Lasting? && until < Expiry(c.binds[k])
    case Upsert(l, _, _, uid) => l != k && uid != spare
    case DeleteBind(l) => l != k
    case ForeignFinalizer(l, _, _) => l != k
    case SetRole(_, _) => false
    case SetForeignBinding(_, _) => true
    case SetAccount(l, _) => l != SubjectOf(k, c.binds[k])
  }

  lemma ActView(c: State, a: Action, k: Key, spare: string)
    requires ClusterOk(c) && CanAct(c, a) && k in c.binds && QuietAction(c, a, k, spare)
    ensures k in Act(c, a).binds && View(Act(c, a), k) == View(c, k)
  {
    match a
    case SetForeignBinding(bk, b) =>
      if bk in c.bindings { assert BindingOk(c, bk, c.bindings[bk]); }
      ForeignView(c, bk, b, k);
    case SetAccount(l, v) => SameView(c, Act(c, a), k);
    case Tick(_) => SameView(c, Act(c, a), k);
    case Upsert(l, spec, stamp, uid) => UpsertView(c, l, spec, stamp, uid, k);
    case DeleteBind(l) => TerminateView(c, l, k);
    case ForeignFinalizer(l, f, add) =>
      SetFinalizersView(c, l, if add then c.binds[l].finalizers + {f} else c.binds[l].finalizers - {f}, k);
    case _ =>
  }

  lemma ForeignView(c: State, bk: BindKey, b: Option<RoleBinding>, k: Key)
    requires CanAct(c, SetForeignBinding(bk, b)) && k in c.binds && (bk in c.bindings ==> c.bindings[bk].owner.None?)
    ensures View(Act(c, SetForeignBinding(bk, b)), k) == View(c, k)
  {
    var uid, m := c.binds[k].uid, Act(c, SetForeignBinding(bk, b)).bindings;
    assert OwnMap(m, uid) == OwnMap(c.bindings, uid);
  }

  lemma UpsertView(c: State, l: Key, spec: Spec, stamp: int, uid: string, k: Key)
    requires k in c.binds && l != k
    ensures var c' := DoUpsert(c, l, spec, stamp, uid); k in c'.binds && View(c', k) == View(c, k)
  {
    if l in c.binds {
    } else {
    }
  }

  lemma TerminateView(c: State, l: Key, k: Key)
    requires k in c.binds && l in c.binds && l != k
    ensures var c' := Terminate(c, l); k in c'.binds && View(c', k) == View(c, k)
  {
    SameView(c, Terminate(c, l), k);
  }

  lemma SetFinalizersView(c: State, l: Key, fs: set<string>, k: Key)
    requires k in c.binds && l in c.binds && l != k
    ensures var c' := SetFinalizers(c, l, fs); k in c'.binds && View(c', k) == View(c, k)
  {
    SameView(c, SetFinalizers(c, l, fs), k);
  }

  function Another(k: Key): (l: Key)
    ensures l != k
  {
    assert |k.name + "x"| != |k.name|;
    Key(k.ns, k.name + "x")
  }

  lemma WorkAccounts(c: State, l: Key, w: Worker, a: Answer)
    requires WorkerOk(c, l, w)
    ensures forall x | x != l :: (x in Work(c, l, w, a).c.accounts <==> x in c.accounts)
    ensures forall x | x != l && x in c.accounts :: Work(c, l, w, a).c.accounts[x] == c.accounts[x]
  {
    if w.EnsureAccount? {
      EnsureAccounts(c, l, w.bind, w.expiry, a);
    } else if WritesBind(w) {
      WriteElsewhere(c, l, w, a, Another(l));
    } else if w.DeleteOwned? || w.Prune? || w.CreateBindings? {
      LoopsKeepBinds(c, l, w, a);
    }
  }

  lemma EnsureAccounts(c: State, l: Key, b: Bind, e: int, a: Answer)
    requires b.spec.user == l.name
    ensures var c' := DoEnsureAccount(c, l, b, e, a).c; forall x | x != l :: (x in c'.accounts <==> x in c.accounts)
    ensures var c' := DoEnsureAccount(c, l, b, e, a).c; forall x | x != l && x in c.accounts ::
      c'.accounts[x] == c.accounts[x]
  {
  }

  lemma WorkOwnMap(c: State, l: Key, w: Worker, a: Answer, k: Key)
    requires ClusterOk(c) && WorkerOk(c, l, w) && k in c.binds && l != k
    ensures OwnMap(Work(c, l, w, a).c.bindings, c.binds[k].uid) == OwnMap(c.bindings, c.binds[k].uid)
  {
    if w.DeleteOwned? || w.Prune? || w.CreateBindings? {
      LoopBindings(c, l, w, a);
      assert BindOk(c, k, c.binds[k]) && BindOk(c, l, c.binds[l]);
      OthersHold(Work(c, l, w, a).c.bindings, c.bindings, UidOf(w), c.binds[k].uid);
    } else {
      OtherCallsKeepBindings(c, l, w, a);
    }
  }

  lemma OthersHold(m': map<BindKey, RoleBinding>, m: map<BindKey, RoleBinding>, owner: Option<string>, uid: string)
    requires OthersIn(m', owner) == OthersIn(m, owner) && owner != Some(uid)
    ensures OwnMap(m', uid) == OwnMap(m, uid)
  {
    forall bk ensures bk in OwnMap(m', uid) <==> bk in OwnMap(m, uid) {
      assert bk in OthersIn(m', owner) <==> bk in OthersIn(m, owner);
      if bk in OthersIn(m, owner) { assert m'[bk] == OthersIn(m', owner)[bk] == OthersIn(m, owner)[bk] == m[bk]; }
    }
    forall bk | bk in OwnMap(m, uid) ensures OwnMap(m', uid)[bk] == OwnMap(m, uid)[bk] {
      assert bk in OthersIn(m, owner);
      assert m'[bk] == OthersIn(m', owner)[bk] == OthersIn(m, owner)[bk] == m[bk];
    }
  }

  lemma WorkView(c: State, l: Key, w: Worker, a: Answer, k: Key)
    requires ClusterOk(c) && WorkerOk(c, l, w) && k in c.binds && l != k
    ensures k in Work(c, l, w, a).c.binds && View(Work(c, l, w, a).c, k) == View(c, k)
  {
    WorkElsewhere(c, l, w, a, k);
    WorkAccounts(c, l, w, a);
    WorkOwnMap(c, l, w, a, k);
    assert BindOk(c, k, c.binds[k]);
    SameView(c, Work(c, l, w, a).c, k);
  }

  lemma SameView(c: State, c': State, k: Key)
    requires k in c.binds && k in c'.binds && c'.binds[k] == c.binds[k] && c'.roles == c.roles
    requires SubjectOf(k, c.binds[k]) in c'.accounts <==> SubjectOf(k, c.binds[k]) in c.accounts
    requires SubjectOf(k, c.binds[k]) in c.accounts ==>
      c'.accounts[SubjectOf(k, c.binds[k])] == c.accounts[SubjectOf(k, c.binds[k])]
    requires OwnMap(c'.bindings, c.binds[k].uid) == OwnMap(c.bindings, c.binds[k].uid)
    ensures View(c', k) == View(c, k)
  {
  }

  lemma QuietView(s: System, t: Step, k: Key, spare: string)
    requires Inv(s) && CanStep(s, t) && k in s.c.binds && Quiet(s.c, t, k, spare)
    ensures var c' := DoStep(s, t).c; k in c'.binds && View(c', k) == View(s.c, k)
  {
    match t
    case Outside(a) => ActView(s.c, a, k, spare);
    case Advance(l, a) => WorkView(s.c, l, s.workers[l], a, k);
    case _ =>
  }

  lemma ActUids(c: State, a: Action, spare: string)
    requires CanAct(c, a) && (a.Upsert? ==> a.uid != spare) && spare !in c.uids
    ensures spare !in Act(c, a).uids
  {
    match a
    case Upsert(l, spec, stamp, uid) => UpsertUids(c, l, spec, stamp, uid, spare);
    case SetRole(_, v) => if v.Some? && v.value.group.Some? {}
    case _ =>
  }

  lemma UpsertUids(c: State, l: Key, spec: Spec, stamp: int, uid: string, spare: string)
    requires uid != spare && spare !in c.uids
    ensures spare !in DoUpsert(c, l, spec, stamp, uid).uids
  {
    if l in c.binds {
    } else {
    }
  }

  lemma EnsureUids(c: State, l: Key, b: Bind, e: int, a: Answer, spare: string)
    requires a.uid != spare && spare !in c.uids
    ensures spare !in DoEnsureAccount(c, l, b, e, a).c.uids
  {
  }

  lemma WorkUids(c: State, l: Key, w: Worker, a: Answer, spare: string)
    requires a.uid != spare && spare !in c.uids
    ensures spare !in Work(c, l, w, a).c.uids
  {
    if w.EnsureAccount? {
      EnsureUids(c, l, w.bind, w.expiry, a, spare);
    } else if WritesBind(w) {
      WriteElsewhere(c, l, w, a, Another(l));
    } else if w.DeleteOwned? || w.Prune? || w.CreateBindings? {
      LoopsKeepBinds(c, l, w, a);
    }
  }

  lemma QuietUids(s: System, t: Step, k: Key, spare: string)
    requires CanStep(s, t) && k in s.c.binds && Quiet(s.c, t, k, spare) && spare !in s.c.uids
    ensures spare !in DoStep(s, t).c.uids
  {
    match t
    case Outside(a) => ActUids(s.c, a, spare);
    case Advance(l, a) => WorkUids(s.c, l, s.workers[l], a, spare);
    case _ =>
  }

  /** Nothing that the reconciles of `k` depend on has changed, and its expiry is still ahead. */
  predicate Rests(c: State, c': State, k: Key, spare: string) {
    k in c.binds && Ready(c', k, spare) && View(c', k) == View(c, k)
  }

  /** ... but for the bindings that `k` owns. */
  predicate Rebinds(c: State, c': State, k: Key, spare: string) {
    k in c.binds && Ready(c', k, spare) && SameButBindings(View(c, k), View(c', k))
  }

  /** What a part of an undisturbed sync has done since `c`: it has changed only bindings that `k` owns, and nothing if
      it was to be `still`. */
  predicate Tidies(m: Mode, c: State, c': State, k: Key, spare: string, still: bool) {
    match m
    case Calm => Rebinds(c, c', k, spare) && (still ==> Rests(c, c', k, spare))
    case _ => true
  }

  lemma TidiesAtFirst(m: Mode, c: State, k: Key, spare: string, still: bool)
    requires m.Calm? ==> Ready(c, k, spare)
    ensures Tidies(m, c, c, k, spare, still)
  {
  }

  /** A call of a sync, after others had a turn. */
  lemma TidiesNext(m: Mode, c: State, before: State, at: State, c': State, k: Key, spare: string, still: bool)
    requires m.Calm? && Tidies(m, c, before, k, spare, still) && Rests(before, at, k, spare) && SameButBindings(at, c')
    requires still ==> c' == at
    ensures Tidies(m, c, c', k, spare, still)
  {
    BindingsView(at, c', k, spare);
  }

  lemma ViewLive(c: State, k: Key)
    requires k in c.binds
    ensures Live(View(c, k), k) <==> Live(c, k)
  {
  }

  lemma QuietRests(s: System, t: Step, k: Key, spare: string)
    requires Inv(s) && CanStep(s, t) && Ready(s.c, k, spare) && Quiet(s.c, t, k, spare)
    ensures Rests(s.c, DoStep(s, t).c, k, spare)
  {
    QuietView(s, t, k, spare);
    var c' := DoStep(s, t).c;
    ViewLive(s.c, k);
    ViewLive(c', k);
    SameAccount(s.c, c', k);
    if spare !in s.c.uids { QuietUids(s, t, k, spare); }
    QuietTime(s, t, k, spare);
  }

  lemma SameAccount(c: State, c': State, k: Key)
    requires k in c.binds && k in c'.binds && View(c', k) == View(c, k)
    ensures c'.binds[k] == c.binds[k]
    ensures SubjectOf(k, c.binds[k]) in c'.accounts <==> SubjectOf(k, c.binds[k]) in c.accounts
  {
    assert View(c', k).binds[k] == View(c, k).binds[k];
    var x := SubjectOf(k, c.binds[k]);
    assert x in View(c', k).accounts <==> x in View(c, k).accounts;
  }

  lemma QuietTime(s: System, t: Step, k: Key, spare: string)
    requires CanStep(s, t) && Ready(s.c, k, spare) && Quiet(s.c, t, k, spare)
    ensures DoStep(s, t).c.now < Expiry(s.c.binds[k])
  {
    match t
    case Outside(a) =>
      if a.Upsert? {
        UpsertIs(s.c, a.key, a.spec, a.stamp, a.uid);
      } else if !a.Tick? {
        ActApart(s.c, a);
      }
    case Advance(l, a) => WorkTime(s.c, l, s.workers[l], a);
    case _ =>
  }

  /** Bindings of the CR were created or deleted. */
  lemma BindingsView(c: State, c': State, k: Key, spare: string)
    requires k in c.binds && SameButBindings(c, c')
    ensures SameButBindings(View(c, k), View(c', k)) && (Ready(c, k, spare) ==> Ready(c', k, spare))
  {
  }

  /** The status of the CR was patched. */
  lemma PatchedView(c: State, c': State, k: Key, base: Status, s: Status, spare: string)
    requires Patched(c, c', k, base, s)
    ensures Patched(View(c, k), View(c', k), k, base, s) && (Ready(c, k, spare) ==> Ready(c', k, spare))
  {
  }

  lemma FinalizedView(c: State, k: Key, spare: string)
    requires Ready(c, k, spare)
    ensures var c' := SetFinalizers(c, k, c.binds[k].finalizers + {FINALIZER});
      k in c'.binds && Finalized(View(c, k), View(c', k), k) && Ready(c', k, spare)
  {
  }

  /** The account of `b` was taken over, or created with this UID. */
  predicate AccountPut(c: State, c': State, k: Key, b: Bind, uid: string) {
    c' == c.(accounts := PutAccount(c, k, b, uid).accounts)
  }

  lemma PutAccountView(c: State, k: Key, uid: string, spare: string)
    requires Ready(c, k, spare)
    ensures var b := c.binds[k]; var c' := PutAccount(c, k, b, uid);
      && Ready(c', k, spare) && AccountPut(View(c, k), View(c', k), k, b, uid)
      && c'.accounts[SubjectOf(k, b)] == View(c', k).accounts[SubjectOf(k, b)]
  {
    if SubjectOf(k, c.binds[k]) in c.accounts { TakenOverView(c, k, uid); } else { CreatedView(c, k, uid); }
  }

  lemma TakenOverView(c: State, k: Key, uid: string)
    requires k in c.binds && SubjectOf(k, c.binds[k]) in c.accounts
    ensures var b := c.binds[k]; AccountPut(View(c, k), View(PutAccount(c, k, b, uid), k), k, b, uid)
  {
    var b := c.binds[k];
    assert View(PutAccount(c, k, b, uid), k).accounts == PutAccount(View(c, k), k, b, uid).accounts;
  }

  lemma CreatedView(c: State, k: Key, uid: string)
    requires k in c.binds && SubjectOf(k, c.binds[k]) !in c.accounts
    ensures var b := c.binds[k]; AccountPut(View(c, k), View(PutAccount(c, k, b, uid), k), k, b, uid)
  {
    var b := c.binds[k];
    assert View(PutAccount(c, k, b, uid), k).accounts == PutAccount(View(c, k), k, b, uid).accounts;
  }

  /** The CRs whose expiry a reconcile looks at. */
  predicate CanExpire(b: Bind) {
    !b.deleting && FINALIZER in b.finalizers && b.status.phase != NoPhase && b.spec.ttl.Lasting?
  }

  // ----- Coming to rest -----

  /** A bind that is not being deleted, with a TTL that parses, whose account no other controller owns. */
  predicate Live(c: State, k: Key) {
    k in c.binds && !c.binds[k].deleting && c.binds[k].spec.ttl.Lasting? && AccountFree(c, k, c.binds[k])
  }

  /** ... before its expiry, with a UID at hand for the account if that does not exist yet. */
  predicate Ready(c: State, k: Key, spare: string) {
    && Live(c, k) && c.now < Expiry(c.binds[k])
    && (SubjectOf(k, c.binds[k]) !in c.accounts ==> spare !in c.uids && |spare| == UID_LENGTH)
  }

  /** How many reconciles will still change something. */
  function Rank(c: State, k: Key): nat
    requires Live(c, k)
  {
    var b := c.binds[k];
    (if FINALIZER !in b.finalizers then 1 else 0)
    + (if b.status.phase == NoPhase then 2 else if !IsUpToDate(c, k, b, Expiry(b)) then 1 else 0)
  }

  /** The CR is `binded` to its account, which it controls, until its expiry, and owns the bindings of exactly those
      roles whose annotation is the gid of one of its memberships. */
  predicate InPlace(c: State, k: Key) {
    && k in c.binds && k in c.accounts
    && var b := c.binds[k];
    && c.accounts[k].controller == Some(b.uid)
    && b.status.phase == Binded && b.status.ref == c.accounts[k].uid
    && b.renewed.Some? && b.spec.ttl.Lasting?
    && b.status.expiresAt == Some(Truncate(b.renewed.value + b.spec.ttl.duration))
    && Matched(c, b, OwnedAll(c, b.uid), true) && Matched(c, b, OwnedAll(c, b.uid), false)
  }

  /** A bind at rest is in place. */
  lemma AtRest(c: State, k: Key)
    requires k in c.binds && Live(View(c, k), k) && Rank(View(c, k), k) == 0
    requires BindOk(c, k, c.binds[k])
    ensures InPlace(c, k)
  {
    var b := c.binds[k];
    assert View(c, k).binds[k] == b && SubjectOf(k, b) == k;
    assert View(c, k).accounts[k] == c.accounts[k];
    ViewOwned(c, k);
    assert forall p :: WantedNow(View(c, k), b, p) == WantedNow(c, b, p);
    ExactIs(c, b);
  }

  /** A CR that an Upsert creates for an account that nobody controls is three reconciles away from rest. */
  lemma NewBindReady(c: State, k: Key, spec: Spec, stamp: int, uid: string, spare: string)
    requires CanAct(c, Upsert(k, spec, stamp, uid)) && k !in c.binds && spec.ttl.Lasting?
    requires c.now < Truncate(stamp + spec.ttl.duration)
    requires k in c.accounts ==> c.accounts[k].controller.None?
    requires spare !in c.uids && spare != uid && |spare| == UID_LENGTH
    ensures var c' := DoUpsert(c, k, spec, stamp, uid);
      Ready(c', k, spare) && Live(View(c', k), k) && Rank(View(c', k), k) == 3
  {
    var c' := DoUpsert(c, k, spec, stamp, uid);
    assert SubjectOf(k, c'.binds[k]) == k;
    ViewLive(c', k);
  }

  /** A reconcile of a CR that nobody else touches: at rest it changes nothing at all, otherwise it comes one closer to
      rest. */
  predicate Advances(c: State, c': State, k: Key) {
    && Live(c, k) && Live(c', k)
    && c'.binds[k].spec == c.binds[k].spec && c'.binds[k].renewed == c.binds[k].renewed
    && c'.binds[k].created == c.binds[k].created
    && (if Rank(c, k) == 0 then c' == c else Rank(c', k) == Rank(c, k) - 1)
  }

  /** The finalizer was added, and nothing else. */
  predicate Finalized(c: State, c': State, k: Key) {
    && k in c.binds && k in c'.binds && c' == c.(binds := c'.binds, rv := c'.rv)
    && c'.binds[k] == c.binds[k].(finalizers := c.binds[k].finalizers + {FINALIZER}, rv := c'.binds[k].rv)
  }

  lemma FinalizerAdvances(c: State, c': State, k: Key)
    requires Live(c, k) && FINALIZER !in c.binds[k].finalizers && Finalized(c, c', k)
    ensures Advances(c, c', k)
  {
  }

  lemma PendingAdvances(c: State, c': State, k: Key, now: int)
    requires Live(c, k) && FINALIZER in c.binds[k].finalizers && c.binds[k].status.phase == NoPhase
    requires Patched(c, c', k, c.binds[k].status, PendingStatus(c.binds[k].status, now))
    ensures Advances(c, c', k)
  {
  }

  lemma BoundAdvances(c: State, c': State, k: Key)
    requires Live(c, k) && FINALIZER in c.binds[k].finalizers && c.binds[k].status.phase != NoPhase
    requires BoundUser(c, c', k, c.binds[k], Expiry(c.binds[k]))
    ensures Advances(c, c', k)
  {
    ExactSame(c', c.binds[k].(status := c'.binds[k].status), c'.binds[k]);
  }

  lemma UnboundOwnsNothing(c: State, k: Key)
    requires ClusterOk(c) && k in c.binds && c.binds[k].status.phase == StatusPatch.Unbound
    ensures OwnedAll(c, c.binds[k].uid) == {}
  {
    if OwnedAll(c, c.binds[k].uid) != {} { OwnerAlive(c, k); }
  }

  /** The same CR but for its status, its resource version and its history. */
  predicate Rewritten(b: Bind, b': Bind) {
    b' == b.(status := b'.status, rv := b'.rv, synced := b'.synced, blamed := b'.blamed)
  }

  /** An undisturbed sync of the stored CR `b`: it is `binded` to the account until `e` and owns what the roles call
      for. When that was already so, nothing changed. */
  predicate SyncedUser(c: State, c': State, k: Key, b: Bind, account: Account, e: int) {
    && k in c'.binds && c'.roles == c.roles && c'.now == c.now && c'.accounts == c.accounts
    && Rewritten(b, c'.binds[k])
    && IsBoundTo(c', b.(status := c'.binds[k].status), account, e)
    && (IsBoundTo(c, b, account, e) ==> c' == c)
  }

  predicate IsBoundTo(c: State, b: Bind, account: Account, e: int) {
    b.status.phase == Binded && b.status.ref == account.uid && b.status.expiresAt == Some(e) && Exact(c, b)
  }

  lemma SyncsUser(c: State, mid: State, c': State, k: Key, b: Bind, s: Sync)
    requires k in c.binds && c.binds[k] == b && s.orig == b
    requires if b.status.phase == Binded then mid == c && s.bind == b else Begun(c, mid, k, s)
    requires Completed(mid, c', k, s)
    ensures SyncedUser(c, c', k, b, s.account, s.expiry)
  {
    ExactSame(c', s.bind, b.(status := c'.binds[k].status));
  }

  /** The `binding` write of an undisturbed reconcile. */
  predicate Begun(c: State, c': State, k: Key, s: Sync) {
    && k in c.binds && k in c'.binds && c' == c.(binds := c'.binds, rv := c'.rv)
    && Rewritten(c.binds[k], c'.binds[k])
    && s.bind == c'.binds[k]
  }

  lemma BindingStored(c: State, k: Key, b: Bind, account: Account, now: int)
    requires ClusterOk(c) && HoldsStatus(c, k, b)
    ensures var end := Apply(Diff(b.status, BindingStatus(b.status, account.uid, now)), c.binds[k].status);
      end.ref == account.uid && end.expiresAt == b.status.expiresAt
  {
    assert BindOk(c, k, c.binds[k]);
    PatchRoundTrip(b.status, BindingStatus(b.status, account.uid, now));
  }

  /** An undisturbed reconcile of a bind that has not expired: the CR is `binded` to its account until `e`, and owns
      what the roles call for. When that was already so, nothing changed. */
  predicate BoundUser(c: State, c': State, k: Key, b: Bind, e: int) {
    && k in c'.binds && c'.roles == c.roles && c'.now == c.now
    && Rewritten(b, c'.binds[k])
    && IsUpToDate(c', k, b.(status := c'.binds[k].status), e)
    && (IsUpToDate(c, k, b, e) ==> c' == c)
  }

  /** `b`, as the stored CR of `k`, needs no write before `e`. */
  predicate IsUpToDate(c: State, k: Key, b: Bind, e: int) {
    && SubjectOf(k, b) in c.accounts && c.accounts[SubjectOf(k, b)].controller == Some(b.uid)
    && IsBoundTo(c, b, c.accounts[SubjectOf(k, b)], e)
  }

  lemma BindsUser(c: State, mid: State, c': State, k: Key, b: Bind, uid: string, account: Account, e: int)
    requires k in c.binds && c.binds[k] == b
    requires AccountPut(c, mid, k, b, uid) && account == mid.accounts[SubjectOf(k, b)]
    requires SyncedUser(mid, c', k, b, account, e)
    ensures BoundUser(c, c', k, b, e)
  {
    if IsUpToDate(c, k, b, e) {
      assert mid.accounts == c.accounts;
      assert mid == c;
    }
  }

  lemma ExactSame(c: State, b: Bind, b': Bind)
    requires b.uid == b'.uid && b.spec == b'.spec
    ensures Exact(c, b) <==> Exact(c, b')
  {
  }

  /** The in-memory status after the `binding` write: the account's UID, and the expiry as it was. */
  predicate BindingWritten(s: Sync) {
    s.orig.status.phase != Binded ==>
      s.bind.status.ref == s.account.uid && s.bind.status.expiresAt == s.orig.status.expiresAt
  }

  /** A CR that is `binded` with this account and expiry. */
  predicate BoundAs(b: Bind, s: Sync) {
    b.status.phase == Binded && b.status.ref == s.account.uid && b.status.expiresAt == Some(s.expiry)
  }

  /** Only the status of `k` changed, and it says `binded`. */
  predicate Concluded(c: State, c': State, k: Key, s: Sync) {
    && k in c.binds && k in c'.binds && c' == c.(binds := c'.binds, rv := c'.rv)
    && Rewritten(c.binds[k], c'.binds[k])
    && BoundAs(c'.binds[k], s)
  }

  /** An undisturbed sync: the roles and accounts are as before, the CR is `binded`, and it owns what the roles call
      for. */
  predicate Completed(c: State, c': State, k: Key, s: Sync) {
    && k in c.binds && k in c'.binds && c'.roles == c.roles && c'.accounts == c.accounts && c'.now == c.now
    && Rewritten(c.binds[k], c'.binds[k])
    && BoundAs(c'.binds[k], s)
    && Exact(c', s.bind)
    && (Exact(c, s.bind) && Established(s) ==> c' == c)
  }

  lemma Completes(c: State, mid: State, c': State, k: Key, s: Sync, crs: seq<Item>, rs: seq<Item>)
    requires SameButBindings(c, mid) && IsRoleList(c, ClusterPass, crs) && IsRoleList(c, NamespacePass, rs)
    requires OwnsWanted(c, s, crs, rs) ==> mid == c
    requires OwnsWanted(mid, s, crs, rs)
    requires if Established(s) then c' == mid && k in mid.binds
        && BoundAs(mid.binds[k], s) else Concluded(mid, c', k, s)
    ensures Completed(c, c', k, s)
  {
    ListedIsWanted(c, s.bind, ClusterPass, crs);
    ListedIsWanted(c, s.bind, NamespacePass, rs);
    assert WantedNow(c', s.bind, ClusterPass) == WantedNow(c, s.bind, ClusterPass);
    assert WantedNow(c', s.bind, NamespacePass) == WantedNow(c, s.bind, NamespacePass);
  }

  /** What the `binded` patch stores. */
  lemma BindedStored(c: State, k: Key, s: Sync)
    requires ClusterOk(c) && WorkerOk(c, k, MarkBinded(s))
    ensures var end := Apply(Diff(s.orig.status, BindedStatus(s, c.now)), c.binds[k].status);
      && Says(end, Binded, True, "Bound", BoundFor(s.bind.spec.user, |s.bind.spec.memberships|))
      && (BindingWritten(s) ==> end.ref == s.account.uid && end.expiresAt == Some(s.expiry))
  {
    assert BindOk(c, k, c.binds[k]);
  }

  /** A write against what is stored. */
  lemma PatchSays(c: State, c': State, k: Key, base: Status, phase: Phase, truth: Truth, reason: string,
                  message: Message, now: int)
    requires Patched(c, c', k, base, SetPhase(base, phase, truth, reason, message, now)) && c.binds[k].status == base
    ensures Says(c'.binds[k].status, phase, truth, reason, message)
  {
    WriteSays(base, phase, truth, reason, message, now);
  }

  function Finished(s: Sync, crs: seq<Item>, rs: seq<Item>): Sync {
    s.(wanted := Wanted(s.bind.uid, GroupsOf(s.bind), crs) + Wanted(s.bind.uid, GroupsOf(s.bind), rs))
  }

  /** The CR is `binded` and owns exactly one binding for each matching role of the two lists. */
  predicate IsBound(c: State, k: Key, s: Sync, crs: seq<Item>, rs: seq<Item>) {
    && k in c.binds && c.binds[k].uid == s.bind.uid && c.binds[k].status.phase == Binded
    && OwnedAll(c, s.bind.uid) == Finished(s, crs, rs).wanted
  }

  lemma SyncedIs(c: State, k: Key, s: Sync, crs: seq<Item>, rs: seq<Item>, keys: seq<BindKey>)
    requires WorkerOk(c, k, Synced(s, crs, rs, keys))
    ensures forall a :: Work(c, k, Synced(s, crs, rs, keys), a)
                     == if Established(s) then Done(c, false, Until(c.now, s.expiry))
                         else More(c, MarkBinded(Finished(s, crs, rs)))
    ensures OwnsWanted(c, s, crs, rs)
    ensures Established(s) ==> IsBound(c, k, s, crs, rs)
  {
    var w1 := Wanted(s.bind.uid, GroupsOf(s.bind), crs);
    PruningEnds(c, k, s.(wanted := w1), NamespacePass, Wanted(s.bind.uid, GroupsOf(s.bind), rs), keys);
  }

  lemma FetchIs(c: State, k: Key, a: Answer)
    ensures Work(c, k, Fetch, a) == DoFetch(c, k, a) && DoFetch(c, k, a).c == c
  {
  }

  /** The operator's finalizer was added to those of the CR or removed from them, and nothing else of it was changed. A
      terminating CR is gone with its last finalizer. */
  predicate Refinalized(c: State, c': State, k: Key, add: bool)
    requires k in c.binds
  {
    var b := c.binds[k];
    var fs := if add then b.finalizers + {FINALIZER} else b.finalizers - {FINALIZER};
    if k in c'.binds then c'.binds[k] == b.(finalizers := fs, rv := c'.binds[k].rv) else b.deleting && fs == {}
  }

  lemma FinalizerIs(c: State, k: Key, b: Bind, add: bool, a: Answer)
    ensures var n := Work(c, k, if add then AddFinalizer(b) else DropFinalizer(b), a);
      && n.Done? && n.c.bindings == c.bindings
      && (!n.err ==> k in c.binds && c.binds[k].rv == b.rv && Refinalized(c, n.c, k, add))
      && (k in c.binds && b == c.binds[k] && a.outcome == Ok && add ==>
          !n.err && n.c == SetFinalizers(c, k, b.finalizers + {FINALIZER}))
  {
  }

  /** A sync of an already `binded` CR. */
  function SyncFrom(c: State, b: Bind, account: Account, e: int): Worker {
    Worker.ListRoles(Sync(b, b, account, e, OwnedAll(c, b.uid), {}), ClusterPass)
  }

  /** The arguments of an updatePhase call. */
  datatype Write = Write(orig: Bind, bind: Bind, phase: Phase, truth: Truth, reason: string, message: Message)

  /** The updatePhase call that a reconcile makes next. */
  function WriteOf(w: Worker): Option<Write> {
    match w
    case MarkPending(b) => Some(Write(b, b, Pending, Unknown, "Accepted", Text("Bind accepted, pending sync")))
    case MarkFailed(orig, b, reason, message) => Some(Write(orig, b, Failed, False, reason, Text(message)))
    case MarkUnbound(b) => Some(Write(b, b, Unbound, False, "Expired", Text("TTL elapsed")))
    case MarkBinding(b, account, _) =>
      Some(Write(b, b.(status := b.status.(ref := account.uid)), Binding, Unknown, SYNCING,
                 Text("Syncing RBAC bindings")))
    case MarkBinded(s) =>
      Some(Write(s.orig, s.bind.(status := s.bind.status.(ref := s.account.uid, expiresAt := Some(s.expiry))), Binded,
                 True,
                 "Bound", BoundFor(s.bind.spec.user, |s.bind.spec.memberships|)))
    case _ => None
  }

  /** A status patch of `k` and nothing else, but for the resource version and the history of `k`. */
  predicate Patched(c: State, c': State, k: Key, base: Status, s: Status) {
    && k in c.binds && k in c'.binds
    && c' == c.(binds := c'.binds, rv := c'.rv)
    && Rewritten(c.binds[k], c'.binds[k]) && c'.binds[k].status == Apply(Diff(base, s), c.binds[k].status)
  }

  /** Where the `binding` write leads. */
  function SyncStart(c: State, k: Key, w: Worker): Worker
    requires w.MarkBinding? && k in c.binds
  {
    Worker.ListRoles(Sync(w.bind, ReadInto(w.bind, c.binds[k]), w.account, w.expiry,
                          OwnedAll(c, c.binds[k].uid), {}), ClusterPass)
  }

  lemma PatchIs(c: State, k: Key, base: Status, s: Status)
    requires k in c.binds
    ensures Patched(c, PatchStatus(c, k, base, s), k, base, s)
  {
    if Apply(Diff(base, s), c.binds[k].status) == c.binds[k].status {
      assert PatchStatus(c, k, base, s) == c;
    }
  }

  lemma LastPatchIs(c: State, k: Key, base: Status, s: Status, a: Answer, requeue: Option<int>)
    requires k in c.binds
    ensures var n := LastPatch(c, k, base, s, a, requeue);
      && n.Done? && n.c.bindings == c.bindings && n.err == (a.outcome != Ok)
      && n.requeue == (if n.err then None else requeue)
      && (a.outcome == Ok ==> Patched(c, n.c, k, base, s))
  {
    PatchIs(c, k, base, s);
  }

  lemma NoteIs(c: State, c': State, k: Key, base: Status, s: Status, src: nat)
    requires Patched(c, c', k, base, s)
    ensures Patched(c, NoteSynced(c', k, src), k, base, s) && Patched(c, NoteBlamed(c', k, src), k, base, s)
  {
  }

  /** What the step of an updatePhase call does. */
  predicate Effects(c: State, k: Key, w: Worker, x: Write, a: Answer, n: Next)
    requires k in c.binds
  {
    && n.c.bindings == c.bindings
    && (a.outcome == Ok && Fits(c, k, x.orig, x.bind) <==> n.More? || !n.err)
    && (n.More? || !n.err ==>
        Patched(c, n.c, k, x.orig.status, SetPhase(x.bind.status, x.phase, x.truth, x.reason, x.message, c.now)))
    && (n.More? ==> w.MarkBinding? && n.worker == SyncStart(n.c, k, w))
    && (w.MarkBinding? && n.Done? ==> n.err)
    && (n.Done? ==> n.requeue == if n.err then None else DueAfter(c, w))
  }

  /** When a reconcile that ends with this write wants to run again. */
  function DueAfter(c: State, w: Worker): Option<int> {
    match w
    case MarkPending(_) => Some(SECOND)
    case MarkBinded(s) => if c.now < s.expiry then Some(s.expiry - c.now) else None
    case _ => None
  }

  lemma BindingLands(c: State, k: Key, b: Bind, account: Account, e: int, a: Answer)
    requires k in c.binds
    ensures var w := MarkBinding(b, account, e);
      Effects(c, k, w, WriteOf(w).value, a, DoMarkBinding(c, k, b, account, e, a))
  {
    PatchIs(c, k, b.status, BindingStatus(b.status, account.uid, c.now));
  }

  lemma BindedLands(c: State, k: Key, y: Sync, a: Answer)
    requires k in c.binds
    ensures var w := MarkBinded(y); Effects(c, k, w, WriteOf(w).value, a, DoMarkBinded(c, k, y, a))
  {
    PatchIs(c, k, y.orig.status, BindedStatus(y, c.now));
    NoteIs(c, PatchStatus(c, k, y.orig.status, BindedStatus(y, c.now)), k, y.orig.status, BindedStatus(y, c.now),
           y.bind.src);
  }

  lemma FailedLands(c: State, k: Key, orig: Bind, b: Bind, reason: string, message: string, a: Answer)
    requires k in c.binds
    ensures var w := MarkFailed(orig, b, reason, message);
      Effects(c, k, w, WriteOf(w).value, a, DoMarkFailed(c, k, orig, b, reason, message, a))
  {
    var s := FailedStatus(b.status, reason, message, c.now);
    PatchIs(c, k, orig.status, s);
    NoteIs(c, PatchStatus(c, k, orig.status, s), k, orig.status, s, orig.src);
  }

  lemma PatchLands(c: State, k: Key, w: Worker, a: Answer)
    requires WriteOf(w).Some? && k in c.binds
    ensures Effects(c, k, w, WriteOf(w).value, a, Work(c, k, w, a))
  {
    match w
    case MarkPending(b) => LastPatchIs(c, k, b.status, PendingStatus(b.status, c.now), a, Some(SECOND));
    case MarkFailed(orig, b, reason, message) => FailedLands(c, k, orig, b, reason, message, a);
    case MarkUnbound(b) => LastPatchIs(c, k, b.status, UnboundStatus(b.status, c.now), a, None);
    case MarkBinding(b, account, e) => BindingLands(c, k, b, account, e, a);
    case MarkBinded(y) => BindedLands(c, k, y, a);
  }

  /** Where a reconcile stands when its sync has gone through, with the lists it read. */
  function Synced(s: Sync, crs: seq<Item>, rs: seq<Item>, keys: seq<BindKey>): Worker {
    Prune(s.(wanted := Wanted(s.bind.uid, GroupsOf(s.bind), crs)), NamespacePass,
          Wanted(s.bind.uid, GroupsOf(s.bind), rs), keys, |keys|)
  }

  predicate OwnsWanted(c: State, s: Sync, crs: seq<Item>, rs: seq<Item>) {
    && Owned(c, s.bind.uid, ClusterPass) == Wanted(s.bind.uid, GroupsOf(s.bind), crs)
    && Owned(c, s.bind.uid, NamespacePass) == Wanted(s.bind.uid, GroupsOf(s.bind), rs)
  }

  /** The CR owns exactly the bindings that the cluster's roles call for. */
  predicate Exact(c: State, b: Bind) {
    Owned(c, b.uid, ClusterPass) == WantedNow(c, b, ClusterPass)
        && Owned(c, b.uid, NamespacePass) == WantedNow(c, b, NamespacePass)
  }

  /** That is, exactly those of the roles whose annotation is the gid of one of its memberships. */
  lemma ExactIs(c: State, b: Bind)
    ensures Exact(c, b) <==> Matched(c, b, OwnedAll(c, b.uid), true) && Matched(c, b, OwnedAll(c, b.uid), false)
  {
    SyncBegins(c, b.uid);
    MatchedIsWanted(c, b, OwnedAll(c, b.uid), ClusterPass);
    MatchedIsWanted(c, b, OwnedAll(c, b.uid), NamespacePass);
  }

  /** An undisturbed sync, seen through the view. */
  lemma CompletesView(c: State, mid: State, c': State, k: Key, s: Sync, crs: seq<Item>, rs: seq<Item>, spare: string)
    requires k in c.binds && k in mid.binds && k in c'.binds && mid.binds[k].uid == s.bind.uid
    requires Rebinds(c, mid, k, spare)
    requires IsRoleList(View(c, k), ClusterPass, crs) && IsRoleList(View(c, k), NamespacePass, rs)
    requires OwnsWanted(View(c, k), s, crs, rs) ==> View(mid, k) == View(c, k)
    requires OwnsWanted(mid, s, crs, rs)
    requires if Established(s) then View(c', k) == View(mid, k) && BoundAs(mid.binds[k], s)
             else Concluded(View(mid, k), View(c', k), k, s)
    ensures Completed(View(c, k), View(c', k), k, s)
  {
    ViewOwned(mid, k);
    Completes(View(c, k), View(mid, k), View(c', k), k, s, crs, rs);
  }

  // ----- A sync that fails -----

  /** What is stored once a reconcile that began with the status `base` has reported a failed sync: phase and
      condition agree if and only if none or both of these hold: it began `failed`, and it began with the condition
      that it reports. */
  predicate EndsFailed(c: State, k: Key, base: Status, message: string) {
    && k in c.binds
    && var end := c.binds[k].status;
    && end.phase == (if base.phase == Failed then Binding else Failed)
    && (Agrees(end) <==> (base.phase == Failed <==> base.ready == Some(FailureCondition(message, c.now))))
  }

  lemma FailureStored(at: State, c: State, k: Key, orig: Bind, b: Bind, message: string)
    requires ClusterOk(at) && WorkerOk(at, k, MarkFailed(orig, b, BIND_FAILED, message))
    requires Patched(at, c, k, orig.status, FailedStatus(b.status, BIND_FAILED, message, c.now))
    ensures EndsFailed(c, k, orig.status, message)
  {
    assert BindOk(at, k, at.binds[k]);
    if orig.status.phase == Binded {
      OtherEndingsAgree(b.status, "", 0, BIND_FAILED, Text(message), c.now, c.now);
    } else {
      SecondWrite(orig.status, b.status, message, c.now);
    }
  }
}
