/**
 What every step of every interleaved run keeps: where owned bindings can come from and where they can be,
 and what each running reconcile may rely on while everybody else acts between its calls.
 */
module OperatorInvariant {
  import opened Base
  import opened Naming
  import opened StatusPatch
  import opened Cluster
  import opened Operator

  // ----- The cluster -----

  /** A UID is never shared and never reused. */
  predicate UidOk(c: State, k: Key, uid: string) {
    uid in c.uids && c.uids[uid] == k && |uid| == UID_LENGTH
  }

  /** A CR has the spec and the renewal stamp that some Upsert wrote for its key. */
  predicate FromUpsert(c: State, k: Key, b: Bind) {
    && b.src < |c.upserts| && b.renewed.Some? && c.upserts[b.src] == Written(k, b.spec, b.renewed.value)
    && b.spec.user == k.name
  }

  /** A copy in memory is of a version of the past, with memberships that some Upsert wrote for its key. */
  predicate CopyOk(c: State, k: Key, b: Bind) {
    && b.rv <= c.rv
    && b.src < |c.upserts| && c.upserts[b.src].key == k && c.upserts[b.src].spec.memberships == b.spec.memberships
    && b.spec.user == k.name
  }

  predicate BindOk(c: State, k: Key, b: Bind) {
    && FromUpsert(c, k, b) && WellShaped(b.status) && UidOk(c, k, b.uid) && b.rv <= c.rv
    && (b.synced.Some? ==> b.synced.value < |c.upserts|) && (b.blamed.Some? ==> b.blamed.value < |c.upserts|)
  }

  ghost predicate BindsOk(c: State) {
    forall k | k in c.binds :: BindOk(c, k, c.binds[k])
  }

  predicate RolesOk(c: State) {
    forall r | r in c.roles ::
      ScopeOk(r.scope) && (c.roles[r].group.Some? ==> (r, c.roles[r].group.value) in c.tags)
  }

  /** The phases in which a CR may own bindings. */
  predicate MayOwn(p: Phase) {
    p == Binding || p == Binded || p == Failed
  }

  /** The CR that an owned binding belongs to is alive, carries the finalizer and is in a phase that allows it. */
  predicate OwnerOk(c: State, uid: string, subject: Key) {
    && subject in c.binds
    && c.binds[subject].uid == uid
    && FINALIZER in c.binds[subject].finalizers
    && MayOwn(c.binds[subject].status.phase)
  }

  /** The binding was created for a role annotated with a group of a spec that some Upsert wrote for its CR. */
  predicate GrantOk(c: State, bk: BindKey, b: RoleBinding) {
    && bk in c.grants
    && var g := c.grants[bk];
    && g.role == b.role && (g.role, g.gid) in c.tags
    && g.src < |c.upserts| && c.upserts[g.src].key == b.subject
    && g.gid in Gids(c.upserts[g.src].spec.memberships)
  }

  predicate BindingOk(c: State, bk: BindKey, b: RoleBinding) {
    if b.owner.None? then !HasPrefix(bk.name, NAME_PREFIX)
    else
      && bk == BindKeyOf(b.owner.value, b.role) && ScopeOk(bk.scope)
      && OwnerOk(c, b.owner.value, b.subject)
      && GrantOk(c, bk, b)
  }

  ghost predicate BindingsOk(c: State) {
    forall bk | bk in c.bindings :: BindingOk(c, bk, c.bindings[bk])
  }

  ghost predicate ClusterOk(c: State) {
    BindsOk(c) && RolesOk(c) && BindingsOk(c)
  }

  // ----- A running reconcile -----

  /** The reconcile's copy `b` is of the live CR, and the finalizer keeps that CR alive. */
  predicate Holds(c: State, k: Key, b: Bind) {
    && k in c.binds && c.binds[k].uid == b.uid && |b.uid| == UID_LENGTH
    && FINALIZER in c.binds[k].finalizers
    && CopyOk(c, k, b)
  }

  /** Nobody wrote the status since the reconcile read it. */
  predicate HoldsStatus(c: State, k: Key, b: Bind) {
    Holds(c, k, b) && c.binds[k].status == b.status && b.status.phase != NoPhase
  }

  predicate GoalOk(c: State, k: Key, b: Bind, goal: Goal) {
    match goal
    case ToUnbind => HoldsStatus(c, k, b) && b.status.phase != Unbound
    case ToRelease => Holds(c, k, b) && c.binds[k].deleting
  }

  /** Every key names a binding of this CR, in this pass. */
  predicate OwnKeys(uid: string, p: Pass, keys: seq<BindKey>) {
    forall bk | bk in keys :: InPass(p, bk.scope) && ScopeOk(bk.scope) && HasPrefix(bk.name, OwnPrefix(uid))
  }

  predicate ItemsOk(c: State, p: Pass, items: seq<Item>) {
    forall it | it in items ::
      InPass(p, it.role.scope) && ScopeOk(it.role.scope) && (it.group.Some? ==> (it.role, it.group.value) in c.tags)
  }

  /** While a sync runs, the stored phase is the `binding` it wrote, or the `binded` it began with. */
  predicate SyncOk(c: State, k: Key, s: Sync) {
    && Holds(c, k, s.bind) && s.orig.uid == s.bind.uid && s.orig.src < |c.upserts|
    && WellShaped(s.orig.status) && s.orig.status.phase != NoPhase
    && s.expiry % SECOND == 0
    && (if s.orig.status.phase == Binded then s.bind.status == s.orig.status && c.binds[k].status == s.orig.status
        else
          && c.binds[k].status == s.bind.status
          && s.bind.status.phase == Binding && ReadyIs(s.bind.status, Unknown)
          && s.bind.status.ready.value.reason == SYNCING)
  }

  /** What the other pass has left or will find. */
  predicate OtherPass(c: State, s: Sync, p: Pass) {
    if p == ClusterPass then Owned(c, s.bind.uid, NamespacePass) == OfPass(NamespacePass, s.before)
    else Owned(c, s.bind.uid, ClusterPass) == s.wanted
  }

  predicate SyncPass(c: State, k: Key, s: Sync, p: Pass) {
    SyncOk(c, k, s) && OtherPass(c, s, p) && (p == ClusterPass ==> s.wanted == {})
  }

  function KeySet(keys: seq<BindKey>): set<BindKey> {
    set bk | bk in keys
  }

  /** deleteOwned: what is still to delete is what is still owned. */
  predicate DeletingOk(c: State, k: Key, b: Bind, goal: Goal, p: Pass, keys: seq<BindKey>, i: nat) {
    && GoalOk(c, k, b, goal) && (p == NamespacePass ==> Owned(c, b.uid, ClusterPass) == {})
    && i <= |keys| && OwnKeys(b.uid, p, keys)
    && Owned(c, b.uid, p) == KeySet(keys) - KeySet(keys[..i])
  }

  /** The create loop: owned is what was owned before and what has been created since. */
  predicate CreatingOk(c: State, k: Key, s: Sync, p: Pass, items: seq<Item>, i: nat) {
    && SyncPass(c, k, s, p) && ItemsOk(c, p, items) && i <= |items|
    && Owned(c, s.bind.uid, p) == OfPass(p, s.before) + Wanted(s.bind.uid, GroupsOf(s.bind), items[..i])
  }

  /** The prune loop: what was listed is gone if it has been passed and is not desired. */
  predicate PruningOk(c: State, k: Key, s: Sync, p: Pass, desired: set<BindKey>, keys: seq<BindKey>, i: nat) {
    && SyncPass(c, k, s, p) && i <= |keys| && OwnKeys(s.bind.uid, p, keys)
    && KeySet(keys) == OfPass(p, s.before) + desired
    && Owned(c, s.bind.uid, p) == KeySet(keys) - (KeySet(keys[..i]) - desired)
  }

  predicate FailingOk(c: State, k: Key, orig: Bind, b: Bind, reason: string) {
    || (orig == b && HoldsStatus(c, k, b) && reason != BIND_FAILED)
    || (reason == BIND_FAILED && SyncOk(c, k, Sync(orig, b, Account("", None), 0, {}, {})))
  }

  predicate WorkerOk(c: State, k: Key, w: Worker) {
    match w
    case Fetch => true
    case AddFinalizer(b) => true
    case MarkPending(b) => Holds(c, k, b) && c.binds[k].status == b.status && b.status.phase == NoPhase
    case MarkFailed(orig, b, reason, _) => FailingOk(c, k, orig, b, reason)
    case Judge(b, e) => HoldsStatus(c, k, b) && e % SECOND == 0
    case ListOwned(b, goal, p) =>
      GoalOk(c, k, b, goal) && (p == NamespacePass ==> Owned(c, b.uid, ClusterPass) == {})
    case DeleteOwned(b, goal, p, keys, i) => DeletingOk(c, k, b, goal, p, keys, i)
    case MarkUnbound(b) => GoalOk(c, k, b, ToUnbind) && OwnedAll(c, b.uid) == {}
    case DropFinalizer(b) => GoalOk(c, k, b, ToRelease) && OwnedAll(c, b.uid) == {}
    case EnsureAccount(b, e) => HoldsStatus(c, k, b) && e % SECOND == 0
    case MarkBinding(b, _, e) => HoldsStatus(c, k, b) && b.status.phase != Binded && e % SECOND == 0
    case ListRoles(s, p) => SyncPass(c, k, s, p) && Owned(c, s.bind.uid, p) == OfPass(p, s.before)
    case CreateBindings(s, p, items, i) => CreatingOk(c, k, s, p, items, i)
    case ListBindings(s, p, desired) =>
      SyncPass(c, k, s, p) && Owned(c, s.bind.uid, p) == OfPass(p, s.before) + desired
    case Prune(s, p, desired, keys, i) => PruningOk(c, k, s, p, desired, keys, i)
    case MarkBinded(s) => SyncOk(c, k, s) && OwnedAll(c, s.bind.uid) == s.wanted
  }

  ghost predicate Inv(s: System) {
    ClusterOk(s.c) && forall k | k in s.workers :: WorkerOk(s.c, k, s.workers[k])
  }

  // ----- Frames -----

  /** A step that a reconcile of `k` does not notice: its CR, if the finalizer holds it, keeps its identity,
      its finalizer and its status, and the same bindings are labelled with its UID. */
  ghost predicate Untouched(c: State, c': State, k: Key) {
    && c.upserts <= c'.upserts && c.tags <= c'.tags && c.rv <= c'.rv
    && (k in c.binds && FINALIZER in c.binds[k].finalizers ==>
        && k in c'.binds && FINALIZER in c'.binds[k].finalizers
        && c'.binds[k].uid == c.binds[k].uid && c'.binds[k].status == c.binds[k].status
        && (c.binds[k].deleting ==> c'.binds[k].deleting)
        && SameOwned(c, c', c.binds[k].uid))
  }

  predicate SameOwned(c: State, c': State, uid: string) {
    && OwnedAll(c', uid) == OwnedAll(c, uid)
    && Owned(c', uid, ClusterPass) == Owned(c, uid, ClusterPass)
    && Owned(c', uid, NamespacePass) == Owned(c, uid, NamespacePass)
  }

  lemma WorkerOkFrame(c: State, c': State, k: Key, w: Worker)
    requires WorkerOk(c, k, w) && Untouched(c, c', k)
    ensures WorkerOk(c', k, w)
  {
  }

  lemma OwnedSplits(c: State, uid: string)
    ensures OwnedAll(c, uid) == Owned(c, uid, ClusterPass) + Owned(c, uid, NamespacePass)
  {
  }

  // ----- Steps of everybody else -----

  /** UIDs stay with the object they were handed out to. */
  predicate UidsGrow(c: State, c': State) {
    forall u | u in c.uids :: u in c'.uids && c'.uids[u] == c.uids[u]
  }

  /** A write of one CR. */
  ghost predicate BindWrite(c: State, c': State, k: Key) {
    && c'.bindings == c.bindings && c'.grants == c.grants && c'.roles == c.roles && c'.tags == c.tags
    && c.upserts <= c'.upserts && c.rv <= c'.rv && UidsGrow(c, c')
    && (if k in c'.binds then c'.binds == c.binds[k := c'.binds[k]] && BindOk(c', k, c'.binds[k])
        else c'.binds == c.binds - {k})
  }

  /** The write leaves a CR that owns bindings alive, finalized and in a phase that allows them. */
  predicate OwnerKept(c: State, c': State, k: Key) {
    k in c.binds && OwnedAll(c, c.binds[k].uid) != {} ==> OwnerOk(c', c.binds[k].uid, k)
  }

  /** A write of one CR that its reconcile does not notice. */
  ghost predicate BindChange(c: State, c': State, k: Key) {
    BindWrite(c, c', k) && Untouched(c, c', k)
  }

  lemma BindWriteElsewhere(c: State, c': State, k: Key, l: Key)
    requires BindWrite(c, c', k) && l != k
    ensures l in c'.binds <==> l in c.binds
    ensures l in c.binds ==> c'.binds[l] == c.binds[l]
    ensures Untouched(c, c', l)
  {
  }

  lemma BindWriteBindings(c: State, c': State, k: Key)
    requires BindingsOk(c) && BindWrite(c, c', k) && OwnerKept(c, c', k)
    ensures BindingsOk(c')
  {
    forall bk | bk in c'.bindings
      ensures BindingOk(c', bk, c'.bindings[bk])
    {
      var b := c.bindings[bk];
      assert BindingOk(c, bk, b);
      if b.subject != k {
        BindWriteElsewhere(c, c', k, b.subject);
      } else if b.owner.Some? {
        assert bk in OwnedAll(c, b.owner.value);
      }
    }
  }

  lemma BindWriteKeeps(c: State, c': State, k: Key)
    requires ClusterOk(c) && BindWrite(c, c', k) && OwnerKept(c, c', k)
    ensures ClusterOk(c')
    ensures forall l | l != k :: Untouched(c, c', l)
  {
    BindWriteBindings(c, c', k);
    forall l | l != k
      ensures Untouched(c, c', l)
      ensures l in c'.binds ==> BindOk(c', l, c'.binds[l])
    {
      BindWriteElsewhere(c, c', k, l);
      if l in c'.binds {
        assert BindOk(c, l, c.binds[l]);
      }
    }
  }

  lemma BindChangeKeeps(c: State, c': State, k: Key)
    requires ClusterOk(c) && BindChange(c, c', k)
    ensures ClusterOk(c')
    ensures forall l :: Untouched(c, c', l)
  {
    if k in c.binds && OwnedAll(c, c.binds[k].uid) != {} {
      OwnerAlive(c, k);
    }
    BindWriteKeeps(c, c', k);
  }

  lemma OwnerAlive(c: State, k: Key)
    requires BindsOk(c) && BindingsOk(c) && k in c.binds && OwnedAll(c, c.binds[k].uid) != {}
    ensures OwnerOk(c, c.binds[k].uid, k)
  {
    var bk :| bk in OwnedAll(c, c.binds[k].uid);
    assert BindingOk(c, bk, c.bindings[bk]);
    assert BindOk(c, k, c.binds[k]);
    assert BindOk(c, c.bindings[bk].subject, c.binds[c.bindings[bk].subject]);
  }

  lemma UpsertChange(c: State, k: Key, spec: Spec, stamp: int, uid: string)
    requires CanAct(c, Upsert(k, spec, stamp, uid))
    requires k in c.binds ==> BindOk(c, k, c.binds[k])
    ensures BindChange(c, DoUpsert(c, k, spec, stamp, uid), k)
  {
  }

  lemma SetFinalizersChange(c: State, k: Key, fs: set<string>)
    requires k in c.binds && BindOk(c, k, c.binds[k])
    requires FINALIZER in c.binds[k].finalizers ==> FINALIZER in fs
    ensures BindChange(c, SetFinalizers(c, k, fs), k)
  {
  }

  lemma DeleteBindChange(c: State, k: Key)
    requires k in c.binds && BindOk(c, k, c.binds[k])
    ensures BindChange(c, Terminate(c, k), k)
  {
    if c.binds[k].finalizers == {} {
    } else {
      MarkedForDeletion(c, k);
    }
  }

  lemma MarkedForDeletion(c: State, k: Key)
    requires k in c.binds && BindOk(c, k, c.binds[k])
    ensures BindChange(c, PutBind(c, k, c.binds[k].(deleting := true)), k)
  {
  }

  lemma SetRoleKeeps(c: State, r: RoleKey, v: Option<Role>)
    requires ClusterOk(c) && CanAct(c, SetRole(r, v))
    ensures ClusterOk(Act(c, SetRole(r, v)))
    ensures forall l :: Untouched(c, Act(c, SetRole(r, v)), l)
  {
    var c' := Act(c, SetRole(r, v));
    forall bk | bk in c'.bindings
      ensures BindingOk(c', bk, c'.bindings[bk])
    {
      assert BindingOk(c, bk, c.bindings[bk]);
    }
  }

  lemma SetForeignBindingKeeps(c: State, at: BindKey, what: Option<RoleBinding>)
    requires ClusterOk(c) && CanAct(c, SetForeignBinding(at, what))
    ensures ClusterOk(Act(c, SetForeignBinding(at, what)))
    ensures forall l :: Untouched(c, Act(c, SetForeignBinding(at, what)), l)
  {
    var c' := Act(c, SetForeignBinding(at, what));
    forall bk | bk in c'.bindings
      ensures BindingOk(c', bk, c'.bindings[bk])
    {
      if bk != at { assert BindingOk(c, bk, c.bindings[bk]); }
    }
    NotOwned(c, at);
    forall uid: string { ForeignOwned(c, at, what, uid); }
  }

  /** Owned bindings have the operator's names. */
  lemma NotOwned(c: State, at: BindKey)
    requires BindingsOk(c) && !HasPrefix(at.name, NAME_PREFIX)
    ensures at in c.bindings ==> c.bindings[at].owner.None?
  {
    if at in c.bindings && c.bindings[at].owner.Some? {
      assert BindingOk(c, at, c.bindings[at]);
      OwnNameHasPrefix(c.bindings[at].owner.value, c.bindings[at].role.name);
    }
  }

  lemma ForeignOwned(c: State, at: BindKey, what: Option<RoleBinding>, uid: string)
    requires CanAct(c, SetForeignBinding(at, what))
    requires at in c.bindings ==> c.bindings[at].owner.None?
    ensures SameOwned(c, Act(c, SetForeignBinding(at, what)), uid)
  {
  }

  lemma ActKeeps(c: State, a: Action)
    requires ClusterOk(c) && CanAct(c, a)
    ensures ClusterOk(Act(c, a))
    ensures forall l :: Untouched(c, Act(c, a), l)
  {
    var c' := Act(c, a);
    match a
    case Tick(_) => SameClusterKeeps(c, c');
    case Upsert(k, spec, stamp, uid) => UpsertChange(c, k, spec, stamp, uid); BindChangeKeeps(c, c', k);
    case DeleteBind(k) => DeleteBindChange(c, k); BindChangeKeeps(c, c', k);
    case ForeignFinalizer(k, f, add) =>
      SetFinalizersChange(c, k, if add then c.binds[k].finalizers + {f} else c.binds[k].finalizers - {f});
      BindChangeKeeps(c, c', k);
    case SetRole(r, v) => SetRoleKeeps(c, r, v);
    case SetForeignBinding(at, what) => SetForeignBindingKeeps(c, at, what);
    case SetAccount(_, _) => SameClusterKeeps(c, c');
  }

  /** The clock and the accounts do not matter. */
  lemma SameClusterKeeps(c: State, c': State)
    requires ClusterOk(c)
    requires c' == c.(now := c'.now, accounts := c'.accounts, uids := c'.uids) && UidsGrow(c, c')
    ensures ClusterOk(c')
    ensures forall l :: Untouched(c, c', l)
  {
    forall bk | bk in c'.bindings
      ensures BindingOk(c', bk, c'.bindings[bk])
    {
      assert BindingOk(c, bk, c.bindings[bk]);
    }
  }

  // ----- Creating and deleting bindings -----

  /** A binding with this CR's prefix in its name carries this CR's label. */
  lemma NameTellsOwner(c: State, bk: BindKey, uid: string)
    requires ClusterOk(c) && bk in c.bindings && HasPrefix(bk.name, OwnPrefix(uid)) && |uid| == UID_LENGTH
    ensures c.bindings[bk].owner == Some(uid)
  {
    var b := c.bindings[bk];
    assert BindingOk(c, bk, b);
    if b.owner.None? {
      OwnPrefixed(bk.name, uid);
    } else {
      assert BindOk(c, b.subject, c.binds[b.subject]);
      PrefixNamesOwner(uid, b.owner.value, b.role.name);
    }
  }

  lemma OtherUid(c: State, k: Key, l: Key)
    requires BindsOk(c) && k in c.binds && l in c.binds && k != l
    ensures c.binds[k].uid != c.binds[l].uid
  {
    assert BindOk(c, k, c.binds[k]) && BindOk(c, l, c.binds[l]);
  }

  /** A change of one CR's bindings goes unnoticed by every other. */
  lemma OwnBindingsOnly(c: State, c': State, k: Key)
    requires BindsOk(c) && k in c.binds
    requires c'.binds == c.binds && c'.upserts == c.upserts && c'.tags == c.tags && c'.rv == c.rv
    requires forall uid | uid != c.binds[k].uid :: SameOwned(c, c', uid)
    ensures forall l | l != k :: Untouched(c, c', l)
  {
    forall l | l != k
      ensures Untouched(c, c', l)
    {
      if l in c.binds { OtherUid(c, k, l); }
    }
  }

  lemma DeleteOwnedSets(c: State, bk: BindKey, uid: string)
    requires bk in c.bindings ==> c.bindings[bk].owner == Some(uid)
    ensures OwnedAll(DeleteBinding(c, bk), uid) == OwnedAll(c, uid) - {bk}
    ensures forall p :: Owned(DeleteBinding(c, bk), uid, p) == Owned(c, uid, p) - {bk}
    ensures forall v | v != uid :: SameOwned(c, DeleteBinding(c, bk), v)
  {
  }

  lemma DeleteKeeps(c: State, k: Key, bk: BindKey)
    requires ClusterOk(c) && k in c.binds && HasPrefix(bk.name, OwnPrefix(c.binds[k].uid))
    ensures ClusterOk(DeleteBinding(c, bk))
    ensures OwnedAll(DeleteBinding(c, bk), c.binds[k].uid) == OwnedAll(c, c.binds[k].uid) - {bk}
    ensures forall p :: Owned(DeleteBinding(c, bk), c.binds[k].uid, p) == Owned(c, c.binds[k].uid, p) - {bk}
    ensures forall l | l != k :: Untouched(c, DeleteBinding(c, bk), l)
  {
    var c' := DeleteBinding(c, bk);
    assert BindOk(c, k, c.binds[k]);
    if bk in c.bindings { NameTellsOwner(c, bk, c.binds[k].uid); }
    DeleteOwnedSets(c, bk, c.binds[k].uid);
    OwnBindingsOnly(c, c', k);
    forall x | x in c'.bindings
      ensures BindingOk(c', x, c'.bindings[x])
    {
      assert BindingOk(c, x, c.bindings[x]);
    }
    SubsetBinds(c, c');
  }

  lemma SubsetBinds(c: State, c': State)
    requires BindsOk(c) && RolesOk(c)
    requires c'.binds == c.binds && c'.upserts == c.upserts && c'.uids == c.uids && c'.roles == c.roles
    requires c'.tags == c.tags && c'.rv == c.rv
    ensures BindsOk(c') && RolesOk(c')
  {
    forall k | k in c'.binds ensures BindOk(c', k, c'.binds[k]) { assert BindOk(c, k, c.binds[k]); }
  }

  lemma CreateOwnedSets(c: State, bk: BindKey, b: RoleBinding, g: Grant, uid: string)
    requires b.owner == Some(uid)
    requires bk in c.bindings ==> c.bindings[bk].owner == Some(uid)
    ensures OwnedAll(CreateBinding(c, bk, b, g), uid) == OwnedAll(c, uid) + {bk}
    ensures forall p :: Owned(CreateBinding(c, bk, b, g), uid, p)
                      == if InPass(p, bk.scope) then Owned(c, uid, p) + {bk} else Owned(c, uid, p)
    ensures forall v | v != uid :: SameOwned(c, CreateBinding(c, bk, b, g), v)
  {
  }

  lemma CreateKeeps(c: State, k: Key, b: RoleBinding, g: Grant)
    requires ClusterOk(c) && k in c.binds && b.subject == k && b.owner == Some(c.binds[k].uid)
    requires ScopeOk(b.role.scope) && OwnerOk(c, c.binds[k].uid, k)
    requires g.role == b.role && (g.role, g.gid) in c.tags
    requires g.src < |c.upserts| && c.upserts[g.src].key == k && g.gid in Gids(c.upserts[g.src].spec.memberships)
    ensures var uid := c.binds[k].uid; var bk := BindKeyOf(uid, b.role); var c' := CreateBinding(c, bk, b, g);
      && ClusterOk(c')
      && OwnedAll(c', uid) == OwnedAll(c, uid) + {bk}
      && (forall p :: Owned(c', uid, p) == if InPass(p, bk.scope) then Owned(c, uid, p) + {bk} else Owned(c, uid, p))
      && (forall l | l != k :: Untouched(c, c', l))
  {
    var uid := c.binds[k].uid;
    var bk := BindKeyOf(uid, b.role);
    var c' := CreateBinding(c, bk, b, g);
    assert BindOk(c, k, c.binds[k]);
    OwnNameHasPrefix(uid, b.role.name);
    if bk in c.bindings { NameTellsOwner(c, bk, uid); }
    CreateOwnedSets(c, bk, b, g, uid);
    OwnBindingsOnly(c, c', k);
    forall x | x in c'.bindings
      ensures BindingOk(c', x, c'.bindings[x])
    {
      if x in c.bindings { assert BindingOk(c, x, c.bindings[x]); }
    }
    SubsetBinds(c, c');
  }

  // ----- Steps of a reconcile -----

  /** A write by the reconcile of `k`: the cluster stays well-formed and no other reconcile notices. */
  ghost predicate OwnWrite(c: State, c': State, k: Key) {
    ClusterOk(c') && (forall l | l != k :: Untouched(c, c', l))
  }

  predicate Goes(k: Key, n: Next) {
    n.More? ==> WorkerOk(n.c, k, n.worker)
  }

  /** What one step of a reconcile of `k` must keep. */
  ghost predicate Keeps(c: State, k: Key, n: Next) {
    OwnWrite(c, n.c, k) && Goes(k, n)
  }

  lemma NoWrite(c: State, k: Key)
    requires ClusterOk(c)
    ensures OwnWrite(c, c, k)
  {
  }

  /** A step without effect on the cluster. */
  lemma StillKeeps(c: State, k: Key, n: Next)
    requires ClusterOk(c) && n.c == c && Goes(k, n)
    ensures Keeps(c, k, n)
  {
    NoWrite(c, k);
  }

  lemma FetchKeeps(c: State, k: Key, a: Answer)
    requires ClusterOk(c)
    ensures Keeps(c, k, DoFetch(c, k, a))
  {
    if k in c.binds { assert BindOk(c, k, c.binds[k]); }
    StillKeeps(c, k, DoFetch(c, k, a));
  }

  lemma AddFinalizerKeeps(c: State, k: Key, b: Bind, a: Answer)
    requires ClusterOk(c)
    ensures Keeps(c, k, DoSetFinalizers(c, k, b, true, a))
  {
    if LandsOn(c, k, b, a) {
      assert BindOk(c, k, c.binds[k]);
      SetFinalizersChange(c, k, c.binds[k].finalizers + {FINALIZER});
      BindChangeKeeps(c, SetFinalizers(c, k, c.binds[k].finalizers + {FINALIZER}), k);
    } else {
      StillKeeps(c, k, DoSetFinalizers(c, k, b, true, a));
    }
  }

  /** A status write that stores a well-shaped status, in a phase that allows what the CR owns. */
  lemma PatchKeeps(c: State, k: Key, base: Status, s: Status)
    requires ClusterOk(c) && k in c.binds
    requires WellShaped(Apply(Diff(base, s), c.binds[k].status))
    requires MayOwn(Apply(Diff(base, s), c.binds[k].status).phase) || OwnedAll(c, c.binds[k].uid) == {}
    ensures ClusterOk(PatchStatus(c, k, base, s))
    ensures forall l | l != k :: Untouched(c, PatchStatus(c, k, base, s), l)
  {
    assert BindOk(c, k, c.binds[k]);
    PatchWrites(c, k, base, s);
    if OwnedAll(c, c.binds[k].uid) != {} { OwnerAlive(c, k); }
    BindWriteKeeps(c, PatchStatus(c, k, base, s), k);
  }

  lemma PatchWrites(c: State, k: Key, base: Status, s: Status)
    requires k in c.binds && BindOk(c, k, c.binds[k])
    requires WellShaped(Apply(Diff(base, s), c.binds[k].status))
    ensures BindWrite(c, PatchStatus(c, k, base, s), k)
  {
    if Apply(Diff(base, s), c.binds[k].status) == c.binds[k].status {
      assert c.binds[k := c.binds[k]] == c.binds;
    }
  }

  lemma MarkPendingKeeps(c: State, k: Key, b: Bind, a: Answer)
    requires ClusterOk(c) && WorkerOk(c, k, MarkPending(b))
    ensures Keeps(c, k, LastPatch(c, k, b.status, PendingStatus(b.status, c.now), a, Some(SECOND)))
  {
    if Lands(c, k, a) {
      assert BindOk(c, k, c.binds[k]);
      if OwnedAll(c, c.binds[k].uid) != {} { OwnerAlive(c, k); }
      PatchKeeps(c, k, b.status, PendingStatus(b.status, c.now));
    } else {
      StillKeeps(c, k, LastPatch(c, k, b.status, PendingStatus(b.status, c.now), a, Some(SECOND)));
    }
  }

  lemma FailedIsShaped(base: Status, stored: Status, s: Status, reason: string, message: string, now: int)
    requires WellShaped(base) && WellShaped(stored) && s == stored
    requires stored == base ||
             (reason == BIND_FAILED && base.phase != Binded && base.phase != NoPhase && stored.phase == Binding
              && ReadyIs(stored, Unknown)
              && stored.ready.value.reason == SYNCING)
    ensures var end := Apply(Diff(base, FailedStatus(s, reason, message, now)), stored);
      WellShaped(end) && (end.phase == Failed || end.phase == stored.phase)
  {
  }

  lemma NoteBlamedKeeps(c: State, k: Key, src: nat)
    requires ClusterOk(c) && k in c.binds && src < |c.upserts|
    ensures ClusterOk(NoteBlamed(c, k, src))
    ensures forall l :: Untouched(c, NoteBlamed(c, k, src), l)
  {
    assert BindOk(c, k, c.binds[k]);
    BindChangeKeeps(c, NoteBlamed(c, k, src), k);
  }

  lemma FailedPatchKeeps(c: State, k: Key, orig: Bind, b: Bind, reason: string, message: string)
    requires ClusterOk(c) && FailingOk(c, k, orig, b, reason)
    ensures OwnWrite(c, PatchStatus(c, k, orig.status, FailedStatus(b.status, reason, message, c.now)), k)
  {
    assert BindOk(c, k, c.binds[k]);
    FailedIsShaped(orig.status, c.binds[k].status, b.status, reason, message, c.now);
    if OwnedAll(c, c.binds[k].uid) != {} { OwnerAlive(c, k); }
    PatchKeeps(c, k, orig.status, FailedStatus(b.status, reason, message, c.now));
  }

  lemma MarkFailedWrite(c: State, k: Key, orig: Bind, b: Bind, reason: string, message: string)
    requires ClusterOk(c) && FailingOk(c, k, orig, b, reason)
    ensures var s := FailedStatus(b.status, reason, message, c.now);
      OwnWrite(c, NoteBlamed(PatchStatus(c, k, orig.status, s), k, orig.src), k)
  {
    FailedPatchKeeps(c, k, orig, b, reason, message);
    var c' := PatchStatus(c, k, orig.status, FailedStatus(b.status, reason, message, c.now));
    NoteBlamedKeeps(c', k, orig.src);
    UntouchedTwice(c, c', NoteBlamed(c', k, orig.src), k);
  }

  lemma MarkFailedKeeps(c: State, k: Key, orig: Bind, b: Bind, reason: string, message: string, a: Answer)
    requires ClusterOk(c) && FailingOk(c, k, orig, b, reason)
    ensures Keeps(c, k, DoMarkFailed(c, k, orig, b, reason, message, a))
  {
    if LandsOver(c, k, orig, b, a) {
      MarkFailedWrite(c, k, orig, b, reason, message);
    } else {
      NoWrite(c, k);
    }
  }

  lemma JudgeKeeps(c: State, k: Key, b: Bind, e: int)
    requires ClusterOk(c) && HoldsStatus(c, k, b) && e % SECOND == 0
    ensures Keeps(c, k, DoJudge(c, b, e))
  {
    StillKeeps(c, k, DoJudge(c, b, e));
  }

  lemma OwnedKeysNamed(c: State, uid: string, p: Pass, keys: seq<BindKey>)
    requires BindingsOk(c) && IsBindingList(c, uid, p, keys)
    ensures OwnKeys(uid, p, keys)
  {
    forall bk | bk in keys
      ensures InPass(p, bk.scope) && ScopeOk(bk.scope) && HasPrefix(bk.name, OwnPrefix(uid))
    {
      assert bk in Owned(c, uid, p);
      assert BindingOk(c, bk, c.bindings[bk]);
      OwnNameHasPrefix(uid, c.bindings[bk].role.name);
    }
  }

  lemma KeySetNext(keys: seq<BindKey>, i: nat)
    requires i < |keys|
    ensures KeySet(keys[..i + 1]) == KeySet(keys[..i]) + {keys[i]}
  {
    assert keys[..i + 1] == keys[..i] + [keys[i]];
  }

  lemma KeySetAll(keys: seq<BindKey>)
    ensures KeySet(keys[..|keys|]) == KeySet(keys)
  {
    assert keys[..|keys|] == keys;
  }

  /** What a reconcile holds does not depend on the bindings. */
  predicate SameButBindings(c: State, c': State) {
    c' == c.(bindings := c'.bindings, grants := c'.grants)
  }

  lemma DeletingAdvances(c: State, k: Key, b: Bind, goal: Goal, p: Pass, keys: seq<BindKey>, i: nat)
    requires DeletingOk(c, k, b, goal, p, keys, i) && i < |keys|
    requires forall q :: Owned(DeleteBinding(c, keys[i]), b.uid, q) == Owned(c, b.uid, q) - {keys[i]}
    ensures DeletingOk(DeleteBinding(c, keys[i]), k, b, goal, p, keys, i + 1)
  {
    KeySetNext(keys, i);
  }

  lemma MarkUnboundKeeps(c: State, k: Key, b: Bind, a: Answer)
    requires ClusterOk(c) && GoalOk(c, k, b, ToUnbind) && OwnedAll(c, b.uid) == {}
    ensures Keeps(c, k, LastPatch(c, k, b.status, UnboundStatus(b.status, c.now), a, None))
  {
    if Lands(c, k, a) {
      assert BindOk(c, k, c.binds[k]);
      PatchKeeps(c, k, b.status, UnboundStatus(b.status, c.now));
    } else {
      StillKeeps(c, k, LastPatch(c, k, b.status, UnboundStatus(b.status, c.now), a, None));
    }
  }

  lemma SetFinalizersWrites(c: State, k: Key, fs: set<string>)
    requires k in c.binds && BindOk(c, k, c.binds[k])
    ensures BindWrite(c, SetFinalizers(c, k, fs), k)
  {
    if c.binds[k].deleting && fs == {} {
    } else {
    }
  }

  lemma DropFinalizerKeeps(c: State, k: Key, b: Bind, a: Answer)
    requires ClusterOk(c) && GoalOk(c, k, b, ToRelease) && OwnedAll(c, b.uid) == {}
    ensures Keeps(c, k, DoSetFinalizers(c, k, b, false, a))
  {
    if LandsOn(c, k, b, a) {
      assert BindOk(c, k, c.binds[k]);
      SetFinalizersWrites(c, k, c.binds[k].finalizers - {FINALIZER});
      BindWriteKeeps(c, SetFinalizers(c, k, c.binds[k].finalizers - {FINALIZER}), k);
    } else {
      StillKeeps(c, k, DoSetFinalizers(c, k, b, false, a));
    }
  }

  /** At the start of a sync, before is what is owned. */
  lemma SyncBegins(c: State, uid: string)
    ensures forall p :: Owned(c, uid, p) == OfPass(p, OwnedAll(c, uid))
  {
  }

  /** The sync that follows the `binding` write holds the CR as read back. */
  lemma SyncBeginsBinding(c: State, c': State, k: Key, b: Bind, s: Sync)
    requires HoldsStatus(c, k, b) && WellShaped(b.status) && b.status.phase != Binded && s.expiry % SECOND == 0
    requires k in c'.binds && BindOk(c', k, c'.binds[k]) && c'.upserts == c.upserts && c.rv <= c'.rv
    requires c'.binds[k].uid == b.uid && FINALIZER in c'.binds[k].finalizers
    requires exists ref, now :: c'.binds[k].status == BindingStatus(b.status, ref, now)
    requires s.orig == b && s.bind == ReadInto(b, c'.binds[k])
    ensures SyncOk(c', k, s)
  {
  }

  lemma MarkBindingKeeps(c: State, k: Key, b: Bind, account: Account, e: int, a: Answer)
    requires ClusterOk(c) && HoldsStatus(c, k, b) && b.status.phase != Binded && e % SECOND == 0
    ensures Keeps(c, k, DoMarkBinding(c, k, b, account, e, a))
  {
    if Lands(c, k, a) {
      assert BindOk(c, k, c.binds[k]);
      var s := BindingStatus(b.status, account.uid, c.now);
      PatchRoundTrip(b.status, s);
      PatchKeeps(c, k, b.status, s);
      var c' := PatchStatus(c, k, b.status, s);
      if a.outcome == Ok {
        assert BindOk(c', k, c'.binds[k]);
        SyncBeginsBinding(c, c', k, b,
                          Sync(b, ReadInto(b, c'.binds[k]), account, e, OwnedAll(c', b.uid), {}));
        SyncBegins(c', b.uid);
      }
    } else {
      NoWrite(c, k);
    }
  }

  lemma WantedNext(uid: string, groups: set<string>, items: seq<Item>, i: nat)
    requires i < |items|
    ensures Wanted(uid, groups, items[..i + 1])
         == Wanted(uid, groups, items[..i]) + (if GroupMatches(groups, items[i].group) then
                                               {BindKeyOf(uid, items[i].role)} else {})
  {
    assert items[..i + 1] == items[..i] + [items[i]];
  }

  lemma SyncPassKept(c: State, c': State, k: Key, s: Sync, p: Pass)
    requires SyncPass(c, k, s, p) && SameButBindings(c, c')
    requires forall q | q != p :: Owned(c', s.bind.uid, q) == Owned(c, s.bind.uid, q)
    ensures SyncPass(c', k, s, p)
  {
  }

  lemma CreatingAdvances(c: State, c': State, k: Key, s: Sync, p: Pass, items: seq<Item>, i: nat)
    requires CreatingOk(c, k, s, p, items, i) && i < |items| && SameButBindings(c, c')
    requires GroupMatches(GroupsOf(s.bind), items[i].group)
    requires var bk := BindKeyOf(s.bind.uid, items[i].role);
      forall q :: Owned(c', s.bind.uid, q) == if InPass(q, bk.scope) then Owned(c, s.bind.uid, q) + {bk}
          else Owned(c, s.bind.uid, q)
    ensures CreatingOk(c', k, s, p, items, i + 1)
  {
    WantedNext(s.bind.uid, GroupsOf(s.bind), items, i);
    assert items[i] in items;
    SyncPassKept(c, c', k, s, p);
  }

  lemma CreatingSkips(c: State, k: Key, s: Sync, p: Pass, items: seq<Item>, i: nat)
    requires CreatingOk(c, k, s, p, items, i) && i < |items| && !GroupMatches(GroupsOf(s.bind), items[i].group)
    ensures CreatingOk(c, k, s, p, items, i + 1)
  {
    WantedNext(s.bind.uid, GroupsOf(s.bind), items, i);
  }

  /** A creation by the reconcile of `k` is backed by the spec it holds. */
  lemma CreationKeeps(c: State, k: Key, s: Sync, it: Item, a: Answer)
    requires ClusterOk(c) && SyncOk(c, k, s) && a.outcome != Refused
    requires GroupMatches(GroupsOf(s.bind), it.group) && ScopeOk(it.role.scope) && (it.role, it.group.value) in c.tags
    ensures var c' := Creation(c, k, s, it, a); var bk := BindKeyOf(s.bind.uid, it.role);
      && ClusterOk(c') && SameButBindings(c, c')
      && (forall p :: Owned(c', s.bind.uid, p) == if InPass(p, bk.scope) then Owned(c, s.bind.uid, p) + {bk}
          else Owned(c, s.bind.uid, p))
      && (forall l | l != k :: Untouched(c, c', l))
  {
    CreateKeeps(c, k, NewBinding(k, s, it.role), Grant(it.role, it.group.value, s.bind.src));
  }

  lemma PruningAdvances(c: State, k: Key, s: Sync, p: Pass, desired: set<BindKey>, keys: seq<BindKey>, i: nat)
    requires PruningOk(c, k, s, p, desired, keys, i) && i < |keys| && keys[i] !in desired
    requires forall q :: Owned(DeleteBinding(c, keys[i]), s.bind.uid, q) == Owned(c, s.bind.uid, q) - {keys[i]}
    ensures PruningOk(DeleteBinding(c, keys[i]), k, s, p, desired, keys, i + 1)
  {
    KeySetNext(keys, i);
    SyncPassKept(c, DeleteBinding(c, keys[i]), k, s, p);
  }

  lemma PruningEnds(c: State, k: Key, s: Sync, p: Pass, desired: set<BindKey>, keys: seq<BindKey>)
    requires PruningOk(c, k, s, p, desired, keys, |keys|)
    ensures Owned(c, s.bind.uid, p) == desired
    ensures p == NamespacePass ==> OwnedAll(c, s.bind.uid) == s.wanted + desired
  {
    KeySetAll(keys);
    OwnedSplits(c, s.bind.uid);
  }

  lemma BindedIsShaped(c: State, k: Key, s: Sync)
    requires SyncOk(c, k, s) && WellShaped(c.binds[k].status)
    ensures var end := Apply(Diff(s.orig.status, BindedStatus(s, c.now)), c.binds[k].status);
      WellShaped(end) && end.phase == Binded
  {
  }

  lemma NoteSyncedKeeps(c: State, k: Key, src: nat)
    requires ClusterOk(c) && k in c.binds && src < |c.upserts|
    ensures ClusterOk(NoteSynced(c, k, src))
    ensures forall l :: Untouched(c, NoteSynced(c, k, src), l)
  {
    assert BindOk(c, k, c.binds[k]);
    BindChangeKeeps(c, NoteSynced(c, k, src), k);
  }

  lemma DeletionWrite(c: State, k: Key, bk: BindKey, a: Answer)
    requires ClusterOk(c) && k in c.binds && HasPrefix(bk.name, OwnPrefix(c.binds[k].uid))
    ensures OwnWrite(c, Deletion(c, bk, a), k)
  {
    if a.outcome == Refused { NoWrite(c, k); } else { DeleteKeeps(c, k, bk); }
  }

  /** Deleting a binding named after a CR takes it out of what that CR owns. */
  lemma DeletionOwned(c: State, k: Key, bk: BindKey)
    requires ClusterOk(c) && k in c.binds && HasPrefix(bk.name, OwnPrefix(c.binds[k].uid))
    ensures forall q :: Owned(DeleteBinding(c, bk), c.binds[k].uid, q) == Owned(c, c.binds[k].uid, q) - {bk}
  {
    DeleteKeeps(c, k, bk);
  }

  lemma ListOwnedGoes(c: State, k: Key, b: Bind, goal: Goal, p: Pass, a: Answer)
    requires BindingsOk(c) && GoalOk(c, k, b, goal) && (p == NamespacePass ==> Owned(c, b.uid, ClusterPass) == {})
    requires a.outcome == Ok ==> IsBindingList(c, b.uid, p, a.keys)
    ensures Goes(k, DoListOwned(c, b, goal, p, a))
  {
    if a.outcome == Ok {
      OwnedKeysNamed(c, b.uid, p, a.keys);
      assert KeySet(a.keys[..0]) == {};
    }
  }

  lemma DeleteOwnedGoes(c: State, k: Key, b: Bind, goal: Goal, p: Pass, keys: seq<BindKey>, i: nat, a: Answer)
    requires DeletingOk(c, k, b, goal, p, keys, i)
    requires i < |keys| ==> forall q :: Owned(DeleteBinding(c, keys[i]), b.uid, q) == Owned(c, b.uid, q) - {keys[i]}
    ensures Goes(k, DoDeleteOwned(c, b, goal, p, keys, i, a))
  {
    if i < |keys| {
      DeletingAdvances(c, k, b, goal, p, keys, i);
    } else {
      KeySetAll(keys);
      OwnedSplits(c, b.uid);
    }
  }

  lemma DeleteOwnedKeeps(c: State, k: Key, b: Bind, goal: Goal, p: Pass, keys: seq<BindKey>, i: nat, a: Answer)
    requires ClusterOk(c) && DeletingOk(c, k, b, goal, p, keys, i)
    ensures Keeps(c, k, DoDeleteOwned(c, b, goal, p, keys, i, a))
  {
    if i < |keys| {
      DeletionOwned(c, k, keys[i]);
      DeletionWrite(c, k, keys[i], a);
    } else {
      NoWrite(c, k);
    }
    DeleteOwnedGoes(c, k, b, goal, p, keys, i, a);
  }

  lemma EnsureAccountGoes(c: State, k: Key, b: Bind, e: int, a: Answer)
    requires HoldsStatus(c, k, b) && e % SECOND == 0 && WellShaped(b.status)
    ensures Goes(k, DoEnsureAccount(c, k, b, e, a))
  {
    var landed := a.outcome != Refused && AccountFree(c, k, b);
    if !landed {
    } else if a.outcome != Ok {
    } else {
      SyncBegins(PutAccount(c, k, b, a.uid), b.uid);
    }
  }

  lemma EnsureAccountKeeps(c: State, k: Key, b: Bind, e: int, a: Answer)
    requires ClusterOk(c) && HoldsStatus(c, k, b) && e % SECOND == 0 && Answers(c, k, EnsureAccount(b, e), a)
    ensures Keeps(c, k, DoEnsureAccount(c, k, b, e, a))
  {
    assert BindOk(c, k, c.binds[k]);
    EnsureAccountGoes(c, k, b, e, a);
    EnsureAccountWrites(c, k, b, e, a);
    SameClusterKeeps(c, DoEnsureAccount(c, k, b, e, a).c);
  }

  lemma EnsureAccountWrites(c: State, k: Key, b: Bind, e: int, a: Answer)
    requires Answers(c, k, EnsureAccount(b, e), a)
    ensures var c' := DoEnsureAccount(c, k, b, e, a).c;
      c' == c.(accounts := c'.accounts, uids := c'.uids) && UidsGrow(c, c')
  {
  }

  lemma ListRolesGoes(c: State, k: Key, s: Sync, p: Pass, a: Answer)
    requires RolesOk(c) && SyncPass(c, k, s, p) && Owned(c, s.bind.uid, p) == OfPass(p, s.before)
    requires a.outcome == Ok ==> IsRoleList(c, p, a.items)
    ensures Goes(k, DoListRoles(c, s, p, a))
  {
    assert a.items[..0] == [];
    assert Wanted(s.bind.uid, GroupsOf(s.bind), a.items[..0]) == {};
  }

  lemma CreateBindingsGoes(c: State, k: Key, s: Sync, p: Pass, items: seq<Item>, i: nat, a: Answer)
    requires CreatingOk(c, k, s, p, items, i)
    requires i < |items| && GroupMatches(GroupsOf(s.bind), items[i].group) && a.outcome != Refused ==>
      var bk := BindKeyOf(s.bind.uid, items[i].role); var c' := Creation(c, k, s, items[i], a);
      && SameButBindings(c, c')
      && (forall q :: Owned(c', s.bind.uid, q) == if InPass(q, bk.scope) then Owned(c, s.bind.uid, q) + {bk}
          else Owned(c, s.bind.uid, q))
    ensures Goes(k, DoCreateBindings(c, k, s, p, items, i, a))
  {
    if i >= |items| {
      assert items[..i] == items;
    } else if !GroupMatches(GroupsOf(s.bind), items[i].group) {
      CreatingSkips(c, k, s, p, items, i);
    } else if a.outcome != Refused {
      CreatingAdvances(c, Creation(c, k, s, items[i], a), k, s, p, items, i);
    }
  }

  lemma CreateBindingsKeeps(c: State, k: Key, s: Sync, p: Pass, items: seq<Item>, i: nat, a: Answer)
    requires ClusterOk(c) && CreatingOk(c, k, s, p, items, i)
    ensures Keeps(c, k, DoCreateBindings(c, k, s, p, items, i, a))
  {
    if i < |items| && GroupMatches(GroupsOf(s.bind), items[i].group) && a.outcome != Refused {
      assert items[i] in items;
      CreationKeeps(c, k, s, items[i], a);
    } else {
      NoWrite(c, k);
    }
    CreateBindingsGoes(c, k, s, p, items, i, a);
  }

  lemma ListBindingsGoes(c: State, k: Key, s: Sync, p: Pass, desired: set<BindKey>, a: Answer)
    requires BindingsOk(c) && SyncPass(c, k, s, p) && Owned(c, s.bind.uid, p) == OfPass(p, s.before) + desired
    requires a.outcome == Ok ==> IsBindingList(c, s.bind.uid, p, a.keys)
    ensures Goes(k, DoListBindings(c, s, p, desired, a))
  {
    if a.outcome == Ok {
      OwnedKeysNamed(c, s.bind.uid, p, a.keys);
      assert KeySet(a.keys[..0]) == {};
    }
  }

  lemma PruneGoes(c: State, k: Key, s: Sync, p: Pass, desired: set<BindKey>, keys: seq<BindKey>, i: nat, a: Answer)
    requires PruningOk(c, k, s, p, desired, keys, i)
    requires i < |keys| ==>
      forall q :: Owned(DeleteBinding(c, keys[i]), s.bind.uid, q) == Owned(c, s.bind.uid, q) - {keys[i]}
    ensures Goes(k, DoPrune(c, s, p, desired, keys, i, a))
  {
    if i >= |keys| {
      PassEnds(c, k, s, p, desired, keys, a);
    } else if keys[i] in desired {
      KeySetNext(keys, i);
    } else {
      PruningAdvances(c, k, s, p, desired, keys, i);
      if a.outcome == Ok {
      } else {
      }
    }
  }

  lemma PassEnds(c: State, k: Key, s: Sync, p: Pass, desired: set<BindKey>, keys: seq<BindKey>, a: Answer)
    requires PruningOk(c, k, s, p, desired, keys, |keys|)
    ensures Goes(k, DoPrune(c, s, p, desired, keys, |keys|, a))
  {
    PruningEnds(c, k, s, p, desired, keys);
    if p == ClusterPass {
    } else {
    }
  }

  lemma PruneKeeps(c: State, k: Key, s: Sync, p: Pass, desired: set<BindKey>, keys: seq<BindKey>, i: nat, a: Answer)
    requires ClusterOk(c) && PruningOk(c, k, s, p, desired, keys, i)
    ensures Keeps(c, k, DoPrune(c, s, p, desired, keys, i, a))
  {
    if i < |keys| { DeletionOwned(c, k, keys[i]); }
    if i < |keys| && keys[i] !in desired { DeletionWrite(c, k, keys[i], a); } else { NoWrite(c, k); }
    PruneGoes(c, k, s, p, desired, keys, i, a);
  }

  lemma MarkBindedKeeps(c: State, k: Key, s: Sync, a: Answer)
    requires ClusterOk(c) && SyncOk(c, k, s)
    ensures Keeps(c, k, DoMarkBinded(c, k, s, a))
  {
    if LandsOver(c, k, s.orig, s.bind, a) {
      MarkBindedWrite(c, k, s);
    } else {
      NoWrite(c, k);
    }
  }

  lemma MarkBindedWrite(c: State, k: Key, s: Sync)
    requires ClusterOk(c) && SyncOk(c, k, s)
    ensures OwnWrite(c, NoteSynced(PatchStatus(c, k, s.orig.status, BindedStatus(s, c.now)), k, s.bind.src), k)
  {
    assert BindOk(c, k, c.binds[k]);
    BindedIsShaped(c, k, s);
    PatchKeeps(c, k, s.orig.status, BindedStatus(s, c.now));
    var c' := PatchStatus(c, k, s.orig.status, BindedStatus(s, c.now));
    NoteSyncedKeeps(c', k, s.bind.src);
    UntouchedTwice(c, c', NoteSynced(c', k, s.bind.src), k);
  }

  lemma UntouchedTwice(c: State, c': State, c'': State, k: Key)
    requires forall l | l != k :: Untouched(c, c', l)
    requires forall l | l != k :: Untouched(c', c'', l)
    ensures forall l | l != k :: Untouched(c, c'', l)
  {
    forall l | l != k ensures Untouched(c, c'', l) { assert Untouched(c, c', l) && Untouched(c', c'', l); }
  }

  /** The three kinds of list call. */
  lemma ListKeeps(c: State, k: Key, w: Worker, a: Answer)
    requires ClusterOk(c) && WorkerOk(c, k, w) && Answers(c, k, w, a)
    requires w.ListOwned? || w.ListRoles? || w.ListBindings?
    ensures Keeps(c, k, Work(c, k, w, a))
  {
    NoWrite(c, k);
    match w
    case ListOwned(b, goal, p) => ListOwnedGoes(c, k, b, goal, p, a);
    case ListRoles(s, p) => ListRolesGoes(c, k, s, p, a);
    case ListBindings(s, p, desired) => ListBindingsGoes(c, k, s, p, desired, a);
  }

  /** The calls whose result the reconcile returns with. */
  lemma LastCallKeeps(c: State, k: Key, w: Worker, a: Answer)
    requires ClusterOk(c) && WorkerOk(c, k, w)
    requires w.AddFinalizer? || w.MarkPending? || w.MarkFailed? || w.MarkUnbound? || w.DropFinalizer? || w.MarkBinded?
    ensures Keeps(c, k, Work(c, k, w, a))
  {
    match w
    case AddFinalizer(b) => AddFinalizerKeeps(c, k, b, a);
    case MarkPending(b) => MarkPendingKeeps(c, k, b, a);
    case MarkFailed(orig, b, reason, message) => MarkFailedKeeps(c, k, orig, b, reason, message, a);
    case MarkUnbound(b) => MarkUnboundKeeps(c, k, b, a);
    case DropFinalizer(b) => DropFinalizerKeeps(c, k, b, a);
    case MarkBinded(s) => MarkBindedKeeps(c, k, s, a);
  }

  /** The loops of syncBindings and deleteOwned. */
  lemma LoopKeeps(c: State, k: Key, w: Worker, a: Answer)
    requires ClusterOk(c) && WorkerOk(c, k, w)
    requires w.DeleteOwned? || w.CreateBindings? || w.Prune?
    ensures Keeps(c, k, Work(c, k, w, a))
  {
    match w
    case DeleteOwned(b, goal, p, keys, i) => DeleteOwnedKeeps(c, k, b, goal, p, keys, i, a);
    case CreateBindings(s, p, items, i) => CreateBindingsKeeps(c, k, s, p, items, i, a);
    case Prune(s, p, desired, keys, i) => PruneKeeps(c, k, s, p, desired, keys, i, a);
  }

  /** The calls up to the start of a sync. */
  lemma EarlyKeeps(c: State, k: Key, w: Worker, a: Answer)
    requires ClusterOk(c) && WorkerOk(c, k, w) && Answers(c, k, w, a)
    requires w.Fetch? || w.Judge? || w.EnsureAccount? || w.MarkBinding?
    ensures Keeps(c, k, Work(c, k, w, a))
  {
    match w
    case Fetch => FetchKeeps(c, k, a);
    case Judge(b, e) => JudgeKeeps(c, k, b, e);
    case EnsureAccount(b, e) => EnsureAccountKeeps(c, k, b, e, a);
    case MarkBinding(b, account, e) => MarkBindingKeeps(c, k, b, account, e, a);
  }

  /** Every step of every reconcile keeps the cluster well-formed, goes unnoticed by the other reconciles, and
      establishes what the reconcile relies on next. */
  lemma WorkKeeps(c: State, k: Key, w: Worker, a: Answer)
    requires ClusterOk(c) && WorkerOk(c, k, w) && Answers(c, k, w, a)
    ensures Keeps(c, k, Work(c, k, w, a))
  {
    if w.Fetch? || w.Judge? || w.EnsureAccount? || w.MarkBinding? {
      EarlyKeeps(c, k, w, a);
    } else if w.DeleteOwned? || w.CreateBindings? || w.Prune? {
      LoopKeeps(c, k, w, a);
    } else if w.ListOwned? || w.ListRoles? || w.ListBindings? {
      ListKeeps(c, k, w, a);
    } else {
      LastCallKeeps(c, k, w, a);
    }
  }

  /** The invariant holds at the end of every run. */
  lemma StepKeeps(s: System, t: Step)
    requires Inv(s) && CanStep(s, t)
    ensures Inv(DoStep(s, t))
  {
    var s' := DoStep(s, t);
    match t
    case Outside(a) =>
      ActKeeps(s.c, a);
      forall k | k in s'.workers { WorkerOkFrame(s.c, s'.c, k, s.workers[k]); }
    case Advance(k, a) =>
      WorkKeeps(s.c, k, s.workers[k], a);
      forall l | l in s'.workers && l != k { WorkerOkFrame(s.c, s'.c, l, s.workers[l]); }
    case _ =>
  }

  lemma {:induction false} RunKeeps(s: System, steps: seq<Step>)
    requires Inv(s) && Run(s, steps).Some?
    ensures Inv(Run(s, steps).value)
  {
    if steps != [] {
      RunKeeps(s, steps[..|steps| - 1]);
      StepKeeps(Run(s, steps[..|steps| - 1]).value, steps[|steps| - 1]);
    }
  }

  lemma InitialInv(s: System)
    requires Initial(s)
    ensures Inv(s)
  {
  }
}
