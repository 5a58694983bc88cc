/**
 The operator's Reconcile as a step machine: one step per API call or clock reading, so that everybody else
 can act in between. There is at most one worker per CR key, reads are current, and any call may fail.
 */
module Operator {
  import opened Base
  import opened Naming
  import opened StatusPatch
  import opened Cluster

  /** syncBindings and deleteOwned treat ClusterRoleBindings first, then RoleBindings. */
  datatype Pass = ClusterPass | NamespacePass

  predicate InPass(p: Pass, s: Scope) {
    p == ClusterPass <==> s.WholeCluster?
  }

  /** An item of a role list: the role and its group annotation as listed. */
  datatype Item = Item(role: RoleKey, group: Option<string>)

  /** What deleteOwned is run for. */
  datatype Goal = ToUnbind | ToRelease

  /** What a reconcile carries through syncBindings: the baseline, the in-memory CR, the account and the expiry.
      `before` (the bindings owned when the sync began) and `wanted` (the bindings wanted by the passes already
      completed) are history. */
  datatype Sync = Sync(orig: Bind, bind: Bind, account: Account, expiry: int,
                       before: set<BindKey>, wanted: set<BindKey>)

  /** Where a reconcile stands: the call it makes next, and its local variables. */
  datatype Worker =
    | Fetch
    | AddFinalizer(bind: Bind)
    | MarkPending(bind: Bind)
    | MarkFailed(orig: Bind, bind: Bind, reason: string, message: string)
    | Judge(bind: Bind, expiry: int)
    | ListOwned(bind: Bind, goal: Goal, pass: Pass)
    | DeleteOwned(bind: Bind, goal: Goal, pass: Pass, keys: seq<BindKey>, next: nat)
    | MarkUnbound(bind: Bind)
    | DropFinalizer(bind: Bind)
    | EnsureAccount(bind: Bind, expiry: int)
    | MarkBinding(bind: Bind, account: Account, expiry: int)
    | ListRoles(sync: Sync, pass: Pass)
    | CreateBindings(sync: Sync, pass: Pass, items: seq<Item>, next: nat)
    | ListBindings(sync: Sync, pass: Pass, desired: set<BindKey>)
    | Prune(sync: Sync, pass: Pass, desired: set<BindKey>, keys: seq<BindKey>, next: nat)
    | MarkBinded(sync: Sync)

  /** What the environment answers to a call: the outcome, the text of an error, the items of a list in the
      order the server chose, and the UID of a created account. */
  datatype Answer = Answer(outcome: Outcome, message: string, items: seq<Item>, keys: seq<BindKey>, uid: string)

  /** The result of a step: the reconcile goes on, or it returns with or without an error and, when it asks for
      one, the delay after which it wants to run again. */
  datatype Next =
    | More(c: State, worker: Worker)
    | Done(c: State, err: bool, requeue: Option<int>)

  // ----- What is owned, what is wanted -----

  function OwnedIn(m: map<BindKey, RoleBinding>, uid: string, p: Pass): set<BindKey> {
    set bk | bk in m && m[bk].owner == Some(uid) && InPass(p, bk.scope)
  }

  function OwnedAllIn(m: map<BindKey, RoleBinding>, uid: string): set<BindKey> {
    set bk | bk in m && m[bk].owner == Some(uid)
  }

  /** The bindings labelled with a CR's UID, of one pass. */
  function Owned(c: State, uid: string, p: Pass): set<BindKey> {
    OwnedIn(c.bindings, uid, p)
  }

  /** The bindings labelled with a CR's UID. */
  function OwnedAll(c: State, uid: string): set<BindKey> {
    OwnedAllIn(c.bindings, uid)
  }

  function OfPass(p: Pass, keys: set<BindKey>): set<BindKey> {
    set bk | bk in keys && InPass(p, bk.scope)
  }

  /** `groupMatches`. */
  predicate GroupMatches(groups: set<string>, group: Option<string>) {
    group.Some? && group.value in groups
  }

  function BindKeyOf(uid: string, r: RoleKey): BindKey {
    BindKey(r.scope, BindingName(uid, r.name))
  }

  function Wanted(uid: string, groups: set<string>, items: seq<Item>): set<BindKey> {
    set it | it in items && GroupMatches(groups, it.group) :: BindKeyOf(uid, it.role)
  }

  function GroupsOf(b: Bind): set<string> {
    Gids(b.spec.memberships)
  }

  function SubjectOf(k: Key, b: Bind): Key {
    Key(k.ns, b.spec.user)
  }

  predicate IsRoleList(c: State, p: Pass, items: seq<Item>) {
    && (forall it | it in items :: it.role in c.roles && InPass(p, it.role.scope) && it.group == c.roles[it.role].group)
    && (forall r | r in c.roles && InPass(p, r.scope) :: Item(r, c.roles[r].group) in items)
  }

  predicate IsBindingList(c: State, uid: string, p: Pass, keys: seq<BindKey>) {
    (set bk | bk in keys) == Owned(c, uid, p)
  }

  // ----- Time -----

  /** The TTL anchor: the renewal stamp, or the creation time without one. */
  function Anchor(b: Bind): int {
    if b.renewed.Some? then b.renewed.value else b.created
  }

  function Expiry(b: Bind): int
    requires b.spec.ttl.Lasting?
  {
    Truncate(Anchor(b) + b.spec.ttl.duration)
  }

  /** RequeueAfter: time.Until(expiry); controller-runtime arms a timer for positive delays only. */
  function Until(now: int, expiry: int): Option<int> {
    if now < expiry then Some(expiry - now) else None
  }

  // ----- The steps of a reconcile -----

  /** Reconcile up to its first reading of the clock. */
  function Route(c: State, b: Bind): Next {
    if b.deleting then
      if FINALIZER in b.finalizers then More(c, ListOwned(b, ToRelease, ClusterPass)) else Done(c, false, None)
    else if FINALIZER !in b.finalizers then More(c, AddFinalizer(b))
    else if b.status.phase == NoPhase then More(c, MarkPending(b))
    else if b.spec.ttl.Unparsable? then More(c, MarkFailed(b, b, "InvalidTTL", b.spec.ttl.text))
    else More(c, Judge(b, Expiry(b)))
  }

  /** Whether a call reached the object it names. */
  predicate Lands(c: State, k: Key, a: Answer) {
    a.outcome != Refused && k in c.binds
  }

  predicate LandsOn(c: State, k: Key, b: Bind, a: Answer) {
    Lands(c, k, a) && c.binds[k].rv == b.rv
  }

  /** The patch of a reconcile that has read its CR again carries the resource version of that reading, and is refused
      when the CR has changed since. */
  predicate Fits(c: State, k: Key, orig: Bind, b: Bind)
    requires k in c.binds
  {
    b.rv == orig.rv || c.binds[k].rv == b.rv
  }

  predicate LandsOver(c: State, k: Key, orig: Bind, b: Bind, a: Answer) {
    Lands(c, k, a) && Fits(c, k, orig, b)
  }

  /** updatePhase as a last call: the reconcile returns with the patch's result. */
  function LastPatch(c: State, k: Key, base: Status, s: Status, a: Answer, requeue: Option<int>): Next {
    var ok := Lands(c, k, a) && a.outcome == Ok;
    Done(if Lands(c, k, a) then PatchStatus(c, k, base, s) else c, !ok, if ok then requeue else None)
  }

  function StartSync(c: State, orig: Bind, bind: Bind, account: Account, expiry: int): Next {
    More(c, ListRoles(Sync(orig, bind, account, expiry, OwnedAll(c, bind.uid), {}), ClusterPass))
  }

  /** CreateOrUpdate of the ServiceAccount, refused when another controller owns it. */
  predicate AccountFree(c: State, k: Key, b: Bind) {
    var ak := SubjectOf(k, b);
    ak in c.accounts ==> c.accounts[ak].controller in {None, Some(b.uid)}
  }

  function PutAccount(c: State, k: Key, b: Bind, uid: string): State {
    var ak := SubjectOf(k, b);
    if ak in c.accounts then c.(accounts := c.accounts[ak := c.accounts[ak].(controller := Some(b.uid))])
    else c.(accounts := c.accounts[ak := Account(uid, Some(b.uid))], uids := c.uids[uid := ak])
  }

  function FailSync(c: State, s: Sync, a: Answer): Next {
    More(c, MarkFailed(s.orig, s.bind, BIND_FAILED, a.message))
  }

  function Deletion(c: State, bk: BindKey, a: Answer): State {
    if a.outcome == Refused then c else DeleteBinding(c, bk)
  }

  /** The binding that a sync creates for a listed role. */
  function NewBinding(k: Key, s: Sync, r: RoleKey): RoleBinding {
    RoleBinding(Some(s.bind.uid), r, SubjectOf(k, s.bind))
  }

  function Creation(c: State, k: Key, s: Sync, it: Item, a: Answer): State
    requires it.group.Some?
  {
    if a.outcome == Refused then c
    else CreateBinding(c, BindKeyOf(s.bind.uid, it.role), NewBinding(k, s, it.role),
                       Grant(it.role, it.group.value, s.bind.src))
  }

  /** Already `binded` with this account and expiry: nothing to write. */
  predicate Established(s: Sync) {
    && s.orig.status.phase == Binded
    && s.bind.status.ref == s.account.uid
    && s.bind.status.expiresAt == Some(s.expiry)
  }

  function Finish(c: State, s: Sync): Next {
    if Established(s) then Done(c, false, Until(c.now, s.expiry)) else More(c, MarkBinded(s))
  }

  function BindedStatus(s: Sync, now: int): Status {
    SetPhase(s.bind.status.(ref := s.account.uid, expiresAt := Some(s.expiry)), Binded, True, "Bound",
             BoundFor(s.bind.spec.user, |s.bind.spec.memberships|), now)
  }

  /** History: the reconcile that stores `binded` had synced this spec. */
  function NoteSynced(c: State, k: Key, src: nat): State
    requires k in c.binds
  {
    c.(binds := c.binds[k := c.binds[k].(synced := Some(src))])
  }

  /** History: the reconcile that reports a failure had read this spec. */
  function NoteBlamed(c: State, k: Key, src: nat): State
    requires k in c.binds
  {
    c.(binds := c.binds[k := c.binds[k].(blamed := Some(src))])
  }

  // One function per call, named after the worker that makes it.

  function DoFetch(c: State, k: Key, a: Answer): Next {
    if a.outcome != Ok then Done(c, true, None)
    else if k !in c.binds then Done(c, false, None)
    else Route(c, c.binds[k])
  }

  /** An Update of the finalizers, refused when the CR changed since it was read. */
  function DoSetFinalizers(c: State, k: Key, b: Bind, add: bool, a: Answer): Next {
    if LandsOn(c, k, b, a) then
      var fs := c.binds[k].finalizers;
      Done(SetFinalizers(c, k, if add then fs + {FINALIZER} else fs - {FINALIZER}), a.outcome != Ok, None)
    else Done(c, true, None)
  }

  function PendingStatus(s: Status, now: int): Status {
    SetPhase(s, Pending, Unknown, "Accepted", Text("Bind accepted, pending sync"), now)
  }

  function UnboundStatus(s: Status, now: int): Status {
    SetPhase(s, Unbound, False, "Expired", Text("TTL elapsed"), now)
  }

  function DoJudge(c: State, b: Bind, e: int): Next {
    if c.now < e then More(c, EnsureAccount(b, e))
    else if b.status.phase != Unbound then More(c, ListOwned(b, ToUnbind, ClusterPass))
    else Done(c, false, None)
  }

  function DoListOwned(c: State, b: Bind, goal: Goal, p: Pass, a: Answer): Next {
    if a.outcome != Ok then Done(c, true, None) else More(c, DeleteOwned(b, goal, p, a.keys, 0))
  }

  function DoListRoles(c: State, s: Sync, p: Pass, a: Answer): Next {
    if a.outcome != Ok then FailSync(c, s, a) else More(c, CreateBindings(s, p, a.items, 0))
  }

  function DoListBindings(c: State, s: Sync, p: Pass, desired: set<BindKey>, a: Answer): Next {
    if a.outcome != Ok then FailSync(c, s, a) else More(c, Prune(s, p, desired, a.keys, 0))
  }

  function DoDeleteOwned(c: State, b: Bind, goal: Goal, p: Pass, keys: seq<BindKey>, i: nat, a: Answer): Next {
    if i < |keys| then
      if a.outcome == Ok then More(Deletion(c, keys[i], a), DeleteOwned(b, goal, p, keys, i + 1))
      else Done(Deletion(c, keys[i], a), true, None)
    else if p == ClusterPass then More(c, ListOwned(b, goal, NamespacePass))
    else More(c, if goal == ToUnbind then MarkUnbound(b) else DropFinalizer(b))
  }

  function DoEnsureAccount(c: State, k: Key, b: Bind, e: int, a: Answer): Next {
    var landed := a.outcome != Refused && AccountFree(c, k, b);
    var c' := if landed then PutAccount(c, k, b, a.uid) else c;
    if !landed || a.outcome != Ok then More(c', MarkFailed(b, b, "ServiceAccountFailed", a.message))
    else
      var account := c'.accounts[SubjectOf(k, b)];
      if b.status.phase == Binded then StartSync(c', b, b, account, e) else More(c', MarkBinding(b, account, e))
  }

  function DoMarkFailed(c: State, k: Key, orig: Bind, b: Bind, reason: string, message: string, a: Answer): Next {
    if LandsOver(c, k, orig, b, a) then
      Done(NoteBlamed(PatchStatus(c, k, orig.status, FailedStatus(b.status, reason, message, c.now)), k, orig.src),
           a.outcome != Ok, None)
    else Done(c, true, None)
  }

  /** The response to a patch is decoded into the object in memory. A member that it leaves out, as it leaves out an
      empty list of memberships, keeps the value that it had. */
  function ReadInto(b: Bind, stored: Bind): Bind {
    if stored.spec.memberships == [] && b.spec.memberships != [] then
      stored.(spec := stored.spec.(memberships := b.spec.memberships), src := b.src)
    else stored
  }

  /** A successful patch reads the stored CR back into the in-memory one. */
  function DoMarkBinding(c: State, k: Key, b: Bind, account: Account, e: int, a: Answer): Next {
    if !Lands(c, k, a) then Done(c, true, None)
    else
      var c' := PatchStatus(c, k, b.status, BindingStatus(b.status, account.uid, c.now));
      if a.outcome == Ok then StartSync(c', b, ReadInto(b, c'.binds[k]), account, e) else Done(c', true, None)
  }

  function DoCreateBindings(c: State, k: Key, s: Sync, p: Pass, items: seq<Item>, i: nat, a: Answer): Next {
    if i >= |items| then More(c, ListBindings(s, p, Wanted(s.bind.uid, GroupsOf(s.bind), items)))
    else if !GroupMatches(GroupsOf(s.bind), items[i].group) then More(c, CreateBindings(s, p, items, i + 1))
    else
      var c' := Creation(c, k, s, items[i], a);
      if a.outcome == Ok then More(c', CreateBindings(s, p, items, i + 1)) else FailSync(c', s, a)
  }

  function DoPrune(c: State, s: Sync, p: Pass, desired: set<BindKey>, keys: seq<BindKey>, i: nat, a: Answer): Next {
    if i < |keys| then
      if keys[i] in desired then More(c, Prune(s, p, desired, keys, i + 1))
      else if a.outcome == Ok then More(Deletion(c, keys[i], a), Prune(s, p, desired, keys, i + 1))
      else FailSync(Deletion(c, keys[i], a), s, a)
    else if p == ClusterPass then More(c, ListRoles(s.(wanted := desired), NamespacePass))
    else Finish(c, s.(wanted := s.wanted + desired))
  }

  function DoMarkBinded(c: State, k: Key, s: Sync, a: Answer): Next {
    if LandsOver(c, k, s.orig, s.bind, a) then
      Done(NoteSynced(PatchStatus(c, k, s.orig.status, BindedStatus(s, c.now)), k, s.bind.src),
           a.outcome != Ok, if a.outcome == Ok then Until(c.now, s.expiry) else None)
    else Done(c, true, None)
  }

  function Work(c: State, k: Key, w: Worker, a: Answer): Next {
    match w
    case Fetch => DoFetch(c, k, a)
    case AddFinalizer(b) => DoSetFinalizers(c, k, b, true, a)
    case MarkPending(b) => LastPatch(c, k, b.status, PendingStatus(b.status, c.now), a, Some(SECOND))
    case MarkFailed(orig, b, reason, message) => DoMarkFailed(c, k, orig, b, reason, message, a)
    case Judge(b, e) => DoJudge(c, b, e)
    case ListOwned(b, goal, p) => DoListOwned(c, b, goal, p, a)
    case DeleteOwned(b, goal, p, keys, i) => DoDeleteOwned(c, b, goal, p, keys, i, a)
    case MarkUnbound(b) => LastPatch(c, k, b.status, UnboundStatus(b.status, c.now), a, None)
    case DropFinalizer(b) => DoSetFinalizers(c, k, b, false, a)
    case EnsureAccount(b, e) => DoEnsureAccount(c, k, b, e, a)
    case MarkBinding(b, account, e) => DoMarkBinding(c, k, b, account, e, a)
    case ListRoles(s, p) => DoListRoles(c, s, p, a)
    case CreateBindings(s, p, items, i) => DoCreateBindings(c, k, s, p, items, i, a)
    case ListBindings(s, p, desired) => DoListBindings(c, s, p, desired, a)
    case Prune(s, p, desired, keys, i) => DoPrune(c, s, p, desired, keys, i, a)
    case MarkBinded(s) => DoMarkBinded(c, k, s, a)
  }

  /** Lists are current, and a created account gets a new UID. */
  predicate Answers(c: State, k: Key, w: Worker, a: Answer) {
    match w
    case ListOwned(b, _, p) => a.outcome == Ok ==> IsBindingList(c, b.uid, p, a.keys)
    case ListRoles(_, p) => a.outcome == Ok ==> IsRoleList(c, p, a.items)
    case ListBindings(s, p, _) => a.outcome == Ok ==> IsBindingList(c, s.bind.uid, p, a.keys)
    case EnsureAccount(b, _) =>
      a.outcome != Refused && SubjectOf(k, b) !in c.accounts ==> a.uid !in c.uids && |a.uid| == UID_LENGTH
    case _ => true
  }

  // ----- Runs of the whole cluster -----

  /** The cluster and its running reconciles. */
  datatype System = System(c: State, workers: map<Key, Worker>)

  datatype Step =
    | Outside(action: Action)
    | Start(key: Key)
    | Crash(key: Key)
    | Advance(key: Key, answer: Answer)

  predicate CanStep(s: System, t: Step) {
    match t
    case Outside(a) => CanAct(s.c, a)
    case Start(k) => k !in s.workers
    case Crash(k) => k in s.workers
    case Advance(k, a) => k in s.workers && Answers(s.c, k, s.workers[k], a)
  }

  function After(s: System, k: Key, n: Next): System {
    match n
    case More(c, w) => System(c, s.workers[k := w])
    case Done(c, _, _) => System(c, s.workers - {k})
  }

  function DoStep(s: System, t: Step): System
    requires CanStep(s, t)
  {
    match t
    case Outside(a) => s.(c := Act(s.c, a))
    case Start(k) => s.(workers := s.workers[k := Fetch])
    case Crash(k) => s.(workers := s.workers - {k})
    case Advance(k, a) => After(s, k, Work(s.c, k, s.workers[k], a))
  }

  /** Before the operator first runs: no CRs, and only foreign bindings. */
  predicate Initial(s: System) {
    && s.workers == map[] && s.c.binds == map[] && s.c.upserts == []
    && (forall bk | bk in s.c.bindings :: s.c.bindings[bk].owner.None? && !HasPrefix(bk.name, NAME_PREFIX))
    && (forall r | r in s.c.roles ::
        ScopeOk(r.scope) && (s.c.roles[r].group.Some? ==> (r, s.c.roles[r].group.value) in s.c.tags))
  }

  /** Where a sequence of steps leads, or None when one of them is not possible. */
  ghost function Run(s: System, steps: seq<Step>): Option<System> {
    if steps == [] then Some(s)
    else
      var r := Run(s, steps[..|steps| - 1]);
      if r.Some? && CanStep(r.value, steps[|steps| - 1]) then Some(DoStep(r.value, steps[|steps| - 1])) else None
  }

  /** The steps, all of them, lead from `s0` to `s`. */
  ghost predicate Leads(s0: System, steps: seq<Step>, s: System) {
    forall n | n == |steps| :: Run(s0, steps[..n]) == Some(s)
  }

  lemma LeadsIs(s0: System, steps: seq<Step>, s: System)
    ensures Leads(s0, steps, s) <==> Run(s0, steps) == Some(s)
  {
    assert steps[..|steps|] == steps;
  }

  lemma RunExtends(s: System, steps: seq<Step>, t: Step)
    requires Run(s, steps).Some? && CanStep(Run(s, steps).value, t)
    ensures Run(s, steps + [t]) == Some(DoStep(Run(s, steps).value, t))
  {
    assert (steps + [t])[..|steps|] == steps;
  }
}
