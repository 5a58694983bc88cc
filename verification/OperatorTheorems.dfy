/** What the invariant means for every run of the operator, however its calls fail and interleave. */
module OperatorTheorems {
  import opened Base
  import opened Naming
  import opened StatusPatch
  import opened Cluster
  import opened Operator
  import opened OperatorInvariant

  /** The end of some run from an initial state. */
  ghost predicate Reached(s0: System, steps: seq<Step>, s: System) {
    Initial(s0) && Run(s0, steps) == Some(s)
  }

  lemma ReachedInv(s0: System, steps: seq<Step>, s: System)
    requires Reached(s0, steps, s)
    ensures Inv(s)
  {
    InitialInv(s0);
    RunKeeps(s0, steps);
  }

  // ----- Finalizer and phase -----

  /** A CR that owns bindings is alive, carries the finalizer and is `binding`, `binded` or `failed`. Hence a CR
      that is gone, or was never seen, has left no binding behind, and neither has one that is `unbound`. */
  lemma OwnersAlive(s0: System, steps: seq<Step>, s: System)
    requires Reached(s0, steps, s)
    ensures forall bk | bk in s.c.bindings && s.c.bindings[bk].owner.Some? ::
      var b := s.c.bindings[bk];
      && b.subject in s.c.binds && s.c.binds[b.subject].uid == b.owner.value
      && FINALIZER in s.c.binds[b.subject].finalizers
      && s.c.binds[b.subject].status.phase in {Binding, Binded, Failed}
    ensures forall uid | (forall k | k in s.c.binds :: s.c.binds[k].uid != uid) :: OwnedAll(s.c, uid) == {}
    ensures forall k | k in s.c.binds && s.c.binds[k].status.phase == Unbound :: OwnedAll(s.c, s.c.binds[k].uid) == {}
  {
    ReachedInv(s0, steps, s);
    forall bk | bk in s.c.bindings && s.c.bindings[bk].owner.Some?
      ensures OwnerOk(s.c, s.c.bindings[bk].owner.value, s.c.bindings[bk].subject)
    {
      assert BindingOk(s.c, bk, s.c.bindings[bk]);
    }
    forall k | k in s.c.binds && s.c.binds[k].status.phase == Unbound
      ensures OwnedAll(s.c, s.c.binds[k].uid) == {}
    {
      if OwnedAll(s.c, s.c.binds[k].uid) != {} { OwnerAlive(s.c, k); }
    }
  }

  /** Phase and Ready condition agree in every stored status, but for the two splits of patching twice. */
  lemma StatusesShaped(s0: System, steps: seq<Step>, s: System)
    requires Reached(s0, steps, s)
    ensures forall k | k in s.c.binds :: Agrees(s.c.binds[k].status) || Split(s.c.binds[k].status)
  {
    ReachedInv(s0, steps, s);
    forall k | k in s.c.binds
      ensures WellShaped(s.c.binds[k].status)
    {
      assert BindOk(s.c, k, s.c.binds[k]);
    }
  }

  /** The step is the `failed` write that follows a failed sync of a CR that was not `binded`. */
  predicate ReportsFailedSync(s: System, t: Step, k: Key) {
    && t.Advance? && t.key == k && k in s.workers && FailedSyncWrite(s.c, k, s.workers[k], t.answer)
  }

  predicate FailedSyncWrite(c: State, k: Key, w: Worker, a: Answer) {
    && w.MarkFailed? && LandsOver(c, k, w.orig, w.bind, a)
    && w.reason == BIND_FAILED && w.orig.status.phase != Binded
  }

  /** Who leaves a split, exactly: a status that is written agrees, unless the write reports a failed sync. That one
      agrees if and only if none or both of these hold: the reconcile began `failed`, and it began with the condition
      that it reports. */
  lemma StatusWrites(s0: System, steps: seq<Step>, s: System, t: Step, k: Key)
    requires Reached(s0, steps, s) && CanStep(s, t) && k in DoStep(s, t).c.binds
    ensures var stored := DoStep(s, t).c.binds[k].status;
      if ReportsFailedSync(s, t, k) then
        var w := s.workers[k];
        && stored.phase == (if w.orig.status.phase == Failed then Binding else Failed)
        && (Agrees(stored) <==>
            (w.orig.status.phase == Failed <==> w.orig.status.ready == Some(FailureCondition(w.message, s.c.now))))
      else Agrees(stored) || (k in s.c.binds && stored == s.c.binds[k].status)
  {
    ReachedInv(s0, steps, s);
    match t
    case Outside(a) => ActStatus(s.c, a, k);
    case Start(_) =>
    case Crash(_) =>
    case Advance(l, a) =>
      if l == k { WorkStatus(s.c, k, s.workers[k], a); } else { WorkElsewhere(s.c, l, s.workers[l], a, k); }
  }

  lemma ActStatus(c: State, a: Action, k: Key)
    requires CanAct(c, a) && k in Act(c, a).binds
    ensures Agrees(Act(c, a).binds[k].status) || (k in c.binds && Act(c, a).binds[k].status == c.binds[k].status)
  {
    match a
    case Upsert(l, spec, stamp, uid) => UpsertStatus(c, l, spec, stamp, uid, k);
    case DeleteBind(l) => TerminateStatus(c, l, k);
    case ForeignFinalizer(l, f, add) =>
      SetFinalizersStatus(c, l, if add then c.binds[l].finalizers + {f} else c.binds[l].finalizers - {f}, k);
    case _ => OtherActsKeepBinds(c, a);
  }

  lemma OtherActsKeepBinds(c: State, a: Action)
    requires CanAct(c, a) && !a.Upsert? && !a.DeleteBind? && !a.ForeignFinalizer?
    ensures Act(c, a).binds == c.binds
  {
    match a
    case SetRole(_, v) => if v.Some? && v.value.group.Some? {}
    case _ =>
  }

  lemma UpsertStatus(c: State, l: Key, spec: Spec, stamp: int, uid: string, k: Key)
    ensures var c' := DoUpsert(c, l, spec, stamp, uid);
      k in c'.binds ==> Agrees(c'.binds[k].status) || (k in c.binds && c'.binds[k].status == c.binds[k].status)
  {
    if l in c.binds {
    } else {
    }
  }

  lemma TerminateStatus(c: State, l: Key, k: Key)
    requires l in c.binds
    ensures var c' := Terminate(c, l); k in c'.binds ==> k in c.binds && c'.binds[k].status == c.binds[k].status
  {
  }

  lemma SetFinalizersStatus(c: State, l: Key, fs: set<string>, k: Key)
    requires l in c.binds
    ensures var c' := SetFinalizers(c, l, fs); k in c'.binds ==> k in c.binds && c'.binds[k].status == c.binds[k].status
  {
    if c.binds[l].deleting && fs == {} {
    } else {
    }
  }

  /** The same for a step of the reconcile itself. */
  ghost predicate StatusStep(c: State, c': State, k: Key, w: Worker, a: Answer) {
    k in c'.binds ==>
      var stored := c'.binds[k].status;
      if FailedSyncWrite(c, k, w, a) then
        && stored.phase == (if w.orig.status.phase == Failed then Binding else Failed)
        && (Agrees(stored) <==>
            (w.orig.status.phase == Failed <==> w.orig.status.ready == Some(FailureCondition(w.message, c.now))))
      else Agrees(stored) || (k in c.binds && stored == c.binds[k].status)
  }

  lemma WorkStatus(c: State, k: Key, w: Worker, a: Answer)
    requires ClusterOk(c) && WorkerOk(c, k, w)
    ensures StatusStep(c, Work(c, k, w, a).c, k, w, a)
  {
    if WritesBind(w) {
      if k in c.binds { assert BindOk(c, k, c.binds[k]); }
      WriteStatus(c, k, w, a);
    } else {
      OtherCallsKeepBinds(c, k, w, a);
    }
  }

  lemma WriteStatus(c: State, k: Key, w: Worker, a: Answer)
    requires WorkerOk(c, k, w) && WritesBind(w) && (k in c.binds ==> WellShaped(c.binds[k].status))
    ensures StatusStep(c, Work(c, k, w, a).c, k, w, a)
  {
    match w
    case AddFinalizer(b) => FinalizersStatus(c, k, b, true, a);
    case DropFinalizer(b) => FinalizersStatus(c, k, b, false, a);
    case MarkFailed(orig, b, reason, message) => FailedStatusStored(c, k, orig, b, reason, message, a);
    case MarkPending(b) =>
      OneWriteStored(c, k, b.status, Pending, Unknown, "Accepted", Text("Bind accepted, pending sync"), a);
    case MarkUnbound(b) => OneWriteStored(c, k, b.status, Unbound, False, "Expired", Text("TTL elapsed"), a);
    case MarkBinding(b, account, e) => BindingStatusStored(c, k, b, account, e, a);
    case MarkBinded(y) => BindedStatusStored(c, k, y, a);
  }

  lemma FinalizersStatus(c: State, k: Key, b: Bind, add: bool, a: Answer)
    ensures var c' := DoSetFinalizers(c, k, b, add, a).c;
      k in c'.binds ==> k in c.binds && c'.binds[k].status == c.binds[k].status
  {
  }

  /** A status write that diffs against what is stored. */
  lemma OneWriteStored(c: State, k: Key, base: Status, phase: Phase, truth: Truth, reason: string, message: Message,
                       a: Answer)
    requires WellShaped(base) && k in c.binds && c.binds[k].status == base && reason != BIND_FAILED
    requires (phase == Pending && truth == Unknown && base.phase == NoPhase)
          || (phase == Unbound && truth == False && base.phase != NoPhase && base.phase != Unbound)
    ensures forall requeue ::
      var c' := LastPatch(c, k, base, SetPhase(base, phase, truth, reason, message, c.now), a, requeue).c;
      k in c'.binds && (c'.binds[k].status == base || Agrees(c'.binds[k].status))
  {
    OtherEndingsAgree(base, "", 0, reason, message, c.now, c.now);
  }

  lemma FailedStatusStored(c: State, k: Key, orig: Bind, b: Bind, reason: string, message: string, a: Answer)
    requires FailingOk(c, k, orig, b, reason) && WellShaped(c.binds[k].status)
    ensures var w := MarkFailed(orig, b, reason, message); StatusStep(c, Work(c, k, w, a).c, k, w, a)
  {
    FailedPatch(c, k, orig, b, reason, message, a);
    if reason == BIND_FAILED && orig.status.phase != Binded {
      SecondWrite(orig.status, b.status, message, c.now);
    } else {
      OtherEndingsAgree(b.status, "", 0, reason, Text(message), c.now, c.now);
    }
  }

  lemma FailedPatch(c: State, k: Key, orig: Bind, b: Bind, reason: string, message: string, a: Answer)
    requires FailingOk(c, k, orig, b, reason)
    ensures var c' := Work(c, k, MarkFailed(orig, b, reason, message), a).c;
      && k in c'.binds && c.binds[k].status == b.status
      && c'.binds[k].status
          == (if LandsOver(c, k, orig, b, a) then
                Apply(Diff(orig.status, FailedStatus(b.status, reason, message, c.now)), b.status)
              else b.status)
  {
  }

  lemma BindingStatusStored(c: State, k: Key, b: Bind, account: Account, e: int, a: Answer)
    requires WorkerOk(c, k, MarkBinding(b, account, e)) && WellShaped(c.binds[k].status)
    ensures var w := MarkBinding(b, account, e); StatusStep(c, DoMarkBinding(c, k, b, account, e, a).c, k, w, a)
  {
    if Lands(c, k, a) {
      BindingAgrees(b.status, account.uid, c.now);
      PatchedStatus(c, k, b.status, BindingStatus(b.status, account.uid, c.now));
    } else {
    }
  }

  lemma PatchedStatus(c: State, k: Key, base: Status, s: Status)
    requires k in c.binds
    ensures var c' := PatchStatus(c, k, base, s);
      k in c'.binds && c'.binds[k].status == Apply(Diff(base, s), c.binds[k].status)
  {
  }

  lemma BindedStatusStored(c: State, k: Key, y: Sync, a: Answer)
    requires WorkerOk(c, k, MarkBinded(y)) && WellShaped(c.binds[k].status)
    ensures StatusStep(c, DoMarkBinded(c, k, y, a).c, k, MarkBinded(y), a)
  {
    BindedIsShaped(c, k, y);
  }

  /** Roles and bindings of one CR correspond one to one. */
  lemma OneBindingPerRole(s0: System, steps: seq<Step>, s: System, uid: string, x: BindKey, y: BindKey)
    requires Reached(s0, steps, s) && x in OwnedAll(s.c, uid) && y in OwnedAll(s.c, uid)
    ensures x == y <==> s.c.bindings[x].role == s.c.bindings[y].role
  {
    ReachedInv(s0, steps, s);
    assert BindingOk(s.c, x, s.c.bindings[x]) && BindingOk(s.c, y, s.c.bindings[y]);
  }

  // ----- Non-interference -----

  /** The CR a reconcile works for, once it has read it. */
  function UidOf(w: Worker): Option<string> {
    match w
    case Fetch => None
    case ListRoles(s, _) => Some(s.bind.uid)
    case CreateBindings(s, _, _, _) => Some(s.bind.uid)
    case ListBindings(s, _, _) => Some(s.bind.uid)
    case Prune(s, _, _, _, _) => Some(s.bind.uid)
    case MarkBinded(s) => Some(s.bind.uid)
    case _ => Some(w.bind.uid)
  }

  /** The bindings of everybody but one owner. */
  function OthersIn(m: map<BindKey, RoleBinding>, owner: Option<string>): map<BindKey, RoleBinding> {
    map bk | bk in m && (owner.None? || m[bk].owner != owner) :: m[bk]
  }

  /** No step of a reconcile creates, changes or deletes a binding that is not labelled with its CR, nor another CR. */
  lemma TouchesOnlyItsOwn(s0: System, steps: seq<Step>, s: System, k: Key, a: Answer)
    requires Reached(s0, steps, s) && CanStep(s, Advance(k, a))
    ensures var s' := DoStep(s, Advance(k, a));
      && OthersIn(s'.c.bindings, UidOf(s.workers[k])) == OthersIn(s.c.bindings, UidOf(s.workers[k]))
      && s'.c.roles == s.c.roles
      && (forall l | l != k :: SameAt(s.c, s'.c, l))
  {
    ReachedInv(s0, steps, s);
    WorkBindings(s.c, k, s.workers[k], a);
    forall l | l != k { WorkElsewhere(s.c, k, s.workers[k], a, l); }
    WorkElsewhere(s.c, k, s.workers[k], a, Key(k.ns, k.name + "x"));
  }

  predicate SameAt(c: State, c': State, l: Key) {
    (l in c'.binds <==> l in c.binds) && (l in c.binds ==> c'.binds[l] == c.binds[l])
  }

  lemma WorkElsewhere(c: State, k: Key, w: Worker, a: Answer, l: Key)
    requires l != k
    ensures SameAt(c, Work(c, k, w, a).c, l)
    ensures Work(c, k, w, a).c.roles == c.roles && Work(c, k, w, a).c.upserts == c.upserts
  {
    if WritesBind(w) { WriteElsewhere(c, k, w, a, l); } else { OtherCallsKeepBinds(c, k, w, a); }
  }

  /** The calls that write the CR. */
  predicate WritesBind(w: Worker) {
    || w.AddFinalizer? || w.MarkPending? || w.MarkFailed? || w.MarkUnbound? || w.DropFinalizer?
    || w.MarkBinding? || w.MarkBinded?
  }

  /** The cluster after a write of CR `k`. */
  predicate WritesAt(c: State, c': State, k: Key) {
    && c'.roles == c.roles && c'.upserts == c.upserts && c'.bindings == c.bindings && c'.now == c.now
    && c'.accounts == c.accounts && c'.uids == c.uids
    && (c'.binds == c.binds || c'.binds == c.binds - {k} || (k in c'.binds && c'.binds == c.binds[k := c'.binds[k]]))
  }

  lemma PatchWritesAt(c: State, k: Key, base: Status, s: Status)
    requires k in c.binds
    ensures WritesAt(c, PatchStatus(c, k, base, s), k) && k in PatchStatus(c, k, base, s).binds
  {
  }

  lemma LastPatchWritesAt(c: State, k: Key, base: Status, s: Status, a: Answer, requeue: Option<int>)
    ensures WritesAt(c, LastPatch(c, k, base, s, a, requeue).c, k)
  {
    if k in c.binds { PatchWritesAt(c, k, base, s); }
  }

  lemma FinalizersWriteAt(c: State, k: Key, b: Bind, add: bool, a: Answer)
    ensures WritesAt(c, DoSetFinalizers(c, k, b, add, a).c, k)
  {
  }

  lemma MarkBindingWritesAt(c: State, k: Key, b: Bind, account: Account, e: int, a: Answer)
    ensures WritesAt(c, DoMarkBinding(c, k, b, account, e, a).c, k)
  {
    if k in c.binds { PatchWritesAt(c, k, b.status, BindingStatus(b.status, account.uid, c.now)); }
  }

  lemma MarkFailedWritesAt(c: State, k: Key, orig: Bind, b: Bind, reason: string, message: string, a: Answer)
    ensures WritesAt(c, DoMarkFailed(c, k, orig, b, reason, message, a).c, k)
  {
    if k in c.binds { PatchWritesAt(c, k, orig.status, FailedStatus(b.status, reason, message, c.now)); }
  }

  lemma MarkBindedWritesAt(c: State, k: Key, s: Sync, a: Answer)
    ensures WritesAt(c, DoMarkBinded(c, k, s, a).c, k)
  {
    if k in c.binds { PatchWritesAt(c, k, s.orig.status, BindedStatus(s, c.now)); }
  }

  lemma WriteElsewhere(c: State, k: Key, w: Worker, a: Answer, l: Key)
    requires l != k && WritesBind(w)
    ensures SameAt(c, Work(c, k, w, a).c, l)
    ensures Work(c, k, w, a).c.roles == c.roles && Work(c, k, w, a).c.upserts == c.upserts
    ensures Work(c, k, w, a).c.accounts == c.accounts && Work(c, k, w, a).c.uids == c.uids
  {
    match w
    case AddFinalizer(b) => FinalizersWriteAt(c, k, b, true, a);
    case DropFinalizer(b) => FinalizersWriteAt(c, k, b, false, a);
    case MarkPending(b) => LastPatchWritesAt(c, k, b.status, PendingStatus(b.status, c.now), a, Some(SECOND));
    case MarkFailed(orig, b, reason, message) =>
      MarkFailedWritesAt(c, k, orig, b, reason, message, a);
    case MarkUnbound(b) => LastPatchWritesAt(c, k, b.status, UnboundStatus(b.status, c.now), a, None);
    case MarkBinding(b, account, e) => MarkBindingWritesAt(c, k, b, account, e, a);
    case MarkBinded(s) => MarkBindedWritesAt(c, k, s, a);
  }

  lemma UpsertIs(c: State, k: Key, spec: Spec, stamp: int, uid: string)
    ensures var c' := DoUpsert(c, k, spec, stamp, uid);
      c'.now == c.now && c'.upserts == c.upserts + [Written(k, spec, stamp)]
  {
    if k in c.binds {
    } else {
    }
  }

  /** Nobody but the broker writes specs, and nobody turns the clock. */
  lemma ActApart(c: State, a: Action)
    requires CanAct(c, a) && !a.Tick? && !a.Upsert?
    ensures Act(c, a).now == c.now && Act(c, a).upserts == c.upserts
  {
    match a
    case DeleteBind(_) =>
    case ForeignFinalizer(_, _, _) =>
    case SetRole(_, v) => if v.Some? && v.value.group.Some? {}
    case _ =>
  }

  /** Time passes between the calls of a reconcile, not in them. */
  lemma WorkTime(c: State, k: Key, w: Worker, a: Answer)
    ensures Work(c, k, w, a).c.now == c.now
  {
    if w.DeleteOwned? || w.Prune? || w.CreateBindings? { LoopsKeepBinds(c, k, w, a); }
  }

  lemma DeletionOnly(c: State, bk: BindKey, a: Answer)
    ensures SameButBindings(c, Deletion(c, bk, a))
  {
  }

  lemma CreationOnly(c: State, k: Key, s: Sync, it: Item, a: Answer)
    requires it.group.Some?
    ensures SameButBindings(c, Creation(c, k, s, it, a))
  {
  }

  lemma DeleteOwnedOnly(c: State, b: Bind, goal: Goal, p: Pass, keys: seq<BindKey>, i: nat, a: Answer)
    ensures SameButBindings(c, DoDeleteOwned(c, b, goal, p, keys, i, a).c)
  {
    if i < |keys| { DeletionOnly(c, keys[i], a); }
  }

  lemma PruneOnly(c: State, s: Sync, p: Pass, desired: set<BindKey>, keys: seq<BindKey>, i: nat, a: Answer)
    ensures SameButBindings(c, DoPrune(c, s, p, desired, keys, i, a).c)
  {
    if i < |keys| { DeletionOnly(c, keys[i], a); }
  }

  lemma CreateOnly(c: State, k: Key, s: Sync, p: Pass, items: seq<Item>, i: nat, a: Answer)
    ensures SameButBindings(c, DoCreateBindings(c, k, s, p, items, i, a).c)
  {
    if i < |items| && GroupMatches(GroupsOf(s.bind), items[i].group) { CreationOnly(c, k, s, items[i], a); }
  }

  lemma LoopsKeepBinds(c: State, k: Key, w: Worker, a: Answer)
    requires w.DeleteOwned? || w.Prune? || w.CreateBindings?
    ensures SameButBindings(c, Work(c, k, w, a).c)
  {
    match w
    case DeleteOwned(b, goal, p, keys, i) => DeleteOwnedOnly(c, b, goal, p, keys, i, a);
    case Prune(s, p, desired, keys, i) => PruneOnly(c, s, p, desired, keys, i, a);
    case CreateBindings(s, p, items, i) => CreateOnly(c, k, s, p, items, i, a);
  }

  lemma OtherCallsKeepBinds(c: State, k: Key, w: Worker, a: Answer)
    requires !WritesBind(w)
    ensures Work(c, k, w, a).c.binds == c.binds
    ensures Work(c, k, w, a).c.roles == c.roles && Work(c, k, w, a).c.upserts == c.upserts
  {
    if w.DeleteOwned? || w.Prune? || w.CreateBindings? { LoopsKeepBinds(c, k, w, a); }
  }

  lemma RemovedOthers(m: map<BindKey, RoleBinding>, bk: BindKey, owner: Option<string>)
    requires owner.Some? && (bk in m ==> m[bk].owner == owner)
    ensures OthersIn(m - {bk}, owner) == OthersIn(m, owner)
  {
  }

  lemma DeletionOthers(c: State, k: Key, bk: BindKey, a: Answer)
    requires ClusterOk(c) && k in c.binds && HasPrefix(bk.name, OwnPrefix(c.binds[k].uid))
    ensures OthersIn(Deletion(c, bk, a).bindings, Some(c.binds[k].uid)) == OthersIn(c.bindings, Some(c.binds[k].uid))
  {
    if bk in c.bindings {
      assert BindOk(c, k, c.binds[k]);
      NameTellsOwner(c, bk, c.binds[k].uid);
    }
    RemovedOthers(c.bindings, bk, Some(c.binds[k].uid));
  }

  lemma CreationOthers(c: State, k: Key, s: Sync, it: Item, a: Answer)
    requires it.group.Some?
    ensures OthersIn(Creation(c, k, s, it, a).bindings, Some(s.bind.uid)) == OthersIn(c.bindings, Some(s.bind.uid))
  {
  }

  lemma DeleteOwnedOthers(c: State, k: Key, b: Bind, goal: Goal, p: Pass, keys: seq<BindKey>, i: nat, a: Answer)
    requires ClusterOk(c) && DeletingOk(c, k, b, goal, p, keys, i)
    ensures OthersIn(DoDeleteOwned(c, b, goal, p, keys, i, a).c.bindings, Some(b.uid))
        == OthersIn(c.bindings, Some(b.uid))
  {
    if i < |keys| { DeletionOthers(c, k, keys[i], a); }
  }

  lemma PruneOthers(c: State, k: Key, s: Sync, p: Pass, desired: set<BindKey>, keys: seq<BindKey>, i: nat, a: Answer)
    requires ClusterOk(c) && PruningOk(c, k, s, p, desired, keys, i)
    ensures OthersIn(DoPrune(c, s, p, desired, keys, i, a).c.bindings, Some(s.bind.uid))
        == OthersIn(c.bindings, Some(s.bind.uid))
  {
    if i < |keys| { DeletionOthers(c, k, keys[i], a); }
  }

  lemma CreateOthers(c: State, k: Key, s: Sync, p: Pass, items: seq<Item>, i: nat, a: Answer)
    ensures OthersIn(DoCreateBindings(c, k, s, p, items, i, a).c.bindings, Some(s.bind.uid))
        == OthersIn(c.bindings, Some(s.bind.uid))
  {
    if i < |items| && GroupMatches(GroupsOf(s.bind), items[i].group) { CreationOthers(c, k, s, items[i], a); }
  }

  lemma LoopBindings(c: State, k: Key, w: Worker, a: Answer)
    requires ClusterOk(c) && WorkerOk(c, k, w) && (w.DeleteOwned? || w.Prune? || w.CreateBindings?)
    ensures OthersIn(Work(c, k, w, a).c.bindings, UidOf(w)) == OthersIn(c.bindings, UidOf(w))
  {
    match w
    case DeleteOwned(b, goal, p, keys, i) => DeleteOwnedOthers(c, k, b, goal, p, keys, i, a);
    case Prune(s, p, desired, keys, i) => PruneOthers(c, k, s, p, desired, keys, i, a);
    case CreateBindings(s, p, items, i) => CreateOthers(c, k, s, p, items, i, a);
  }

  lemma WorkBindings(c: State, k: Key, w: Worker, a: Answer)
    requires ClusterOk(c) && WorkerOk(c, k, w)
    ensures OthersIn(Work(c, k, w, a).c.bindings, UidOf(w)) == OthersIn(c.bindings, UidOf(w))
  {
    if w.DeleteOwned? || w.Prune? || w.CreateBindings? {
      LoopBindings(c, k, w, a);
    } else {
      OtherCallsKeepBindings(c, k, w, a);
    }
  }

  lemma OtherCallsKeepBindings(c: State, k: Key, w: Worker, a: Answer)
    requires !w.DeleteOwned? && !w.Prune? && !w.CreateBindings?
    ensures Work(c, k, w, a).c.bindings == c.bindings
  {
    if WritesBind(w) { WriteKeepsBindings(c, k, w, a); }
  }

  lemma WriteKeepsBindings(c: State, k: Key, w: Worker, a: Answer)
    requires WritesBind(w)
    ensures Work(c, k, w, a).c.bindings == c.bindings
  {
    match w
    case AddFinalizer(b) => FinalizersWriteAt(c, k, b, true, a);
    case DropFinalizer(b) => FinalizersWriteAt(c, k, b, false, a);
    case MarkFailed(orig, b, reason, message) => MarkFailedWritesAt(c, k, orig, b, reason, message, a);
    case MarkBinding(b, account, e) => MarkBindingWritesAt(c, k, b, account, e, a);
    case MarkBinded(s) => MarkBindedWritesAt(c, k, s, a);
    case _ =>
  }

  // ----- Provenance -----

  /** Every owned binding was created because its role carried an annotation `gid` that was among the memberships
      of a spec which some Upsert wrote for the CR that owns it. */
  lemma BindingsGranted(s0: System, steps: seq<Step>, s: System, bk: BindKey)
    requires Reached(s0, steps, s) && bk in s.c.bindings && s.c.bindings[bk].owner.Some?
    ensures bk in s.c.grants
    ensures var b := s.c.bindings[bk]; var g := s.c.grants[bk];
      && g.role == b.role && (b.role, g.gid) in s.c.tags
      && g.src < |s.c.upserts| && s.c.upserts[g.src].key == b.subject
      && g.gid in Gids(s.c.upserts[g.src].spec.memberships)
  {
    ReachedInv(s0, steps, s);
    assert BindingOk(s.c, bk, s.c.bindings[bk]);
  }

  // ----- Time -----

  /** The stored expiry lies less than a second before anchor plus TTL, and a later renewal never shortens a bind. */
  lemma ExpiryBounds(b: Bind, renewed: Bind)
    requires b.spec.ttl.Lasting? && renewed.spec.ttl == b.spec.ttl && Anchor(b) <= Anchor(renewed)
    ensures var anchor := match b.renewed case Some(stamp) => stamp case None => b.created;
      Expiry(b) <= anchor + b.spec.ttl.duration < Expiry(b) + SECOND && Expiry(b) % SECOND == 0
    ensures Expiry(b) <= Expiry(renewed)
  {
    TruncateMonotone(Anchor(b) + b.spec.ttl.duration, Anchor(renewed) + b.spec.ttl.duration);
  }
}
