/**
 The handshake between broker and operator: the broker's Upsert writes a spec, WaitBinded polls the stored phase
 until it is `binded` or `failed`. Neither carries a generation number, so it is a question of interleavings which
 Upsert they speak of.
 */
module Handshake {
  import opened Base
  import opened Naming
  import opened StatusPatch
  import opened Cluster
  import opened Operator
  import opened OperatorInvariant
  import opened OperatorTheorems
  import opened Runs
  import Settling

  /** What WaitBinded returns success on. */
  predicate SeesBinded(c: State, k: Key) {
    k in c.binds && c.binds[k].status.phase == Binded
  }

  /** What WaitBinded returns an error on. */
  predicate SeesFailed(c: State, k: Key) {
    k in c.binds && c.binds[k].status.phase == Failed
  }

  /** `binded`, if stored, was stored by a reconcile that synced Upsert `n` or a later one. */
  predicate VouchesFor(c: State, k: Key, n: nat) {
    SeesBinded(c, k) ==> c.binds[k].synced.Some? && n <= c.binds[k].synced.value
  }

  /** `failed`, if stored, was reported by a reconcile that had read Upsert `n` or a later one. */
  predicate FailsFor(c: State, k: Key, n: nat) {
    SeesFailed(c, k) ==> c.binds[k].blamed.Some? && n <= c.binds[k].blamed.value
  }

  /** Every Upsert of the CR from `n` on has memberships. */
  predicate AllGrouped(c: State, k: Key, n: nat) {
    forall i | n <= i < |c.upserts| && c.upserts[i].key == k :: c.upserts[i].spec.memberships != []
  }

  /** The condition under which an Upsert can trust the next `binded`: no reconcile can have read an older spec; or, if
      it and the Upserts after it are `grouped`, none can have written `binding` or `binded` for an older spec. */
  predicate StartsFresh(c: State, k: Key, grouped: bool) {
    k in c.binds ==>
      c.binds[k].status.phase == NoPhase || (grouped && c.binds[k].status.phase !in {Binding, Binded})
  }

  function SyncOf(w: Worker): Option<Sync> {
    match w
    case ListRoles(s, _) => Some(s)
    case CreateBindings(s, _, _, _) => Some(s)
    case ListBindings(s, _, _) => Some(s)
    case Prune(s, _, _, _, _) => Some(s)
    case MarkBinded(s) => Some(s)
    case _ => None
  }

  /** The reconcile syncs, and reports, a spec of Upsert `n` or later; when all are grouped it may also have read an
      older spec and be going to read the CR again before it syncs. */
  predicate WorkerFresh(w: Worker, n: nat, grouped: bool) {
    && (SyncOf(w).Some? ==> n <= SyncOf(w).value.bind.src && (grouped || n <= SyncOf(w).value.orig.src))
    && (w.Judge? || w.EnsureAccount? || w.MarkBinding? ==>
        n <= w.bind.src || (grouped && w.bind.status.phase != Binded))
    && (w.MarkFailed? ==> grouped || n <= w.orig.src)
  }

  predicate CrFresh(c: State, k: Key, n: nat, grouped: bool) {
    && n < |c.upserts| && VouchesFor(c, k, n) && (grouped || FailsFor(c, k, n))
    && (k in c.binds ==> n <= c.binds[k].src && (grouped ==> c.binds[k].spec.memberships != []))
  }

  predicate FreshSince(s: System, k: Key, n: nat, grouped: bool) {
    CrFresh(s.c, k, n, grouped) && (k in s.workers ==> WorkerFresh(s.workers[k], n, grouped))
  }

  lemma FreshAfterUpsert(s: System, k: Key, spec: Spec, stamp: int, uid: string, grouped: bool)
    requires Inv(s) && StartsFresh(s.c, k, grouped) && CanAct(s.c, Upsert(k, spec, stamp, uid))
    requires grouped ==> spec.memberships != []
    ensures FreshSince(DoStep(s, Outside(Upsert(k, spec, stamp, uid))), k, |s.c.upserts|, grouped)
  {
    if k in s.workers { assert WorkerOk(s.c, k, s.workers[k]); }
  }

  // ----- What every step keeps -----

  lemma ActFresh(c: State, a: Action, k: Key, n: nat, grouped: bool)
    requires CrFresh(c, k, n, grouped) && CanAct(c, a) && (grouped ==> AllGrouped(Act(c, a), k, n))
    ensures CrFresh(Act(c, a), k, n, grouped)
  {
    match a
    case ForeignFinalizer(l, f, add) =>
      SetFinalizersFresh(c, l, if add then c.binds[l].finalizers + {f} else c.binds[l].finalizers - {f}, k, n, grouped);
    case Upsert(l, spec, stamp, uid) => UpsertFresh(c, l, spec, stamp, uid, k, n, grouped);
    case DeleteBind(l) => TerminateFresh(c, l, k, n, grouped);
    case _ =>
  }

  lemma UpsertFresh(c: State, l: Key, spec: Spec, stamp: int, uid: string, k: Key, n: nat, grouped: bool)
    requires CrFresh(c, k, n, grouped) && (grouped ==> AllGrouped(DoUpsert(c, l, spec, stamp, uid), k, n))
    ensures CrFresh(DoUpsert(c, l, spec, stamp, uid), k, n, grouped)
  {
    UpsertIs(c, l, spec, stamp, uid);
    if grouped && l == k { assert DoUpsert(c, l, spec, stamp, uid).upserts[|c.upserts|] == Written(k, spec, stamp); }
    UpsertSource(c, l, spec, stamp, uid, k);
  }

  lemma UpsertSource(c: State, l: Key, spec: Spec, stamp: int, uid: string, k: Key)
    ensures var c' := DoUpsert(c, l, spec, stamp, uid);
      if l != k then SameAt(c, c', k)
      else
        && k in c'.binds && c'.binds[k].src == |c.upserts| && c'.binds[k].spec == spec
        && (if k in c.binds then c'.binds[k] == c.binds[k].(spec := spec, renewed := Some(stamp), src := |c.upserts|,
                                                            rv := c'.binds[k].rv)
            else c'.binds[k].status == FRESH && c'.binds[k].renewed == Some(stamp))
  {
    if l in c.binds {
    } else {
    }
  }

  lemma TerminateFresh(c: State, l: Key, k: Key, n: nat, grouped: bool)
    requires CrFresh(c, k, n, grouped) && l in c.binds
    ensures CrFresh(Terminate(c, l), k, n, grouped)
  {
  }

  lemma SetFinalizersFresh(c: State, l: Key, fs: set<string>, k: Key, n: nat, grouped: bool)
    requires CrFresh(c, k, n, grouped) && l in c.binds
    ensures CrFresh(SetFinalizers(c, l, fs), k, n, grouped)
  {
  }

  lemma PatchFresh(c: State, k: Key, base: Status, s: Status, n: nat, grouped: bool)
    requires CrFresh(c, k, n, grouped) && k in c.binds && s.phase != Binded && s.phase != Failed
    ensures CrFresh(PatchStatus(c, k, base, s), k, n, grouped)
    ensures k in PatchStatus(c, k, base, s).binds
  {
  }

  lemma LastPatchFresh(c: State, k: Key, base: Status, s: Status, a: Answer, requeue: Option<int>, n: nat,
                       grouped: bool)
    requires CrFresh(c, k, n, grouped) && s.phase != Binded && s.phase != Failed
    ensures CrFresh(LastPatch(c, k, base, s, a, requeue).c, k, n, grouped)
  {
    if k in c.binds { PatchFresh(c, k, base, s, n, grouped); }
  }

  lemma MarkBindedFresh(c: State, k: Key, s: Sync, a: Answer, n: nat, grouped: bool)
    requires CrFresh(c, k, n, grouped) && n <= s.bind.src
    ensures CrFresh(DoMarkBinded(c, k, s, a).c, k, n, grouped)
  {
    if Lands(c, k, a) {
      var c' := PatchStatus(c, k, s.orig.status, BindedStatus(s, c.now));
      assert k in c'.binds && c'.binds[k].src == c.binds[k].src && c'.binds[k].spec == c.binds[k].spec;
      assert c'.binds[k].status.phase == Failed ==> c.binds[k].status.phase == Failed;
    }
  }

  lemma MarkFailedFresh(c: State, k: Key, orig: Bind, b: Bind, reason: string, message: string, a: Answer, n: nat,
                        grouped: bool)
    requires CrFresh(c, k, n, grouped) && (grouped || n <= orig.src)
    ensures CrFresh(DoMarkFailed(c, k, orig, b, reason, message, a).c, k, n, grouped)
  {
    if Lands(c, k, a) {
      var c' := PatchStatus(c, k, orig.status, FailedStatus(b.status, reason, message, c.now));
      assert k in c'.binds && c'.binds[k].src == c.binds[k].src && c'.binds[k].spec == c.binds[k].spec;
      assert c'.binds[k].status.phase == Binded ==> c.binds[k].status.phase == Binded;
    }
  }

  lemma MarkBindingFresh(c: State, k: Key, b: Bind, account: Account, e: int, a: Answer, n: nat, grouped: bool)
    requires CrFresh(c, k, n, grouped) && (grouped || n <= b.src)
    ensures NextFresh(DoMarkBinding(c, k, b, account, e, a), k, n, grouped)
  {
    if k in c.binds { PatchFresh(c, k, b.status, BindingStatus(b.status, account.uid, c.now), n, grouped); }
  }

  lemma FinalizersFresh(c: State, k: Key, b: Bind, add: bool, a: Answer, n: nat, grouped: bool)
    requires CrFresh(c, k, n, grouped)
    ensures CrFresh(DoSetFinalizers(c, k, b, add, a).c, k, n, grouped)
  {
    if LandsOn(c, k, b, a) {
      var fs := c.binds[k].finalizers;
      SetFinalizersFresh(c, k, if add then fs + {FINALIZER} else fs - {FINALIZER}, k, n, grouped);
    }
  }

  predicate NextFresh(x: Next, k: Key, n: nat, grouped: bool) {
    CrFresh(x.c, k, n, grouped) && (x.More? ==> WorkerFresh(x.worker, n, grouped))
  }

  lemma WriteFresh(c: State, k: Key, w: Worker, a: Answer, n: nat, grouped: bool)
    requires CrFresh(c, k, n, grouped) && WorkerFresh(w, n, grouped) && WritesBind(w)
    ensures NextFresh(Work(c, k, w, a), k, n, grouped)
  {
    match w
    case AddFinalizer(b) => FinalizersFresh(c, k, b, true, a, n, grouped);
    case DropFinalizer(b) => FinalizersFresh(c, k, b, false, a, n, grouped);
    case MarkPending(b) => LastPatchFresh(c, k, b.status, PendingStatus(b.status, c.now), a, Some(SECOND), n, grouped);
    case MarkFailed(orig, b, reason, message) => MarkFailedFresh(c, k, orig, b, reason, message, a, n, grouped);
    case MarkUnbound(b) => LastPatchFresh(c, k, b.status, UnboundStatus(b.status, c.now), a, None, n, grouped);
    case MarkBinding(b, account, e) => MarkBindingFresh(c, k, b, account, e, a, n, grouped);
    case MarkBinded(s) => MarkBindedFresh(c, k, s, a, n, grouped);
  }

  lemma WorkFresh(c: State, k: Key, w: Worker, a: Answer, n: nat, grouped: bool)
    requires CrFresh(c, k, n, grouped) && WorkerFresh(w, n, grouped)
    ensures NextFresh(Work(c, k, w, a), k, n, grouped)
  {
    if WritesBind(w) {
      WriteFresh(c, k, w, a, n, grouped);
    } else {
      OtherCallsKeepBinds(c, k, w, a);
      NextWorkerFresh(c, k, w, a, n, grouped);
    }
  }

  lemma NextWorkerFresh(c: State, k: Key, w: Worker, a: Answer, n: nat, grouped: bool)
    requires CrFresh(c, k, n, grouped) && WorkerFresh(w, n, grouped) && !WritesBind(w)
    ensures var x := Work(c, k, w, a); x.More? ==> WorkerFresh(x.worker, n, grouped)
  {
    match w
    case CreateBindings(_, _, _, _) =>
    case Prune(_, _, _, _, _) =>
    case EnsureAccount(_, _) =>
    case _ =>
  }

  lemma StepFresh(s: System, t: Step, k: Key, n: nat, grouped: bool)
    requires FreshSince(s, k, n, grouped) && CanStep(s, t) && (grouped ==> AllGrouped(DoStep(s, t).c, k, n))
    ensures FreshSince(DoStep(s, t), k, n, grouped)
  {
    match t
    case Outside(a) => ActFresh(s.c, a, k, n, grouped);
    case Advance(l, a) =>
      if l == k { WorkFresh(s.c, k, s.workers[k], a, n, grouped); } else { WorkElsewhere(s.c, l, s.workers[l], a, k); }
    case _ =>
  }

  lemma UpsertsGrow(s: System, t: Step)
    requires CanStep(s, t)
    ensures s.c.upserts <= DoStep(s, t).c.upserts
  {
    match t
    case Outside(a) =>
      if a.Upsert? {
        UpsertIs(s.c, a.key, a.spec, a.stamp, a.uid);
      } else if !a.Tick? {
        ActApart(s.c, a);
      }
    case Advance(l, a) => WorkElsewhere(s.c, l, s.workers[l], a, Settling.Another(l));
    case _ =>
  }

  lemma GroupedBefore(c: State, c': State, k: Key, n: nat)
    requires c.upserts <= c'.upserts && AllGrouped(c', k, n)
    ensures AllGrouped(c, k, n)
  {
    forall i | n <= i < |c.upserts| && c.upserts[i].key == k
      ensures c.upserts[i].spec.memberships != []
    {
      assert c'.upserts[i] == c.upserts[i];
    }
  }

  lemma {:induction false} RunFresh(s: System, steps: seq<Step>, end: System, k: Key, n: nat, grouped: bool)
    requires FreshSince(s, k, n, grouped) && Run(s, steps) == Some(end) && (grouped ==> AllGrouped(end.c, k, n))
    ensures FreshSince(end, k, n, grouped)
  {
    if steps != [] {
      var t, mid := steps[|steps| - 1], Run(s, steps[..|steps| - 1]).value;
      if grouped {
        UpsertsGrow(mid, t);
        GroupedBefore(mid.c, end.c, k, n);
      }
      RunFresh(s, steps[..|steps| - 1], mid, k, n, grouped);
      StepFresh(mid, t, k, n, grouped);
    }
  }

  lemma {:induction false} RunGrows(s: System, steps: seq<Step>, end: System)
    requires Run(s, steps) == Some(end)
    ensures s.c.upserts <= end.c.upserts
  {
    if steps != [] {
      var mid := Run(s, steps[..|steps| - 1]).value;
      RunGrows(s, steps[..|steps| - 1], mid);
      UpsertsGrow(mid, steps[|steps| - 1]);
    }
  }

  /** An Upsert from whose state on everything is fresh. */
  lemma FreshRun(s0: System, before: seq<Step>, s: System, k: Key, spec: Spec, stamp: int, uid: string,
                 after: seq<Step>, end: System, grouped: bool)
    requires Reached(s0, before, s) && StartsFresh(s.c, k, grouped) && CanAct(s.c, Upsert(k, spec, stamp, uid))
    requires Run(DoStep(s, Outside(Upsert(k, spec, stamp, uid))), after) == Some(end)
    requires grouped ==> AllGrouped(end.c, k, |s.c.upserts|)
    ensures FreshSince(end, k, |s.c.upserts|, grouped)
  {
    var s1, n := DoStep(s, Outside(Upsert(k, spec, stamp, uid))), |s.c.upserts|;
    if grouped {
      UpsertIs(s.c, k, spec, stamp, uid);
      RunGrows(s1, after, end);
      assert end.c.upserts[n] == s1.c.upserts[n] == Written(k, spec, stamp);
    }
    ReachedInv(s0, before, s);
    FreshAfterUpsert(s, k, spec, stamp, uid, grouped);
    RunFresh(s1, after, end, k, n, grouped);
  }

  /** If the CR was absent, or had no phase yet, when an Upsert landed, then in whatever way the cluster goes on,
      WaitBinded succeeds only on a `binded` stored by a reconcile that synced that Upsert's memberships or a later
      one's. If it and the Upserts after it all have memberships, the same holds when the CR was in any phase other than
      `binding` and `binded`. */
  lemma BindedIsFresh(s0: System, before: seq<Step>, s: System, k: Key, spec: Spec, stamp: int, uid: string,
                      after: seq<Step>, end: System, grouped: bool)
    requires Reached(s0, before, s) && StartsFresh(s.c, k, grouped) && CanAct(s.c, Upsert(k, spec, stamp, uid))
    requires Run(DoStep(s, Outside(Upsert(k, spec, stamp, uid))), after) == Some(end)
    requires grouped ==> AllGrouped(end.c, k, |s.c.upserts|)
    ensures VouchesFor(end.c, k, |s.c.upserts|)
  {
    FreshRun(s0, before, s, k, spec, stamp, uid, after, end, grouped);
  }

  /** If the CR was absent, or had no phase yet, when an Upsert landed, then WaitBinded fails only on a `failed`
      reported by a reconcile that had read that Upsert's spec or a later one's. */
  lemma FailedIsFresh(s0: System, before: seq<Step>, s: System, k: Key, spec: Spec, stamp: int, uid: string,
                      after: seq<Step>, end: System)
    requires Reached(s0, before, s) && StartsFresh(s.c, k, false) && CanAct(s.c, Upsert(k, spec, stamp, uid))
    requires Run(DoStep(s, Outside(Upsert(k, spec, stamp, uid))), after) == Some(end)
    ensures FailsFor(end.c, k, |s.c.upserts|)
  {
    FreshRun(s0, before, s, k, spec, stamp, uid, after, end, false);
  }

  // ----- The conditions are exact -----

  /** A CR that is already `binded` satisfies WaitBinded right after an Upsert that nothing has synced. */
  lemma BindedBeforeIsStale(s0: System, before: seq<Step>, s: System, k: Key, spec: Spec, stamp: int, uid: string)
    requires Reached(s0, before, s) && SeesBinded(s.c, k) && CanAct(s.c, Upsert(k, spec, stamp, uid))
    ensures var s' := DoStep(s, Outside(Upsert(k, spec, stamp, uid)));
      SeesBinded(s'.c, k) && !VouchesFor(s'.c, k, |s.c.upserts|)
  {
    ReachedInv(s0, before, s);
    assert BindOk(s.c, k, s.c.binds[k]);
  }

  /** An Upsert that lands while a reconcile is about to store `binded` is not what that `binded` vouches for, if the
      reconcile has not read the CR a second time. If it has, its patch names the version that it read, and is
      refused. */
  lemma BindingBeforeIsStale(s0: System, before: seq<Step>, s: System, k: Key, spec: Spec, stamp: int, uid: string,
                             a: Answer)
    requires Reached(s0, before, s) && k in s.workers && s.workers[k].MarkBinded? && a.outcome == Ok
    requires CanAct(s.c, Upsert(k, spec, stamp, uid))
    ensures var s' := DoStep(s, Outside(Upsert(k, spec, stamp, uid)));
      && CanStep(s', Advance(k, a))
      && var end := DoStep(s', Advance(k, a)).c;
      if s.workers[k].sync.orig.rv == s.workers[k].sync.bind.rv then
        SeesBinded(end, k) && !VouchesFor(end, k, |s.c.upserts|)
      else end == s'.c
  {
    AboutToBind(s0, before, s, k);
    var c := DoStep(s, Outside(Upsert(k, spec, stamp, uid))).c;
    assert c.binds[k].status == s.c.binds[k].status && c.binds[k].rv == s.c.rv + 1;
  }

  lemma AboutToBind(s0: System, before: seq<Step>, s: System, k: Key)
    requires Reached(s0, before, s) && k in s.workers && s.workers[k].MarkBinded?
    ensures var y := s.workers[k].sync;
      && k in s.c.binds && y.bind.src < |s.c.upserts| && y.bind.rv <= s.c.rv
      && Apply(Diff(y.orig.status, BindedStatus(y, s.c.now)), s.c.binds[k].status).phase == Binded
  {
    ReachedInv(s0, before, s);
    assert WorkerOk(s.c, k, s.workers[k]);
    assert BindOk(s.c, k, s.c.binds[k]);
    BindedIsShaped(s.c, k, s.workers[k].sync);
  }

  /** A run to a reconcile that is about to store `binded` over a `binding` it found, after an earlier one was refused
      just there. Its own first patch was empty, so its last one carries no resource version that could conflict. */
  lemma {:induction false} BindingExists() returns (steps: seq<Step>, s: System)
    ensures Reached(EMPTY, steps, s) && K in s.c.binds && s.c.binds[K].status.phase == Binding
    ensures K in s.workers && s.workers[K].MarkBinded? && s.workers[K].sync.orig == s.workers[K].sync.bind
  {
    steps, s := FirstBind();
    ghost var c := s.c;
    steps, s := Take(EMPTY, steps, s, Advance(K, YES.(outcome := Refused)));
    assert s == System(c, map[]);
    steps, s := UpToBinding(EMPTY, steps, s, PLAIN, Binding, W);
    assert s.c.accounts == c.accounts;
    assert s.c == c;
    steps, s := UpToBinded(EMPTY, steps, s, Binding, c.binds[K], Account(V, Some(U)));
  }

  /** An Upsert `u` on a CR in phase `p`, in a reached state `s`, and how the cluster went on. */
  ghost predicate Follows(p: Phase, before: seq<Step>, s: System, k: Key, u: Action, after: seq<Step>, end: System) {
    && Reached(EMPTY, before, s) && k in s.c.binds && s.c.binds[k].status.phase == p
    && u.Upsert? && u.key == k && CanAct(s.c, u)
    && Run(DoStep(s, Outside(u)), after) == Some(end)
  }

  /** A way to be misled: WaitBinded succeeds after the Upsert, on an older sync. */
  ghost predicate Misleads(p: Phase, grouped: bool, before: seq<Step>, s: System, k: Key, u: Action, after: seq<Step>,
                           end: System) {
    && Follows(p, before, s, k, u, after, end) && (grouped ==> AllGrouped(end.c, k, |s.c.upserts|))
    && SeesBinded(end.c, k) && !VouchesFor(end.c, k, |s.c.upserts|)
  }

  /** If all Upserts from then on have memberships, exactly the phases `binding` and `binded` can mislead; in general
      every phase can, once there is one. The broker could tell before it writes. */
  lemma MisledExactly(p: Phase, grouped: bool)
    ensures (exists before, s, k, u, after, end :: Misleads(p, grouped, before, s, k, u, after, end)) <==>
        p == Binding || p == Binded || (!grouped && p != NoPhase)
  {
    forall before, s, k, u, after, end | Misleads(p, grouped, before, s, k, u, after, end)
      ensures p == Binding || p == Binded || (!grouped && p != NoPhase)
    {
      if p == NoPhase || (grouped && p != Binding && p != Binded) {
        BindedIsFresh(EMPTY, before, s, k, u.spec, u.stamp, u.uid, after, end, grouped);
      }
    }
    if p == Binded {
      BindedMisleads(grouped);
    } else if p == Binding {
      BindingMisleads(grouped);
    } else if !grouped && p != NoPhase {
      KeptMisleads(p);
    }
  }

  lemma BindedMisleads(grouped: bool)
    ensures exists before, s, u, end :: Misleads(Binded, grouped, before, s, K, u, [], end)
  {
    var before, s := IdleAt(Binded);
    var u := Upsert(K, MEMBER, 0, W);
    BindedBeforeIsStale(EMPTY, before, s, K, MEMBER, 0, W);
    var end := DoStep(s, Outside(u));
    UpsertIs(s.c, K, MEMBER, 0, W);
    assert Run(end, []) == Some(end);
    assert Misleads(Binded, grouped, before, s, K, u, [], end);
  }

  lemma BindingMisleads(grouped: bool)
    ensures exists before, s, u, end :: Misleads(Binding, grouped, before, s, K, u, [Advance(K, YES)], end)
  {
    var before, s := BindingExists();
    var u := Upsert(K, MEMBER, s.c.now, W);
    BindingBeforeIsStale(EMPTY, before, s, K, MEMBER, s.c.now, W, YES);
    var s' := DoStep(s, Outside(u));
    var end := DoStep(s', Advance(K, YES));
    UpsertIs(s.c, K, MEMBER, s.c.now, W);
    WorkElsewhere(s'.c, K, s'.workers[K], YES, Settling.Another(K));
    assert Run(s', []) == Some(s');
    RunExtends(s', [], Advance(K, YES));
    assert [] + [Advance(K, YES)] == [Advance(K, YES)];
    assert Misleads(Binding, grouped, before, s, K, u, [Advance(K, YES)], end);
  }

  /** A reconcile that has read memberships and is about to write `binding`. */
  lemma {:induction false} MemberRead(p: Phase) returns (steps: seq<Step>, s: System)
    requires p != NoPhase && p != Binding && p != Binded
    ensures Reached(EMPTY, steps, s) && Stands(s, MEMBER, p) && s.c.roles == map[] && s.c.bindings == map[]
    ensures K in s.workers && s.workers[K].MarkBinding? && s.workers[K].expiry == 10 * SECOND
    ensures s.workers[K].bind == s.c.binds[K] && s.c.binds[K].src < |s.c.upserts| && Storable(s.c.binds[K].status)
  {
    steps, s := IdleAt(p);
    steps, s := Renew(EMPTY, steps, s, PLAIN, MEMBER, p);
    StoredStatus(EMPTY, steps, s);
    steps, s := UpToBinding(EMPTY, steps, s, MEMBER, p, W);
  }

  /** An Upsert without memberships that lands before the `binding` write of a reconcile leaves it with those that it
      had read: it syncs them and stores `binded`. */
  lemma {:induction false} KeptMisleads(p: Phase)
    requires p != NoPhase && p != Binding && p != Binded
    ensures exists before, s, u, after, end :: Misleads(p, false, before, s, K, u, after, end)
  {
    var before, s := MemberRead(p);
    var u := Upsert(K, PLAIN, 0, W);
    var _, s1 := Renew(EMPTY, before, s, MEMBER, PLAIN, p);
    var after, end := KeptRun(before, s, s1, p);
    assert Misleads(p, false, before, s, K, u, after, end);
  }

  lemma KeptRun(before: seq<Step>, s: System, s1: System, p: Phase) returns (after: seq<Step>, end: System)
    requires Reached(EMPTY, before, s) && p != Binded
    requires CanStep(s, Outside(Upsert(K, PLAIN, 0, W))) && s1 == DoStep(s, Outside(Upsert(K, PLAIN, 0, W)))
    requires KeepsOld(s1, p, |s.c.upserts|)
    ensures Run(s1, after) == Some(end) && SeesBinded(end.c, K) && !VouchesFor(end.c, K, |s.c.upserts|)
  {
    after, end := KeptSync(s1, p, |s.c.upserts|);
    StaysInv(before, s, Outside(Upsert(K, PLAIN, 0, W)), after);
    after, end := LastCall(s1, after, end, PLAIN);
  }

  /** The CR is stored without memberships, and a reconcile that has read some of an Upsert before `n` is about to write
      `binding`. */
  predicate KeepsOld(s: System, p: Phase, n: nat) {
    && Stands(s, PLAIN, p) && s.c.roles == map[] && s.c.bindings == map[]
    && K in s.workers && s.workers[K].MarkBinding? && s.workers[K].expiry == 10 * SECOND
    && var b := s.workers[K].bind;
    b.status == s.c.binds[K].status && b.spec == MEMBER && b.src < n && Storable(b.status)
  }

  lemma KeptSync(s1: System, p: Phase, n: nat) returns (after: seq<Step>, end: System)
    requires KeepsOld(s1, p, n) && p != Binded
    ensures Run(s1, after) == Some(end) && Stands(end, PLAIN, Binding) && K in end.workers
    ensures end.workers[K].MarkBinded? && end.workers[K].sync.bind.rv == end.c.binds[K].rv
    ensures end.workers[K].sync.bind.src < n
  {
    var w := s1.workers[K];
    assert Run(s1, []) == Some(s1);
    after, end := UpToBinded(s1, [], s1, p, w.bind, w.account);
  }

  lemma StaysInv(before: seq<Step>, s: System, t: Step, after: seq<Step>)
    requires Reached(EMPTY, before, s) && CanStep(s, t) && Run(DoStep(s, t), after).Some?
    ensures Inv(Run(DoStep(s, t), after).value)
  {
    ReachedInv(EMPTY, before, s);
    StepKeeps(s, t);
    RunKeeps(DoStep(s, t), after);
  }

  // ----- A failure that is not the Upsert's -----

  /** Another way to be misled: WaitBinded fails after the Upsert, on the report of an older spec. */
  ghost predicate Blames(p: Phase, before: seq<Step>, s: System, k: Key, u: Action, after: seq<Step>, end: System) {
    && Follows(p, before, s, k, u, after, end)
    && SeesFailed(end.c, k) && !FailsFor(end.c, k, |s.c.upserts|)
  }

  /** Every phase but the first can blame an Upsert for the failure of an older one. */
  lemma BlamedExactly(p: Phase)
    ensures (exists before, s, k, u, after, end :: Blames(p, before, s, k, u, after, end)) <==> p != NoPhase
  {
    forall before, s, k, u, after, end | Blames(p, before, s, k, u, after, end)
      ensures p != NoPhase
    {
      if p == NoPhase { FailedIsFresh(EMPTY, before, s, k, u.spec, u.stamp, u.uid, after, end); }
    }
    if p != NoPhase { OldFailureBlames(p); }
  }

  /** A reconcile that has read a TTL that does not parse reports it after an Upsert that corrects it. */
  lemma {:induction false} OldFailureBlames(p: Phase)
    requires p != NoPhase
    ensures exists before, s, u, after, end :: Blames(p, before, s, K, u, after, end)
  {
    var before, s := IdleAt(p);
    before, s := UpToFailure(EMPTY, before, s, PLAIN, p);
    var u := Upsert(K, PLAIN, 0, W);
    var _, s1 := Renew(EMPTY, before, s, Bad(PLAIN), PLAIN, p);
    assert Run(s1, []) == Some(s1);
    var after, end := WriteFailure(s1, [], s1, PLAIN, p, s.c.binds[K]);
    assert Blames(p, before, s, K, u, after, end);
  }
}
