/** Runs in which the operator does not do what its documentation, or a reader, would expect. */
module Scenarios {
  import opened Base
  import opened Naming
  import opened StatusPatch
  import opened Cluster
  import opened Operator
  import opened OperatorInvariant
  import opened OperatorTheorems
  import opened SyncTheorems
  import opened Settling
  import opened Runs

  // ----- A bind that fails twice -----

  function No(message: string): Answer {
    YES.(outcome := Refused, message := message)
  }

  /** From the first status write to the report of a sync whose first List was refused. */
  lemma FailSyncRun(s0: System, steps: seq<Step>, s: System, phase: Phase, account: Account, message: string)
    returns (steps': seq<Step>, s': System)
    requires Reached(s0, steps, s) && Stands(s, PLAIN, phase) && phase != Binded && phase != Binding
    requires s.workers == map[K := MarkBinding(s.c.binds[K], account, 10 * SECOND)]
    ensures Reached(s0, steps', s') && s'.workers == map[] && EndsFailed(s'.c, K, s.c.binds[K].status, message)
    ensures Stands(s', PLAIN, if phase == Failed then Binding else Failed)
    ensures s.c.binds[K].status.ready != Some(FailureCondition(message, 0)) ==>
      s'.c.binds[K].status.ready == Some(FailureCondition(message, 0))
    ensures s'.c == s.c.(binds := s'.c.binds, rv := s'.c.rv)
  {
    StoredStatus(s0, steps, s);
    var b := s.c.binds[K];
    steps', s' := WriteBinding(s0, steps, s, PLAIN, phase, b, account);
    steps', s' := Take(s0, steps', s', Advance(K, No(message)));
    steps', s' := ReportRun(s0, steps', s', b, message);
  }

  lemma ReportRun(s0: System, steps: seq<Step>, s: System, orig: Bind, message: string)
    returns (steps': seq<Step>, s': System)
    requires Reached(s0, steps, s) && Stands(s, PLAIN, Binding)
    requires s.workers == map[K := MarkFailed(orig, s.c.binds[K], BIND_FAILED, message)]
    ensures Reached(s0, steps', s') && s'.workers == map[] && EndsFailed(s'.c, K, orig.status, message)
    ensures Stands(s', PLAIN, if orig.status.phase == Failed then Binding else Failed)
    ensures orig.status.ready != Some(FailureCondition(message, 0)) ==>
      s'.c.binds[K].status.ready == Some(FailureCondition(message, 0))
    ensures s'.c == s.c.(binds := s'.c.binds, rv := s'.c.rv)
  {
    PatchIs(s.c, K, orig.status, FailedStatus(s.c.binds[K].status, BIND_FAILED, message, 0));
    steps', s' := Take(s0, steps, s, Advance(K, YES));
    ReportStored(s0, steps, s, orig, message, s'.c);
  }

  lemma ReportStored(s0: System, steps: seq<Step>, s: System, orig: Bind, message: string, c': State)
    requires Reached(s0, steps, s) && K in s.c.binds && s.c.binds[K].status.phase == Binding && K in s.workers
    requires s.workers[K] == MarkFailed(orig, s.c.binds[K], BIND_FAILED, message)
    requires Patched(s.c, c', K, orig.status, FailedStatus(s.c.binds[K].status, BIND_FAILED, message, c'.now))
    ensures EndsFailed(c', K, orig.status, message)
    ensures orig.status.ready != Some(FailureCondition(message, c'.now)) ==>
      c'.binds[K].status.ready == Some(FailureCondition(message, c'.now))
  {
    ReachedInv(s0, steps, s);
    assert WorkerOk(s.c, K, s.workers[K]);
    FailureStored(s.c, c', K, orig, s.c.binds[K], message);
  }

  /** A bind whose sync fails, and fails again with another error, is stored as `binding` with the condition of a
      failure, where the documentation promises `failed`. */
  lemma FailsTwice() returns (steps: seq<Step>, s: System)
    ensures Reached(EMPTY, steps, s) && K in s.c.binds && s.workers == map[]
    ensures s.c.binds[K].status.phase == Binding && ReadyIs(s.c.binds[K].status, False) && !Agrees(s.c.binds[K].status)
  {
    steps, s := FailsOnce();
    assert FailureCondition("x", 0).message != FailureCondition("y", 0).message;
    steps, s := FailSyncRun(EMPTY, steps, s, Failed, Account(V, Some(U)), "y");
  }

  /** A bind whose sync failed, in the next reconcile up to its first status write. */
  lemma FailsOnce() returns (steps: seq<Step>, s: System)
    ensures Reached(EMPTY, steps, s) && Stands(s, PLAIN, Failed)
    ensures s.c.binds[K].status.ready == Some(FailureCondition("x", 0))
    ensures s.workers == map[K := MarkBinding(s.c.binds[K], Account(V, Some(U)), 10 * SECOND)]
  {
    steps, s := FirstAccount(EMPTY, PLAIN);
    assert ReadyIs(s.c.binds[K].status, Unknown);
    steps, s := FailSyncRun(EMPTY, steps, s, Pending, Account(V, Some(U)), "x");
    ghost var c := s.c;
    steps, s := UpToBinding(EMPTY, steps, s, PLAIN, Failed, W);
    assert s.c.accounts == c.accounts;
    assert s.c == c;
  }

  // ----- A bind without a timer -----

  const R: RoleKey := RoleKey(WholeCluster, "r")
  const ITEM: Item := Item(R, Some("g"))
  const GUARDED: System := EMPTY.(c := EMPTY.c.(roles := map[R := Role(Some("g"))], tags := {(R, "g")}))

  function TheKey(): BindKey {
    BindKeyOf(U, R)
  }

  /** The binding that the role calls for. */
  function Granted(): RoleBinding {
    RoleBinding(Some(U), R, K)
  }

  lemma WantsOne(b: Bind)
    requires b.uid == U && b.spec == MEMBER
    ensures GroupMatches(GroupsOf(b), Some("g")) && Wanted(U, GroupsOf(b), [ITEM]) == {TheKey()}
  {
    assert b.spec.memberships[0] in b.spec.memberships && b.spec.memberships[0].gid == "g";
    assert ITEM in [ITEM];
  }

  /** The first half of that pass. */
  lemma GrantCreate(s0: System, steps: seq<Step>, s: System, y: Sync) returns (steps': seq<Step>, s': System)
    requires Run(s0, steps) == Some(s) && K in s.workers && s.workers[K] == ListRoles(y, ClusterPass)
    requires s.c.roles == GUARDED.c.roles && y.bind.uid == U && y.bind.spec == MEMBER
    requires s.c.bindings == map[] || s.c.bindings == map[TheKey() := Granted()]
    ensures Run(s0, steps') == Some(s') && s'.workers == s.workers[K := ListBindings(y, ClusterPass, {TheKey()})]
    ensures s'.c == s.c.(bindings := map[TheKey() := Granted()], grants := s'.c.grants)
    ensures s.c.bindings != map[] ==> s'.c == s.c
  {
    WantsOne(y.bind);
    assert IsRoleList(s.c, ClusterPass, [ITEM]);
    steps', s' := Take(s0, steps, s, Advance(K, YES.(items := [ITEM])));
    steps', s' := GrantOne(s0, steps', s', y);
    steps', s' := Take(s0, steps', s', Advance(K, YES));
  }

  /** The role's turn in the create loop. */
  lemma GrantOne(s0: System, steps: seq<Step>, s: System, y: Sync) returns (steps': seq<Step>, s': System)
    requires Run(s0, steps) == Some(s) && K in s.workers && s.workers[K] == CreateBindings(y, ClusterPass, [ITEM], 0)
    requires y.bind.uid == U && y.bind.spec == MEMBER
    requires s.c.bindings == map[] || s.c.bindings == map[TheKey() := Granted()]
    ensures Run(s0, steps') == Some(s') && s'.workers == s.workers[K := CreateBindings(y, ClusterPass, [ITEM], 1)]
    ensures s'.c == s.c.(bindings := map[TheKey() := Granted()], grants := s'.c.grants)
    ensures s.c.bindings != map[] ==> s'.c == s.c
  {
    WantsOne(y.bind);
    steps', s' := Take(s0, steps, s, Advance(K, YES));
  }

  /** A pass over the one ClusterRole: its binding is created unless it is there. */
  lemma GrantPass(s0: System, steps: seq<Step>, s: System, y: Sync) returns (steps': seq<Step>, s': System)
    requires Run(s0, steps) == Some(s) && K in s.workers && s.workers[K] == ListRoles(y, ClusterPass)
    requires s.c.roles == GUARDED.c.roles && y.bind.uid == U && y.bind.spec == MEMBER
    requires s.c.bindings == map[] || s.c.bindings == map[TheKey() := Granted()]
    ensures Run(s0, steps') == Some(s')
    ensures s'.workers == s.workers[K := Prune(y, ClusterPass, {TheKey()}, [TheKey()], 1)]
    ensures s'.c == s.c.(bindings := map[TheKey() := Granted()], grants := s'.c.grants)
    ensures s.c.bindings != map[] ==> s'.c == s.c
  {
    steps', s' := GrantCreate(s0, steps, s, y);
    steps', s' := GrantPrune(s0, steps', s', y);
  }

  /** The second half: nothing to prune. */
  lemma GrantPrune(s0: System, steps: seq<Step>, s: System, y: Sync) returns (steps': seq<Step>, s': System)
    requires Run(s0, steps) == Some(s) && K in s.workers && s.workers[K] == ListBindings(y, ClusterPass, {TheKey()})
    requires y.bind.uid == U && s.c.bindings == map[TheKey() := Granted()]
    ensures Run(s0, steps') == Some(s')
    ensures s' == s.(workers := s.workers[K := Prune(y, ClusterPass, {TheKey()}, [TheKey()], 1)])
  {
    assert IsBindingList(s.c, U, ClusterPass, [TheKey()]);
    steps', s' := Take(s0, steps, s, Advance(K, YES.(keys := [TheKey()])));
    steps', s' := Take(s0, steps', s', Advance(K, YES));
  }

  /** Both passes. */
  lemma GrantSync(s0: System, steps: seq<Step>, s: System, y: Sync) returns (steps': seq<Step>, s': System)
    requires Run(s0, steps) == Some(s) && K in s.workers && s.workers[K] == ListRoles(y, ClusterPass)
    requires s.c.roles == GUARDED.c.roles && y.bind.uid == U && y.bind.spec == MEMBER
    requires s.c.bindings == map[] || s.c.bindings == map[TheKey() := Granted()]
    ensures Run(s0, steps') == Some(s')
    ensures s'.workers == s.workers[K := Prune(y.(wanted := {TheKey()}), NamespacePass, {}, [], 0)]
    ensures s'.c == s.c.(bindings := map[TheKey() := Granted()], grants := s'.c.grants)
    ensures s.c.bindings != map[] ==> s'.c == s.c
  {
    steps', s' := GrantPass(s0, steps, s, y);
    steps', s' := Take(s0, steps', s', Advance(K, YES));
    assert s'.workers[K] == ListRoles(y.(wanted := {TheKey()}), NamespacePass);
    assert IsRoleList(s'.c, NamespacePass, []) && IsBindingList(s'.c, U, NamespacePass, []);
    steps', s' := EmptyPass(s0, steps', s', y.(wanted := {TheKey()}), NamespacePass);
  }

  /** A bind of one group, up to its sync. */
  lemma GrantBinding() returns (steps: seq<Step>, s: System)
    ensures Reached(GUARDED, steps, s) && Stands(s, MEMBER, Binding) && s.workers.Keys == {K}
    ensures s.c.accounts == map[K := Account(V, Some(U))] && W !in s.c.uids && s.c.roles == GUARDED.c.roles
    ensures s.c.bindings == map[] && s.workers[K].ListRoles? && s.workers[K].pass == ClusterPass
    ensures var y := s.workers[K].sync;
      && y.bind == s.c.binds[K] && y.orig.status.phase == Pending && BindingWritten(y)
      && y.account == Account(V, Some(U)) && y.expiry == 10 * SECOND
  {
    steps, s := FirstAccount(GUARDED, MEMBER);
    steps, s := WriteBinding(GUARDED, steps, s, MEMBER, Pending, s.c.binds[K], Account(V, Some(U)));
  }

  /** A bind of one group, to its end. */
  lemma Grant() returns (steps: seq<Step>, s: System)
    ensures Reached(GUARDED, steps, s) && Stands(s, MEMBER, Binded) && s.workers == map[]
    ensures s.c.accounts == map[K := Account(V, Some(U))] && W !in s.c.uids && s.c.roles == GUARDED.c.roles
    ensures s.c.bindings == map[TheKey() := Granted()]
    ensures s.c.binds[K].status.ref == V && s.c.binds[K].status.expiresAt == Some(10 * SECOND)
  {
    steps, s := GrantBinding();
    var y := s.workers[K].sync;
    steps, s := GrantSync(GUARDED, steps, s, y);
    steps, s := Take(GUARDED, steps, s, Advance(K, YES));
    assert s.workers[K] == MarkBinded(y.(wanted := {TheKey()} + {}));
    ReachedInv(GUARDED, steps, s);
    steps, s := LastCall(GUARDED, steps, s, MEMBER);
  }

  /** A reconcile of an established bind that reads the clock before the expiry and returns at it: no error, no write,
      no timer, and every binding still in place. */
  lemma ReturnsWithoutTimer() returns (steps: seq<Step>, s: System)
    ensures Reached(GUARDED, steps, s) && K in s.workers && K in s.c.binds && s.c.binds[K].spec.ttl.Lasting?
    ensures Work(s.c, K, s.workers[K], YES) == Done(s.c, false, None)
    ensures s.c.binds[K].status.phase == Binded && Expiry(s.c.binds[K]) == s.c.now
    ensures OwnedAll(s.c, s.c.binds[K].uid) == {TheKey()}
  {
    steps, s := GrantAgain();
    var y := s.workers[K].sync;
    steps, s := Take(GUARDED, steps, s, Outside(Tick(10 * SECOND)));
    steps, s := GrantSync(GUARDED, steps, s, y);
    assert Expiry(s.c.binds[K]) == 10 * SECOND;
  }

  /** The next reconcile of that bind, up to its sync. */
  lemma GrantAgain() returns (steps: seq<Step>, s: System)
    ensures Reached(GUARDED, steps, s) && Stands(s, MEMBER, Binded) && s.workers.Keys == {K}
    ensures s.c.roles == GUARDED.c.roles && s.c.bindings == map[TheKey() := Granted()]
    ensures s.workers[K].ListRoles? && s.workers[K].pass == ClusterPass
    ensures var y := s.workers[K].sync; Established(y) && y.bind == s.c.binds[K] && y.expiry == 10 * SECOND
  {
    steps, s := Grant();
    ghost var c := s.c;
    steps, s := UpToBinding(GUARDED, steps, s, MEMBER, Binded, W);
    assert s.c.accounts == c.accounts;
    assert s.c == c;
  }

  // ----- A bind whose TTL no longer parses -----

  /** A step that neither renews nor deletes the CR. */
  predicate Leaves(t: Step, k: Key) {
    t.Outside? ==> !(t.action.Upsert? && t.action.key == k) && !(t.action.DeleteBind? && t.action.key == k)
  }

  /** The CR stands with a TTL that does not parse, and a reconcile of it, if any, reports just that. */
  predicate Suspended(s: System, k: Key) {
    && k in s.c.binds && s.c.binds[k].spec.ttl.Unparsable? && !s.c.binds[k].deleting
    && FINALIZER in s.c.binds[k].finalizers && s.c.binds[k].status.phase != NoPhase
    && (k in s.workers ==> s.workers[k].Fetch? || s.workers[k].MarkFailed?)
  }

  /** The CR is the same but for its status and finalizers, and owns the same. */
  predicate SameBind(c: State, c': State, k: Key) {
    && k in c.binds && k in c'.binds && c'.binds[k].uid == c.binds[k].uid && c'.binds[k].spec == c.binds[k].spec
    && OwnedAll(c', c.binds[k].uid) == OwnedAll(c, c.binds[k].uid)
  }

  lemma LeavesSpec(s: System, t: Step, k: Key)
    requires CanStep(s, t) && Idle(t, k) && Leaves(t, k) && k in s.c.binds
    ensures var c' := DoStep(s, t).c;
      k in c'.binds ==> c'.binds[k].spec == s.c.binds[k].spec && c'.binds[k].deleting == s.c.binds[k].deleting
  {
    match t
    case Outside(a) =>
      if a.Upsert? {
        UpsertElsewhere(s.c, a.key, a.spec, a.stamp, a.uid, k);
      } else if a.DeleteBind? {
        TerminateElsewhere(s.c, a.key, k);
      } else if a.ForeignFinalizer? {
        var fs := s.c.binds[a.key].finalizers;
        FinalizersKeepSpec(s.c, a.key, if a.add then fs + {a.name} else fs - {a.name}, k);
      } else {
        OtherActsKeepBinds(s.c, a);
      }
    case Advance(l, a) => WorkElsewhere(s.c, l, s.workers[l], a, k);
    case _ =>
  }

  lemma TerminateElsewhere(c: State, l: Key, k: Key)
    requires l in c.binds && l != k
    ensures SameAt(c, Terminate(c, l), k)
  {
  }

  lemma FinalizersKeepSpec(c: State, l: Key, fs: set<string>, k: Key)
    requires l in c.binds && k in c.binds
    ensures var c' := SetFinalizers(c, l, fs);
      k in c'.binds ==> c'.binds[k].spec == c.binds[k].spec && c'.binds[k].deleting == c.binds[k].deleting
  {
    if c.binds[l].deleting && fs == {} {
    } else {
    }
  }

  lemma UpsertElsewhere(c: State, l: Key, spec: Spec, stamp: int, uid: string, k: Key)
    requires l != k
    ensures SameAt(c, DoUpsert(c, l, spec, stamp, uid), k)
  {
    if l in c.binds {
    } else {
    }
  }

  /** The calls of such a reconcile: it reads the CR and reports the TTL. */
  lemma ReportsTtl(s: System, k: Key, a: Answer)
    requires Suspended(s, k) && CanStep(s, Advance(k, a))
    ensures var s' := DoStep(s, Advance(k, a)); Suspended(s', k) && SameBind(s.c, s'.c, k)
  {
    match s.workers[k]
    case Fetch =>
    case MarkFailed(orig, b, reason, message) =>
      PatchIs(s.c, k, orig.status, FailedStatus(b.status, reason, message, s.c.now));
  }

  lemma SuspendedStep(s: System, t: Step, k: Key)
    requires Inv(s) && Suspended(s, k) && CanStep(s, t) && Leaves(t, k)
    ensures var s' := DoStep(s, t); Suspended(s', k) && SameBind(s.c, s'.c, k)
  {
    if Idle(t, k) {
      IdleStep(s, t, k);
      LeavesSpec(s, t, k);
      if t.Advance? { WorkersElsewhere(s, t.key, t.answer, k); }
    } else {
      ReportsTtl(s, k, t.answer);
    }
  }

  lemma WorkersElsewhere(s: System, l: Key, a: Answer, k: Key)
    requires CanStep(s, Advance(l, a)) && l != k
    ensures var s' := DoStep(s, Advance(l, a));
      k in s'.workers ==> k in s.workers && s'.workers[k] == s.workers[k]
  {
  }

  /** Once a CR stands with a TTL that does not parse, nothing that it owns is ever revoked, however late it gets, until
      somebody renews or deletes it. */
  lemma {:induction false} UnparsableKeeps(s0: System, steps: seq<Step>, s: System, k: Key, more: seq<Step>,
                                           end: System)
    requires Reached(s0, steps, s) && Suspended(s, k) && Run(s, more) == Some(end)
    requires forall t | t in more :: Leaves(t, k)
    ensures Suspended(end, k) && SameBind(s.c, end.c, k)
  {
    if more != [] {
      var t, before := more[|more| - 1], more[..|more| - 1];
      assert forall x | x in before :: x in more;
      var mid := Run(s, before).value;
      UnparsableKeeps(s0, steps, s, k, before, mid);
      ReachedInv(s0, steps, s);
      RunKeeps(s, before);
      SuspendedStep(mid, t, k);
    }
  }

  /** A bind with an owned binding and, after a renewal with such a TTL and a reconcile, long past its expiry. */
  lemma OutlivesExpiry() returns (steps: seq<Step>, s: System)
    ensures Reached(GUARDED, steps, s) && Suspended(s, K) && s.workers == map[]
    ensures s.c.binds[K].status.phase == Failed && s.c.binds[K].status.expiresAt == Some(10 * SECOND)
    ensures s.c.now == 3600 * SECOND && OwnedAll(s.c, s.c.binds[K].uid) == {TheKey()}
  {
    steps, s := Grant();
    ghost var was := s.c.binds[K].status;
    steps, s := UpToFailure(GUARDED, steps, s, MEMBER, Binded);
    assert s.c.binds[K].status == was;
    steps, s := WriteFailure(GUARDED, steps, s, Bad(MEMBER), Binded, s.c.binds[K]);
    steps, s := Take(GUARDED, steps, s, Outside(Tick(3600 * SECOND)));
  }

  // ----- A first bind, on its way -----

  /** The CR of a first bind, with its finalizer and without an account, has two reconciles to go. */
  lemma FirstBindReady(spec: Spec) returns (steps: seq<Step>, s: System)
    requires spec.user == "u" && spec.ttl == Lasting(10 * SECOND)
    ensures Reached(EMPTY, steps, s) && s.workers == map[] && K !in s.c.accounts
    ensures Ready(s.c, K, V) && Live(View(s.c, K), K) && Rank(View(s.c, K), K) == 2
  {
    UidsDiffer();
    steps, s := Finalize(EMPTY, spec);
    assert Expiry(s.c.binds[K]) == 10 * SECOND;
    ViewLive(s.c, K);
  }
}
