/** Pieces of concrete runs: one CR, reconciled in a cluster with at most one role. */
module Runs {
  import opened Base
  import opened Naming
  import opened StatusPatch
  import opened Cluster
  import opened Operator
  import opened OperatorInvariant
  import opened OperatorTheorems
  import opened Settling

  const K: Key := Key("ns", "u")
  const U: string := "00000000-0000-0000-0000-000000000000"
  const V: string := "00000000-0000-0000-0000-000000000001"
  const W: string := "00000000-0000-0000-0000-000000000002"
  const YES: Answer := Answer(Ok, "", [], [], V)
  const PLAIN: Spec := Spec(Lasting(10 * SECOND), "d", "u", [])
  const MEMBER: Spec := PLAIN.(memberships := [Membership("g", "", "d")])
  const EMPTY: System := System(State(0, map[], map[], map[], map[], map[], 0, [], map[], {}), map[])

  lemma Take(s0: System, steps: seq<Step>, s: System, t: Step) returns (steps': seq<Step>, s': System)
    requires Run(s0, steps) == Some(s) && CanStep(s, t)
    ensures s' == DoStep(s, t) && Run(s0, steps') == Some(s')
  {
    steps', s' := steps + [t], DoStep(s, t);
    RunExtends(s0, steps, t);
  }

  lemma UidsDiffer()
    ensures U != V && U != W && V != W
  {
    assert U[35] != V[35] && U[35] != W[35] && V[35] != W[35];
  }

  /** The CR of `K`, with its finalizer. */
  predicate Stands(s: System, spec: Spec, phase: Phase) {
    && K in s.c.binds && s.c.binds[K].uid == U && s.c.binds[K].finalizers == {FINALIZER} && !s.c.binds[K].deleting
    && s.c.binds[K].spec == spec && s.c.binds[K].renewed == Some(0) && s.c.binds[K].status.phase == phase
    && s.c.now == 0
  }

  /** A cluster of which only the roles are known. */
  predicate Unused(s: System) {
    s == EMPTY.(c := EMPTY.c.(roles := s.c.roles, tags := s.c.tags))
  }

  /** The CR is created and gets its finalizer. */
  lemma Finalize(s0: System, spec: Spec) returns (steps: seq<Step>, s: System)
    requires Unused(s0) && spec.user == "u"
    ensures Run(s0, steps) == Some(s) && Stands(s, spec, NoPhase) && s.workers == map[]
    ensures s.c == s0.c.(binds := s.c.binds, uids := map[U := K], rv := s.c.rv, upserts := s.c.upserts)
    ensures s.c.binds[K].status == FRESH
  {
    steps, s := [], s0;
    steps, s := Take(s0, steps, s, Outside(Upsert(K, spec, 0, U)));
    steps, s := Take(s0, steps, s, Start(K));
    steps, s := Take(s0, steps, s, Advance(K, YES));
    assert s.workers[K].AddFinalizer?;
    steps, s := Take(s0, steps, s, Advance(K, YES));
  }

  /** ... and its first phase. */
  lemma FirstSteps(s0: System, spec: Spec) returns (steps: seq<Step>, s: System)
    requires Unused(s0) && spec.user == "u"
    ensures Run(s0, steps) == Some(s) && Stands(s, spec, Pending) && s.workers == map[]
    ensures s.c == s0.c.(binds := s.c.binds, uids := map[U := K], rv := s.c.rv, upserts := s.c.upserts)
  {
    steps, s := Finalize(s0, spec);
    steps, s := Take(s0, steps, s, Start(K));
    steps, s := Take(s0, steps, s, Advance(K, YES));
    assert s.workers[K].MarkPending?;
    steps, s := Take(s0, steps, s, Advance(K, YES));
  }

  /** A reconcile up to the account. */
  lemma UpToAccount(s0: System, steps: seq<Step>, s: System, spec: Spec, phase: Phase)
      returns (steps': seq<Step>, s': System)
    requires Run(s0, steps) == Some(s) && Stands(s, spec, phase) && phase != NoPhase && K !in s.workers
    requires spec.ttl == Lasting(10 * SECOND)
    ensures Run(s0, steps') == Some(s')
    ensures s' == s.(workers := s.workers[K := EnsureAccount(s.c.binds[K], 10 * SECOND)])
  {
    steps', s' := Take(s0, steps, s, Start(K));
    steps', s' := Take(s0, steps', s', Advance(K, YES));
    assert Expiry(s.c.binds[K]) == 10 * SECOND;
    assert s'.workers[K] == Judge(s.c.binds[K], 10 * SECOND);
    steps', s' := Take(s0, steps', s', Advance(K, YES));
  }

  /** A reconcile up to its first status write, or to its sync when the CR is `binded`. */
  lemma UpToBinding(s0: System, steps: seq<Step>, s: System, spec: Spec, phase: Phase, uid: string)
    returns (steps': seq<Step>, s': System)
    requires Run(s0, steps) == Some(s) && Stands(s, spec, phase) && phase != NoPhase && K !in s.workers
    requires spec.ttl == Lasting(10 * SECOND) && spec.user == "u"
    requires AccountFree(s.c, K, s.c.binds[K]) && uid !in s.c.uids && |uid| == UID_LENGTH
    ensures Run(s0, steps') == Some(s') && s'.c == PutAccount(s.c, K, s.c.binds[K], uid) && K in s'.c.accounts
    ensures var b := s.c.binds[K]; var account := s'.c.accounts[K];
      s'.workers == s.workers[K :=
        if phase == Binded then ListRoles(Sync(b, b, account, 10 * SECOND, OwnedAll(s'.c, U), {}), ClusterPass)
        else MarkBinding(b, account, 10 * SECOND)]
  {
    steps', s' := UpToAccount(s0, steps, s, spec, phase);
    steps', s' := Take(s0, steps', s', Advance(K, YES.(uid := uid)));
  }

  /** The `binding` write of a reconcile that has read `b`. */
  lemma WriteBinding(s0: System, steps: seq<Step>, s: System, spec: Spec, phase: Phase, b: Bind, account: Account)
    returns (steps': seq<Step>, s': System)
    requires Run(s0, steps) == Some(s) && Stands(s, spec, phase) && K in s.workers && b.status == s.c.binds[K].status
    requires s.workers[K] == MarkBinding(b, account, 10 * SECOND) && Storable(b.status)
    ensures Run(s0, steps') == Some(s') && Stands(s', spec, Binding)
    ensures s'.c == PatchStatus(s.c, K, b.status, BindingStatus(b.status, account.uid, 0))
    ensures s'.workers == s.workers[K := ListRoles(Sync(b, ReadInto(b, s'.c.binds[K]), account, 10 * SECOND,
                                                        OwnedAll(s'.c, U), {}), ClusterPass)]
    ensures b.spec == spec ==> ReadInto(b, s'.c.binds[K]) == s'.c.binds[K]
    ensures s'.c.binds[K].status.expiresAt == b.status.expiresAt && s'.c.binds[K].status.ref == account.uid
  {
    PatchRoundTrip(b.status, BindingStatus(b.status, account.uid, 0));
    steps', s' := Take(s0, steps, s, Advance(K, YES));
  }

  /** A pass that finds neither roles nor bindings goes through without a write. */
  lemma EmptyPass(s0: System, steps: seq<Step>, s: System, y: Sync, p: Pass) returns (steps': seq<Step>, s': System)
    requires Run(s0, steps) == Some(s) && K in s.workers && s.workers[K] == ListRoles(y, p)
    requires IsRoleList(s.c, p, []) && IsBindingList(s.c, y.bind.uid, p, [])
    ensures Run(s0, steps') == Some(s') && s' == s.(workers := s.workers[K := Prune(y, p, {}, [], 0)])
  {
    var a := Advance(K, YES);
    steps', s' := Take(s0, steps, s, a);
    assert s'.workers[K] == CreateBindings(y, p, [], 0);
    steps', s' := Take(s0, steps', s', a);
    assert Wanted(y.bind.uid, GroupsOf(y.bind), []) == {};
    assert s'.workers[K] == ListBindings(y, p, {});
    steps', s' := Take(s0, steps', s', a);
  }

  /** A sync of nothing goes through without a write. */
  lemma EmptySync(s0: System, steps: seq<Step>, s: System, y: Sync) returns (steps': seq<Step>, s': System)
    requires Run(s0, steps) == Some(s) && s.c.roles == map[] && s.c.bindings == map[]
    requires K in s.workers && s.workers[K] == ListRoles(y, ClusterPass) && y.wanted == {} && !Established(y)
    ensures Run(s0, steps') == Some(s') && s' == s.(workers := s.workers[K := MarkBinded(y)])
  {
    var a := Advance(K, YES);
    assert forall p :: IsBindingList(s.c, y.bind.uid, p, []);
    steps', s' := EmptyPass(s0, steps, s, y, ClusterPass);
    steps', s' := Take(s0, steps', s', a);
    assert y.(wanted := {}) == y;
    assert s'.workers[K] == ListRoles(y, NamespacePass);
    steps', s' := EmptyPass(s0, steps', s', y, NamespacePass);
    steps', s' := Take(s0, steps', s', a);
    assert y.(wanted := y.wanted + {}) == y;
  }

  /** In a cluster without roles, from the `binding` write of a reconcile that has read `b` to its last call. */
  lemma UpToBinded(s0: System, steps: seq<Step>, s: System, phase: Phase, b: Bind, account: Account)
    returns (steps': seq<Step>, s': System)
    requires Run(s0, steps) == Some(s) && Stands(s, PLAIN, phase) && K in s.workers && phase != Binded
    requires s.workers[K] == MarkBinding(b, account, 10 * SECOND) && b.status == s.c.binds[K].status
    requires s.c.roles == map[] && s.c.bindings == map[] && Storable(b.status)
    ensures Run(s0, steps') == Some(s') && Stands(s', PLAIN, Binding)
    ensures s'.c == PatchStatus(s.c, K, b.status, BindingStatus(b.status, account.uid, 0))
    ensures K in s'.workers && s'.workers.Keys == s.workers.Keys && s'.workers[K].MarkBinded?
    ensures s'.workers[K].sync.orig == b && s'.workers[K].sync.bind == ReadInto(b, s'.c.binds[K])
    ensures b.spec == PLAIN ==> s'.workers[K].sync.bind == s'.c.binds[K]
  {
    steps', s' := WriteBinding(s0, steps, s, PLAIN, phase, b, account);
    var y := s'.workers[K].sync;
    steps', s' := EmptySync(s0, steps', s', y);
  }

  /** A first bind up to its last call. */
  lemma FirstBind() returns (steps: seq<Step>, s: System)
    ensures Reached(EMPTY, steps, s) && Stands(s, PLAIN, Binding) && s.c.roles == map[] && s.c.bindings == map[]
    ensures K in s.workers && s.workers.Keys == {K} && s.workers[K].MarkBinded?
    ensures s.workers[K].sync.bind == s.c.binds[K]
    ensures s.c.accounts == map[K := Account(V, Some(U))] && W !in s.c.uids
    ensures BindingStatus(s.c.binds[K].status, V, 0) == s.c.binds[K].status && Storable(s.c.binds[K].status)
  {
    steps, s := FirstAccount(EMPTY, PLAIN);
    BindingTwice(s.c, s.c.binds[K], V);
    steps, s := UpToBinded(EMPTY, steps, s, Pending, s.c.binds[K], s.c.accounts[K]);
  }

  /** A `binding` write over the same `binding` changes nothing. */
  lemma BindingTwice(c: State, b: Bind, ref: string)
    requires K in c.binds && c.binds[K] == b && Storable(b.status)
    ensures var c' := PatchStatus(c, K, b.status, BindingStatus(b.status, ref, 0)); var s := c'.binds[K].status;
      && c' == c.(binds := c'.binds, rv := c'.rv)
      && Storable(s) && BindingStatus(s, ref, 0) == s
  {
    PatchRoundTrip(b.status, BindingStatus(b.status, ref, 0));
  }

  /** A first reconcile up to its first status write. */
  lemma FirstAccount(s0: System, spec: Spec) returns (steps: seq<Step>, s: System)
    requires Unused(s0) && Initial(s0) && spec.user == "u" && spec.ttl == Lasting(10 * SECOND)
    ensures Reached(s0, steps, s) && Stands(s, spec, Pending) && WellShaped(s.c.binds[K].status)
    ensures s.c.accounts == map[K := Account(V, Some(U))] && W !in s.c.uids && s.c.bindings == map[]
    ensures s.c.roles == s0.c.roles
    ensures s.workers == map[K := MarkBinding(s.c.binds[K], Account(V, Some(U)), 10 * SECOND)]
  {
    UidsDiffer();
    steps, s := FirstSteps(s0, spec);
    StoredStatus(s0, steps, s);
    steps, s := UpToBinding(s0, steps, s, spec, Pending, V);
  }

  /** The `binded` write. */
  lemma LastCall(s0: System, steps: seq<Step>, s: System, spec: Spec) returns (steps': seq<Step>, s': System)
    requires Run(s0, steps) == Some(s) && Inv(s) && Stands(s, spec, Binding) && K in s.workers
    requires s.workers[K].MarkBinded? && s.workers[K].sync.bind.rv == s.c.binds[K].rv
    ensures Run(s0, steps') == Some(s') && Stands(s', spec, Binded) && s'.workers == s.workers - {K}
    ensures s'.c == s.c.(binds := s'.c.binds, rv := s'.c.rv)
    ensures s'.c.binds[K].synced == Some(s.workers[K].sync.bind.src)
    ensures var y := s.workers[K].sync;
      BindingWritten(y) ==>
        s'.c.binds[K].status.ref == y.account.uid && s'.c.binds[K].status.expiresAt == Some(y.expiry)
  {
    BindedAt(s, s.workers[K].sync);
    steps', s' := StoreBinded(s0, steps, s, spec, s.workers[K].sync);
  }

  lemma StoreBinded(s0: System, steps: seq<Step>, s: System, spec: Spec, y: Sync)
    returns (steps': seq<Step>, s': System)
    requires Run(s0, steps) == Some(s) && Stands(s, spec, Binding) && K in s.workers
    requires s.workers[K] == MarkBinded(y) && y.bind.rv == s.c.binds[K].rv
    requires Apply(Diff(y.orig.status, BindedStatus(y, 0)), s.c.binds[K].status).phase == Binded
    ensures Run(s0, steps') == Some(s') && Stands(s', spec, Binded) && s'.workers == s.workers - {K}
    ensures s'.c == s.c.(binds := s'.c.binds, rv := s'.c.rv) && s'.c.binds[K].synced == Some(y.bind.src)
    ensures s'.c.binds[K].status == Apply(Diff(y.orig.status, BindedStatus(y, 0)), s.c.binds[K].status)
  {
    PatchIs(s.c, K, y.orig.status, BindedStatus(y, 0));
    steps', s' := Take(s0, steps, s, Advance(K, YES));
  }

  lemma BindedAt(s: System, y: Sync)
    requires Inv(s) && K in s.workers && s.workers[K] == MarkBinded(y)
    ensures K in s.c.binds
    ensures var end := Apply(Diff(y.orig.status, BindedStatus(y, s.c.now)), s.c.binds[K].status);
      && end.phase == Binded
      && (BindingWritten(y) ==> end.ref == y.account.uid && end.expiresAt == Some(y.expiry))
  {
    assert WorkerOk(s.c, K, s.workers[K]);
    BindedStored(s.c, K, y);
  }

  lemma StoredStatus(s0: System, steps: seq<Step>, s: System)
    requires Reached(s0, steps, s) && K in s.c.binds
    ensures WellShaped(s.c.binds[K].status)
  {
    ReachedInv(s0, steps, s);
    assert BindOk(s.c, K, s.c.binds[K]);
  }

  // ----- A CR in each phase -----

  /** Another Upsert of the CR, at the same time. */
  lemma Renew(s0: System, steps: seq<Step>, s: System, was: Spec, spec: Spec, phase: Phase)
    returns (steps': seq<Step>, s': System)
    requires Run(s0, steps) == Some(s) && Stands(s, was, phase) && spec.user == "u"
    ensures CanStep(s, Outside(Upsert(K, spec, 0, W))) && s' == DoStep(s, Outside(Upsert(K, spec, 0, W)))
    ensures Run(s0, steps') == Some(s') && Stands(s', spec, phase) && s'.workers == s.workers
    ensures s'.c == s.c.(binds := s'.c.binds, rv := s'.c.rv, upserts := s.c.upserts + [Written(K, spec, 0)])
    ensures s'.c.binds[K].status == s.c.binds[K].status && s'.c.binds[K].src == |s.c.upserts|
  {
    steps', s' := Take(s0, steps, s, Outside(Upsert(K, spec, 0, W)));
  }

  /** The same spec with a TTL that does not parse. */
  function Bad(spec: Spec): Spec {
    spec.(ttl := Unparsable(""))
  }

  /** A reconcile of a TTL that does not parse, up to its status write. */
  lemma UpToFailure(s0: System, steps: seq<Step>, s: System, spec: Spec, phase: Phase)
    returns (steps': seq<Step>, s': System)
    requires Run(s0, steps) == Some(s) && Stands(s, spec, phase) && phase != NoPhase && K !in s.workers
    requires spec.user == "u"
    ensures Run(s0, steps') == Some(s') && Stands(s', Bad(spec), phase)
    ensures s'.workers == s.workers[K := MarkFailed(s'.c.binds[K], s'.c.binds[K], "InvalidTTL", "")]
    ensures s'.c == s.c.(binds := s'.c.binds, rv := s'.c.rv, upserts := s'.c.upserts)
    ensures s'.c.binds[K].status == s.c.binds[K].status && s'.c.binds[K].src < |s'.c.upserts|
  {
    steps', s' := Renew(s0, steps, s, spec, Bad(spec), phase);
    steps', s' := Take(s0, steps', s', Start(K));
    steps', s' := Take(s0, steps', s', Advance(K, YES));
  }

  /** The status write of a reconcile that has read `b` with such a TTL. */
  lemma WriteFailure(s0: System, steps: seq<Step>, s: System, spec: Spec, phase: Phase, b: Bind)
    returns (steps': seq<Step>, s': System)
    requires Run(s0, steps) == Some(s) && Stands(s, spec, phase) && K in s.workers && b.status == s.c.binds[K].status
    requires s.workers[K] == MarkFailed(b, b, "InvalidTTL", "")
    ensures Run(s0, steps') == Some(s') && Stands(s', spec, Failed) && s'.workers == s.workers - {K}
    ensures s'.c == s.c.(binds := s'.c.binds, rv := s'.c.rv) && s'.c.binds[K].blamed == Some(b.src)
    ensures s'.c.binds[K].status.expiresAt == b.status.expiresAt
  {
    PatchIs(s.c, K, b.status, FailedStatus(b.status, "InvalidTTL", "", 0));
    steps', s' := Take(s0, steps, s, Advance(K, YES));
  }

  /** A deleteOwned that finds nothing. */
  lemma EmptyDelete(s0: System, steps: seq<Step>, s: System, b: Bind) returns (steps': seq<Step>, s': System)
    requires Run(s0, steps) == Some(s) && K in s.workers && s.workers[K] == ListOwned(b, ToUnbind, ClusterPass)
    requires s.c.bindings == map[]
    ensures Run(s0, steps') == Some(s') && s' == s.(workers := s.workers[K := MarkUnbound(b)])
  {
    var a := Advance(K, YES);
    assert forall p :: IsBindingList(s.c, b.uid, p, []);
    steps', s' := Take(s0, steps, s, a);
    steps', s' := Take(s0, steps', s', a);
    assert s'.workers[K] == ListOwned(b, ToUnbind, NamespacePass);
    steps', s' := Take(s0, steps', s', a);
    steps', s' := Take(s0, steps', s', a);
  }

  /** A reconcile of a bind that has expired. */
  lemma Expire(s0: System, steps: seq<Step>, s: System) returns (steps': seq<Step>, s': System)
    requires Run(s0, steps) == Some(s) && Stands(s, PLAIN.(ttl := Lasting(0)), Pending) && s.workers == map[]
    requires s.c.bindings == map[]
    ensures Run(s0, steps') == Some(s') && Stands(s', PLAIN.(ttl := Lasting(0)), Unbound) && s'.workers == map[]
    ensures s'.c == s.c.(binds := s'.c.binds, rv := s'.c.rv)
  {
    var b := s.c.binds[K];
    steps', s' := Take(s0, steps, s, Start(K));
    steps', s' := Take(s0, steps', s', Advance(K, YES));
    assert s'.workers[K] == Judge(b, 0);
    steps', s' := Take(s0, steps', s', Advance(K, YES));
    steps', s' := EmptyDelete(s0, steps', s', b);
    PatchIs(s.c, K, b.status, UnboundStatus(b.status, 0));
    steps', s' := Take(s0, steps', s', Advance(K, YES));
  }

  /** The CR in a phase of one's choice, no reconcile of it running, in a cluster without roles. */
  predicate IdleIn(s: System, phase: Phase) {
    && Stands(s, PLAIN, phase) && s.workers == map[] && s.c.roles == map[] && s.c.bindings == map[]
    && W !in s.c.uids && AccountFree(s.c, K, s.c.binds[K])
  }

  /** There is a run to every phase but the first. */
  lemma IdleAt(phase: Phase) returns (steps: seq<Step>, s: System)
    requires phase != NoPhase
    ensures Reached(EMPTY, steps, s) && IdleIn(s, phase)
  {
    match phase
    case Pending => steps, s := IdlePending();
    case Binding =>
      steps, s := FirstBind();
      steps, s := Take(EMPTY, steps, s, Advance(K, YES.(outcome := Refused)));
    case Binded =>
      steps, s := FirstBind();
      ReachedInv(EMPTY, steps, s);
      steps, s := LastCall(EMPTY, steps, s, PLAIN);
    case Unbound => steps, s := IdleUnbound();
    case Failed => steps, s := IdleFailed();
  }

  lemma IdlePending() returns (steps: seq<Step>, s: System)
    ensures Reached(EMPTY, steps, s) && IdleIn(s, Pending)
  {
    UidsDiffer();
    steps, s := FirstSteps(EMPTY, PLAIN);
  }

  lemma IdleUnbound() returns (steps: seq<Step>, s: System)
    ensures Reached(EMPTY, steps, s) && IdleIn(s, Unbound)
  {
    steps, s := IdlePending();
    steps, s := Renew(EMPTY, steps, s, PLAIN, PLAIN.(ttl := Lasting(0)), Pending);
    steps, s := Expire(EMPTY, steps, s);
    steps, s := Renew(EMPTY, steps, s, PLAIN.(ttl := Lasting(0)), PLAIN, Unbound);
  }

  lemma IdleFailed() returns (steps: seq<Step>, s: System)
    ensures Reached(EMPTY, steps, s) && IdleIn(s, Failed)
  {
    steps, s := IdlePending();
    steps, s := UpToFailure(EMPTY, steps, s, PLAIN, Pending);
    steps, s := WriteFailure(EMPTY, steps, s, Bad(PLAIN), Pending, s.c.binds[K]);
    steps, s := Renew(EMPTY, steps, s, Bad(PLAIN), PLAIN, Failed);
  }
}
