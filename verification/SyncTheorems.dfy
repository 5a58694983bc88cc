/**
 What a sync does to the bindings of its CR, in every run: what it never goes beyond, whichever call fails, and what it
 ends with, in terms of the roles that the cluster had and the specs that it stored.
 */
module SyncTheorems {
  import opened Base
  import opened Naming
  import opened StatusPatch
  import opened Cluster
  import opened Operator
  import opened OperatorInvariant
  import opened OperatorTheorems

  // ----- No gap and no excess -----

  /** The pass a running sync is in, and the bindings that pass means to end with: until it has listed the roles, those
      that it found. */
  datatype Target = Target(sync: Sync, pass: Pass, desired: set<BindKey>)

  function TargetOf(w: Worker): Option<Target> {
    match w
    case ListRoles(s, p) => Some(Target(s, p, OfPass(p, s.before)))
    case CreateBindings(s, p, items, _) => Some(Target(s, p, Wanted(s.bind.uid, GroupsOf(s.bind), items)))
    case ListBindings(s, p, desired) => Some(Target(s, p, desired))
    case Prune(s, p, desired, _, _) => Some(Target(s, p, desired))
    case _ => None
  }

  /** No binding that was owned and is still wanted is missing, and none exists that was neither owned before nor wanted
      now. The pass that is not running is exactly as it was found or as it was left. */
  predicate Bounded(c: State, t: Target) {
    && OtherPass(c, t.sync, t.pass)
    && var owned, before := Owned(c, t.sync.bind.uid, t.pass), OfPass(t.pass, t.sync.before);
    && before * t.desired <= owned <= before + t.desired
  }

  /** A step other than a call of a reconcile of `k`. */
  predicate Idle(t: Step, k: Key) {
    !(t.Advance? && t.key == k)
  }

  /** At every point of a sync, and after every call that it makes, however that call ends and whatever everybody else
      does until the next call of a reconcile of the CR, its bindings are within bounds. */
  lemma NoGapNoExcess(s0: System, steps: seq<Step>, s: System, k: Key, a: Answer, others: seq<Step>, end: System)
    requires Reached(s0, steps, s) && CanStep(s, Advance(k, a)) && TargetOf(s.workers[k]).Some?
    requires Run(DoStep(s, Advance(k, a)), others) == Some(end) && forall t | t in others :: Idle(t, k)
    ensures Bounded(s.c, TargetOf(s.workers[k]).value) && Bounded(end.c, TargetOf(s.workers[k]).value)
  {
    ReachedInv(s0, steps, s);
    var w := s.workers[k];
    var t := TargetOf(w).value;
    BoundedAt(s.c, k, w);
    CallBounded(s.c, k, w, a);
    var s1 := DoStep(s, Advance(k, a));
    StepKeeps(s, Advance(k, a));
    CallHolds(s.c, k, w, a);
    IdleOwned(s1, others, end, k, t.sync.bind.uid);
    BoundedSame(s1.c, end.c, t);
  }

  lemma BoundedSame(c: State, c': State, t: Target)
    requires Bounded(c, t) && SameOwned(c, c', t.sync.bind.uid)
    ensures Bounded(c', t)
  {
  }

  lemma BoundedAt(c: State, k: Key, w: Worker)
    requires WorkerOk(c, k, w) && TargetOf(w).Some?
    ensures Bounded(c, TargetOf(w).value) && Holds(c, k, TargetOf(w).value.sync.bind)
  {
    match w
    case CreateBindings(y, p, items, i) => WantedPrefix(y.bind.uid, GroupsOf(y.bind), items, i);
    case _ =>
  }

  lemma WantedPrefix(uid: string, groups: set<string>, items: seq<Item>, i: nat)
    requires i <= |items|
    ensures Wanted(uid, groups, items[..i]) <= Wanted(uid, groups, items)
  {
    assert forall it | it in items[..i] :: it in items;
  }

  lemma CallBounded(c: State, k: Key, w: Worker, a: Answer)
    requires ClusterOk(c) && WorkerOk(c, k, w) && TargetOf(w).Some?
    ensures Bounded(Work(c, k, w, a).c, TargetOf(w).value)
  {
    BoundedAt(c, k, w);
    match w
    case CreateBindings(y, p, items, i) => CreateBounded(c, k, y, p, items, i, a);
    case Prune(y, p, desired, keys, i) => PruneBounded(c, k, y, p, desired, keys, i, a);
    case _ =>
  }

  lemma CreateBounded(c: State, k: Key, y: Sync, p: Pass, items: seq<Item>, i: nat, a: Answer)
    requires ClusterOk(c) && CreatingOk(c, k, y, p, items, i)
    ensures var w := CreateBindings(y, p, items, i);
      Bounded(DoCreateBindings(c, k, y, p, items, i, a).c, TargetOf(w).value)
  {
    var w := CreateBindings(y, p, items, i);
    BoundedAt(c, k, w);
    if i < |items| && GroupMatches(GroupsOf(y.bind), items[i].group) && a.outcome != Refused {
      assert items[i] in items;
      CreationKeeps(c, k, y, items[i], a);
      OneMore(c, Creation(c, k, y, items[i], a), TargetOf(w).value, BindKeyOf(y.bind.uid, items[i].role));
    }
  }

  lemma OneMore(c: State, c': State, t: Target, bk: BindKey)
    requires Bounded(c, t) && bk in t.desired && InPass(t.pass, bk.scope)
    requires forall p :: Owned(c', t.sync.bind.uid, p)
                      == if InPass(p, bk.scope) then Owned(c, t.sync.bind.uid, p) + {bk}
                          else Owned(c, t.sync.bind.uid, p)
    ensures Bounded(c', t)
  {
  }

  lemma PruneBounded(c: State, k: Key, y: Sync, p: Pass, desired: set<BindKey>, keys: seq<BindKey>, i: nat, a: Answer)
    requires ClusterOk(c) && PruningOk(c, k, y, p, desired, keys, i)
    ensures Bounded(DoPrune(c, y, p, desired, keys, i, a).c, Target(y, p, desired))
  {
    BoundedAt(c, k, Prune(y, p, desired, keys, i));
    if i < |keys| && keys[i] !in desired && a.outcome != Refused {
      DeletionOwned(c, k, keys[i]);
      assert InPass(p, keys[i].scope) by { assert keys[i] in keys; }
      OneLess(c, DeleteBinding(c, keys[i]), Target(y, p, desired), keys[i]);
    }
  }

  lemma OneLess(c: State, c': State, t: Target, bk: BindKey)
    requires Bounded(c, t) && bk !in t.desired && InPass(t.pass, bk.scope)
    requires forall p :: Owned(c', t.sync.bind.uid, p) == Owned(c, t.sync.bind.uid, p) - {bk}
    ensures Bounded(c', t)
  {
    forall p | !InPass(p, bk.scope) ensures bk !in Owned(c, t.sync.bind.uid, p) {}
  }

  /** The CR of a running sync is there, with its finalizer, whatever the call does. */
  lemma CallHolds(c: State, k: Key, w: Worker, a: Answer)
    requires ClusterOk(c) && WorkerOk(c, k, w) && TargetOf(w).Some?
    ensures var c' := Work(c, k, w, a).c;
      k in c'.binds && FINALIZER in c'.binds[k].finalizers && c'.binds[k].uid == TargetOf(w).value.sync.bind.uid
  {
    OtherCallsKeepBinds(c, k, w, a);
  }

  lemma IdleStep(s: System, t: Step, k: Key)
    requires Inv(s) && CanStep(s, t) && Idle(t, k)
    ensures Untouched(s.c, DoStep(s, t).c, k)
  {
    match t
    case Outside(a) => ActKeeps(s.c, a);
    case Advance(l, a) => WorkKeeps(s.c, l, s.workers[l], a);
    case _ =>
  }

  lemma {:induction false} IdleOwned(s: System, others: seq<Step>, end: System, k: Key, uid: string)
    requires Inv(s) && Run(s, others) == Some(end) && forall t | t in others :: Idle(t, k)
    requires k in s.c.binds && FINALIZER in s.c.binds[k].finalizers && s.c.binds[k].uid == uid
    ensures k in end.c.binds && FINALIZER in end.c.binds[k].finalizers && end.c.binds[k].uid == uid
    ensures SameOwned(s.c, end.c, uid)
  {
    if others != [] {
      var t, before := others[|others| - 1], others[..|others| - 1];
      assert forall x | x in before :: x in others;
      var mid := Run(s, before).value;
      IdleOwned(s, before, mid, k, uid);
      RunKeeps(s, before);
      IdleStep(mid, t, k);
    }
  }

  // ----- What a sync ends with -----

  /** Of the roles of one kind that the cluster has, cluster-wide or not, exactly those whose annotation is the gid of a
      membership have their binding among `owned`, and `owned` has no other binding of that kind. */
  predicate Matched(c: State, b: Bind, owned: set<BindKey>, wide: bool) {
    && (forall r | r in c.roles && r.scope.WholeCluster? == wide ::
          BindKey(r.scope, "kargus-" + b.uid + "-" + r.name) in owned
          <==> exists m | m in b.spec.memberships :: c.roles[r].group == Some(m.gid))
    && (forall bk | bk in owned && bk.scope.WholeCluster? == wide ::
          exists r | r in c.roles :: bk == BindKey(r.scope, "kargus-" + b.uid + "-" + r.name))
  }

  /** The bindings that the cluster's roles call for right now: one for each role whose group is in the spec. */
  function WantedNow(c: State, b: Bind, p: Pass): set<BindKey> {
    set r | r in c.roles && InPass(p, r.scope) && GroupMatches(GroupsOf(b), c.roles[r].group) :: BindKeyOf(b.uid, r)
  }

  lemma MatchesMember(b: Bind, group: Option<string>)
    ensures GroupMatches(GroupsOf(b), group) <==> exists m | m in b.spec.memberships :: group == Some(m.gid)
  {
  }

  lemma NameOfBinding(uid: string, r: RoleKey)
    ensures BindKeyOf(uid, r) == BindKey(r.scope, "kargus-" + uid + "-" + r.name)
  {
  }

  lemma RoleOfName(uid: string, r: RoleKey, q: RoleKey)
    requires BindKeyOf(uid, r) == BindKeyOf(uid, q)
    ensures r == q
  {
    BindingNameInjective(uid, r.name, uid, q.name);
  }

  /** Being matched is owning what the roles call for. */
  lemma MatchedIsWanted(c: State, b: Bind, owned: set<BindKey>, p: Pass)
    ensures Matched(c, b, owned, p == ClusterPass) <==> OfPass(p, owned) == WantedNow(c, b, p)
  {
    var wanted := WantedNow(c, b, p);
    forall r: RoleKey { NameOfBinding(b.uid, r); }
    forall r | r in c.roles { MatchesMember(b, c.roles[r].group); }
    forall r | r in c.roles && InPass(p, r.scope)
      ensures BindKeyOf(b.uid, r) in wanted <==> exists m | m in b.spec.memberships :: c.roles[r].group == Some(m.gid)
    {
      if BindKeyOf(b.uid, r) in wanted {
        var q :|
          && q in c.roles && GroupMatches(GroupsOf(b), c.roles[q].group)
          && BindKeyOf(b.uid, q) == BindKeyOf(b.uid, r);
        RoleOfName(b.uid, r, q);
      }
    }
    if OfPass(p, owned) == wanted {
      WantedIsMatched(c, b, owned, p);
    }
    if Matched(c, b, owned, p == ClusterPass) {
      forall bk ensures bk in OfPass(p, owned) <==> bk in wanted {
        if bk in OfPass(p, owned) {
          var r :| r in c.roles && bk == BindKey(r.scope, "kargus-" + b.uid + "-" + r.name);
        }
      }
    }
  }

  lemma WantedIsMatched(c: State, b: Bind, owned: set<BindKey>, p: Pass)
    requires OfPass(p, owned) == WantedNow(c, b, p)
    requires forall r | r in c.roles && InPass(p, r.scope) ::
      BindKeyOf(b.uid, r) in WantedNow(c, b, p)
      <==> exists m | m in b.spec.memberships :: c.roles[r].group == Some(m.gid)
    ensures Matched(c, b, owned, p == ClusterPass)
  {
    forall r: RoleKey { NameOfBinding(b.uid, r); }
    forall r | r in c.roles && InPass(p, r.scope)
      ensures BindKeyOf(b.uid, r) in owned <==> BindKeyOf(b.uid, r) in WantedNow(c, b, p)
    {
      assert BindKeyOf(b.uid, r) in OfPass(p, owned) <==> BindKeyOf(b.uid, r) in owned;
    }
    forall bk | bk in owned && InPass(p, bk.scope)
      ensures exists r | r in c.roles :: bk == BindKey(r.scope, "kargus-" + b.uid + "-" + r.name)
    {
      assert bk in OfPass(p, owned);
      var r :| r in c.roles && bk == BindKeyOf(b.uid, r);
    }
  }

  /** Bindings wanted on a current list are one for each role whose annotation is the gid of a membership. */
  lemma ListedIsWanted(c: State, b: Bind, p: Pass, items: seq<Item>)
    requires IsRoleList(c, p, items)
    ensures Wanted(b.uid, GroupsOf(b), items) == WantedNow(c, b, p)
    ensures Matched(c, b, Wanted(b.uid, GroupsOf(b), items), p == ClusterPass)
  {
    forall r | r in c.roles && InPass(p, r.scope) && GroupMatches(GroupsOf(b), c.roles[r].group)
      ensures BindKeyOf(b.uid, r) in Wanted(b.uid, GroupsOf(b), items)
    {
      assert Item(r, c.roles[r].group) in items;
    }
    assert OfPass(p, WantedNow(c, b, p)) == WantedNow(c, b, p);
    MatchedIsWanted(c, b, WantedNow(c, b, p), p);
  }

  /** How many steps there are up to the last Start of a reconcile of `k`; 0 without one. */
  function SinceStart(steps: seq<Step>, k: Key): (n: nat)
    ensures n <= |steps|
  {
    if steps == [] then 0
    else if steps[|steps| - 1] == Start(k) then |steps|
    else SinceStart(steps[..|steps| - 1], k)
  }

  lemma {:induction false} SinceStartGrows(steps: seq<Step>, more: seq<Step>, k: Key)
    requires steps <= more
    ensures SinceStart(steps, k) <= SinceStart(more, k)
    decreases |more|
  {
    if |steps| == |more| {
      assert steps == more;
    } else if more[|more| - 1] != Start(k) {
      SinceStartGrows(steps, more[..|more| - 1], k);
    }
  }

  /** The run is at cluster `c` after its first `m` steps. */
  ghost predicate PassesAt(s0: System, steps: seq<Step>, m: nat, c: State) {
    m <= |steps| && Run(s0, steps[..m]).Some? && Run(s0, steps[..m]).value.c == c
  }

  /** ... after its first `from` steps or later. */
  ghost predicate Passes(s0: System, steps: seq<Step>, from: nat, c: State) {
    exists m :: from <= m && PassesAt(s0, steps, m, c)
  }

  /** The copy has the memberships of the CR as stored. */
  predicate IsCopy(c: State, k: Key, b: Bind) {
    && k in c.binds && c.binds[k].uid == b.uid && c.binds[k].src == b.src
    && c.binds[k].spec.memberships == b.spec.memberships
  }

  /** `b` has the memberships of the CR of `k` as it was stored then. */
  ghost predicate Read(s0: System, steps: seq<Step>, from: nat, k: Key, b: Bind) {
    exists c :: Passes(s0, steps, from, c) && IsCopy(c, k, b)
  }

  /** The roles called for these bindings then. */
  ghost predicate Listed(s0: System, steps: seq<Step>, from: nat, b: Bind, p: Pass, desired: set<BindKey>) {
    exists c :: Passes(s0, steps, from, c) && desired == WantedNow(c, b, p)
  }

  /** What a sync listed: the ClusterRoles at one point of the run, the Roles at another, for memberships that were
      stored at a third. */
  ghost predicate ListedFor(s0: System, steps: seq<Step>, from: nat, k: Key, b: Bind, owned: set<BindKey>) {
    && Read(s0, steps, from, k, b)
    && exists crs, rs ::
      && Listed(s0, steps, from, b, ClusterPass, crs) && Listed(s0, steps, from, b, NamespacePass, rs)
      && owned == crs + rs
  }

  /** At some point of the run, exactly the matching roles of one kind have their binding in `owned`. */
  ghost predicate MatchedThen(s0: System, steps: seq<Step>, from: nat, b: Bind, owned: set<BindKey>, wide: bool) {
    exists c :: Passes(s0, steps, from, c) && Matched(c, b, owned, wide)
  }

  /** The bindings are exactly those of the roles whose annotation is the gid of a membership: of the ClusterRoles at
      one point of the run, of the Roles at another, for memberships that were stored at a third. */
  ghost predicate TiedTo(s0: System, steps: seq<Step>, from: nat, k: Key, b: Bind, owned: set<BindKey>) {
    && Read(s0, steps, from, k, b)
    && MatchedThen(s0, steps, from, b, owned, true) && MatchedThen(s0, steps, from, b, owned, false)
  }

  lemma ListedTies(s0: System, steps: seq<Step>, from: nat, k: Key, b: Bind, owned: set<BindKey>)
    requires ListedFor(s0, steps, from, k, b, owned)
    ensures TiedTo(s0, steps, from, k, b, owned)
  {
    var crs, rs :|
      && Listed(s0, steps, from, b, ClusterPass, crs) && Listed(s0, steps, from, b, NamespacePass, rs)
      && owned == crs + rs;
    ListedOfPass(s0, steps, from, b, ClusterPass, crs);
    ListedOfPass(s0, steps, from, b, NamespacePass, rs);
    assert OfPass(ClusterPass, owned) == crs && OfPass(NamespacePass, owned) == rs;
    ListedMatches(s0, steps, from, b, owned, ClusterPass);
    ListedMatches(s0, steps, from, b, owned, NamespacePass);
  }

  lemma ListedOfPass(s0: System, steps: seq<Step>, from: nat, b: Bind, p: Pass, desired: set<BindKey>)
    requires Listed(s0, steps, from, b, p, desired)
    ensures forall bk | bk in desired :: InPass(p, bk.scope)
  {
  }

  lemma ListedMatches(s0: System, steps: seq<Step>, from: nat, b: Bind, owned: set<BindKey>, p: Pass)
    requires Listed(s0, steps, from, b, p, OfPass(p, owned))
    ensures MatchedThen(s0, steps, from, b, owned, p == ClusterPass)
  {
    var c :| Passes(s0, steps, from, c) && OfPass(p, owned) == WantedNow(c, b, p);
    MatchedIsWanted(c, b, owned, p);
  }

  lemma PassesLater(s0: System, steps: seq<Step>, from: nat, more: seq<Step>, from': nat, c: State)
    requires Passes(s0, steps, from, c) && steps <= more && from' <= from
    ensures Passes(s0, more, from', c)
  {
    var m :| from <= m && PassesAt(s0, steps, m, c);
    assert more[..m] == steps[..m];
    assert PassesAt(s0, more, m, c);
  }

  lemma ReadLater(s0: System, steps: seq<Step>, from: nat, more: seq<Step>, from': nat, k: Key, b: Bind)
    requires Read(s0, steps, from, k, b) && steps <= more && from' <= from
    ensures Read(s0, more, from', k, b)
  {
    var c :| Passes(s0, steps, from, c) && IsCopy(c, k, b);
    PassesLater(s0, steps, from, more, from', c);
  }

  lemma ListedLater(s0: System, steps: seq<Step>, from: nat, more: seq<Step>, from': nat, b: Bind, p: Pass,
                    desired: set<BindKey>)
    requires Listed(s0, steps, from, b, p, desired) && steps <= more && from' <= from
    ensures Listed(s0, more, from', b, p, desired)
  {
    var c :| Passes(s0, steps, from, c) && desired == WantedNow(c, b, p);
    PassesLater(s0, steps, from, more, from', c);
  }

  lemma ListedForLater(s0: System, steps: seq<Step>, from: nat, more: seq<Step>, k: Key, b: Bind, owned: set<BindKey>)
    requires ListedFor(s0, steps, from, k, b, owned) && steps <= more
    ensures ListedFor(s0, more, from, k, b, owned)
  {
    var crs, rs :|
      && Listed(s0, steps, from, b, ClusterPass, crs) && Listed(s0, steps, from, b, NamespacePass, rs)
      && owned == crs + rs;
    ReadLater(s0, steps, from, more, from, k, b);
    ListedLater(s0, steps, from, more, from, b, ClusterPass, crs);
    ListedLater(s0, steps, from, more, from, b, NamespacePass, rs);
  }

  lemma MatchedLater(s0: System, steps: seq<Step>, from: nat, more: seq<Step>, from': nat, b: Bind,
                     owned: set<BindKey>, wide: bool)
    requires MatchedThen(s0, steps, from, b, owned, wide) && steps <= more && from' <= from
    ensures MatchedThen(s0, more, from', b, owned, wide)
  {
    var c :| Passes(s0, steps, from, c) && Matched(c, b, owned, wide);
    PassesLater(s0, steps, from, more, from', c);
  }

  lemma TiedLater(s0: System, steps: seq<Step>, from: nat, more: seq<Step>, from': nat, k: Key, b: Bind,
                  owned: set<BindKey>)
    requires TiedTo(s0, steps, from, k, b, owned) && steps <= more && from' <= from
    ensures TiedTo(s0, more, from', k, b, owned)
  {
    ReadLater(s0, steps, from, more, from', k, b);
    MatchedLater(s0, steps, from, more, from', b, owned, true);
    MatchedLater(s0, steps, from, more, from', b, owned, false);
  }

  lemma PassesNow(s0: System, steps: seq<Step>, s: System, from: nat)
    requires Run(s0, steps) == Some(s) && from <= |steps|
    ensures Passes(s0, steps, from, s.c)
  {
    assert steps[..|steps|] == steps;
    assert PassesAt(s0, steps, |steps|, s.c);
  }

  /** What a reconcile carries with it was read, and listed, since its Start. */
  ghost predicate Traced(s0: System, steps: seq<Step>, k: Key, w: Worker) {
    var from := SinceStart(steps, k);
    match w
    case Judge(b, _) => Read(s0, steps, from, k, b)
    case EnsureAccount(b, _) => Read(s0, steps, from, k, b)
    case MarkBinding(b, _, _) => Read(s0, steps, from, k, b)
    case ListRoles(y, p) => Traces(s0, steps, from, k, y, p)
    case CreateBindings(y, p, items, _) =>
      Traces(s0, steps, from, k, y, p)
          && Listed(s0, steps, from, y.bind, p, Wanted(y.bind.uid, GroupsOf(y.bind), items))
    case ListBindings(y, p, desired) => Traces(s0, steps, from, k, y, p) && Listed(s0, steps, from, y.bind, p, desired)
    case Prune(y, p, desired, _, _) => Traces(s0, steps, from, k, y, p) && Listed(s0, steps, from, y.bind, p, desired)
    case MarkBinded(y) => ListedFor(s0, steps, from, k, y.bind, y.wanted)
    case _ => true
  }

  ghost predicate Traces(s0: System, steps: seq<Step>, from: nat, k: Key, y: Sync, p: Pass) {
    Read(s0, steps, from, k, y.bind) && (p == NamespacePass ==> Listed(s0, steps, from, y.bind, ClusterPass, y.wanted))
  }

  lemma TracesLater(s0: System, steps: seq<Step>, from: nat, more: seq<Step>, k: Key, y: Sync, p: Pass)
    requires Traces(s0, steps, from, k, y, p) && steps <= more
    ensures Traces(s0, more, from, k, y, p)
  {
    ReadLater(s0, steps, from, more, from, k, y.bind);
    if p == NamespacePass { ListedLater(s0, steps, from, more, from, y.bind, ClusterPass, y.wanted); }
  }

  lemma TracedLater(s0: System, steps: seq<Step>, t: Step, k: Key, w: Worker)
    requires Traced(s0, steps, k, w) && t != Start(k)
    ensures Traced(s0, steps + [t], k, w)
  {
    var more, from := steps + [t], SinceStart(steps, k);
    assert more[..|more| - 1] == steps;
    assert SinceStart(more, k) == from;
    match w
    case Judge(b, _) => ReadLater(s0, steps, from, more, from, k, b);
    case EnsureAccount(b, _) => ReadLater(s0, steps, from, more, from, k, b);
    case MarkBinding(b, _, _) => ReadLater(s0, steps, from, more, from, k, b);
    case ListRoles(y, p) => TracesLater(s0, steps, from, more, k, y, p);
    case CreateBindings(y, p, items, _) =>
      TracesLater(s0, steps, from, more, k, y, p);
      ListedLater(s0, steps, from, more, from, y.bind, p, Wanted(y.bind.uid, GroupsOf(y.bind), items));
    case ListBindings(y, p, desired) =>
      TracesLater(s0, steps, from, more, k, y, p);
      ListedLater(s0, steps, from, more, from, y.bind, p, desired);
    case Prune(y, p, desired, _, _) =>
      TracesLater(s0, steps, from, more, k, y, p);
      ListedLater(s0, steps, from, more, from, y.bind, p, desired);
    case MarkBinded(y) => ListedForLater(s0, steps, from, more, k, y.bind, y.wanted);
    case _ =>
  }

  /** A call of the reconcile itself, in terms of the run that ends before it: what the next worker carries is what this
      one carries, or what the call read. */
  lemma CallTraced(s0: System, steps: seq<Step>, s: System, k: Key, a: Answer)
    requires Run(s0, steps) == Some(s) && CanStep(s, Advance(k, a)) && Traced(s0, steps, k, s.workers[k])
    requires !s.workers[k].MarkBinding?
    ensures var n := Work(s.c, k, s.workers[k], a); n.More? ==> Traced(s0, steps, k, n.worker)
  {
    var w := s.workers[k];
    if w.ListRoles? || w.CreateBindings? || w.ListBindings? || w.Prune? {
      SyncTraced(s0, steps, s, k, a);
    } else {
      EarlyTraced(s0, steps, s, k, a);
    }
  }

  /** The calls of a sync. */
  lemma SyncTraced(s0: System, steps: seq<Step>, s: System, k: Key, a: Answer)
    requires Run(s0, steps) == Some(s) && CanStep(s, Advance(k, a)) && Traced(s0, steps, k, s.workers[k])
    requires var w := s.workers[k]; w.ListRoles? || w.CreateBindings? || w.ListBindings? || w.Prune?
    ensures var n := Work(s.c, k, s.workers[k], a); n.More? ==> Traced(s0, steps, k, n.worker)
  {
    PassesNow(s0, steps, s, SinceStart(steps, k));
    match s.workers[k]
    case ListRoles(y, p) => if a.outcome == Ok { ListedIsWanted(s.c, y.bind, p, a.items); }
    case CreateBindings(y, p, items, i) => CreateTraced(s0, steps, s.c, k, y, p, items, i, a);
    case ListBindings(_, _, _) =>
    case Prune(y, p, desired, keys, i) => PruneTraced(s0, steps, s.c, k, y, p, desired, keys, i, a);
  }

  /** Every other call: the ones before a sync, and those of a reconcile that does not sync. */
  lemma EarlyTraced(s0: System, steps: seq<Step>, s: System, k: Key, a: Answer)
    requires Run(s0, steps) == Some(s) && CanStep(s, Advance(k, a)) && Traced(s0, steps, k, s.workers[k])
    requires var w := s.workers[k];
      !w.MarkBinding? && !w.ListRoles? && !w.CreateBindings? && !w.ListBindings? && !w.Prune?
    ensures var n := Work(s.c, k, s.workers[k], a); n.More? ==> Traced(s0, steps, k, n.worker)
  {
    match s.workers[k]
    case Fetch => PassesNow(s0, steps, s, SinceStart(steps, k));
    case DeleteOwned(_, _, _, _, _) =>
    case EnsureAccount(_, _) =>
    case _ =>
  }

  lemma CreateTraced(s0: System, steps: seq<Step>, c: State, k: Key, y: Sync, p: Pass, items: seq<Item>, i: nat,
                     a: Answer)
    requires Traced(s0, steps, k, CreateBindings(y, p, items, i))
    ensures var n := DoCreateBindings(c, k, y, p, items, i, a); n.More? ==> Traced(s0, steps, k, n.worker)
  {
  }

  lemma PruneTraced(s0: System, steps: seq<Step>, c: State, k: Key, y: Sync, p: Pass, desired: set<BindKey>,
                    keys: seq<BindKey>, i: nat, a: Answer)
    requires Traced(s0, steps, k, Prune(y, p, desired, keys, i))
    ensures var n := DoPrune(c, y, p, desired, keys, i, a); n.More? ==> Traced(s0, steps, k, n.worker)
  {
  }

  /** After the `binding` write the reconcile goes on with the CR as it is stored then, or with the memberships that it
      had when none are stored. */
  lemma BindingTraced(s0: System, steps: seq<Step>, s: System, k: Key, a: Answer)
    requires Run(s0, steps) == Some(s) && CanStep(s, Advance(k, a)) && s.workers[k].MarkBinding?
    requires Traced(s0, steps, k, s.workers[k]) && WorkerOk(s.c, k, s.workers[k])
    ensures var n := Work(s.c, k, s.workers[k], a); n.More? ==> Traced(s0, steps + [Advance(k, a)], k, n.worker)
  {
    var more, b := steps + [Advance(k, a)], s.workers[k].bind;
    RunExtends(s0, steps, Advance(k, a));
    TracedLater(s0, steps, Advance(k, a), k, s.workers[k]);
    if Lands(s.c, k, a) && a.outcome == Ok {
      BindingReads(s.c, k, b, s.workers[k].account, s.workers[k].expiry, a);
      var y := Work(s.c, k, s.workers[k], a).worker.sync;
      PassesNow(s0, more, DoStep(s, Advance(k, a)), SinceStart(more, k));
      if y.bind.src == b.src && y.bind.spec.memberships == b.spec.memberships {
        ReadAlike(s0, more, SinceStart(more, k), k, b, y.bind);
      }
    }
  }

  lemma ReadAlike(s0: System, steps: seq<Step>, from: nat, k: Key, b: Bind, b': Bind)
    requires Read(s0, steps, from, k, b)
    requires b'.uid == b.uid && b'.src == b.src && b'.spec.memberships == b.spec.memberships
    ensures Read(s0, steps, from, k, b')
  {
    var c :| Passes(s0, steps, from, c) && IsCopy(c, k, b);
    assert IsCopy(c, k, b');
  }

  lemma BindingReads(c: State, k: Key, b: Bind, account: Account, e: int, a: Answer)
    requires Lands(c, k, a) && a.outcome == Ok && c.binds[k].uid == b.uid
    ensures var n := DoMarkBinding(c, k, b, account, e, a);
      && n.More? && n.worker.ListRoles? && n.worker.pass == ClusterPass && n.worker.sync.bind.uid == b.uid
      && (IsCopy(n.c, k, n.worker.sync.bind)
          || (n.worker.sync.bind.src == b.src && n.worker.sync.bind.spec.memberships == b.spec.memberships))
  {
    PatchedStatus(c, k, b.status, BindingStatus(b.status, account.uid, c.now));
  }

  lemma StepTraced(s0: System, steps: seq<Step>, s: System, t: Step, k: Key)
    requires Run(s0, steps) == Some(s) && CanStep(s, t) && k in DoStep(s, t).workers && t != Start(k)
    requires k in s.workers ==> Traced(s0, steps, k, s.workers[k]) && WorkerOk(s.c, k, s.workers[k])
    ensures Traced(s0, steps + [t], k, DoStep(s, t).workers[k])
  {
    if t.Advance? && t.key == k {
      if s.workers[k].MarkBinding? {
        BindingTraced(s0, steps, s, k, t.answer);
      } else {
        CallTraced(s0, steps, s, k, t.answer);
        TracedLater(s0, steps, t, k, Work(s.c, k, s.workers[k], t.answer).worker);
      }
    } else {
      TracedLater(s0, steps, t, k, s.workers[k]);
    }
  }

  lemma WorkerHolds(s0: System, steps: seq<Step>, s: System, k: Key)
    requires Inv(s0) && Run(s0, steps) == Some(s) && k in s.workers
    ensures WorkerOk(s.c, k, s.workers[k])
  {
    RunKeeps(s0, steps);
  }

  lemma {:induction false} RunTraced(s0: System, steps: seq<Step>, s: System, k: Key)
    requires Inv(s0) && Run(s0, steps) == Some(s) && SinceStart(steps, k) > 0 && k in s.workers
    ensures Traced(s0, steps, k, s.workers[k])
  {
    var t, before := steps[|steps| - 1], steps[..|steps| - 1];
    if t != Start(k) {
      var mid := Run(s0, before).value;
      if k in mid.workers {
        RunTraced(s0, before, mid, k);
        WorkerHolds(s0, before, mid, k);
      }
      StepTraced(s0, before, mid, t, k);
      assert before + [t] == steps;
    }
  }

  /** A worker that is there was started. */
  lemma {:induction false} WasStarted(s0: System, steps: seq<Step>, s: System, k: Key)
    requires s0.workers == map[] && Run(s0, steps) == Some(s) && k in s.workers
    ensures SinceStart(steps, k) > 0
  {
    if steps[|steps| - 1] != Start(k) { WasStarted(s0, steps[..|steps| - 1], Run(s0, steps[..|steps| - 1]).value, k); }
  }

  /** A sync that has gone through, whether or not `binded` is still to be written. */
  function SyncedBy(w: Worker): Option<Sync> {
    match w
    case MarkBinded(y) => Some(y)
    case Prune(y, p, desired, keys, i) =>
      if p == NamespacePass && i >= |keys| then Some(y.(wanted := y.wanted + desired)) else None
    case _ => None
  }

  /** A sync that has gone through leaves exactly one binding for each role that, when the reconcile listed the roles,
      matched memberships that the CR was stored with after the reconcile's Start: the binding that the role's name
      says, of that role, for the account named after the CR. */
  lemma SyncExact(s0: System, steps: seq<Step>, s: System, k: Key)
    requires Reached(s0, steps, s) && k in s.workers && SyncedBy(s.workers[k]).Some?
    ensures var b := SyncedBy(s.workers[k]).value.bind;
      && TiedTo(s0, steps, SinceStart(steps, k), k, b, OwnedAll(s.c, b.uid))
      && forall bk | bk in OwnedAll(s.c, b.uid) :: IsBindingOf(s.c, bk, b.uid, k)
  {
    var y := SyncedBy(s.workers[k]).value;
    InitialInv(s0);
    WasStarted(s0, steps, s, k);
    RunTraced(s0, steps, s, k);
    SyncedListed(s0, steps, k, s.workers[k]);
    SyncOwnsWanted(s0, steps, s, k);
    forall bk | bk in OwnedAll(s.c, y.bind.uid) ensures IsBindingOf(s.c, bk, y.bind.uid, k) {
      OwnBinding(s0, steps, s, k, y.bind.uid, bk);
    }
  }

  predicate IsBindingOf(c: State, bk: BindKey, uid: string, k: Key) {
    && bk in c.bindings && c.bindings[bk].owner == Some(uid) && c.bindings[bk].subject == k
    && var r := c.bindings[bk].role;
    bk == BindKey(r.scope, "kargus-" + uid + "-" + r.name)
  }

  lemma SyncedListed(s0: System, steps: seq<Step>, k: Key, w: Worker)
    requires Traced(s0, steps, k, w) && SyncedBy(w).Some?
    ensures var y := SyncedBy(w).value; TiedTo(s0, steps, SinceStart(steps, k), k, y.bind, y.wanted)
  {
    var y := SyncedBy(w).value;
    ListedTies(s0, steps, SinceStart(steps, k), k, y.bind, y.wanted);
  }

  lemma SyncOwnsWanted(s0: System, steps: seq<Step>, s: System, k: Key)
    requires Reached(s0, steps, s) && k in s.workers && SyncedBy(s.workers[k]).Some?
    ensures var y := SyncedBy(s.workers[k]).value;
      && OwnedAll(s.c, y.bind.uid) == y.wanted && k in s.c.binds && s.c.binds[k].uid == y.bind.uid
  {
    ReachedInv(s0, steps, s);
    assert WorkerOk(s.c, k, s.workers[k]);
    match s.workers[k]
    case Prune(y, p, desired, keys, i) => PruningEnds(s.c, k, y, p, desired, keys);
    case _ =>
  }

  lemma OwnBinding(s0: System, steps: seq<Step>, s: System, k: Key, uid: string, bk: BindKey)
    requires Reached(s0, steps, s) && k in s.c.binds && s.c.binds[k].uid == uid && bk in OwnedAll(s.c, uid)
    ensures IsBindingOf(s.c, bk, uid, k)
  {
    ReachedInv(s0, steps, s);
    assert BindingOk(s.c, bk, s.c.bindings[bk]);
    var l := s.c.bindings[bk].subject;
    assert BindOk(s.c, k, s.c.binds[k]) && BindOk(s.c, l, s.c.binds[l]);
  }
}
