/**
 The operator's code in its own form: Reconcile, deleteOwned, syncBindings and updatePhase with their loops and
 local variables, over a cluster that everybody else may change before each call. Every call it makes is a step
 of the machine in module Operator, so whatever holds of all runs of that machine holds of this code.
 */
module Reconciliation {
  import opened Base
  import opened Naming
  import opened StatusPatch
  import opened Cluster
  import opened Operator
  import opened OperatorInvariant
  import opened OperatorTheorems
  import opened SyncTheorems
  import opened Settling

  /** The key under which syncBindings remembers a wanted binding. */
  function KeyText(bk: BindKey): string {
    match bk.scope
    case WholeCluster => bk.name
    case Within(ns) => SlashKey(ns, bk.name)
  }

  lemma KeyTextInjective(p: Pass, x: BindKey, y: BindKey)
    requires InPass(p, x.scope) && InPass(p, y.scope) && ScopeOk(x.scope) && ScopeOk(y.scope)
    requires KeyText(x) == KeyText(y)
    ensures x == y
  {
    if x.scope.Within? { SlashKeyInjective(x.scope.ns, x.name, y.scope.ns, y.name); }
  }

  /** The steps that others take while the reconcile of `k` waits. */
  predicate Foreign(t: Step, k: Key) {
    t.Outside? || t.key != k
  }

  /** A CR that has its finalizer, and no phase yet. */
  predicate IsNew(b: Bind) {
    !b.deleting && FINALIZER in b.finalizers && b.status.phase == NoPhase
  }

  /** A CR whose TTL a reconcile finds unparsable. */
  predicate IsInvalid(b: Bind) {
    !b.deleting && FINALIZER in b.finalizers && b.status.phase != NoPhase && b.spec.ttl.Unparsable?
  }

  predicate IsPending(c: State, k: Key) {
    k in c.binds && Says(c.binds[k].status, Pending, Unknown, "Accepted", Text("Bind accepted, pending sync"))
  }

  predicate IsRejected(c: State, k: Key, b: Bind)
    requires b.spec.ttl.Unparsable?
  {
    k in c.binds && Says(c.binds[k].status, StatusPatch.Failed, False, "InvalidTTL", Text(b.spec.ttl.text))
  }

  predicate IsUnbound(c: State, k: Key) {
    k in c.binds && Says(c.binds[k].status, StatusPatch.Unbound, False, "Expired", Text("TTL elapsed"))
  }

  class Reconciler {
    var sys: System

    // the UID that the account of a CR gets when it is created while nobody else touches the CR
    const spare: string

    // the run so far
    ghost const origin: System
    ghost var steps: seq<Step>

    ghost predicate Valid()
      reads this
    {
      Inv(origin) && Leads(origin, steps, sys)
    }

    /** The invariant holds now, and the reconcile of `k` is where it should be. */
    lemma Knows(k: Key)
      requires Valid() && k in sys.workers
      ensures ClusterOk(sys.c) && WorkerOk(sys.c, k, sys.workers[k])
    {
      LeadsIs(origin, steps, sys);
      RunKeeps(origin, steps);
    }

    /** What was owned is tied to what the roles called for and to what was stored, since the reconcile was started. */
    ghost predicate Ties(was: seq<Step>, k: Key, b: Bind, owned: set<BindKey>)
      reads this
    {
      SinceStart(was, k) > 0 ==> TiedTo(origin, steps, SinceStart(was, k), k, b, owned)
    }

    lemma SyncTies(was: seq<Step>, k: Key, s: Sync, crs: seq<Item>, rs: seq<Item>, keys: seq<BindKey>)
      requires Valid() && Running(k, Synced(s, crs, rs, keys)) && was <= steps
      ensures Ties(was, k, s.bind, Finished(s, crs, rs).wanted)
    {
      SinceStartGrows(was, steps, k);
      if SinceStart(was, k) > 0 {
        LeadsIs(origin, steps, sys);
        RunTraced(origin, steps, sys, k);
        var from := SinceStart(steps, k);
        SyncedListed(origin, steps, k, sys.workers[k]);
        TiedLater(origin, steps, from, steps, SinceStart(was, k), k, s.bind, Finished(s, crs, rs).wanted);
      }
    }

    predicate Running(k: Key, w: Worker)
      reads this
    {
      k in sys.workers && sys.workers[k] == w
    }

    constructor (s: System, uid: string)
      requires Inv(s)
      ensures Valid() && sys == s && origin == s && spare == uid
    {
      sys, origin, steps, spare := s, s, [], uid;
    }

    method Take(t: Step)
      requires Valid() && CanStep(sys, t)
      modifies this
      ensures Valid() && sys == DoStep(old(sys), t) && steps == old(steps) + [t]
    {
      LeadsIs(origin, steps, sys);
      RunExtends(origin, steps, t);
      sys := DoStep(sys, t);
      steps := steps + [t];
      LeadsIs(origin, steps, sys);
    }

    /** Any number of steps of everybody else; when the CR is to be left alone, of those that do not touch what its
        reconciles depend on, the clock before the expiry. */
    method Others(k: Key, m: Mode)
      requires Valid() && (m.Calm? ==> Ready(sys.c, k, spare))
      modifies this
      ensures Valid() && old(steps) <= steps && old(sys.c.now) <= sys.c.now
      ensures k in sys.workers <==> k in old(sys).workers
      ensures k in sys.workers ==> sys.workers[k] == old(sys).workers[k]
      ensures m.Calm? ==> Rests(old(sys.c), sys.c, k, spare)
    {
      var n :| 0 <= n;
      for i := 0 to n
        invariant Valid() && old(steps) <= steps && old(sys.c.now) <= sys.c.now
        invariant k in sys.workers <==> k in old(sys).workers
        invariant k in sys.workers ==> sys.workers[k] == old(sys).workers[k]
        invariant m.Calm? ==> Rests(old(sys.c), sys.c, k, spare)
      {
        var t: Step := *;
        if CanStep(sys, t) && Foreign(t, k) && (m.Calm? ==> Quiet(sys.c, t, k, spare)) {
          ForeignStep(sys, t, k);
          if m.Calm? { StaysAtRest(t, k); }
          Take(t);
        }
      }
    }

    lemma StaysAtRest(t: Step, k: Key)
      requires Valid() && CanStep(sys, t) && Ready(sys.c, k, spare) && Quiet(sys.c, t, k, spare)
      ensures Rests(sys.c, DoStep(sys, t).c, k, spare)
    {
      LeadsIs(origin, steps, sys);
      RunKeeps(origin, steps);
      QuietRests(sys, t, k, spare);
    }

    // ----- Calls -----

    /** The answer to the next call of the reconcile of `k`, after everybody else had a turn. */
    method Respond(k: Key, m: Mode) returns (a: Answer)
      requires Valid() && k in sys.workers && (m.Calm? ==> Ready(sys.c, k, spare))
      modifies this
      ensures Valid() && old(steps) <= steps && Running(k, old(sys.workers[k])) && old(sys.c.now) <= sys.c.now
      ensures Answers(sys.c, k, sys.workers[k], a)
      ensures m.Calm? ==> Rests(old(sys.c), sys.c, k, spare) && a.outcome == Ok && a.uid == spare
      ensures !m.Anything? && !sys.workers[k].EnsureAccount? ==> a.outcome == Ok
    {
      Others(k, m);
      var w := sys.workers[k];
      var items, keys := [], [];
      match w {
        case ListRoles(_, p) => items := RolesOfPass(sys.c, p);
        case ListOwned(b, _, p) => keys := KeysOf(Owned(sys.c, b.uid, p));
        case ListBindings(y, p, _) => keys := KeysOf(Owned(sys.c, y.bind.uid, p));
        case _ =>
      }
      var outcome: Outcome := *;
      var message: string := *;
      var uid: string := *;
      if m.Calm? {
        outcome, uid := Ok, spare;
      } else if w.EnsureAccount? && (uid in sys.c.uids || |uid| != UID_LENGTH) {
        outcome := Refused;
      } else if m.Lucky? {
        outcome := Ok;
      }
      a := Answer(outcome, message, items, keys, uid);
      if m.Calm? && w.EnsureAccount? { HasAccount(k); }
    }

    lemma HasAccount(k: Key)
      requires Valid() && k in sys.workers && sys.workers[k].EnsureAccount? && Ready(sys.c, k, spare)
      ensures SubjectOf(k, sys.workers[k].bind) == SubjectOf(k, sys.c.binds[k])
    {
      Knows(k);
      assert BindOk(sys.c, k, sys.c.binds[k]);
    }

    /** One call: the machine takes the step, and the code learns the answer. */
    method Call(k: Key, m: Mode) returns (a: Answer, n: Next, at: State)
      requires Valid() && k in sys.workers && (m.Calm? ==> Ready(sys.c, k, spare))
      modifies this
      ensures Valid() && old(steps) <= steps && old(sys.c.now) <= at.now == sys.c.now
      ensures Answers(at, k, old(sys.workers[k]), a)
      ensures n == Work(at, k, old(sys.workers[k]), a) && Reaches(k, n)
      ensures m.Calm? ==> Rests(old(sys.c), at, k, spare) && a.outcome == Ok && a.uid == spare
      ensures !m.Anything? && !old(sys.workers[k]).EnsureAccount? ==> a.outcome == Ok
    {
      a := Respond(k, m);
      at := sys.c;
      n := Work(sys.c, k, sys.workers[k], a);
      WorkTime(sys.c, k, sys.workers[k], a);
      Take(Advance(k, a));
    }

    /** The reconcile of `k` has just taken the step `n`. */
    predicate Reaches(k: Key, n: Next)
      reads this
    {
      sys.c == n.c && if n.More? then Running(k, n.worker) else k !in sys.workers
    }

    // ----- deleteOwned -----

    /** List what carries the label. */
    method ListOwned(k: Key, b: Bind, goal: Goal, p: Pass, m: Mode) returns (err: bool, keys: seq<BindKey>)
      requires Valid() && Running(k, Worker.ListOwned(b, goal, p))
      modifies this
      ensures Valid() && old(steps) <= steps && old(sys.c.now) <= sys.c.now
      ensures if err then k !in sys.workers else Running(k, Worker.DeleteOwned(b, goal, p, keys, 0))
      ensures !m.Anything? ==> !err
    {
      var a, _, _ := Call(k, Own(m));
      err, keys := a.outcome != Ok, a.keys;
    }

    /** Delete the next binding of the list, or leave the loop. */
    method DeleteNext(k: Key, b: Bind, goal: Goal, p: Pass, keys: seq<BindKey>, i: nat, m: Mode) returns (err: bool)
      requires Valid() && Running(k, Worker.DeleteOwned(b, goal, p, keys, i)) && i <= |keys|
      modifies this
      ensures Valid() && old(steps) <= steps && old(sys.c.now) <= sys.c.now
      ensures if err then i < |keys| && k !in sys.workers
              else if i < |keys| then Running(k, Worker.DeleteOwned(b, goal, p, keys, i + 1))
              else if p == ClusterPass then Running(k, Worker.ListOwned(b, goal, NamespacePass))
              else Running(k, if goal == ToUnbind then MarkUnbound(b) else DropFinalizer(b))
      ensures !m.Anything? ==> !err
    {
      var a, _, _ := Call(k, Own(m));
      err := i < |keys| && a.outcome != Ok;
    }

    /** One kind of binding: list what carries the label, delete each. */
    method DeletePass(k: Key, b: Bind, goal: Goal, p: Pass, m: Mode) returns (err: bool)
      requires Valid() && Running(k, Worker.ListOwned(b, goal, p))
      modifies this
      ensures Valid() && old(steps) <= steps && old(sys.c.now) <= sys.c.now
      ensures err ==> k !in sys.workers
      ensures !err && p == ClusterPass ==> Running(k, Worker.ListOwned(b, goal, NamespacePass))
      ensures !err && p == NamespacePass ==> Running(k, if goal == ToUnbind then MarkUnbound(b) else DropFinalizer(b))
      ensures !m.Anything? ==> !err
    {
      var keys;
      err, keys := ListOwned(k, b, goal, p, m);
      if err { return; }
      var i := 0;
      while i < |keys|
        invariant i <= |keys|
        invariant Valid() && old(steps) <= steps && old(sys.c.now) <= sys.c.now
        invariant Running(k, Worker.DeleteOwned(b, goal, p, keys, i))
      {
        err := DeleteNext(k, b, goal, p, keys, i, m);
        if err { return; }
        i := i + 1;
      }
      err := DeleteNext(k, b, goal, p, keys, i, m);
    }

    lemma OwnsNothing(k: Key, b: Bind)
      requires Valid() && (Running(k, MarkUnbound(b)) || Running(k, DropFinalizer(b)))
      ensures OwnedAll(sys.c, b.uid) == {}
    {
      Knows(k);
    }

    /** A sync that has gone through left exactly the wanted bindings. */
    lemma SyncOwns(k: Key, s: Sync, crs: seq<Item>, rs: seq<Item>, keys: seq<BindKey>)
      requires Valid() && Running(k, Synced(s, crs, rs, keys))
      ensures OwnsWanted(sys.c, s, crs, rs)
    {
      Knows(k);
      SyncedIs(sys.c, k, s, crs, rs, keys);
    }

    /** The keys of a prune loop are of its pass. */
    lemma PruneScopes(k: Key, p: Pass, keys: seq<BindKey>)
      requires Valid() && k in sys.workers && sys.workers[k].Prune?
      requires sys.workers[k].pass == p && sys.workers[k].keys == keys
      ensures AllOf(p, KeySet(keys))
    {
      Knows(k);
    }

    /** deleteOwned: every ClusterRoleBinding, then every RoleBinding, labelled with the CR. */
    method DeleteOwned(k: Key, b: Bind, goal: Goal, m: Mode) returns (err: bool)
      requires Valid() && Running(k, Worker.ListOwned(b, goal, ClusterPass))
      modifies this
      ensures Valid() && old(steps) <= steps && old(sys.c.now) <= sys.c.now
      ensures err ==> k !in sys.workers
      ensures !err ==>
        Running(k, if goal == ToUnbind then MarkUnbound(b) else DropFinalizer(b)) && OwnedAll(sys.c, b.uid) == {}
      ensures !m.Anything? ==> !err
    {
      err := DeletePass(k, b, goal, ClusterPass, m);
      if !err {
        err := DeletePass(k, b, goal, NamespacePass, m);
        if !err { OwnsNothing(k, b); }
      }
    }

    // ----- syncBindings -----

    /** The group set of a spec. */
    method CollectGroups(ms: seq<Membership>) returns (groups: set<string>)
      ensures groups == Gids(ms)
    {
      groups := {};
      for i := 0 to |ms|
        invariant groups == Gids(ms[..i])
      {
        assert ms[..i + 1] == ms[..i] + [ms[i]];
        groups := groups + {ms[i].gid};
      }
      assert ms[..|ms|] == ms;
    }

    /** Create the binding of the next role of the list, or pass it over. An existing binding is left as it is. */
    method CreateNext(k: Key, s: Sync, p: Pass, items: seq<Item>, i: nat, wanted: bool, m: Mode, ghost began: State,
                      ghost still: bool)
      returns (err: bool)
      requires Valid() && Running(k, CreateBindings(s, p, items, i)) && i < |items|
      requires wanted == GroupMatches(GroupsOf(s.bind), items[i].group)
      requires Tidies(m, began, sys.c, k, spare, still)
      requires m.Calm? && still && wanted ==> BindKeyOf(s.bind.uid, items[i].role) in View(began, k).bindings
      modifies this
      ensures Valid() && old(steps) <= steps && old(sys.c.now) <= sys.c.now
      ensures if err then Failing(k, s) else Running(k, CreateBindings(s, p, items, i + 1))
      ensures !m.Anything? ==> !err
      ensures Tidies(m, began, sys.c, k, spare, still)
    {
      var a, _, at := Call(k, m);
      err := wanted && a.outcome != Ok;
      LoopsKeepBinds(at, k, CreateBindings(s, p, items, i), a);
      if m.Calm? { TidiesNext(m, began, old(sys.c), at, sys.c, k, spare, still); }
    }

    /** One turn of the create loop. */
    method CreateItem(k: Key, s: Sync, p: Pass, items: seq<Item>, i: nat, groups: set<string>, desired: set<string>,
                      m: Mode, ghost began: State, ghost still: bool)
      returns (err: bool, desired': set<string>)
      requires Valid() && Running(k, CreateBindings(s, p, items, i)) && i < |items| && groups == GroupsOf(s.bind)
      requires desired == Texts(Wanted(s.bind.uid, groups, items[..i]))
      requires Tidies(m, began, sys.c, k, spare, still)
      requires m.Calm? && still ==> Wanted(s.bind.uid, groups, items) <= View(began, k).bindings.Keys
      modifies this
      ensures Valid() && old(steps) <= steps && old(sys.c.now) <= sys.c.now
      ensures if err then Failing(k, s) else Running(k, CreateBindings(s, p, items, i + 1))
      ensures desired' == Texts(Wanted(s.bind.uid, groups, items[..i + 1]))
      ensures !m.Anything? ==> !err
      ensures Tidies(m, began, sys.c, k, spare, still)
    {
      var wanted := GroupMatches(groups, items[i].group);
      var name := KeyText(BindKeyOf(s.bind.uid, items[i].role));
      desired' := if wanted then desired + {name} else desired;
      WantedStep(s.bind.uid, groups, items, i);
      err := CreateNext(k, s, p, items, i, wanted, m, began, still);
    }

    /** The create loop: bind every listed role whose group matches, remembering the key of each binding. */
    method CreateLoop(k: Key, s: Sync, p: Pass, items: seq<Item>, groups: set<string>, m: Mode)
      returns (err: bool, desired: set<string>)
      requires Valid() && (m.Calm? ==> Ready(sys.c, k, spare)) && Running(k, CreateBindings(s, p, items, 0))
      requires groups == GroupsOf(s.bind)
      modifies this
      ensures Valid() && old(steps) <= steps && old(sys.c.now) <= sys.c.now
      ensures err ==> Failing(k, s)
      ensures !err ==> Running(k, CreateBindings(s, p, items, |items|))
      ensures !err ==> desired == Texts(Wanted(s.bind.uid, groups, items))
      ensures !m.Anything? ==> !err
      ensures Tidies(m, old(sys.c), sys.c, k, spare,
                     m.Calm? && Wanted(s.bind.uid, groups, items) <= View(old(sys.c), k).bindings.Keys)
    {
      desired := {};
      var i := 0;
      ghost var began := sys.c;
      ghost var still := m.Calm? && Wanted(s.bind.uid, groups, items) <= View(began, k).bindings.Keys;
      WantedEnds(s.bind.uid, groups, items);
      TidiesAtFirst(m, began, k, spare, still);
      while i < |items|
        invariant i <= |items|
        invariant Valid() && old(steps) <= steps && old(sys.c.now) <= sys.c.now
        invariant Running(k, CreateBindings(s, p, items, i))
        invariant desired == Texts(Wanted(s.bind.uid, groups, items[..i]))
        invariant Tidies(m, began, sys.c, k, spare, still)
      {
        err, desired := CreateItem(k, s, p, items, i, groups, desired, m, began, still);
        if err { return; }
        i := i + 1;
      }
      err := false;
    }

    /** The reconcile is about to write `failed` after a failed sync. */
    ghost predicate Failing(k: Key, s: Sync)
      reads this
    {
      && k in sys.workers && sys.workers[k].MarkFailed?
      && sys.workers[k].orig == s.orig && sys.workers[k].bind == s.bind && sys.workers[k].reason == BIND_FAILED
    }

    /** Delete the next binding of the list unless it is wanted. */
    method PruneNext(k: Key, s: Sync, p: Pass, ghost wanted: set<BindKey>, keys: seq<BindKey>, i: nat, kept: bool,
                     m: Mode, ghost began: State, ghost still: bool)
      returns (err: bool)
      requires Valid() && Running(k, Prune(s, p, wanted, keys, i)) && i < |keys| && kept == (keys[i] in wanted)
      requires Tidies(m, began, sys.c, k, spare, still) && (m.Calm? && still ==> kept)
      modifies this
      ensures Valid() && old(steps) <= steps && old(sys.c.now) <= sys.c.now
      ensures if err then Failing(k, s) else Running(k, Prune(s, p, wanted, keys, i + 1))
      ensures !m.Anything? ==> !err
      ensures Tidies(m, began, sys.c, k, spare, still)
    {
      var a, _, at := Call(k, m);
      err := !kept && a.outcome != Ok;
      LoopsKeepBinds(at, k, Prune(s, p, wanted, keys, i), a);
      if m.Calm? { TidiesNext(m, began, old(sys.c), at, sys.c, k, spare, still); }
    }

    /** One turn of the prune loop. */
    method PruneItem(k: Key, s: Sync, p: Pass, ghost wanted: set<BindKey>, desired: set<string>, keys: seq<BindKey>,
                     i: nat, m: Mode, ghost began: State, ghost still: bool)
      returns (err: bool)
      requires Valid() && Running(k, Prune(s, p, wanted, keys, i)) && i < |keys|
      requires desired == Texts(wanted) && AllOf(p, wanted)
      requires Tidies(m, began, sys.c, k, spare, still) && (still ==> KeySet(keys) <= wanted)
      modifies this
      ensures Valid() && old(steps) <= steps && old(sys.c.now) <= sys.c.now
      ensures if err then Failing(k, s) else Running(k, Prune(s, p, wanted, keys, i + 1))
      ensures !m.Anything? ==> !err
      ensures Tidies(m, began, sys.c, k, spare, still)
    {
      var kept := KeyText(keys[i]) in desired;
      PruneScopes(k, p, keys);
      assert keys[i] in KeySet(keys);
      TextsExact(p, wanted, keys[i]);
      err := PruneNext(k, s, p, wanted, keys, i, kept, m, began, still);
    }

    /** The prune loop: delete every owned binding whose key is not remembered. */
    method PruneLoop(k: Key, s: Sync, p: Pass, ghost wanted: set<BindKey>, desired: set<string>, keys: seq<BindKey>,
                     m: Mode)
      returns (err: bool)
      requires Valid() && (m.Calm? ==> Ready(sys.c, k, spare)) && Running(k, Prune(s, p, wanted, keys, 0))
      requires desired == Texts(wanted) && AllOf(p, wanted)
      modifies this
      ensures Valid() && old(steps) <= steps && old(sys.c.now) <= sys.c.now
      ensures err ==> Failing(k, s)
      ensures !err ==> Running(k, Prune(s, p, wanted, keys, |keys|))
      ensures !m.Anything? ==> !err
      ensures Tidies(m, old(sys.c), sys.c, k, spare, KeySet(keys) <= wanted)
    {
      var i := 0;
      ghost var began, still := sys.c, KeySet(keys) <= wanted;
      TidiesAtFirst(m, began, k, spare, still);
      while i < |keys|
        invariant i <= |keys|
        invariant Valid() && old(steps) <= steps && old(sys.c.now) <= sys.c.now
        invariant Running(k, Prune(s, p, wanted, keys, i))
        invariant Tidies(m, began, sys.c, k, spare, still)
      {
        err := PruneItem(k, s, p, wanted, desired, keys, i, m, began, still);
        if err { return; }
        i := i + 1;
      }
      err := false;
    }

    /** List the roles of one kind. */
    method ListRoles(k: Key, s: Sync, p: Pass, m: Mode) returns (err: bool, items: seq<Item>)
      requires Valid() && (m.Calm? ==> Ready(sys.c, k, spare)) && Running(k, Worker.ListRoles(s, p))
      modifies this
      ensures Valid() && old(steps) <= steps && old(sys.c.now) <= sys.c.now
      ensures if err then Failing(k, s) else Running(k, CreateBindings(s, p, items, 0))
      ensures !m.Anything? ==> !err
      ensures m.Calm? ==> Rests(old(sys.c), sys.c, k, spare) && IsRoleList(sys.c, p, items)
    {
      var a, _, _ := Call(k, m);
      err, items := a.outcome != Ok, a.items;
    }

    /** The owned bindings are those of the view. */
    lemma SeesOwned(k: Key, s: Sync, p: Pass, wanted: set<BindKey>, keys: seq<BindKey>)
      requires Valid() && Running(k, Prune(s, p, wanted, keys, 0)) && k in sys.c.binds
      ensures Owned(View(sys.c, k), s.bind.uid, p) == Owned(sys.c, s.bind.uid, p)
    {
      Knows(k);
      ViewOwned(sys.c, k);
    }

    /** List the owned bindings of one kind, after the create loop. */
    method ListExisting(k: Key, s: Sync, p: Pass, ghost items: seq<Item>, m: Mode)
        returns (err: bool, keys: seq<BindKey>)
      requires Valid() && (m.Calm? ==> Ready(sys.c, k, spare)) && Running(k, CreateBindings(s, p, items, |items|))
      modifies this
      ensures Valid() && old(steps) <= steps && old(sys.c.now) <= sys.c.now
      ensures if err then Failing(k, s)
          else Running(k, Prune(s, p, Wanted(s.bind.uid, GroupsOf(s.bind), items), keys, 0))
      ensures !m.Anything? ==> !err
      ensures m.Calm? ==> Rests(old(sys.c), sys.c, k, spare)
      ensures m.Calm? ==> KeySet(keys) == Owned(View(sys.c, k), s.bind.uid, p)
    {
      var _, _, _ := Call(k, m);
      var a, _, _ := Call(k, m);
      err, keys := a.outcome != Ok, a.keys;
      if m.Calm? { SeesOwned(k, s, p, Wanted(s.bind.uid, GroupsOf(s.bind), items), keys); }
    }

    /** The first half of a pass: list the roles, create what is missing. */
    method CreateWanted(k: Key, s: Sync, p: Pass, groups: set<string>, m: Mode)
      returns (err: bool, items: seq<Item>, desired: set<string>)
      requires Valid() && (m.Calm? ==> Ready(sys.c, k, spare)) && Running(k, Worker.ListRoles(s, p))
      requires groups == GroupsOf(s.bind)
      modifies this
      ensures Valid() && old(steps) <= steps && old(sys.c.now) <= sys.c.now
      ensures if err then Failing(k, s) else Running(k, CreateBindings(s, p, items, |items|))
      ensures !err ==> desired == Texts(Wanted(s.bind.uid, groups, items))
      ensures !m.Anything? ==> !err
      ensures m.Calm? ==> Rebinds(old(sys.c), sys.c, k, spare) && IsRoleList(old(sys.c), p, items)
      ensures m.Calm? && Wanted(s.bind.uid, groups, items) <= View(old(sys.c), k).bindings.Keys ==>
        Rests(old(sys.c), sys.c, k, spare)
    {
      desired := {};
      err, items := ListRoles(k, s, p, m);
      if !err {
        err, desired := CreateLoop(k, s, p, items, groups, m);
      }
    }

    /** The second half of a pass: list the owned bindings, prune the rest. */
    method PruneOthers(k: Key, s: Sync, p: Pass, items: seq<Item>, desired: set<string>, m: Mode)
      returns (err: bool, keys: seq<BindKey>)
      requires Valid() && (m.Calm? ==> Ready(sys.c, k, spare)) && Running(k, CreateBindings(s, p, items, |items|))
      requires desired == Texts(Wanted(s.bind.uid, GroupsOf(s.bind), items))
      modifies this
      ensures Valid() && old(steps) <= steps && old(sys.c.now) <= sys.c.now
      ensures if err then Failing(k, s)
          else Running(k, Prune(s, p, Wanted(s.bind.uid, GroupsOf(s.bind), items), keys, |keys|))
      ensures !m.Anything? ==> !err
      ensures m.Calm? ==> Rebinds(old(sys.c), sys.c, k, spare)
      ensures m.Calm? && Owned(View(old(sys.c), k), s.bind.uid, p) <= Wanted(s.bind.uid, GroupsOf(s.bind), items) ==>
        Rests(old(sys.c), sys.c, k, spare)
    {
      assert AllOf(p, Wanted(s.bind.uid, GroupsOf(s.bind), items)) by {
        Knows(k);
        WantedScopes(sys.c, k, s, p, items, |items|);
      }
      err, keys := ListExisting(k, s, p, items, m);
      if !err {
        err := PruneLoop(k, s, p, Wanted(s.bind.uid, GroupsOf(s.bind), items), desired, keys, m);
      }
    }

    /** One half of syncBindings: list the roles, create what is missing, list the owned bindings, prune the rest. */
    method SyncPass(k: Key, s: Sync, p: Pass, groups: set<string>, m: Mode)
      returns (err: bool, items: seq<Item>, keys: seq<BindKey>)
      requires Valid() && (m.Calm? ==> Ready(sys.c, k, spare)) && Running(k, Worker.ListRoles(s, p))
      requires groups == GroupsOf(s.bind)
      modifies this
      ensures Valid() && old(steps) <= steps && old(sys.c.now) <= sys.c.now
      ensures if err then Failing(k, s) else Running(k, Prune(s, p, Wanted(s.bind.uid, groups, items), keys, |keys|))
      ensures !m.Anything? ==> !err
      ensures m.Calm? ==> Rebinds(old(sys.c), sys.c, k, spare) && IsRoleList(old(sys.c), p, items)
      ensures m.Calm? && Owned(View(old(sys.c), k), s.bind.uid, p) == Wanted(s.bind.uid, groups, items) ==>
        Rests(old(sys.c), sys.c, k, spare)
    {
      keys := [];
      var desired;
      err, items, desired := CreateWanted(k, s, p, groups, m);
      if !err {
        err, keys := PruneOthers(k, s, p, items, desired, m);
      }
    }

    /** From the ClusterRoles to the Roles. */
    method NextPass(k: Key, s: Sync, desired: set<BindKey>, keys: seq<BindKey>, m: Mode)
      requires Valid() && (m.Calm? ==> Ready(sys.c, k, spare))
      requires Running(k, Prune(s, ClusterPass, desired, keys, |keys|))
      modifies this
      ensures Valid() && old(steps) <= steps && old(sys.c.now) <= sys.c.now
      ensures Running(k, Worker.ListRoles(s.(wanted := desired), NamespacePass))
      ensures m.Calm? ==> Rests(old(sys.c), sys.c, k, spare)
    {
      var _, _, _ := Call(k, m);
    }

    /** The pass over the ClusterRoles. */
    method FirstPass(k: Key, s: Sync, groups: set<string>, m: Mode) returns (err: bool, items: seq<Item>)
      requires Valid() && (m.Calm? ==> Ready(sys.c, k, spare)) && Running(k, Worker.ListRoles(s, ClusterPass))
      requires groups == GroupsOf(s.bind)
      modifies this
      ensures Valid() && old(steps) <= steps && old(sys.c.now) <= sys.c.now
      ensures if err then Failing(k, s)
              else Running(k, Worker.ListRoles(s.(wanted := Wanted(s.bind.uid, groups, items)), NamespacePass))
      ensures !m.Anything? ==> !err
      ensures m.Calm? ==> Rebinds(old(sys.c), sys.c, k, spare) && IsRoleList(old(sys.c), ClusterPass, items)
      ensures m.Calm? && Owned(View(old(sys.c), k), s.bind.uid, ClusterPass) == Wanted(s.bind.uid, groups, items) ==>
        Rests(old(sys.c), sys.c, k, spare)
    {
      var keys;
      err, items, keys := SyncPass(k, s, ClusterPass, groups, m);
      if !err {
        NextPass(k, s, Wanted(s.bind.uid, groups, items), keys, m);
      }
    }

    /** syncBindings: ClusterRoles first, then Roles. */
    method SyncBindings(k: Key, s: Sync, m: Mode)
      returns (err: bool, crs: seq<Item>, rs: seq<Item>, keys: seq<BindKey>)
      requires Valid() && (m.Calm? ==> Ready(sys.c, k, spare)) && Running(k, Worker.ListRoles(s, ClusterPass))
      modifies this
      ensures Valid() && old(steps) <= steps && old(sys.c.now) <= sys.c.now
      ensures if err then Failing(k, s) else Running(k, Synced(s, crs, rs, keys)) && OwnsWanted(sys.c, s, crs, rs)
      ensures !m.Anything? ==> !err
      ensures m.Calm? ==> Rebinds(old(sys.c), sys.c, k, spare)
      ensures m.Calm? ==> IsRoleList(old(sys.c), ClusterPass, crs) && IsRoleList(old(sys.c), NamespacePass, rs)
      ensures !err ==> Ties(old(steps), k, s.bind, Finished(s, crs, rs).wanted)
      ensures m.Calm? && OwnsWanted(View(old(sys.c), k), s, crs, rs) ==> Rests(old(sys.c), sys.c, k, spare)
    {
      rs, keys := [], [];
      var groups := CollectGroups(s.bind.spec.memberships);
      err, crs := FirstPass(k, s, groups, m);
      if !err {
        var s' := s.(wanted := Wanted(s.bind.uid, groups, crs));
        err, rs, keys := SyncPass(k, s', NamespacePass, groups, m);
        if err {
          assert Failing(k, s);
        } else {
          SyncOwns(k, s, crs, rs, keys);
          SyncTies(old(steps), k, s, crs, rs, keys);
        }
      }
    }

    // ----- updatePhase -----

    /** A call, with what the reconcile may rely on when it is made. */
    method CallKnowing(k: Key, m: Mode) returns (a: Answer, n: Next, at: State)
      requires Valid() && k in sys.workers && (m.Calm? ==> Ready(sys.c, k, spare))
      modifies this
      ensures Valid() && old(steps) <= steps && old(sys.c.now) <= at.now == sys.c.now
      ensures ClusterOk(at) && WorkerOk(at, k, old(sys.workers[k])) && Answers(at, k, old(sys.workers[k]), a)
      ensures n == Work(at, k, old(sys.workers[k]), a) && Reaches(k, n)
      ensures m.Calm? ==> Rests(old(sys.c), at, k, spare) && a.outcome == Ok && a.uid == spare
      ensures !m.Anything? && !old(sys.workers[k]).EnsureAccount? ==> a.outcome == Ok
    {
      a := Respond(k, m);
      at := sys.c;
      Knows(k);
      n := Work(sys.c, k, sys.workers[k], a);
      WorkTime(sys.c, k, sys.workers[k], a);
      Take(Advance(k, a));
    }

    /** updatePhase: set phase and Ready condition in memory, then patch against the baseline. */
    method UpdatePhase(k: Key, orig: Bind, bind: Bind, phase: Phase, truth: Truth, reason: string, message: Message,
                       m: Mode)
      returns (err: bool, ghost at: State)
      requires Valid() && k in sys.workers && (m.Calm? ==> Ready(sys.c, k, spare))
      requires WriteOf(sys.workers[k]) == Some(Write(orig, bind, phase, truth, reason, message))
      requires m.Calm? ==> Fits(sys.c, k, orig, bind)
      modifies this
      ensures Valid() && old(steps) <= steps && old(sys.c.now) <= at.now == sys.c.now
      ensures ClusterOk(at) && WorkerOk(at, k, old(sys.workers[k])) && sys.c.bindings == at.bindings
      ensures !err ==>
        Patched(at, sys.c, k, orig.status, SetPhase(bind.status, phase, truth, reason, message, sys.c.now))
      ensures err || !old(sys.workers[k]).MarkBinding? ==> k !in sys.workers
      ensures !err && old(sys.workers[k]).MarkBinding? ==>
        k in sys.c.binds && Running(k, SyncStart(sys.c, k, old(sys.workers[k])))
      ensures m.Calm? ==> !err
      ensures !m.Anything? && err ==> k in at.binds && bind.rv != orig.rv && at.binds[k].rv != bind.rv
      ensures m.Calm? ==> Rests(old(sys.c), at, k, spare) && Ready(sys.c, k, spare)
      ensures m.Calm? ==> Patched(View(old(sys.c), k), View(sys.c, k), k, orig.status,
                               SetPhase(bind.status, phase, truth, reason, message, sys.c.now))
    {
      var a, n;
      a, n, at := CallKnowing(k, m);
      err := n.Done? && n.err;
      PatchLands(at, k, old(sys.workers[k]), a);
      if m.Calm? {
        SameAccount(old(sys.c), at, k);
        PatchedView(at, sys.c, k, orig.status, SetPhase(bind.status, phase, truth, reason, message, sys.c.now), spare);
      }
    }

    // ----- Reconcile -----

    /** Read the CR. */
    method Get(k: Key, m: Mode) returns (err: bool, bind: Option<Bind>)
      requires Valid() && Running(k, Fetch) && (m.Calm? ==> Ready(sys.c, k, spare))
      modifies this
      ensures Valid() && old(steps) <= steps && old(sys.c.now) <= sys.c.now
      ensures err ==> bind.None?
      ensures bind.None? ==> k !in sys.workers
      ensures bind.Some? ==> k in sys.c.binds && bind.value == sys.c.binds[k]
      ensures bind.Some? ==>
        if Route(sys.c, bind.value).More? then Running(k, Route(sys.c, bind.value).worker) else k !in sys.workers
      ensures !m.Anything? ==> !err
      ensures m.Calm? ==> Rests(old(sys.c), sys.c, k, spare) && bind.Some?
    {
      var a, n, at := Call(k, m);
      assert n == DoFetch(at, k, a) && n.c == at by { FetchIs(at, k, a); }
      err := a.outcome != Ok;
      bind := if !err && k in sys.c.binds then Some(sys.c.binds[k]) else None;
    }

    /** The reconcile starts and reads the CR. */
    method Begin(k: Key, m: Mode) returns (err: bool, bind: Option<Bind>)
      requires Valid() && k !in sys.workers && (m.Calm? ==> Ready(sys.c, k, spare))
      modifies this
      ensures Valid() && old(steps) <= steps && old(sys.c.now) <= sys.c.now && |old(steps)| < SinceStart(steps, k)
      ensures err ==> bind.None?
      ensures bind.None? ==> k !in sys.workers
      ensures bind.Some? ==> k in sys.c.binds && bind.value == sys.c.binds[k]
      ensures bind.Some? ==>
        if Route(sys.c, bind.value).More? then Running(k, Route(sys.c, bind.value).worker) else k !in sys.workers
      ensures !m.Anything? ==> !err
      ensures m.Calm? ==> Rests(old(sys.c), sys.c, k, spare) && bind.Some?
    {
      Take(Start(k));
      ghost var since := steps;
      err, bind := Get(k, m);
      StartCounts(old(steps), k);
      SinceStartGrows(since, steps, k);
    }

    /** Add or remove the finalizer. */
    method UpdateFinalizer(k: Key, b: Bind, add: bool, m: Mode) returns (err: bool, ghost at: State)
      requires Valid() && Running(k, if add then AddFinalizer(b) else DropFinalizer(b))
      requires m.Calm? ==> Ready(sys.c, k, spare) && b == sys.c.binds[k] && add
      modifies this
      ensures Valid() && old(steps) <= steps && old(sys.c.now) <= sys.c.now && k !in sys.workers
      ensures !add ==> OwnedAll(sys.c, b.uid) == {}
      ensures !err ==> k in at.binds && at.binds[k].rv == b.rv && Refinalized(at, sys.c, k, add)
      ensures m.Calm? ==> !err
      ensures !m.Anything? && err ==> k !in sys.c.binds || sys.c.binds[k].rv != b.rv
      ensures m.Calm? ==> Ready(sys.c, k, spare) && Finalized(View(old(sys.c), k), View(sys.c, k), k)
    {
      var a, n, c := CallKnowing(k, m);
      at := c;
      FinalizerIs(c, k, b, add, a);
      err := n.err;
      if m.Calm? {
        assert View(c, k).binds[k] == View(old(sys.c), k).binds[k];
        FinalizedView(c, k, spare);
      }
    }

    /** reconcileDelete, for a CR that carries the finalizer: it is removed from those that the CR had in `at`. */
    method ReconcileDelete(k: Key, b: Bind, m: Mode) returns (err: bool, ghost at: State)
      requires Valid() && Running(k, Worker.ListOwned(b, ToRelease, ClusterPass))
      modifies this
      ensures Valid() && old(steps) <= steps && old(sys.c.now) <= sys.c.now && k !in sys.workers
      ensures !err ==> OwnedAll(sys.c, b.uid) == {} && (k in sys.c.binds ==> FINALIZER !in sys.c.binds[k].finalizers)
      ensures !err ==> k in at.binds && at.binds[k].rv == b.rv && Refinalized(at, sys.c, k, false)
      ensures !m.Anything? ==> OwnedAll(sys.c, b.uid) == {}
      ensures !m.Anything? && err ==> k !in sys.c.binds || sys.c.binds[k].rv != b.rv
    {
      err := DeleteOwned(k, b, ToRelease, m);
      at := sys.c;
      if !err {
        err, at := UpdateFinalizer(k, b, false, Own(m));
      }
    }

    /** Revoke an expired bind. */
    method Unbind(k: Key, b: Bind, m: Mode) returns (err: bool)
      requires Valid() && Running(k, Worker.ListOwned(b, ToUnbind, ClusterPass)) && b.status.phase != Unbound
      modifies this
      ensures Valid() && old(steps) <= steps && old(sys.c.now) <= sys.c.now && k !in sys.workers
      ensures !err ==> OwnedAll(sys.c, b.uid) == {} && k in sys.c.binds
      ensures !err ==> Says(sys.c.binds[k].status, Unbound, False, "Expired", Text("TTL elapsed"))
      ensures !m.Anything? ==> !err
    {
      err := DeleteOwned(k, b, ToUnbind, m);
      if !err {
        ghost var at;
        err, at := UpdatePhase(k, b, b, Unbound, False, "Expired", Text("TTL elapsed"), Own(m));
        if !err {
          PatchSays(at, sys.c, k, b.status, Unbound, False, "Expired", Text("TTL elapsed"), sys.c.now);
        }
      }
    }

    /** ensureServiceAccount, called in the cluster `at`. The account of another controller stays as it is. */
    method EnsureServiceAccount(k: Key, b: Bind, e: int, m: Mode)
      returns (err: bool, account: Account, message: string, ghost at: State)
      requires Valid() && Running(k, EnsureAccount(b, e))
      requires m.Calm? ==> Ready(sys.c, k, spare) && b == sys.c.binds[k]
      modifies this
      ensures Valid() && old(steps) <= steps && old(sys.c.now) <= sys.c.now
      ensures err ==> Running(k, MarkFailed(b, b, "ServiceAccountFailed", message))
      ensures !err ==>
        Running(k, if b.status.phase == Binded then SyncFrom(sys.c, b, account, e) else MarkBinding(b, account, e))
      ensures !err ==>
        && SubjectOf(k, b) in sys.c.accounts && sys.c.accounts[SubjectOf(k, b)] == account
        && account.controller == Some(b.uid)
      ensures var ak := Key(k.ns, b.spec.user);
        && (ak in at.accounts && at.accounts[ak].controller.Some? && at.accounts[ak].controller != Some(b.uid) ==>
            err && sys.c.accounts == at.accounts)
        && (ak in at.accounts && ak in sys.c.accounts ==> sys.c.accounts[ak].uid == at.accounts[ak].uid)
        && (ak !in at.accounts && !err ==> account.uid !in at.uids)
        && sys.c.accounts - {ak} == at.accounts - {ak}
      ensures m.Calm? ==> !err
      ensures m.Calm? ==> Ready(sys.c, k, spare) && AccountPut(View(old(sys.c), k), View(sys.c, k), k, b, spare)
      ensures m.Calm? ==>
        SubjectOf(k, b) in View(sys.c, k).accounts && account == View(sys.c, k).accounts[SubjectOf(k, b)]
    {
      var a, n, c := Call(k, m);
      at := c;
      message := a.message;
      err := a.outcome != Ok || !AccountFree(c, k, b);
      EnsuredAccount(c, k, b, e, a);
      account := if err then Account("", None) else sys.c.accounts[SubjectOf(k, b)];
      if m.Calm? {
        assert View(c, k).binds[k] == View(old(sys.c), k).binds[k];
        PutAccountView(c, k, a.uid, spare);
      }
    }

    /** After the sync: nothing to write, or `binded` still to be written. */
    method Finish(k: Key, s: Sync, crs: seq<Item>, rs: seq<Item>, ghost keys: seq<BindKey>, m: Mode)
      returns (done: bool, requeue: Option<int>)
      requires Valid() && Running(k, Synced(s, crs, rs, keys)) && (m.Calm? ==> Ready(sys.c, k, spare))
      modifies this
      ensures Valid() && old(steps) <= steps && old(sys.c.now) <= sys.c.now
      ensures done == Established(s)
      ensures if done then k !in sys.workers && IsBound(sys.c, k, s, crs, rs) && requeue == Until(sys.c.now, s.expiry)
              else Running(k, MarkBinded(Finished(s, crs, rs)))
      ensures m.Calm? ==> Rests(old(sys.c), sys.c, k, spare)
    {
      var _, n, at := CallKnowing(k, m);
      assert
        && n == (if Established(s) then Done(at, false, Until(at.now, s.expiry))
                 else More(at, MarkBinded(Finished(s, crs, rs))))
        && (Established(s) ==> IsBound(at, k, s, crs, rs)) by {
        SyncedIs(at, k, s, crs, rs, keys);
      }
      done :=
        && s.orig.status.phase == StatusPatch.Binded && s.bind.status.ref == s.account.uid
        && s.bind.status.expiresAt == Some(s.expiry);
      requeue := if done && sys.c.now < s.expiry then Some(s.expiry - sys.c.now) else None;
    }

    /** Write `binded`. */
    method WriteBinded(k: Key, s: Sync, m: Mode) returns (err: bool)
      requires Valid() && Running(k, MarkBinded(s))
      requires m.Calm? ==> Ready(sys.c, k, spare) && Fits(sys.c, k, s.orig, s.bind)
      modifies this
      ensures Valid() && old(steps) <= steps && old(sys.c.now) <= sys.c.now && k !in sys.workers
      ensures !err ==> k in sys.c.binds && sys.c.binds[k].uid == s.bind.uid
      ensures !err ==>
        Says(sys.c.binds[k].status, StatusPatch.Binded, True, "Bound",
             BoundFor(s.bind.spec.user, |s.bind.spec.memberships|))
      ensures !err ==> OwnedAll(sys.c, s.bind.uid) == s.wanted
      ensures m.Calm? ==> !err
      ensures m.Calm? ==> Ready(sys.c, k, spare)
      ensures m.Calm? && BindingWritten(s) ==> Concluded(View(old(sys.c), k), View(sys.c, k), k, s)
    {
      var bind := s.bind.(status := s.bind.status.(ref := s.account.uid, expiresAt := Some(s.expiry)));
      ghost var at;
      err, at := UpdatePhase(k, s.orig, bind, StatusPatch.Binded, True, "Bound",
                             BoundFor(s.bind.spec.user, |s.bind.spec.memberships|), m);
      BindedStored(at, k, s);
    }

    /** What follows a sync that went through. */
    method Conclude(k: Key, s: Sync, crs: seq<Item>, rs: seq<Item>, ghost keys: seq<BindKey>, m: Mode)
      returns (err: bool, requeue: Option<int>)
      requires Valid() && Running(k, Synced(s, crs, rs, keys))
      requires m.Calm? ==> Ready(sys.c, k, spare) && Fits(sys.c, k, s.orig, s.bind)
      modifies this
      ensures Valid() && old(steps) <= steps && old(sys.c.now) <= sys.c.now && k !in sys.workers
      ensures !err ==> IsBound(sys.c, k, s, crs, rs) && requeue == Until(sys.c.now, s.expiry)
      ensures m.Calm? ==> !err
      ensures m.Calm? ==> Ready(sys.c, k, spare)
      ensures m.Calm? && Established(s) ==> Rests(old(sys.c), sys.c, k, spare)
      ensures m.Calm? && BindingWritten(s) && !Established(s) ==> Concluded(View(old(sys.c), k), View(sys.c, k), k, s)
    {
      var done;
      done, requeue := Finish(k, s, crs, rs, keys, m);
      err := false;
      if !done {
        if m.Calm? { SameAccount(old(sys.c), sys.c, k); }
        err := WriteBinded(k, Finished(s, crs, rs), m);
        requeue := if err then None else Until(sys.c.now, s.expiry);
      }
    }

    /** The same, with what an undisturbed sync has done since it began. */
    method ConcludeSync(k: Key, s: Sync, crs: seq<Item>, rs: seq<Item>, ghost keys: seq<BindKey>, ghost began: State,
                        m: Mode)
      returns (err: bool, requeue: Option<int>)
      requires Valid() && Running(k, Synced(s, crs, rs, keys)) && OwnsWanted(sys.c, s, crs, rs)
      requires m.Calm? ==> Rebinds(began, sys.c, k, spare) && Fits(sys.c, k, s.orig, s.bind)
      requires m.Calm? ==> IsRoleList(View(began, k), ClusterPass, crs) && IsRoleList(View(began, k), NamespacePass, rs)
      requires m.Calm? && OwnsWanted(View(began, k), s, crs, rs) ==> Rests(began, sys.c, k, spare)
      modifies this
      ensures Valid() && old(steps) <= steps && old(sys.c.now) <= sys.c.now && k !in sys.workers
      ensures !err ==> IsBound(sys.c, k, s, crs, rs) && requeue == Until(sys.c.now, s.expiry)
      ensures m.Calm? ==> !err
      ensures m.Calm? ==> Ready(sys.c, k, spare)
      ensures m.Calm? && BindingWritten(s) ==> Completed(View(began, k), View(sys.c, k), k, s)
    {
      ghost var mid := sys.c;
      SyncedBind(k, s, crs, rs, keys);
      err, requeue := Conclude(k, s, crs, rs, keys, m);
      if m.Calm? && BindingWritten(s) { CompletesView(began, mid, sys.c, k, s, crs, rs, spare); }
    }

    lemma SyncedBind(k: Key, s: Sync, crs: seq<Item>, rs: seq<Item>, keys: seq<BindKey>)
      requires Valid() && Running(k, Synced(s, crs, rs, keys))
      ensures k in sys.c.binds && sys.c.binds[k].uid == s.bind.uid && (Established(s) ==> BoundAs(sys.c.binds[k], s))
    {
      Knows(k);
    }

    /** Report a sync that failed. */
    method ReportFailure(k: Key, s: Sync, message: string) returns (err: bool)
      requires Valid() && Running(k, MarkFailed(s.orig, s.bind, BIND_FAILED, message))
      modifies this
      ensures Valid() && old(steps) <= steps && old(sys.c.now) <= sys.c.now && k !in sys.workers
      ensures !err ==> EndsFailed(sys.c, k, s.orig.status, message)
    {
      ghost var at;
      err, at := UpdatePhase(k, s.orig, s.bind, StatusPatch.Failed, False, BIND_FAILED, Text(message), Anything);
      if !err { FailureStored(at, sys.c, k, s.orig, s.bind, message); }
    }

    /** syncBindings and what follows it. `bound` tells a sync that went through from one that `failed`, which is
        reported with its error. */
    method CompleteBind(k: Key, s: Sync, m: Mode)
      returns (err: bool, requeue: Option<int>, bound: bool, failed: Option<string>, crs: seq<Item>, rs: seq<Item>)
      requires Valid() && Running(k, Worker.ListRoles(s, ClusterPass))
      requires m.Calm? ==> Ready(sys.c, k, spare) && Fits(sys.c, k, s.orig, s.bind)
      modifies this
      ensures Valid() && old(steps) <= steps && old(sys.c.now) <= sys.c.now && k !in sys.workers
      ensures bound ==> IsBound(sys.c, k, s, crs, rs) && !err && requeue == Until(sys.c.now, s.expiry)
      ensures bound ==> Ties(old(steps), k, s.bind, OwnedAll(sys.c, s.bind.uid))
      ensures failed.Some? ==> !bound && requeue.None? && (!err ==> EndsFailed(sys.c, k, s.orig.status, failed.value))
      ensures m.Calm? ==> bound && Ready(sys.c, k, spare)
      ensures m.Calm? && BindingWritten(s) ==> Completed(View(old(sys.c), k), View(sys.c, k), k, s)
      ensures !m.Anything? ==> failed.None?
    {
      var keys;
      err, crs, rs, keys := SyncBindings(k, s, m);
      if err {
        requeue, bound, failed := None, false, Some(sys.workers[k].message);
        err := ReportFailure(k, s, failed.value);
      } else {
        failed := None;
        ghost var since := steps;
        if m.Calm? { assert View(sys.c, k).binds[k] == View(old(sys.c), k).binds[k]; }
        err, requeue := ConcludeSync(k, s, crs, rs, keys, old(sys.c), m);
        bound := !err;
        if bound { TiesLater(old(steps), since, k, s.bind, Finished(s, crs, rs).wanted); }
      }
    }

    lemma TiesLater(was: seq<Step>, since: seq<Step>, k: Key, b: Bind, owned: set<BindKey>)
      requires SinceStart(was, k) > 0 ==> TiedTo(origin, since, SinceStart(was, k), k, b, owned)
      requires since <= steps
      ensures Ties(was, k, b, owned)
    {
      if SinceStart(was, k) > 0 {
        TiedLater(origin, since, SinceStart(was, k), steps, SinceStart(was, k), k, b, owned);
      }
    }

    lemma TiesSooner(was: seq<Step>, since: seq<Step>, k: Key, b: Bind, owned: set<BindKey>)
      requires Ties(since, k, b, owned) && was <= since
      ensures Ties(was, k, b, owned)
    {
      SinceStartGrows(was, since, k);
      if SinceStart(was, k) > 0 {
        TiedLater(origin, steps, SinceStart(since, k), steps, SinceStart(was, k), k, b, owned);
      }
    }

    /** The transient `binding` write, skipped on a CR that is already `binded`. */
    method BeginSync(k: Key, b: Bind, account: Account, e: int, m: Mode) returns (err: bool, sync: Sync)
      requires Valid() && (m.Calm? ==> Ready(sys.c, k, spare) && b == sys.c.binds[k])
      requires Running(k, if b.status.phase == Binded then SyncFrom(sys.c, b, account, e)
                       else MarkBinding(b, account, e))
      modifies this
      ensures Valid() && old(steps) <= steps && old(sys.c.now) <= sys.c.now
      ensures if err then k !in sys.workers else Running(k, Worker.ListRoles(sync, ClusterPass))
      ensures sync.expiry == e && sync.account == account && sync.orig == b
      ensures !err ==> sync.bind.uid == b.uid && BindingWritten(sync)
      ensures !m.Anything? ==> !err
      ensures m.Calm? ==> Ready(sys.c, k, spare) && Fits(sys.c, k, b, sync.bind)
      ensures m.Calm? && b.status.phase == Binded ==> Rests(old(sys.c), sys.c, k, spare) && sync.bind == b
      ensures m.Calm? && b.status.phase != Binded ==> Begun(View(old(sys.c), k), View(sys.c, k), k, sync)
    {
      err, sync := false, Sync(b, b, account, e, OwnedAll(sys.c, b.uid), {});
      if b.status.phase != Binded {
        ghost var w := sys.workers[k];
        ghost var at;
        var bind := b.(status := b.status.(ref := account.uid));
        err, at := UpdatePhase(k, b, bind, StatusPatch.Binding, Unknown, SYNCING, Text("Syncing RBAC bindings"), m);
        if !err {
          sync := Sync(b, ReadInto(b, sys.c.binds[k]), account, e, OwnedAll(sys.c, sys.c.binds[k].uid), {});
          BindingStored(at, k, b, account, sys.c.now);
        }
      }
    }

    /** From the `binding` write to the end of the reconcile. */
    method SyncUser(k: Key, b: Bind, account: Account, e: int, m: Mode)
      returns (err: bool, requeue: Option<int>, bound: bool, failed: Option<string>, sync: Sync, crs: seq<Item>,
               rs: seq<Item>)
      requires Valid() && (m.Calm? ==> Ready(sys.c, k, spare) && b == sys.c.binds[k])
      requires Running(k, if b.status.phase == Binded then SyncFrom(sys.c, b, account, e)
                       else MarkBinding(b, account, e))
      modifies this
      ensures Valid() && old(steps) <= steps && old(sys.c.now) <= sys.c.now && k !in sys.workers
      ensures bound ==>
        !err && IsBound(sys.c, k, sync, crs, rs) && requeue == Until(sys.c.now, e) && sync.bind.uid == b.uid
      ensures bound ==> Ties(old(steps), k, sync.bind, OwnedAll(sys.c, b.uid))
      ensures failed.Some? ==> !bound && requeue.None? && (!err ==> EndsFailed(sys.c, k, b.status, failed.value))
      ensures m.Calm? ==> bound && Ready(sys.c, k, spare)
      ensures m.Calm? ==> SyncedUser(View(old(sys.c), k), View(sys.c, k), k, b, account, e)
      ensures !m.Anything? ==> failed.None?
    {
      requeue, bound, failed, crs, rs := None, false, None, [], [];
      err, sync := BeginSync(k, b, account, e, m);
      if !err {
        ghost var mid, since := sys.c, steps;
        err, requeue, bound, failed, crs, rs := CompleteBind(k, sync, m);
        if bound { TiesSooner(old(steps), since, k, sync.bind, OwnedAll(sys.c, b.uid)); }
        if m.Calm? { SyncsUser(View(old(sys.c), k), View(mid, k), View(sys.c, k), k, b, sync); }
      }
    }

    /** From the account to the end of the reconcile of a bind that has not expired. */
    method BindUser(k: Key, b: Bind, e: int, m: Mode)
      returns (err: bool, requeue: Option<int>, bound: bool, failed: Option<string>, sync: Sync, crs: seq<Item>,
               rs: seq<Item>)
      requires Valid() && Running(k, EnsureAccount(b, e)) && (m.Calm? ==> Ready(sys.c, k, spare) && b == sys.c.binds[k])
      modifies this
      ensures Valid() && old(steps) <= steps && old(sys.c.now) <= sys.c.now && k !in sys.workers
      ensures bound ==>
        !err && IsBound(sys.c, k, sync, crs, rs) && requeue == Until(sys.c.now, e) && sync.bind.uid == b.uid
      ensures bound ==> Ties(old(steps), k, sync.bind, OwnedAll(sys.c, b.uid))
      ensures failed.Some? ==> !bound && requeue.None? && (!err ==> EndsFailed(sys.c, k, b.status, failed.value))
      ensures m.Calm? ==> bound && Ready(sys.c, k, spare)
      ensures m.Calm? ==> BoundUser(View(old(sys.c), k), View(sys.c, k), k, b, e)
      ensures !m.Anything? ==> failed.None?
    {
      var account, message;
      ghost var at;
      err, account, message, at := EnsureServiceAccount(k, b, e, m);
      if err {
        requeue, bound, failed, sync, crs, rs := None, false, None, Sync(b, b, Account("", None), e, {}, {}), [], [];
        err, at := UpdatePhase(k, b, b, StatusPatch.Failed, False, "ServiceAccountFailed", Text(message), Own(m));
      } else {
        ghost var mid, since := sys.c, steps;
        if m.Calm? { assert View(sys.c, k).binds[k] == View(old(sys.c), k).binds[k]; }
        err, requeue, bound, failed, sync, crs, rs := SyncUser(k, b, account, e, m);
        if bound { TiesSooner(old(steps), since, k, sync.bind, OwnedAll(sys.c, b.uid)); }
        if m.Calm? { BindsUser(View(old(sys.c), k), View(mid, k), View(sys.c, k), k, b, spare, account, e); }
      }
    }

    /** Compare the clock with the expiry. A CR that is already `unbound` needs nothing deleted. */
    method ReadClock(k: Key, b: Bind, e: int, m: Mode) returns (expired: bool)
      requires Valid() && Running(k, Judge(b, e))
      requires m.Calm? ==> Ready(sys.c, k, spare) && e == Expiry(sys.c.binds[k])
      modifies this
      ensures Valid() && old(steps) <= steps && old(sys.c.now) <= sys.c.now
      ensures expired <==> e <= sys.c.now
      ensures !expired ==> Running(k, EnsureAccount(b, e))
      ensures expired && b.status.phase != StatusPatch.Unbound ==>
        Running(k, Worker.ListOwned(b, ToUnbind, ClusterPass))
      ensures expired && b.status.phase == StatusPatch.Unbound ==> k !in sys.workers && OwnedAll(sys.c, b.uid) == {}
      ensures m.Calm? ==> !expired && Rests(old(sys.c), sys.c, k, spare)
    {
      var _, n, at := CallKnowing(k, m);
      assert n == DoJudge(at, b, e);
      if b.status.phase == StatusPatch.Unbound { UnboundOwnsNothing(at, k); }
      expired := !(at.now < e);
      if m.Calm? { assert View(at, k).binds[k] == View(old(sys.c), k).binds[k]; }
    }

    /** The reconcile of a CR with finalizer, phase and a parsable TTL. */
    method Judged(k: Key, b: Bind, m: Mode)
      returns (err: bool, requeue: Option<int>, expired: bool, bound: bool, failed: Option<string>, sync: Sync,
               crs: seq<Item>, rs: seq<Item>)
      requires Valid() && b.spec.ttl.Lasting? && Running(k, Judge(b, Expiry(b)))
      requires m.Calm? ==> Ready(sys.c, k, spare) && b == sys.c.binds[k]
      modifies this
      ensures Valid() && old(steps) <= steps && old(sys.c.now) <= sys.c.now && k !in sys.workers
      ensures Expiry(b) <= old(sys.c.now) ==> expired
      ensures expired && !err ==> OwnedAll(sys.c, b.uid) == {}
      ensures expired && !err && b.status.phase != StatusPatch.Unbound ==> IsUnbound(sys.c, k)
      ensures expired ==> requeue.None? && !bound && failed.None?
      ensures bound ==>
        !err && IsBound(sys.c, k, sync, crs, rs) && requeue == Until(sys.c.now, Expiry(b)) && sync.bind.uid == b.uid
      ensures bound ==> Ties(old(steps), k, sync.bind, OwnedAll(sys.c, b.uid))
      ensures failed.Some? ==> !bound && requeue.None? && (!err ==> EndsFailed(sys.c, k, b.status, failed.value))
      ensures m.Calm? ==> !err
      ensures !m.Anything? && expired ==> !err
      ensures m.Calm? ==> Ready(sys.c, k, spare) && BoundUser(View(old(sys.c), k), View(sys.c, k), k, b, Expiry(b))
      ensures !m.Anything? ==> failed.None?
    {
      err, requeue, bound, failed := false, None, false, None;
      sync, crs, rs := Sync(b, b, Account("", None), 0, {}, {}), [], [];
      expired := ReadClock(k, b, Expiry(b), m);
      if !expired {
        ghost var since := steps;
        if m.Calm? { assert View(sys.c, k).binds[k] == View(old(sys.c), k).binds[k]; }
        err, requeue, bound, failed, sync, crs, rs := BindUser(k, b, Expiry(b), m);
        if bound { TiesSooner(old(steps), since, k, sync.bind, OwnedAll(sys.c, b.uid)); }
      } else if b.status.phase != StatusPatch.Unbound {
        err := Unbind(k, b, m);
      }
    }

    /** The first phase of a CR. */
    method Accept(k: Key, b: Bind, m: Mode) returns (err: bool)
      requires Valid() && Running(k, MarkPending(b)) && (m.Calm? ==> Ready(sys.c, k, spare))
      modifies this
      ensures Valid() && old(steps) <= steps && old(sys.c.now) <= sys.c.now && k !in sys.workers
      ensures !m.Anything? ==> !err
      ensures !err ==> k in sys.c.binds
      ensures !err ==>
        Says(sys.c.binds[k].status, Pending, Unknown, "Accepted", Text("Bind accepted, pending sync"))
      ensures m.Calm? ==> Ready(sys.c, k, spare)
      ensures m.Calm? ==>
        Patched(View(old(sys.c), k), View(sys.c, k), k, b.status, PendingStatus(b.status, sys.c.now))
    {
      ghost var at;
      err, at := UpdatePhase(k, b, b, Pending, Unknown, "Accepted", Text("Bind accepted, pending sync"), m);
      if !err {
        PatchSays(at, sys.c, k, b.status, Pending, Unknown, "Accepted", Text("Bind accepted, pending sync"), sys.c.now);
      }
    }

    /** A TTL that does not parse. */
    method Reject(k: Key, b: Bind, m: Mode) returns (err: bool)
      requires Valid() && b.spec.ttl.Unparsable? && Running(k, MarkFailed(b, b, "InvalidTTL", b.spec.ttl.text))
      modifies this
      ensures Valid() && old(steps) <= steps && old(sys.c.now) <= sys.c.now && k !in sys.workers
      ensures !m.Anything? ==> !err
      ensures !err ==> k in sys.c.binds
      ensures !err ==> Says(sys.c.binds[k].status, StatusPatch.Failed, False, "InvalidTTL", Text(b.spec.ttl.text))
    {
      ghost var at;
      err, at := UpdatePhase(k, b, b, StatusPatch.Failed, False, "InvalidTTL", Text(b.spec.ttl.text), Own(m));
      if !err {
        PatchSays(at, sys.c, k, b.status, StatusPatch.Failed, False, "InvalidTTL", Text(b.spec.ttl.text), sys.c.now);
      }
    }

    /** The reconcile of a CR that is not being deleted. */
    method ReconcileLive(k: Key, b: Bind, m: Mode) returns (r: Report)
      requires Valid() && !b.deleting && k in sys.c.binds && b == sys.c.binds[k] && Running(k, Route(sys.c, b).worker)
      requires m.Calm? ==> Ready(sys.c, k, spare)
      modifies this
      ensures Valid() && old(steps) <= steps && old(sys.c.now) <= sys.c.now && k !in sys.workers && r.seen == Some(b)
      ensures CanExpire(b) && Expiry(b) <= old(sys.c.now) ==> r.expired
      ensures r.expired ==> CanExpire(b) && r.requeue.None? && !r.bound && r.failed.None?
      ensures r.expired && !r.err ==> OwnedAll(sys.c, b.uid) == {}
      ensures r.expired && !r.err && b.status.phase != StatusPatch.Unbound ==> IsUnbound(sys.c, k)
      ensures r.bound ==> CanExpire(b) && !r.err && IsBound(sys.c, k, r.sync, r.crs, r.rs) && r.sync.bind.uid == b.uid
      ensures r.bound ==> r.requeue == Until(sys.c.now, Expiry(b))
      ensures r.bound ==> Ties(old(steps), k, r.sync.bind, OwnedAll(sys.c, b.uid))
      ensures r.failed.Some? ==> CanExpire(b) && !r.bound && (!r.err ==> EndsFailed(sys.c, k, b.status, r.failed.value))
      ensures !m.Anything? ==> r.failed.None? && (r.expired ==> !r.err)
      ensures IsNew(b) ==>
        && (!m.Anything? ==> !r.err)
        && (!r.err ==> IsPending(sys.c, k) && r.requeue == Some(SECOND))
      ensures IsInvalid(b) ==>
        && (!m.Anything? ==> !r.err)
        && (!r.err ==> IsRejected(sys.c, k, b) && r.requeue.None?)
      ensures m.Calm? ==> !r.err && Ready(sys.c, k, spare) && Advances(View(old(sys.c), k), View(sys.c, k), k)
    {
      r := Report(false, None, Some(b), false, false, None, Sync(b, b, Account("", None), 0, {}, {}), [], []);
      var err;
      if m.Calm? { ViewLive(sys.c, k); }
      if FINALIZER !in b.finalizers {
        ghost var at;
        err, at := UpdateFinalizer(k, b, true, m);
        r := r.(err := err);
        if m.Calm? { FinalizerAdvances(View(old(sys.c), k), View(sys.c, k), k); }
      } else if b.status.phase == NoPhase {
        err := Accept(k, b, m);
        r := r.(err := err, requeue := if err then None else Some(SECOND));
        if m.Calm? { PendingAdvances(View(old(sys.c), k), View(sys.c, k), k, sys.c.now); }
      } else if b.spec.ttl.Unparsable? {
        err := Reject(k, b, m);
        r := r.(err := err);
      } else {
        var requeue, expired, bound, failed, sync, crs, rs;
        err, requeue, expired, bound, failed, sync, crs, rs := Judged(k, b, m);
        r := Report(err, requeue, Some(b), expired, bound, failed, sync, crs, rs);
        if m.Calm? { BoundAdvances(View(old(sys.c), k), View(sys.c, k), k); }
      }
    }

    /** The reconcile of a CR that it has read and has something to do for. */
    method ReconcileSeen(k: Key, b: Bind, m: Mode) returns (r: Report)
      requires Valid() && k in sys.c.binds && b == sys.c.binds[k] && (m.Calm? ==> Ready(sys.c, k, spare))
      requires Route(sys.c, b).More? && Running(k, Route(sys.c, b).worker)
      modifies this
      ensures Valid() && old(steps) <= steps && old(sys.c.now) <= sys.c.now && k !in sys.workers && r.seen == Some(b)
      ensures b.deleting && !r.err ==> OwnedAll(sys.c, b.uid) == {}
      ensures CanExpire(b) && Expiry(b) <= old(sys.c.now) ==> r.expired
      ensures r.expired ==> CanExpire(b) && r.requeue.None? && !r.bound && r.failed.None?
      ensures r.expired && !r.err ==> OwnedAll(sys.c, b.uid) == {}
      ensures r.expired && !r.err && b.status.phase != StatusPatch.Unbound ==> IsUnbound(sys.c, k)
      ensures r.bound ==> CanExpire(b) && !r.err && IsBound(sys.c, k, r.sync, r.crs, r.rs) && r.sync.bind.uid == b.uid
      ensures r.bound ==> r.requeue == Until(sys.c.now, Expiry(b))
      ensures r.bound ==> Ties(old(steps), k, r.sync.bind, OwnedAll(sys.c, b.uid))
      ensures r.failed.Some? ==> CanExpire(b) && !r.bound && (!r.err ==> EndsFailed(sys.c, k, b.status, r.failed.value))
      ensures !m.Anything? ==> r.failed.None? && (r.expired ==> !r.err)
      ensures IsNew(b) ==>
        && (!m.Anything? ==> !r.err)
        && (!r.err ==> IsPending(sys.c, k) && r.requeue == Some(SECOND))
      ensures IsInvalid(b) ==>
        && (!m.Anything? ==> !r.err)
        && (!r.err ==> IsRejected(sys.c, k, b) && r.requeue.None?)
      ensures b.deleting && !m.Anything? ==>
        OwnedAll(sys.c, b.uid) == {} && (r.err ==> k !in sys.c.binds || sys.c.binds[k].rv != b.rv)
      ensures m.Calm? ==> !r.err && Ready(sys.c, k, spare) && Advances(View(old(sys.c), k), View(sys.c, k), k)
    {
      if b.deleting {
        ghost var at;
        var err;
        err, at := ReconcileDelete(k, b, m);
        r := Report(err, None, Some(b), false, false, None, Sync(b, b, Account("", None), 0, {}, {}), [], []);
      } else {
        r := ReconcileLive(k, b, m);
      }
    }

    /** Reconcile, as a run of the operator's machine, whatever the others do between its calls. If it judged the bind
        expired and returned no error, the CR owns nothing. If it bound the user, the CR is `binded` and owns exactly
        one binding for each role that, when the roles were listed, matched memberships that were stored since the
        reconcile began; and a timer is armed, for the expiry, if and only if the expiry is still ahead. If it reported
        a failed sync and returned no error, the CR is stored as EndsFailed says. If nobody else touches the CR, it
        brings a live bind one write closer to rest, and leaves one at rest alone. */
    method Reconcile(k: Key, m: Mode) returns (r: Report)
      requires Valid() && k !in sys.workers
      requires m.Calm? ==> Ready(sys.c, k, spare)
      modifies this
      ensures Valid() && old(steps) <= steps && old(sys.c.now) <= sys.c.now && k !in sys.workers
      ensures r.seen.Some? && r.seen.value.deleting && FINALIZER in r.seen.value.finalizers && !r.err ==>
        OwnedAll(sys.c, r.seen.value.uid) == {}
      ensures r.seen.Some? && CanExpire(r.seen.value) && Expiry(r.seen.value) <= old(sys.c.now) ==> r.expired
      ensures r.expired ==> r.seen.Some? && CanExpire(r.seen.value) && r.requeue.None? && !r.bound && r.failed.None?
      ensures r.expired && !r.err ==> OwnedAll(sys.c, r.seen.value.uid) == {}
      ensures r.expired && !r.err && r.seen.value.status.phase != StatusPatch.Unbound ==> IsUnbound(sys.c, k)
      ensures r.bound ==> r.seen.Some? && CanExpire(r.seen.value) && !r.err && r.sync.bind.uid == r.seen.value.uid
      ensures r.bound ==> IsBound(sys.c, k, r.sync, r.crs, r.rs)
      ensures r.bound ==> TiedTo(origin, steps, |old(steps)|, k, r.sync.bind, OwnedAll(sys.c, r.seen.value.uid))
      ensures r.bound ==>
        && (r.requeue.Some? <==> sys.c.now < Expiry(r.seen.value))
        && (r.requeue.Some? ==> sys.c.now + r.requeue.value == Expiry(r.seen.value))
      ensures r.failed.Some? ==>
        r.seen.Some? && CanExpire(r.seen.value)
            && (!r.err ==> EndsFailed(sys.c, k, r.seen.value.status, r.failed.value))
      ensures !m.Anything? ==> r.failed.None? && (r.expired || r.seen.None? ==> !r.err)
      ensures r.seen.Some? && !m.Anything? && r.seen.value.deleting && FINALIZER in r.seen.value.finalizers ==>
        && OwnedAll(sys.c, r.seen.value.uid) == {}
        && (r.err ==> k !in sys.c.binds || sys.c.binds[k].rv != r.seen.value.rv)
      ensures r.seen.Some? && IsNew(r.seen.value) ==>
        && (!m.Anything? ==> !r.err)
        && (!r.err ==> IsPending(sys.c, k) && r.requeue == Some(SECOND))
      ensures r.seen.Some? && IsInvalid(r.seen.value) ==>
        && (!m.Anything? ==> !r.err)
        && (!r.err ==> IsRejected(sys.c, k, r.seen.value) && r.requeue.None?)
      ensures m.Calm? ==> !r.err && Ready(sys.c, k, spare) && Advances(View(old(sys.c), k), View(sys.c, k), k)
    {
      var err, seen := Begin(k, m);
      if seen.None? || (seen.value.deleting && FINALIZER !in seen.value.finalizers) {
        var none := Bind("", 0, false, {}, None, Spec(Lasting(0), "", "", []), FRESH, 0, 0, None, None);
        r := Report(err, None, seen, false, false, None, Sync(none, none, Account("", None), 0, {}, {}), [], []);
      } else {
        ghost var got := steps;
        r := ReconcileSeen(k, seen.value, m);
        if r.bound {
          TiedLater(origin, steps, SinceStart(got, k), steps, |old(steps)|, k, r.sync.bind,
                    OwnedAll(sys.c, seen.value.uid));
        }
      }
    }

    // ----- The timer -----

    /** Whatever happens while no reconcile of `k` is running, and any number of reconciles of `k`. */
    method Meanwhile(k: Key)
      requires Valid() && k !in sys.workers
      modifies this
      ensures Valid() && old(steps) <= steps && old(sys.c.now) <= sys.c.now && k !in sys.workers
    {
      var n :| 0 <= n;
      for i := 0 to n
        invariant Valid() && old(steps) <= steps && old(sys.c.now) <= sys.c.now && k !in sys.workers
      {
        Others(k, Anything);
        var again: bool := *;
        if again { var _ := Reconcile(k, Anything); }
      }
    }

    /** The requeue that a binding reconcile armed fires no earlier than the expiry. Unless the CR is gone or being
        deleted by then, was renewed, or got a TTL that does not parse, the reconcile that it starts revokes every
        binding, or reports an error. */
    method Timer(k: Key, first: Report, ghost returned: int, m: Mode) returns (second: Report)
      requires Valid() && k !in sys.workers && returned <= sys.c.now
      requires first.seen.Some? && CanExpire(first.seen.value) && first.requeue.Some?
      requires returned + first.requeue.value == Expiry(first.seen.value)
      modifies this
      ensures Valid() && old(steps) <= steps && Expiry(first.seen.value) <= sys.c.now && k !in sys.workers
      ensures
        && second.seen.Some? && CanExpire(second.seen.value)
        && Expiry(second.seen.value) <= Expiry(first.seen.value)
        ==> second.expired && (second.err || OwnedAll(sys.c, second.seen.value.uid) == {})
      ensures !m.Anything? && second.expired ==> !second.err
    {
      Meanwhile(k);
      var due := Expiry(first.seen.value);
      if sys.c.now < due { Take(Outside(Tick(due))); }
      second := Reconcile(k, Own(m));
    }

    /** How many reconciles of `k` will still change something, if it is a live bind and none of them is under way. */
    ghost function Remaining(k: Key): Option<nat>
      reads this
    {
      if k !in sys.workers && Ready(sys.c, k, spare) && Live(View(sys.c, k), k) then Some(Rank(View(sys.c, k), k))
      else None
    }

    /** One reconcile of a live bind, some time later. */
    method Round(k: Key, ghost n: nat) returns (wrote: bool)
      requires Valid() && Remaining(k) == Some(n)
      modifies this
      ensures Valid() && Remaining(k) == Some(if n == 0 then 0 else n - 1) && (wrote <==> n != 0)
    {
      Others(k, Calm);
      var before := View(sys.c, k);
      var _ := Reconcile(k, Calm);
      wrote := View(sys.c, k) != before;
    }

    /** Any number of reconciles of a live bind, one after the other. */
    method Rounds(k: Key, times: nat, ghost n: nat) returns (changed: seq<bool>)
      requires Valid() && Remaining(k) == Some(n)
      modifies this
      ensures Valid() && Remaining(k) == Some(if times < n then n - times else 0)
      ensures |changed| == times && forall i | 0 <= i < times :: changed[i] <==> i < n
    {
      changed := [];
      if times > 0 {
        changed := Rounds(k, times - 1, n);
        var wrote := Round(k, if times <= n then n - times + 1 else 0);
        changed := changed + [wrote];
      }
    }

    lemma StoredOk(k: Key)
      requires Valid() && k in sys.c.binds
      ensures BindOk(sys.c, k, sys.c.binds[k])
    {
      LeadsIs(origin, steps, sys);
      RunKeeps(origin, steps);
    }

    /** Any number of reconciles of a live bind, one after the other, while others do whatever does not touch the CR,
        its account and the roles, in between and between their calls, and the clock goes on up to the expiry: the first
        few, as many as the rank says, each change something of the CR's, and no later one changes anything of it. Then
        the CR is `binded` to its account until its expiry and owns exactly what the roles call for. */
    method Converge(k: Key, times: nat) returns (changed: seq<bool>)
      requires Valid() && k !in sys.workers && Ready(sys.c, k, spare)
      modifies this
      ensures Valid() && k !in sys.workers && Ready(sys.c, k, spare)
      ensures Live(View(old(sys.c), k), k) && |changed| == times
      ensures var n := Rank(View(old(sys.c), k), k);
        && n <= 3 && (forall i | 0 <= i < times :: changed[i] <==> i < n)
        && (n <= times ==> InPlace(sys.c, k))
    {
      ViewLive(sys.c, k);
      changed := Rounds(k, times, Rank(View(sys.c, k), k));
      if Rank(View(old(sys.c), k), k) <= times {
        StoredOk(k);
        AtRest(sys.c, k);
      }
    }

    /** A first bind: an Upsert creates the CR, whose account does not exist, or is nobody's. Of the reconciles that
        follow, the first three each change something, and then the bind is in place. */
    method FirstBind(k: Key, spec: Spec, stamp: int, uid: string, times: nat) returns (changed: seq<bool>)
      requires Valid() && k !in sys.workers && k !in sys.c.binds && CanAct(sys.c, Upsert(k, spec, stamp, uid))
      requires spec.ttl.Lasting? && sys.c.now < Truncate(stamp + spec.ttl.duration)
      requires k in sys.c.accounts ==> sys.c.accounts[k].controller.None?
      requires spare !in sys.c.uids && spare != uid && |spare| == UID_LENGTH
      modifies this
      ensures Valid() && k !in sys.workers && Ready(sys.c, k, spare) && |changed| == times
      ensures forall i | 0 <= i < times :: changed[i] <==> i < 3
      ensures 3 <= times ==> InPlace(sys.c, k)
    {
      NewBindReady(sys.c, k, spec, stamp, uid, spare);
      Take(Outside(Upsert(k, spec, stamp, uid)));
      changed := Converge(k, times);
    }
  }

  /** What a reconcile returns and, beyond the source, what it saw: the CR as read, whether it was judged expired, the
      error of a sync that failed, and the sync that went through with the two role lists it used. */
  datatype Report = Report(err: bool, requeue: Option<int>, seen: Option<Bind>, expired: bool, bound: bool,
                           failed: Option<string>, sync: Sync, crs: seq<Item>, rs: seq<Item>)

  /** What the call does to the account. */
  lemma EnsuredAccount(c: State, k: Key, b: Bind, e: int, a: Answer)
    requires Answers(c, k, EnsureAccount(b, e), a)
    ensures var ak := Key(k.ns, b.spec.user); var c' := DoEnsureAccount(c, k, b, e, a).c;
      && (ak in c.accounts && c.accounts[ak].controller.Some? && c.accounts[ak].controller != Some(b.uid) ==>
          c'.accounts == c.accounts && !AccountFree(c, k, b))
      && (ak in c.accounts && ak in c'.accounts ==> c'.accounts[ak].uid == c.accounts[ak].uid)
      && (ak !in c.accounts && a.outcome == Ok ==> ak in c'.accounts && c'.accounts[ak].uid !in c.uids)
      && c'.accounts - {ak} == c.accounts - {ak}
    ensures var n := DoEnsureAccount(c, k, b, e, a);
      n.More? && n.worker.MarkFailed? ==> n.worker.reason == "ServiceAccountFailed" && n.worker.message == a.message
  {
    var ak := SubjectOf(k, b);
    var c' := DoEnsureAccount(c, k, b, e, a).c;
    if a.outcome == Refused || !AccountFree(c, k, b) {
      assert c' == c;
    } else {
      assert c' == PutAccount(c, k, b, a.uid);
      PutElsewhere(c, k, b, a.uid);
    }
  }

  lemma PutElsewhere(c: State, k: Key, b: Bind, uid: string)
    ensures PutAccount(c, k, b, uid).accounts - {SubjectOf(k, b)} == c.accounts - {SubjectOf(k, b)}
  {
  }

  lemma StartCounts(steps: seq<Step>, k: Key)
    ensures SinceStart(steps + [Start(k)], k) == |steps| + 1
  {
  }

  lemma WantedScopes(c: State, k: Key, s: Sync, p: Pass, items: seq<Item>, i: nat)
    requires WorkerOk(c, k, CreateBindings(s, p, items, i))
    ensures forall bk | bk in Wanted(s.bind.uid, GroupsOf(s.bind), items) :: InPass(p, bk.scope) && ScopeOk(bk.scope)
  {
  }

  /** Keys of bindings of one pass. */
  predicate AllOf(p: Pass, keys: set<BindKey>) {
    forall bk | bk in keys :: InPass(p, bk.scope) && ScopeOk(bk.scope)
  }

  function Texts(keys: set<BindKey>): set<string> {
    set bk | bk in keys :: KeyText(bk)
  }

  lemma TextsNext(keys: set<BindKey>, bk: BindKey)
    ensures Texts(keys + {bk}) == Texts(keys) + {KeyText(bk)}
  {
  }

  lemma WantedEnds(uid: string, groups: set<string>, items: seq<Item>)
    ensures Texts(Wanted(uid, groups, items[..0])) == {} && items[..|items|] == items
  {
  }

  lemma WantedStep(uid: string, groups: set<string>, items: seq<Item>, i: nat)
    requires i < |items|
    ensures var bk := BindKeyOf(uid, items[i].role); var sofar := Wanted(uid, groups, items[..i]);
      if GroupMatches(groups, items[i].group) then
        && Texts(Wanted(uid, groups, items[..i + 1])) == Texts(sofar) + {KeyText(bk)}
        && bk in Wanted(uid, groups, items)
      else Wanted(uid, groups, items[..i + 1]) == sofar
  {
    WantedNext(uid, groups, items, i);
    TextsNext(Wanted(uid, groups, items[..i]), BindKeyOf(uid, items[i].role));
    assert items[i] in items;
  }

  /** Remembering texts is as good as remembering keys. */
  lemma TextsExact(p: Pass, keys: set<BindKey>, bk: BindKey)
    requires InPass(p, bk.scope) && ScopeOk(bk.scope)
    requires AllOf(p, keys)
    ensures KeyText(bk) in Texts(keys) <==> bk in keys
  {
    forall x | x in keys && KeyText(x) == KeyText(bk)
      ensures x == bk
    {
      KeyTextInjective(p, x, bk);
    }
  }

  /** The items of a role list, in some order. */
  method RolesOfPass(c: State, p: Pass) returns (items: seq<Item>)
    ensures IsRoleList(c, p, items)
  {
    items := [];
    var rest := set r | r in c.roles && InPass(p, r.scope);
    while rest != {}
      invariant forall r | r in rest :: r in c.roles && InPass(p, r.scope)
      invariant forall it | it in items ::
        it.role in c.roles && InPass(p, it.role.scope) && it.group == c.roles[it.role].group
      invariant forall r | r in c.roles && InPass(p, r.scope) :: r in rest || Item(r, c.roles[r].group) in items
      decreases rest
    {
      var r :| r in rest;
      items := items + [Item(r, c.roles[r].group)];
      rest := rest - {r};
    }
  }

  /** The members of a set, in some order. */
  method KeysOf(s: set<BindKey>) returns (keys: seq<BindKey>)
    ensures (set bk | bk in keys) == s
  {
    keys := [];
    var rest := s;
    while rest != {}
      invariant rest <= s
      invariant forall bk :: bk in keys <==> bk in s - rest
      decreases rest
    {
      var bk :| bk in rest;
      keys := keys + [bk];
      rest := rest - {bk};
    }
  }

  /** A step of the reconcile of another CR. */
  lemma AfterElsewhere(s: System, l: Key, n: Next, k: Key)
    requires l != k
    ensures var s' := After(s, l, n);
      && s'.c == n.c && (k in s'.workers <==> k in s.workers) && (k in s.workers ==> s'.workers[k] == s.workers[k])
  {
  }

  lemma ActTime(c: State, a: Action)
    requires CanAct(c, a)
    ensures c.now <= Act(c, a).now
  {
    match a
    case Tick(_) =>
    case Upsert(k, spec, stamp, uid) => UpsertIs(c, k, spec, stamp, uid);
    case _ => ActApart(c, a);
  }

  lemma ForeignStep(s: System, t: Step, k: Key)
    requires CanStep(s, t) && Foreign(t, k)
    ensures var s' := DoStep(s, t);
      && (k in s'.workers <==> k in s.workers) && (k in s.workers ==> s'.workers[k] == s.workers[k])
      && s.c.now <= s'.c.now
  {
    match t
    case Outside(a) => ActTime(s.c, a);
    case Start(_) =>
    case Crash(_) =>
    case Advance(l, a) =>
      var n := Work(s.c, l, s.workers[l], a);
      AfterElsewhere(s, l, n, k);
      WorkTime(s.c, l, s.workers[l], a);
  }
}
