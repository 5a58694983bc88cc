/**
 The broker's binder in its own form: Upsert writes the CR of an identity, WaitBinded polls its phase. Everybody else,
 the operator included, may act before each access.
 */
module Binder {
  import opened Base
  import opened Naming
  import opened Sanitize
  import opened StatusPatch
  import Cluster
  import Operator
  import OperatorTheorems
  import Handshake
  import Broker
  import Handlers
  import opened Deployment

  method ToCRMemberships(ms: seq<Cluster.Membership>) returns (out: seq<Cluster.Membership>)
    ensures out == ms
  {
    out := [];
    for i := 0 to |ms|
      invariant out == ms[..i]
    {
      out := out + [Cluster.Membership(ms[i].gid, ms[i].name, ms[i].domain)];
    }
  }

  /** The CR that Upsert writes for an identity. */
  method SpecOf(env: Settings, id: Broker.Identity) returns (k: Cluster.Key, spec: Cluster.Spec)
    ensures k == KeyFor(env, id.email) && spec == SpecFor(env, id)
    ensures k.ns == env.ns && k.name == SanitizeName(env.cfg.lower, id.email) && ValidName(k.name)
    ensures spec.ttl == env.ttl && spec.domain == id.domain && spec.user == k.name && spec.memberships == id.groups
  {
    var name := Sanitized(env.cfg.lower, id.email);
    var ms := ToCRMemberships(id.groups);
    k, spec := Cluster.Key(env.ns, name), Cluster.Spec(env.ttl, id.domain, name, ms);
  }

  /** The steps that others take while handler `h` waits. */
  predicate Foreign(t: Step, h: nat) {
    match t
    case Clock(_) => true
    case OfOperator(_) => true
    case OfBroker(u) => Handlers.Foreign(u, h)
    case Upsert(g, _, _, _) => g != h
  }

  lemma HandlerUntouched(env: Settings, w: World, t: Step, h: nat)
    requires CanStep(env, w, t) && Foreign(t, h) && h in w.b.handlers
    ensures var w' := DoStep(env, w, t); h in w'.b.handlers && w'.b.handlers[h] == w.b.handlers[h]
  {
    match t
    case Clock(until) => Handlers.HandlerUntouched(env.cfg, w.b, Broker.Tick(until), h);
    case OfOperator(_) =>
    case OfBroker(u) => Handlers.HandlerUntouched(env.cfg, w.b, u, h);
    case Upsert(g, stamp, _, o) => Handlers.HandlerUntouched(env.cfg, w.b, Broker.Step.Upsert(g, stamp, o), h);
  }

  /** What an Upsert that landed in `at` can count on: everything is fresh since, on the condition of the handshake. */
  ghost predicate Trusted(at: World, k: Cluster.Key, w: World, n: nat, grouped: bool) {
    Handshake.StartsFresh(at.sys.c, k, grouped) && (grouped ==> Handshake.AllGrouped(w.sys.c, k, n)) ==>
      Handshake.FreshSince(w.sys, k, n, grouped)
  }

  lemma StaysTrusted(env: Settings, at: World, k: Cluster.Key, w: World, n: nat, grouped: bool, t: Step)
    requires CanStep(env, w, t) && Trusted(at, k, w, n, grouped)
    ensures Trusted(at, k, DoStep(env, w, t), n, grouped)
  {
    var w' := DoStep(env, w, t);
    var ops := OperatorSteps(env, w, t);
    if
      && Handshake.StartsFresh(at.sys.c, k, grouped) && (grouped ==> Handshake.AllGrouped(w'.sys.c, k, n))
      && ops != []
    {
      if grouped {
        Handshake.UpsertsGrow(w.sys, ops[0]);
        Handshake.GroupedBefore(w.sys.c, w'.sys.c, k, n);
      }
      Handshake.StepFresh(w.sys, ops[0], k, n, grouped);
    }
  }

  /** The Upsert that a handler waits for: the world it was written in. */
  ghost predicate WrittenIn(at: World, k: Cluster.Key, w: World, n: nat) {
    n == |at.sys.c.upserts| && Trusted(at, k, w, n, true) && Trusted(at, k, w, n, false)
  }

  lemma StaysWritten(env: Settings, at: World, k: Cluster.Key, w: World, n: nat, t: Step)
    requires CanStep(env, w, t) && WrittenIn(at, k, w, n)
    ensures WrittenIn(at, k, DoStep(env, w, t), n)
  {
    StaysTrusted(env, at, k, w, n, true, t);
    StaysTrusted(env, at, k, w, n, false, t);
  }

  class Client {
    const env: Settings
    var w: World

    // the run so far
    ghost const origin: World
    ghost var steps: seq<Step>

    ghost predicate Valid()
      reads this
    {
      Reached(env, origin, steps, w)
    }

    predicate Running(h: nat, x: Broker.Handler)
      reads this
    {
      h in w.b.handlers && w.b.handlers[h] == x
    }

    constructor (env: Settings, w: World)
      requires Operator.Initial(w.sys) && w.sys.c.now == 0 && w.b == Broker.START
      ensures Valid() && this.w == w && this.env == env
    {
      this.env, this.w, origin, steps := env, w, w, [];
    }

    method Take(t: Step)
      requires Valid() && CanStep(env, w, t)
      modifies this
      ensures Valid() && w == DoStep(env, old(w), t) && steps == old(steps) + [t]
    {
      assert (steps + [t])[..|steps|] == steps;
      w := DoStep(env, w, t);
      steps := steps + [t];
    }

    /** Any number of steps of everybody else, the operator included. */
    method Others(h: nat, ghost x: Broker.Handler, ghost at: World, ghost k: Cluster.Key, ghost n: nat)
      requires Valid() && Running(h, x)
      modifies this
      ensures Valid() && old(steps) <= steps && Running(h, x)
      ensures old(WrittenIn(at, k, w, n)) ==> WrittenIn(at, k, w, n)
    {
      var m :| 0 <= m;
      for i := 0 to m
        invariant Valid() && old(steps) <= steps && Running(h, x)
        invariant old(WrittenIn(at, k, w, n)) ==> WrittenIn(at, k, w, n)
      {
        var t: Step := *;
        if CanStep(env, w, t) && Foreign(t, h) {
          HandlerUntouched(env, w, t, h);
          if WrittenIn(at, k, w, n) { StaysWritten(env, at, k, w, n, t); }
          Take(t);
        }
      }
    }

    /** Upsert: the CR is created, with the UID that the API server gives it, or overwritten, with the stamp of now, as
        one write or not at all. */
    method Upsert(h: nat, job: Broker.Job, uid: string, lucky: bool)
      returns (err: bool, k: Cluster.Key, ghost at: World, ghost n: nat)
      requires Valid() && Running(h, Broker.Upserting(job))
      modifies this
      ensures Valid() && old(steps) <= steps && k == KeyFor(env, job.id.email)
      ensures !err ==> Running(h, Broker.Waiting(job, n)) && WrittenIn(at, k, w, n)
      ensures !err ==> |w.sys.c.upserts| == n + 1 && w.sys.c.upserts[n].key == k && k in w.sys.c.binds
      ensures !err ==>
        var spec := w.sys.c.upserts[n].spec;
        && spec.ttl == env.ttl && spec.domain == job.id.domain && spec.user == k.name
        && spec.memberships == job.id.groups && w.sys.c.binds[k].spec == spec
        && w.sys.c.binds[k].renewed == Some(w.sys.c.upserts[n].stamp) && w.sys.c.upserts[n].stamp <= w.sys.c.now
      ensures lucky && (k in at.sys.c.binds || (uid !in at.sys.c.uids && |uid| == UID_LENGTH)) ==> !err
    {
      Others(h, Broker.Upserting(job), w, Cluster.Key("", ""), 0);
      var spec;
      k, spec := SpecOf(env, job.id);
      var o := Refused;
      var stamp :| stamp <= w.b.now;
      TimesAgree(env, steps, origin, w);
      if Cluster.CanAct(w.sys.c, Cluster.Upsert(k, spec, stamp, uid)) {
        o := *;
        if lucky { o := Ok; }
      }
      at, n := w, |w.b.log.renewals|;
      UpsertWrites(env, steps, origin, w, h, job, stamp, uid, o);
      Take(Step.Upsert(h, stamp, uid, o));
      err := o != Ok;
    }

    /** Get: the phase of the CR, unless it cannot be read or is not there. */
    method Get(k: Cluster.Key, lucky: bool) returns (phase: Option<Phase>)
      ensures phase.Some? ==> k in w.sys.c.binds && phase.value == w.sys.c.binds[k].status.phase
      ensures lucky && phase.None? ==> k !in w.sys.c.binds
    {
      var got: bool := *;
      phase := if (got || lucky) && k in w.sys.c.binds then Some(w.sys.c.binds[k].status.phase) else None;
    }

    /** WaitBinded: poll until the phase is `binded` or `failed`, the CR cannot be read, or time is up. `seen` are the
        phases that were read. It succeeds exactly when the last one was `binded`, and reports a failed bind exactly
        when it was `failed`; neither was read before. If the Upsert had found no CR, or one without a phase, success
        means that a reconcile has synced the memberships of that Upsert or a later one, and `failed` means that a
        reconcile has reported a failure after reading one of them. Success means the same if the Upsert had found a
        phase other than `binding` and `binded` and no Upsert since lacks memberships. */
    method WaitBinded(h: nat, job: Broker.Job, k: Cluster.Key, lucky: bool, ghost at: World, ghost n: nat)
      returns (err: bool, failed: bool, ghost seen: seq<Option<Phase>>)
      requires Valid() && Running(h, Broker.Waiting(job, n)) && k == KeyFor(env, job.id.email) && WrittenIn(at, k, w, n)
      modifies this
      ensures Valid() && old(steps) <= steps && seen != []
      ensures err ==> h !in w.b.handlers
      ensures !err ==> Running(h, Broker.Minting(job, n)) && Handshake.SeesBinded(w.sys.c, k)
      ensures !err <==> seen[|seen| - 1] == Some(Binded)
      ensures failed <==> seen[|seen| - 1] == Some(Failed)
      ensures forall i | 0 <= i < |seen| - 1 :: seen[i].Some? && seen[i].value != Binded && seen[i].value != Failed
      ensures Shows(k, seen[|seen| - 1], lucky)
      ensures
        && !err
        && (|| Handshake.StartsFresh(at.sys.c, k, false)
            || (Handshake.StartsFresh(at.sys.c, k, true) && Handshake.AllGrouped(w.sys.c, k, n)))
        ==> w.sys.c.binds[k].synced.Some? && n <= w.sys.c.binds[k].synced.value
      ensures failed && Handshake.StartsFresh(at.sys.c, k, false) ==>
        w.sys.c.binds[k].blamed.Some? && n <= w.sys.c.binds[k].blamed.value
    {
      err, failed, seen := Poll(h, job, k, lucky, at, n);
      WaitEnds(env, w, h, job, n, !err);
      Take(OfBroker(Broker.Wait(h, !err)));
    }

    /** Handler `h` waits for the Upsert that landed in `at`. */
    ghost predicate Awaits(h: nat, job: Broker.Job, k: Cluster.Key, at: World, n: nat)
      reads this
    {
      Valid() && Running(h, Broker.Waiting(job, n)) && WrittenIn(at, k, w, n)
    }

    /** What was read last is stored. */
    ghost predicate Shows(k: Cluster.Key, phase: Option<Phase>, lucky: bool)
      reads this
    {
      match phase
      case Some(p) => k in w.sys.c.binds && w.sys.c.binds[k].status.phase == p
      case None => lucky ==> k !in w.sys.c.binds
    }

    /** One poll, after everybody else had a turn. */
    method PollOnce(h: nat, job: Broker.Job, k: Cluster.Key, lucky: bool, ghost at: World, ghost n: nat)
      returns (phase: Option<Phase>)
      requires Awaits(h, job, k, at, n)
      modifies this
      ensures Awaits(h, job, k, at, n) && old(steps) <= steps && Shows(k, phase, lucky)
    {
      Others(h, Broker.Waiting(job, n), at, k, n);
      phase := Get(k, lucky);
    }

    /** The loop of WaitBinded. */
    method Poll(h: nat, job: Broker.Job, k: Cluster.Key, lucky: bool, ghost at: World, ghost n: nat)
      returns (err: bool, failed: bool, ghost seen: seq<Option<Phase>>)
      requires Awaits(h, job, k, at, n)
      modifies this
      ensures Awaits(h, job, k, at, n) && old(steps) <= steps
      ensures seen != [] && Shows(k, seen[|seen| - 1], lucky)
      ensures (!err <==> seen[|seen| - 1] == Some(Binded)) && (failed <==> seen[|seen| - 1] == Some(Failed))
      ensures forall i | 0 <= i < |seen| - 1 :: Passing(seen[i])
    {
      var polls :| 0 <= polls;
      var last := PollOnce(h, job, k, lucky, at, n);
      seen := [last];
      while polls > 0 && last.Some? && last.value != Binded && last.value != Failed
        invariant Awaits(h, job, k, at, n) && old(steps) <= steps
        invariant seen != [] && seen[|seen| - 1] == last && Shows(k, last, lucky)
        invariant forall i | 0 <= i < |seen| - 1 :: Passing(seen[i])
        decreases polls
      {
        last := PollOnce(h, job, k, lucky, at, n);
        seen := seen + [last];
        polls := polls - 1;
      }
      err, failed := last != Some(Binded), last == Some(Failed);
    }
  }

  /** WaitBinded polls on after reading this. */
  predicate Passing(phase: Option<Phase>) {
    phase.Some? && phase.value != Binded && phase.value != Failed
  }

  lemma TimesAgree(env: Settings, steps: seq<Step>, origin: World, w: World)
    requires Reached(env, origin, steps, w)
    ensures w.sys.c.now == w.b.now
  {
    var _, _ := ReachedParts(env, origin, steps, w);
  }

  lemma UpsertWrites(env: Settings, steps: seq<Step>, origin: World, w: World, h: nat, job: Broker.Job, stamp: int,
                     uid: string, o: Outcome)
    requires Reached(env, origin, steps, w) && h in w.b.handlers && w.b.handlers[h] == Broker.Upserting(job)
    requires stamp <= w.b.now
    requires o != Refused ==> Cluster.CanAct(w.sys.c, UpsertFor(env, job.id, stamp, uid))
    ensures CanStep(env, w, Step.Upsert(h, stamp, uid, o))
    ensures var k := KeyFor(env, job.id.email); var w' := DoStep(env, w, Step.Upsert(h, stamp, uid, o));
      var n := |w.b.log.renewals|;
      o == Ok ==>
        && h in w'.b.handlers && w'.b.handlers[h] == Broker.Waiting(job, n) && WrittenIn(w, k, w', n)
        && |w'.sys.c.upserts| == n + 1 && w'.sys.c.upserts[n] == Cluster.Written(k, SpecFor(env, job.id), stamp)
        && k in w'.sys.c.binds && w'.sys.c.binds[k].spec == SpecFor(env, job.id)
        && w'.sys.c.binds[k].renewed == Some(stamp) && stamp <= w'.sys.c.now
  {
    var k := KeyFor(env, job.id.email);
    var ops, _ := ReachedParts(env, origin, steps, w);
    Handlers.UpsertIs(w.b, h, job, stamp, o);
    var w' := DoStep(env, w, Step.Upsert(h, stamp, uid, o));
    assert w'.b == Broker.DoUpsert(w.b, h, job, stamp, o);
    if o == Ok {
      assert w'.sys == Operator.DoStep(w.sys, Operator.Outside(UpsertFor(env, job.id, stamp, uid)));
      OperatorTheorems.UpsertIs(w.sys.c, k, SpecFor(env, job.id), stamp, uid);
      Handshake.UpsertSource(w.sys.c, k, SpecFor(env, job.id), stamp, uid, k);
      UpsertFresh(origin.sys, ops, w.sys, k, SpecFor(env, job.id), stamp, uid, true);
      UpsertFresh(origin.sys, ops, w.sys, k, SpecFor(env, job.id), stamp, uid, false);
    }
  }

  lemma UpsertFresh(s0: Operator.System, ops: seq<Operator.Step>, s: Operator.System, k: Cluster.Key,
                    spec: Cluster.Spec, stamp: int, uid: string, grouped: bool)
    requires OperatorTheorems.Reached(s0, ops, s) && Cluster.CanAct(s.c, Cluster.Upsert(k, spec, stamp, uid))
    ensures var s' := Operator.DoStep(s, Operator.Outside(Cluster.Upsert(k, spec, stamp, uid))); var n := |s.c.upserts|;
      Handshake.StartsFresh(s.c, k, grouped) && (grouped ==> Handshake.AllGrouped(s'.c, k, n)) ==>
        Handshake.FreshSince(s', k, n, grouped)
  {
    OperatorTheorems.UpsertIs(s.c, k, spec, stamp, uid);
    var s' := Operator.DoStep(s, Operator.Outside(Cluster.Upsert(k, spec, stamp, uid)));
    assert s'.c.upserts[|s.c.upserts|] == Cluster.Written(k, spec, stamp);
    if Handshake.StartsFresh(s.c, k, grouped) && (grouped ==> spec.memberships != []) {
      OperatorTheorems.ReachedInv(s0, ops, s);
      Handshake.FreshAfterUpsert(s, k, spec, stamp, uid, grouped);
    }
  }

  lemma WaitEnds(env: Settings, w: World, h: nat, job: Broker.Job, n: nat, ok: bool)
    requires h in w.b.handlers && w.b.handlers[h] == Broker.Waiting(job, n)
    requires ok ==> Handshake.SeesBinded(w.sys.c, KeyFor(env, job.id.email))
    ensures CanStep(env, w, OfBroker(Broker.Wait(h, ok)))
    ensures var w' := DoStep(env, w, OfBroker(Broker.Wait(h, ok)));
      w'.sys == w.sys && if ok then h in w'.b.handlers
          && w'.b.handlers[h] == Broker.Minting(job, n) else h !in w'.b.handlers
  {
  }
}
