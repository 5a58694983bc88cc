/**
 Broker and operator together: one clock, one cluster. The broker's Upsert is the only writer of CR specs, and its
 WaitBinded succeeds on what the operator has stored.
 */
module Deployment {
  import opened Base
  import opened Sanitize
  import Cluster
  import Operator
  import OperatorInvariant
  import OperatorTheorems
  import Handshake
  import Broker
  import BrokerInvariant
  import BrokerTheorems
  import Proxy

  /** The broker's configuration, with the namespace and the TTL of its binder. */
  datatype Settings = Settings(cfg: Broker.Config, ns: string, ttl: Cluster.Ttl)

  datatype World = World(sys: Operator.System, b: Broker.State)

  datatype Step =
    | Clock(until: int)
    | OfOperator(t: Operator.Step)
    | OfBroker(u: Broker.Step)
    | Upsert(h: nat, stamp: int, uid: string, outcome: Outcome)

  /** The resource name, spec.user and the account that Upsert derives from an identity. */
  function NameFor(env: Settings, email: string): string {
    SanitizeName(env.cfg.lower, email)
  }

  function KeyFor(env: Settings, email: string): Cluster.Key {
    Cluster.Key(env.ns, NameFor(env, email))
  }

  function SpecFor(env: Settings, id: Broker.Identity): Cluster.Spec {
    Cluster.Spec(env.ttl, id.domain, NameFor(env, id.email), id.groups)
  }

  function UpsertFor(env: Settings, id: Broker.Identity, stamp: int, uid: string): Cluster.Action {
    Cluster.Upsert(KeyFor(env, id.email), SpecFor(env, id), stamp, uid)
  }

  /** The steps that are taken together with the other side. */
  predicate Shared(t: Operator.Step) {
    t.Outside? && (t.action.Tick? || t.action.Upsert?)
  }

  predicate CanStep(env: Settings, w: World, t: Step) {
    match t
    case Clock(until) => w.b.now <= until && w.sys.c.now <= until
    case OfOperator(t) => Operator.CanStep(w.sys, t) && !Shared(t)
    case OfBroker(u) =>
      && Broker.CanStep(w.b, u) && !u.Tick? && !u.Upsert?
      && (u.Wait? && u.ok ==> Handshake.SeesBinded(w.sys.c, KeyFor(env, w.b.handlers[u.h].job.id.email)))
    case Upsert(h, stamp, uid, o) =>
      && Broker.CanStep(w.b, Broker.Step.Upsert(h, stamp, o))
      && (o != Refused ==> Cluster.CanAct(w.sys.c, UpsertFor(env, w.b.handlers[h].job.id, stamp, uid)))
  }

  /** What a step means for each side. */
  function OperatorSteps(env: Settings, w: World, t: Step): seq<Operator.Step>
    requires CanStep(env, w, t)
  {
    match t
    case Clock(until) => [Operator.Outside(Cluster.Tick(until))]
    case OfOperator(t) => [t]
    case OfBroker(_) => []
    case Upsert(h, stamp, uid, o) =>
      if o == Refused then [] else [Operator.Outside(UpsertFor(env, w.b.handlers[h].job.id, stamp, uid))]
  }

  function BrokerSteps(t: Step): seq<Broker.Step> {
    match t
    case Clock(until) => [Broker.Tick(until)]
    case OfOperator(_) => []
    case OfBroker(u) => [u]
    case Upsert(h, stamp, _, o) => [Broker.Step.Upsert(h, stamp, o)]
  }

  function DoStep(env: Settings, w: World, t: Step): World
    requires CanStep(env, w, t)
  {
    var ops, bs := OperatorSteps(env, w, t), BrokerSteps(t);
    World(if ops == [] then w.sys else Operator.DoStep(w.sys, ops[0]), if bs == [] then w.b
          else Broker.DoStep(env.cfg, w.b, bs[0]))
  }

  ghost function Run(env: Settings, w: World, steps: seq<Step>): Option<World> {
    if steps == [] then Some(w)
    else
      var r := Run(env, w, steps[..|steps| - 1]);
      if r.Some? && CanStep(env, r.value, steps[|steps| - 1]) then Some(DoStep(env, r.value, steps[|steps| - 1]))
          else None
  }

  /** A cluster without CRs at time 0, and an idle broker. */
  ghost predicate Reached(env: Settings, w0: World, steps: seq<Step>, w: World) {
    Operator.Initial(w0.sys) && w0.sys.c.now == 0 && w0.b == Broker.START && Run(env, w0, steps) == Some(w)
  }

  // ----- A run of the whole is a run of each part -----

  lemma {:induction false} Projects(env: Settings, w0: World, steps: seq<Step>, w: World)
    returns (ops: seq<Operator.Step>, bs: seq<Broker.Step>)
    requires Run(env, w0, steps) == Some(w)
    ensures Operator.Run(w0.sys, ops) == Some(w.sys)
    ensures Broker.Run(env.cfg, w0.b, bs) == Some(w.b)
  {
    if steps == [] {
      ops, bs := [], [];
    } else {
      var t, before := steps[|steps| - 1], Run(env, w0, steps[..|steps| - 1]).value;
      ops, bs := Projects(env, w0, steps[..|steps| - 1], before);
      var os, us := OperatorSteps(env, before, t), BrokerSteps(t);
      if os != [] {
        Operator.RunExtends(w0.sys, ops, os[0]);
        ops := ops + os;
      }
      if us != [] {
        Broker.RunExtends(env.cfg, w0.b, bs, us[0]);
        bs := bs + us;
      }
    }
  }

  /** What the two sides agree on: the time, and what was written by which Upsert. */
  ghost predicate Joint(env: Settings, w: World) {
    && w.sys.c.now == w.b.now && |w.sys.c.upserts| == |w.b.log.renewals|
    && forall n | 0 <= n < |w.b.log.renewals| :: w.sys.c.upserts[n] == WrittenFor(env, w.b.log.renewals[n])
  }

  function WrittenFor(env: Settings, r: Broker.Renewal): Cluster.Written {
    Cluster.Written(KeyFor(env, r.id.email), SpecFor(env, r.id), r.stamp)
  }

  lemma StepJoint(env: Settings, w: World, t: Step)
    requires Joint(env, w) && CanStep(env, w, t)
    ensures Joint(env, DoStep(env, w, t))
  {
    match t
    case Clock(until) =>
    case OfOperator(t) => OperatorApart(w.sys, t);
    case OfBroker(u) => BrokerApart(env.cfg, w.b, u);
    case Upsert(h, stamp, uid, o) => UpsertJoint(env, w, h, stamp, uid, o);
  }

  lemma BrokerUpsert(s: Broker.State, h: nat, job: Broker.Job, stamp: int, o: Outcome)
    ensures var s' := Broker.DoUpsert(s, h, job, stamp, o);
      s'.now == s.now && s'.log.renewals == if o == Refused then s.log.renewals
          else s.log.renewals + [Broker.Renewal(job.id, job.login, stamp)]
  {
    if o == Refused {
    } else if o == Lost {
    }
  }

  lemma UpsertJoint(env: Settings, w: World, h: nat, stamp: int, uid: string, o: Outcome)
    requires Joint(env, w) && CanStep(env, w, Upsert(h, stamp, uid, o))
    ensures Joint(env, DoStep(env, w, Upsert(h, stamp, uid, o)))
  {
    var job := w.b.handlers[h].job;
    BrokerUpsert(w.b, h, job, stamp, o);
    var w' := DoStep(env, w, Upsert(h, stamp, uid, o));
    assert w'.b == Broker.DoUpsert(w.b, h, job, stamp, o);
    if o != Refused {
      var k, spec := KeyFor(env, job.id.email), SpecFor(env, job.id);
      OperatorTheorems.UpsertIs(w.sys.c, k, spec, stamp, uid);
      assert w'.sys.c == Cluster.DoUpsert(w.sys.c, k, spec, stamp, uid);
    }
  }

  /** The operator's own steps leave the clock and the Upserts alone. */
  lemma OperatorApart(s: Operator.System, t: Operator.Step)
    requires Operator.CanStep(s, t) && !Shared(t)
    ensures var s' := Operator.DoStep(s, t); s'.c.now == s.c.now && s'.c.upserts == s.c.upserts
  {
    match t
    case Advance(k, a) =>
      assert |k.name + "x"| != |k.name|;
      OperatorTheorems.WorkElsewhere(s.c, k, s.workers[k], a, Cluster.Key(k.ns, k.name + "x"));
      OperatorTheorems.WorkTime(s.c, k, s.workers[k], a);
    case Outside(a) => OperatorTheorems.ActApart(s.c, a);
    case _ =>
  }

  /** The broker's other steps leave the clock and the Upserts alone. */
  lemma BrokerApart(cfg: Broker.Config, s: Broker.State, u: Broker.Step)
    requires Broker.CanStep(s, u) && !u.Tick? && !u.Upsert?
    ensures var s' := Broker.DoStep(cfg, s, u); s'.now == s.now && s'.log.renewals == s.log.renewals
  {
    match u
    case SaveRefresh(h, token, o) =>
      SaveApart(cfg, s, h, s.handlers[h].job, s.handlers[h].n, s.handlers[h].access, token, o);
    case Mint(h, text) => MintApart(cfg, s, h, s.handlers[h].job, s.handlers[h].n, text);
    case _ =>
  }

  lemma SaveApart(cfg: Broker.Config, s: Broker.State, h: nat, job: Broker.Job, n: nat, access: Broker.Access,
                  token: string, o: Outcome)
    ensures var s' := Broker.DoSaveRefresh(cfg, s, h, job, n, access, token, o);
      && s'.now == s.now
      && s'.log.renewals == s.log.renewals
  {
    match o
    case Lost =>
    case Refused =>
    case Ok => if job.flow.ForCode? {}
  }

  lemma MintApart(cfg: Broker.Config, s: Broker.State, h: nat, job: Broker.Job, n: nat, text: Option<string>)
    ensures var s' := Broker.DoMint(cfg, s, h, job, n, text); s'.now == s.now && s'.log.renewals == s.log.renewals
  {
    if text.None? {
    } else {
    }
  }

  lemma {:induction false} RunJoint(env: Settings, w0: World, steps: seq<Step>, w: World)
    requires Joint(env, w0) && Run(env, w0, steps) == Some(w)
    ensures Joint(env, w)
  {
    if steps != [] {
      var before := Run(env, w0, steps[..|steps| - 1]).value;
      RunJoint(env, w0, steps[..|steps| - 1], before);
      StepJoint(env, before, steps[|steps| - 1]);
    }
  }

  lemma ReachedParts(env: Settings, w0: World, steps: seq<Step>, w: World)
      returns (ops: seq<Operator.Step>, bs: seq<Broker.Step>)
    requires Reached(env, w0, steps, w)
    ensures OperatorTheorems.Reached(w0.sys, ops, w.sys) && BrokerTheorems.Reached(env.cfg, bs, w.b) && Joint(env, w)
  {
    ops, bs := Projects(env, w0, steps, w);
    RunJoint(env, w0, steps, w);
  }

  // ----- Provenance -----

  /** The login that explains a binding: verified, of an allowed domain, a member of the group that the bound role was
      annotated with, and the one whose sanitized email names the bound account. */
  predicate Explains(env: Settings, w: World, b: Cluster.RoleBinding, gid: string, l: Broker.Login) {
    && l.id.verified && Broker.AllowedDomain(env.cfg, l.id.domain)
    && gid in Cluster.Gids(l.id.groups) && (b.role, gid) in w.sys.c.tags
    && b.subject == KeyFor(env, l.id.email)
  }

  /** In every state that broker and operator can reach together, every binding that the operator owns goes back to a
      vetted login of the account it binds, in a group that the role was annotated with, through whatever number of
      refreshes. */
  lemma Provenance(env: Settings, w0: World, steps: seq<Step>, w: World, bk: Cluster.BindKey)
    requires Reached(env, w0, steps, w) && bk in w.sys.c.bindings && w.sys.c.bindings[bk].owner.Some?
    ensures exists gid, l :: l in w.b.log.logins && Explains(env, w, w.sys.c.bindings[bk], gid, l)
  {
    var ops, bs := ReachedParts(env, w0, steps, w);
    OperatorTheorems.BindingsGranted(w0.sys, ops, w.sys, bk);
    BrokerTheorems.IdentityUnchanged(env.cfg, bs, w.b);
    var g := w.sys.c.grants[bk];
    var r := w.b.log.renewals[g.src];
    assert w.sys.c.upserts[g.src] == WrittenFor(env, r);
    var l := w.b.log.logins[r.login];
    assert l in w.b.log.logins && Explains(env, w, w.sys.c.bindings[bk], g.gid, l);
  }

  // ----- Handshake -----

  /** The step from `w` to `w1` is a successful Upsert of CR `k`. */
  ghost predicate Upserts(env: Settings, w: World, t: Step, w1: World, k: Cluster.Key) {
    && t.Upsert? && t.outcome == Ok && CanStep(env, w, t) && w1 == DoStep(env, w, t)
    && KeyFor(env, w.b.handlers[t.h].job.id.email) == k
  }

  /** In `w`, the WaitBinded of some handler may succeed on CR `k`. */
  predicate CanTrust(env: Settings, w: World, g: nat, k: Cluster.Key) {
    CanStep(env, w, OfBroker(Broker.Wait(g, true))) && KeyFor(env, w.b.handlers[g].job.id.email) == k
  }

  /** If the CR was absent, or without a phase, when a handler's Upsert landed, then whenever a WaitBinded for that CR
      succeeds afterwards, `binded` had been stored by a reconcile that synced that Upsert's memberships or a later
      one's. The same holds for a CR in a phase other than `binding` and `binded`, if no Upsert since lacks
      memberships. */
  lemma WaitIsFresh(env: Settings, w0: World, before: seq<Step>, w: World, t: Step, w1: World, k: Cluster.Key,
                    after: seq<Step>, end: World, g: nat, grouped: bool)
    requires Reached(env, w0, before, w) && Upserts(env, w, t, w1, k) && Handshake.StartsFresh(w.sys.c, k, grouped)
    requires Run(env, w1, after) == Some(end) && CanTrust(env, end, g, k)
    requires grouped ==> Handshake.AllGrouped(end.sys.c, k, |w.sys.c.upserts|)
    ensures k in end.sys.c.binds && end.sys.c.binds[k].synced.Some?
    ensures |w.b.log.renewals| <= end.sys.c.binds[k].synced.value
  {
    var spec := UpsertActs(env, w, t, w1, k);
    var ops, _ := ReachedParts(env, w0, before, w);
    var rest, _ := Projects(env, w1, after, end);
    Handshake.BindedIsFresh(w0.sys, ops, w.sys, k, spec, t.stamp, t.uid, rest, end.sys, grouped);
    TrustSees(env, end, g, k);
  }

  lemma UpsertActs(env: Settings, w: World, t: Step, w1: World, k: Cluster.Key) returns (spec: Cluster.Spec)
    requires Upserts(env, w, t, w1, k)
    ensures Cluster.CanAct(w.sys.c, Cluster.Upsert(k, spec, t.stamp, t.uid))
    ensures w1.sys == Operator.DoStep(w.sys, Operator.Outside(Cluster.Upsert(k, spec, t.stamp, t.uid)))
    ensures |w.b.log.renewals| < |w1.b.log.renewals|
  {
    var job := w.b.handlers[t.h].job;
    spec := SpecFor(env, job.id);
    BrokerUpsert(w.b, t.h, job, t.stamp, Ok);
  }

  lemma TrustSees(env: Settings, w: World, g: nat, k: Cluster.Key)
    requires CanTrust(env, w, g, k)
    ensures Handshake.SeesBinded(w.sys.c, k)
  {
  }

  // ----- The shared sliding window -----

  /** With the default lifetime of refresh tokens, which is the TTL of binds, the bind that a token issue renewed
      expires no later than the refresh token issued with it, and earlier by less than a second plus the time from the
      renewal stamp to the saving of the token. */
  lemma SharedWindow(env: Settings, w0: World, steps: seq<Step>, w: World, t: string)
    requires Reached(env, w0, steps, w) && t in w.b.refresh
    requires env.ttl.Lasting? && env.cfg.refreshLifetime == env.ttl.duration
    ensures t in w.b.log.savedOf && w.b.log.savedOf[t].n < |w.b.log.renewals|
    ensures w.b.log.savedOf[t].n < |w.sys.c.upserts|
    ensures var x := w.b.log.savedOf[t]; var k := w.sys.c.upserts[x.n].key;
      k in w.sys.c.binds && w.sys.c.binds[k].src == x.n ==>
        && w.sys.c.binds[k].spec.ttl.Lasting?
        && 0 <= w.b.refresh[t].exp - Operator.Expiry(w.sys.c.binds[k]) < SECOND + (x.at - w.b.log.renewals[x.n].stamp)
  {
    var ops, bs := ReachedParts(env, w0, steps, w);
    SavedKnown(env.cfg, bs, w.b, t);
    var x := w.b.log.savedOf[t];
    var k := w.sys.c.upserts[x.n].key;
    assert w.sys.c.upserts[x.n] == WrittenFor(env, w.b.log.renewals[x.n]);
    if k in w.sys.c.binds && w.sys.c.binds[k].src == x.n {
      BindKnown(w0.sys, ops, w.sys, k);
    }
  }

  lemma SavedKnown(cfg: Broker.Config, bs: seq<Broker.Step>, b: Broker.State, t: string)
    requires BrokerTheorems.Reached(cfg, bs, b) && t in b.refresh
    ensures t in b.log.savedOf && b.refresh[t].exp == b.log.savedOf[t].at + cfg.refreshLifetime
    ensures b.log.savedOf[t].n < |b.log.renewals| && b.log.renewals[b.log.savedOf[t].n].stamp <= b.log.savedOf[t].at
  {
    BrokerTheorems.ReachedInv(cfg, bs, b);
    assert BrokerInvariant.TokenOk(cfg, b, t, b.refresh[t]);
    assert BrokerInvariant.SavedOk(b, t, b.log.savedOf[t]);
  }

  lemma BindKnown(s0: Operator.System, ops: seq<Operator.Step>, s: Operator.System, k: Cluster.Key)
    requires OperatorTheorems.Reached(s0, ops, s) && k in s.c.binds
    ensures var b := s.c.binds[k];
      && b.src < |s.c.upserts| && b.renewed.Some? && s.c.upserts[b.src] == Cluster.Written(k, b.spec, b.renewed.value)
      && b.spec.user == k.name
  {
    OperatorTheorems.ReachedInv(s0, ops, s);
    assert OperatorInvariant.BindOk(s.c, k, s.c.binds[k]);
  }

  // ----- One name for one person -----

  /** For every token response: the account its access token was minted for, the CR that its token issue upserted, that
      CR's spec.user, the account that the operator binds for it, and the account that the proxy derives from the email
      claim of its id_token are one and the same valid name in the binder's namespace. */
  lemma NamesAgree(env: Settings, w0: World, steps: seq<Step>, w: World, i: nat)
    requires Reached(env, w0, steps, w) && i < |w.b.log.responses|
    ensures var t := w.b.log.responses[i].tokens; var k := Cluster.Key(env.ns, t.access.account);
      && ValidName(k.name)
      && (t.id.email != "" ==> Proxy.AccountOf(env.cfg.lower, t.id, "email") == Some(k.name))
      && t.refresh in w.b.log.savedOf && w.b.log.savedOf[t.refresh].n < |w.sys.c.upserts|
      && var u := w.sys.c.upserts[w.b.log.savedOf[t.refresh].n];
      && u.key == k && u.spec.user == k.name
      && (k in w.sys.c.binds ==> Operator.SubjectOf(k, w.sys.c.binds[k]) == k)
  {
    var ops, bs := ReachedParts(env, w0, steps, w);
    ResponseKnown(env.cfg, bs, w.b, i);
    var t := w.b.log.responses[i].tokens;
    var k := Cluster.Key(env.ns, t.access.account);
    SanitizedIsValid(env.cfg.lower, t.id.email);
    var n := w.b.log.savedOf[t.refresh].n;
    assert w.sys.c.upserts[n] == WrittenFor(env, w.b.log.renewals[n]);
    if k in w.sys.c.binds { BindKnown(w0.sys, ops, w.sys, k); }
  }

  lemma ResponseKnown(cfg: Broker.Config, bs: seq<Broker.Step>, b: Broker.State, i: nat)
    requires BrokerTheorems.Reached(cfg, bs, b) && i < |b.log.responses|
    ensures var t := b.log.responses[i].tokens;
      && t.access.account == SanitizeName(cfg.lower, t.id.email)
      && t.refresh in b.log.savedOf && b.log.savedOf[t.refresh].n < |b.log.renewals|
      && b.log.renewals[b.log.savedOf[t.refresh].n].id.email == t.id.email
  {
    BrokerTheorems.ReachedInv(cfg, bs, b);
    BrokerTheorems.ResponseTokens(cfg, b, i);
    var t := b.log.responses[i].tokens;
    assert BrokerInvariant.SavedOk(b, t.refresh, b.log.savedOf[t.refresh]);
    assert BrokerInvariant.RenewalOk(b, b.log.renewals[b.log.savedOf[t.refresh].n]);
  }
}
