/**
 The broker's store: three one-shot maps with expiry. `Expiring` says what is promised; the in-process store with its
 background sweep, and the single prefixed keyspace of the Redis backend, are shown to answer like it.
 */
module Store {
  import opened Base

  datatype Entry<V> = Entry(val: V, exp: int)

  /** An operation on one of the three maps, at an instant of the store's clock. Sweep carries the time of the tick that
      caused it, which may lie before the instant it gets the lock. */
  datatype Op<V> =
    | Save(kind: Kind, key: string, val: V, ttl: int, at: int)
    | Claim(kind: Kind, key: string, at: int)
    | Sweep(tick: int, at: int)

  datatype Kind = Auth | Code | Refresh

  type Maps<V> = map<(Kind, string), Entry<V>>

  // ----- What is promised -----

  /** The specification: nothing is ever swept. */
  function SpecState<V>(m: Maps<V>, op: Op<V>): Maps<V> {
    match op
    case Save(k, key, v, ttl, at) => m[(k, key) := Entry(v, at + ttl)]
    case Claim(k, key, _) => m - {(k, key)}
    case Sweep(_, _) => m
  }

  function Answer<V>(m: Maps<V>, op: Op<V>): Option<V> {
    match op
    case Claim(k, key, at) => if (k, key) in m && at <= m[(k, key)].exp then Some(m[(k, key)].val) else None
    case _ => None
  }

  // ----- The in-process store -----

  /** What a sweep leaves of a map. */
  function Unexpired<K, V>(m: map<K, Entry<V>>, tick: int): map<K, Entry<V>> {
    map k | k in m && tick <= m[k].exp :: m[k]
  }

  function MemoryState<V>(m: Maps<V>, op: Op<V>): Maps<V> {
    match op
    case Sweep(tick, _) => Unexpired(m, tick)
    case _ => SpecState(m, op)
  }

  /** What the memory store lacks has expired. */
  ghost predicate Lacks<V(!new)>(mem: Maps<V>, spec: Maps<V>, now: int) {
    forall k ::
      && (k in mem ==> k in spec && mem[k] == spec[k])
      && (k in spec && k !in mem ==> spec[k].exp < now)
  }

  /** The clock never goes back, and a sweep is caused by a tick of the past. */
  predicate Timely<V>(ops: seq<Op<V>>) {
    && (forall i, j | 0 <= i < j < |ops| :: ops[i].at <= ops[j].at)
    && (forall i | 0 <= i < |ops| && ops[i].Sweep? :: ops[i].tick <= ops[i].at)
  }

  function RunSpec<V>(m: Maps<V>, ops: seq<Op<V>>): seq<Option<V>>
    decreases |ops|
  {
    if ops == [] then [] else [Answer(m, ops[0])] + RunSpec(SpecState(m, ops[0]), ops[1..])
  }

  function RunMemory<V>(m: Maps<V>, ops: seq<Op<V>>): seq<Option<V>>
    decreases |ops|
  {
    if ops == [] then [] else [Answer(m, ops[0])] + RunMemory(MemoryState(m, ops[0]), ops[1..])
  }

  lemma StepLacks<V(!new)>(mem: Maps<V>, spec: Maps<V>, op: Op<V>)
    requires Lacks(mem, spec, op.at) && (op.Sweep? ==> op.tick <= op.at)
    ensures Answer(mem, op) == Answer(spec, op)
    ensures Lacks(MemoryState(mem, op), SpecState(spec, op), op.at)
  {
  }

  /** The memory store answers every sequence of operations like a map that is never swept, wherever the sweeps fall. */
  lemma {:induction false} MemoryRefines<V(!new)>(mem: Maps<V>, spec: Maps<V>, ops: seq<Op<V>>)
    requires Timely(ops) && (ops != [] ==> Lacks(mem, spec, ops[0].at))
    ensures RunMemory(mem, ops) == RunSpec(spec, ops)
    decreases |ops|
  {
    if ops != [] {
      StepLacks(mem, spec, ops[0]);
      if |ops| > 1 { assert ops[1] == ops[1..][0]; }
      MemoryRefines(MemoryState(mem, ops[0]), SpecState(spec, ops[0]), ops[1..]);
    }
  }

  // ----- What the answers mean, in terms of the history alone -----

  predicate Touches<V>(op: Op<V>, kind: Kind, key: string) {
    !op.Sweep? && op.kind == kind && op.key == key
  }

  /** Operation `j` is the last of the first `n` that saved or claimed this key, and it saved `e`. */
  predicate SavedLast<V(==)>(ops: seq<Op<V>>, n: nat, j: nat, kind: Kind, key: string, e: Entry<V>)
    requires n <= |ops|
  {
    && j < n && ops[j].Save? && Touches(ops[j], kind, key) && e == Entry(ops[j].val, ops[j].at + ops[j].ttl)
    && (forall l | j < l < n :: !Touches(ops[l], kind, key))
  }

  /** The specification's state after the first `n` operations. */
  function StateAfter<V>(ops: seq<Op<V>>, n: nat): Maps<V>
    requires n <= |ops|
  {
    if n == 0 then map[] else SpecState(StateAfter(ops, n - 1), ops[n - 1])
  }

  lemma UntouchedStays<V>(m: Maps<V>, op: Op<V>, kind: Kind, key: string)
    requires !Touches(op, kind, key)
    ensures (kind, key) in SpecState(m, op) <==> (kind, key) in m
    ensures (kind, key) in m ==> SpecState(m, op)[(kind, key)] == m[(kind, key)]
  {
  }

  lemma {:induction false} StateIsHistory<V>(ops: seq<Op<V>>, n: nat, kind: Kind, key: string, e: Entry<V>)
    requires n <= |ops|
    ensures ((kind, key) in StateAfter(ops, n) && StateAfter(ops, n)[(kind, key)] == e)
      <==> exists j :: SavedLast(ops, n, j, kind, key, e)
  {
    if n > 0 {
      StateIsHistory(ops, n - 1, kind, key, e);
      if Touches(ops[n - 1], kind, key) {
        assert forall j | SavedLast(ops, n, j, kind, key, e) :: j == n - 1;
        if ops[n - 1].Save? && e == Entry(ops[n - 1].val, ops[n - 1].at + ops[n - 1].ttl) {
          assert SavedLast(ops, n, n - 1, kind, key, e);
        }
      } else {
        UntouchedStays(StateAfter(ops, n - 1), ops[n - 1], kind, key);
        var m := n - 1;
        if j :| SavedLast(ops, n, j, kind, key, e) { assert SavedLast(ops, m, j, kind, key, e); }
        if j :| SavedLast(ops, m, j, kind, key, e) { assert SavedLast(ops, n, j, kind, key, e); }
      }
    }
  }

  lemma {:induction false} AnswerOfRun<V>(ops: seq<Op<V>>, n: nat, i: nat)
    requires n <= i < |ops|
    ensures |RunSpec(StateAfter(ops, n), ops[n..])| == |ops| - n
    ensures RunSpec(StateAfter(ops, n), ops[n..])[i - n] == Answer(StateAfter(ops, i), ops[i])
    decreases |ops| - n
  {
    assert ops[n..][0] == ops[n] && ops[n..][1..] == ops[n + 1..];
    if n + 1 < |ops| { AnswerOfRun(ops, n + 1, if i == n then n + 1 else i); }
  }

  /** Whatever the sweeps, a claim is answered with `v` if and only if the last save or claim of its key was a save of
      `v` that has not expired: no value is handed out twice, and none is lost before its time. */
  lemma MemoryPromise<V(!new)>(ops: seq<Op<V>>, i: nat, v: V)
    requires Timely(ops) && i < |ops| && ops[i].Claim?
    ensures |RunMemory(map[], ops)| == |ops|
    ensures RunMemory(map[], ops)[i] == Some(v)
      <==> exists j, e :: SavedLast(ops, i, j, ops[i].kind, ops[i].key, e) && e.val == v && ops[i].at <= e.exp
  {
    MemoryRefines(map[], map[], ops);
    AnswerOfRun(ops, 0, i);
    assert ops[0..] == ops;
    var kind, key, m := ops[i].kind, ops[i].key, StateAfter(ops, i);
    if j, e :| SavedLast(ops, i, j, kind, key, e) && e.val == v && ops[i].at <= e.exp {
      StateIsHistory(ops, i, kind, key, e);
    }
    if (kind, key) in m { StateIsHistory(ops, i, kind, key, m[(kind, key)]); }
    if (kind, key) in m { assert exists j :: SavedLast(ops, i, j, kind, key, m[(kind, key)]); }
  }

  function Pick<V>(a: map<string, Entry<V>>, c: map<string, Entry<V>>, r: map<string, Entry<V>>,
                   kind: Kind): map<string, Entry<V>> {
    match kind
    case Auth => a
    case Code => c
    case Refresh => r
  }

  /** Three maps, seen as one. */
  function Union<V>(a: map<string, Entry<V>>, c: map<string, Entry<V>>, r: map<string, Entry<V>>): Maps<V> {
    map k | k in (set key <- a.Keys + c.Keys + r.Keys, kind <- {Auth, Code, Refresh} | key in Pick(a, c, r, kind) ::
                  (kind, key)) ::
      Pick(a, c, r, k.0)[k.1]
  }

  lemma UnionAt<V>(a: map<string, Entry<V>>, c: map<string, Entry<V>>, r: map<string, Entry<V>>, k: (Kind, string))
    ensures k in Union(a, c, r) <==> k.1 in Pick(a, c, r, k.0)
    ensures k in Union(a, c, r) ==> Union(a, c, r)[k] == Pick(a, c, r, k.0)[k.1]
  {
    assert k == (k.0, k.1);
    if k.1 in Pick(a, c, r, k.0) { assert k.1 in a.Keys + c.Keys + r.Keys && k.0 in {Auth, Code, Refresh}; }
  }

  /** Changing the three maps key by key changes the whole key by key. */
  lemma UnionIs<V>(a: map<string, Entry<V>>, c: map<string, Entry<V>>, r: map<string, Entry<V>>, m: Maps<V>)
    requires forall k: (Kind, string) :: k in m <==> k.1 in Pick(a, c, r, k.0)
    requires forall k | k in m :: m[k] == Pick(a, c, r, k.0)[k.1]
    ensures Union(a, c, r) == m
  {
    forall k: (Kind, string)
      ensures k in Union(a, c, r) <==> k in m
      ensures k in Union(a, c, r) ==> Union(a, c, r)[k] == m[k]
    {
      UnionAt(a, c, r, k);
    }
  }

  lemma UnionSaved<V>(a: map<string, Entry<V>>, c: map<string, Entry<V>>, r: map<string, Entry<V>>, kind: Kind,
                      key: string, e: Entry<V>)
    ensures var m := Pick(a, c, r, kind)[key := e];
      Union(if kind == Auth then m else a, if kind == Code then m else c, if kind == Refresh then m else r)
      == Union(a, c, r)[(kind, key) := e]
  {
    var m := Pick(a, c, r, kind)[key := e];
    forall k: (Kind, string) { UnionAt(a, c, r, k); }
    UnionIs(if kind == Auth then m else a, if kind == Code then m else c, if kind == Refresh then m else r,
            Union(a, c, r)[(kind, key) := e]);
  }

  lemma UnionClaimed<V>(a: map<string, Entry<V>>, c: map<string, Entry<V>>, r: map<string, Entry<V>>, kind: Kind,
                        key: string)
    ensures var m := Pick(a, c, r, kind) - {key};
      Union(if kind == Auth then m else a, if kind == Code then m else c, if kind == Refresh then m else r)
      == Union(a, c, r) - {(kind, key)}
  {
    var m := Pick(a, c, r, kind) - {key};
    forall k: (Kind, string) { UnionAt(a, c, r, k); }
    UnionIs(if kind == Auth then m else a, if kind == Code then m else c, if kind == Refresh then m else r,
            Union(a, c, r) - {(kind, key)});
  }

  lemma UnionSwept<V>(a: map<string, Entry<V>>, c: map<string, Entry<V>>, r: map<string, Entry<V>>, tick: int)
    ensures Union(Unexpired(a, tick), Unexpired(c, tick), Unexpired(r, tick)) == Unexpired(Union(a, c, r), tick)
  {
    forall k: (Kind, string) { UnionAt(a, c, r, k); }
    UnionIs(Unexpired(a, tick), Unexpired(c, tick), Unexpired(r, tick), Unexpired(Union(a, c, r), tick));
  }

  /** One of sweep's three loops: range over a map and delete what has expired. */
  method SweepMap<V>(m: map<string, Entry<V>>, tick: int) returns (r: map<string, Entry<V>>)
    ensures r == Unexpired(m, tick)
    ensures forall k :: (k in r <==> k in m && tick <= m[k].exp) && (k in r ==> r[k] == m[k])
  {
    r := m;
    var rest := m.Keys;
    while rest != {}
      invariant rest <= m.Keys
      invariant forall k :: k in r <==> k in m && (k in rest || tick <= m[k].exp)
      invariant forall k | k in r :: r[k] == m[k]
      decreases rest
    {
      var k :| k in rest;
      if m[k].exp < tick { r := r - {k}; }
      rest := rest - {k};
    }
  }

  /** The in-process store: three maps, each method under the mutex. One type of values stands for the three records. */
  class Memory<V> {
    var auth: map<string, Entry<V>>
    var codes: map<string, Entry<V>>
    var refresh: map<string, Entry<V>>

    constructor ()
      ensures Contents() == map[]
    {
      auth, codes, refresh := map[], map[], map[];
    }

    ghost function Contents(): Maps<V>
      reads this
    {
      Union(auth, codes, refresh)
    }

    method SaveAuthRequest(key: string, v: V, ttl: int, now: int)
      modifies this
      ensures Contents() == MemoryState(old(Contents()), Save(Auth, key, v, ttl, now))
    {
      UnionSaved(auth, codes, refresh, Auth, key, Entry(v, now + ttl));
      auth := auth[key := Entry(v, now + ttl)];
    }

    method TakeAuthRequest(key: string, now: int) returns (r: Option<V>)
      modifies this
      ensures Contents() == MemoryState(old(Contents()), Claim(Auth, key, now))
      ensures r == Answer(old(Contents()), Claim(Auth, key, now))
    {
      UnionClaimed(auth, codes, refresh, Auth, key);
      UnionAt(auth, codes, refresh, (Auth, key));
      var was := auth;
      auth := auth - {key};
      r := if key !in was || was[key].exp < now then None else Some(was[key].val);
    }

    method SaveCode(key: string, v: V, ttl: int, now: int)
      modifies this
      ensures Contents() == MemoryState(old(Contents()), Save(Code, key, v, ttl, now))
    {
      UnionSaved(auth, codes, refresh, Code, key, Entry(v, now + ttl));
      codes := codes[key := Entry(v, now + ttl)];
    }

    method TakeCode(key: string, now: int) returns (r: Option<V>)
      modifies this
      ensures Contents() == MemoryState(old(Contents()), Claim(Code, key, now))
      ensures r == Answer(old(Contents()), Claim(Code, key, now))
    {
      UnionClaimed(auth, codes, refresh, Code, key);
      UnionAt(auth, codes, refresh, (Code, key));
      var was := codes;
      codes := codes - {key};
      r := if key !in was || was[key].exp < now then None else Some(was[key].val);
    }

    method SaveRefresh(key: string, v: V, ttl: int, now: int)
      modifies this
      ensures Contents() == MemoryState(old(Contents()), Save(Refresh, key, v, ttl, now))
    {
      UnionSaved(auth, codes, refresh, Refresh, key, Entry(v, now + ttl));
      refresh := refresh[key := Entry(v, now + ttl)];
    }

    method TakeRefresh(key: string, now: int) returns (r: Option<V>)
      modifies this
      ensures Contents() == MemoryState(old(Contents()), Claim(Refresh, key, now))
      ensures r == Answer(old(Contents()), Claim(Refresh, key, now))
    {
      UnionClaimed(auth, codes, refresh, Refresh, key);
      UnionAt(auth, codes, refresh, (Refresh, key));
      var was := refresh;
      refresh := refresh - {key};
      r := if key !in was || was[key].exp < now then None else Some(was[key].val);
    }

    /** One round of the background sweep, for the time of its tick. */
    method SweepAll(tick: int, now: int)
      modifies this
      ensures Contents() == MemoryState(old(Contents()), Sweep(tick, now))
    {
      UnionSwept(auth, codes, refresh, tick);
      auth := SweepMap(auth, tick);
      codes := SweepMap(codes, tick);
      refresh := SweepMap(refresh, tick);
    }
  }

  // ----- The Redis backend -----

  function Prefix(kind: Kind): string {
    match kind
    case Auth => "auth:"
    case Code => "code:"
    case Refresh => "refresh:"
  }

  function RedisKey(kind: Kind, key: string): string {
    Prefix(kind) + key
  }

  /** The three maps do not collide in one keyspace. */
  lemma RedisKeyInjective(kind: Kind, key: string, kind': Kind, key': string)
    requires RedisKey(kind, key) == RedisKey(kind', key')
    ensures kind == kind' && key == key'
  {
    var s := RedisKey(kind, key);
    assert s[0] == Prefix(kind)[0] && s[0] == Prefix(kind')[0];
    assert kind == kind';
    assert s[|Prefix(kind)|..] == key && s[|Prefix(kind')|..] == key';
  }

  /** A Redis key: without an expiry it stays. */
  datatype Record<V> = Record(val: V, exp: Option<int>)

  type Keyspace<V> = map<string, Record<V>>

  predicate Lapsed(exp: Option<int>, at: int) {
    exp.Some? && exp.value <= at
  }

  /** SET, where a TTL that is not positive means none at all, and GETDEL, both atomic. The server drops expired keys
      whenever it likes. */
  function RedisState<V>(m: Keyspace<V>, op: Op<V>): Keyspace<V> {
    match op
    case Save(k, key, v, ttl, at) => m[RedisKey(k, key) := Record(v, if ttl > 0 then Some(at + ttl) else None)]
    case Claim(k, key, _) => m - {RedisKey(k, key)}
    case Sweep(tick, _) => map k | k in m && !Lapsed(m[k].exp, tick) :: m[k]
  }

  /** A key is gone once its TTL has passed. */
  function RedisAnswer<V>(m: Keyspace<V>, op: Op<V>): Option<V> {
    match op
    case Claim(k, key, at) =>
      if RedisKey(k, key) in m && !Lapsed(m[RedisKey(k, key)].exp, at) then Some(m[RedisKey(k, key)].val) else None
    case _ => None
  }

  function RunRedis<V>(m: Keyspace<V>, ops: seq<Op<V>>): seq<Option<V>>
    decreases |ops|
  {
    if ops == [] then [] else [RedisAnswer(m, ops[0])] + RunRedis(RedisState(m, ops[0]), ops[1..])
  }

  /** The TTL that each key was last saved with. */
  type Ttls = map<(Kind, string), int>

  function TtlState<V>(ttls: Ttls, op: Op<V>): Ttls {
    if op.Save? then ttls[(op.kind, op.key) := op.ttl] else ttls
  }

  /** What SET makes of an entry and the TTL it was saved with. */
  function RecordOf<V>(e: Entry<V>, ttl: int): Record<V> {
    Record(e.val, if ttl > 0 then Some(e.exp) else None)
  }

  predicate SimulatesAt<V(==)>(redis: Keyspace<V>, spec: Maps<V>, ttls: Ttls, now: int, kind: Kind, key: string) {
    var k := RedisKey(kind, key);
    if (kind, key) !in spec then k !in redis
    else
      && (kind, key) in ttls
      && (if k in redis then redis[k] == RecordOf(spec[(kind, key)], ttls[(kind, key)])
          else ttls[(kind, key)] > 0 && spec[(kind, key)].exp <= now)
  }

  ghost predicate Simulates<V>(redis: Keyspace<V>, spec: Maps<V>, ttls: Ttls, now: int) {
    forall kind, key :: SimulatesAt(redis, spec, ttls, now, kind, key)
  }

  /** A claim that tells the backends apart: on the very instant at which an entry expires, or after the expiry of one
      that was saved with a TTL that is not positive. */
  predicate Telling<V>(spec: Maps<V>, ttls: Ttls, op: Op<V>) {
    && op.Claim? && (op.kind, op.key) in spec && (op.kind, op.key) in ttls
    && var exp := spec[(op.kind, op.key)].exp; if ttls[(op.kind, op.key)] > 0 then op.at == exp else op.at > exp
  }

  predicate NothingTelling<V>(spec: Maps<V>, ttls: Ttls, ops: seq<Op<V>>)
    decreases |ops|
  {
    ops == [] || (!Telling(spec, ttls, ops[0])
                  && NothingTelling(SpecState(spec, ops[0]), TtlState(ttls, ops[0]), ops[1..]))
  }

  lemma RedisAnswers<V>(redis: Keyspace<V>, spec: Maps<V>, ttls: Ttls, op: Op<V>)
    requires Simulates(redis, spec, ttls, op.at)
    ensures RedisAnswer(redis, op) == Answer(spec, op) <==> !Telling(spec, ttls, op)
  {
    if op.Claim? { assert SimulatesAt(redis, spec, ttls, op.at, op.kind, op.key); }
  }

  lemma StepSimulates<V>(redis: Keyspace<V>, spec: Maps<V>, ttls: Ttls, op: Op<V>)
    requires Simulates(redis, spec, ttls, op.at) && (op.Sweep? ==> op.tick <= op.at)
    ensures Simulates(RedisState(redis, op), SpecState(spec, op), TtlState(ttls, op), op.at)
  {
    forall kind, key
      ensures SimulatesAt(RedisState(redis, op), SpecState(spec, op), TtlState(ttls, op), op.at, kind, key)
    {
      assert SimulatesAt(redis, spec, ttls, op.at, kind, key);
      if !op.Sweep? && RedisKey(kind, key) == RedisKey(op.kind, op.key) {
        RedisKeyInjective(kind, key, op.kind, op.key);
      }
    }
  }

  lemma LaterSimulates<V>(redis: Keyspace<V>, spec: Maps<V>, ttls: Ttls, now: int, later: int)
    requires Simulates(redis, spec, ttls, now) && now <= later
    ensures Simulates(redis, spec, ttls, later)
  {
    forall kind, key ensures SimulatesAt(redis, spec, ttls, later, kind, key) {
      assert SimulatesAt(redis, spec, ttls, now, kind, key);
    }
  }

  /** Whenever the server drops expired keys, and for all TTLs, the single keyspace answers like the three maps if and
      only if no claim falls on the expiry instant of an entry (where the memory store still hands the value out), or
      after the expiry of an entry whose TTL was not positive (which Redis keeps for good). */
  lemma {:induction false} RedisRefines<V>(redis: Keyspace<V>, spec: Maps<V>, ttls: Ttls, ops: seq<Op<V>>)
    requires Timely(ops) && (ops != [] ==> Simulates(redis, spec, ttls, ops[0].at))
    ensures RunRedis(redis, ops) == RunSpec(spec, ops) <==> NothingTelling(spec, ttls, ops)
    decreases |ops|
  {
    if ops != [] {
      RedisAnswers(redis, spec, ttls, ops[0]);
      StepSimulates(redis, spec, ttls, ops[0]);
      var redis', spec', ttls' := RedisState(redis, ops[0]), SpecState(spec, ops[0]), TtlState(ttls, ops[0]);
      if |ops| > 1 {
        assert ops[1] == ops[1..][0];
        LaterSimulates(redis', spec', ttls', ops[0].at, ops[1].at);
      }
      RedisRefines(redis', spec', ttls', ops[1..]);
      assert RunRedis(redis, ops)[0] == RedisAnswer(redis, ops[0])
          && RunRedis(redis, ops)[1..] == RunRedis(redis', ops[1..]);
      assert RunSpec(spec, ops)[0] == Answer(spec, ops[0]) && RunSpec(spec, ops)[1..] == RunSpec(spec', ops[1..]);
    }
  }

  /** The two backends, both empty at first, agree on a history exactly under that condition. */
  lemma BackendsAgreeExactly<V(!new)>(ops: seq<Op<V>>)
    requires Timely(ops)
    ensures RunRedis(map[], ops) == RunMemory(map[], ops) <==> NothingTelling(map[], map[], ops)
  {
    MemoryRefines(map[], map[], ops);
    RedisRefines(map[], map[], map[], ops);
  }

  /** On the instant itself the two backends differ, and with a zero TTL the Redis entry never expires. */
  lemma BackendsDiffer()
    ensures var ops := [Save(Code, "c", 1, 5, 0), Claim(Code, "c", 5)];
      RunMemory(map[], ops) == [None, Some(1)] && RunRedis(map[], ops) == [None, None]
    ensures var ops := [Save(Code, "c", 1, 0, 0), Claim(Code, "c", 5)];
      RunMemory(map[], ops) == [None, None] && RunRedis(map[], ops) == [None, Some(1)]
  {
    RunsOfTwo(5);
    RunsOfTwo(0);
  }

  lemma RunsOfTwo(ttl: int)
    ensures var ops := [Save(Code, "c", 1, ttl, 0), Claim(Code, "c", 5)];
      && RunMemory(map[], ops) == [None, if 5 <= ttl then Some(1) else None]
      && RunRedis(map[], ops) == [None, if 5 < ttl || ttl <= 0 then Some(1) else None]
  {
    var ops := [Save(Code, "c", 1, ttl, 0), Claim(Code, "c", 5)];
    var m: Maps<int> := map[];
    var k: Keyspace<int> := map[];
    assert ops[1..] == [Claim(Code, "c", 5)] && ops[1..][1..] == [];
    assert RunMemory(MemoryState(m, ops[0]), ops[1..]) == [if 5 <= ttl then Some(1) else None];
    assert RunRedis(RedisState(k, ops[0]), ops[1..]) == [if 5 < ttl || ttl <= 0 then Some(1) else None];
  }
}
