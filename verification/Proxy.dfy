/**
 The proxy: a cache of ServiceAccount tokens whose lock is released while a token is minted, and the swap of a broker
 id_token for such a token.
 */
module Proxy {
  import opened Base
  import opened Sanitize
  import Broker

  // ----- The cache, with any number of callers at once -----

  /** A minted token. `account` and `at` are history: whom it was minted for, and when. */
  datatype Minted = Minted(text: string, account: string, at: int)

  datatype Cached = Cached(token: Minted, exp: int)

  /** Where a call of `token` stands: before its first critical section, between the two, or before the second. */
  datatype Caller = Checking(account: string) | Minting(account: string) | Storing(account: string, token: Minted)

  /** History: a token that was returned; `exp` is that of the cache entry it came from, None when freshly minted. */
  datatype Returned = Returned(account: string, token: Minted, at: int, exp: Option<int>)

  datatype State = State(now: int, m: map<string, Cached>, callers: map<nat, Caller>, answers: seq<Returned>)

  datatype Step =
    | Tick(until: int)
    | Call(i: nat, account: string)
    | Check(i: nat)
    | Mint(i: nat, text: Option<string>)
    | Store(i: nat)

  const START: State := State(0, map[], map[], [])

  predicate CanStep(s: State, t: Step) {
    match t
    case Tick(until) => s.now <= until
    case Call(i, _) => i !in s.callers
    case Check(i) => i in s.callers && s.callers[i].Checking?
    case Mint(i, _) => i in s.callers && s.callers[i].Minting?
    case Store(i) => i in s.callers && s.callers[i].Storing?
  }

  /** The entry is served now. */
  predicate Serves(s: State, account: string) {
    account in s.m && s.now < s.m[account].exp
  }

  function Return(s: State, i: nat, account: string, token: Minted, exp: Option<int>): State {
    s.(callers := s.callers - {i}, answers := s.answers + [Returned(account, token, s.now, exp)])
  }

  function DoStep(ttl: int, s: State, t: Step): State
    requires CanStep(s, t)
  {
    match t
    case Tick(until) => s.(now := until)
    case Call(i, account) => s.(callers := s.callers[i := Checking(account)])
    case Check(i) =>
      var account := s.callers[i].account;
      if Serves(s, account) then Return(s, i, account, s.m[account].token, Some(s.m[account].exp))
      else s.(callers := s.callers[i := Minting(account)])
    case Mint(i, text) =>
      var account := s.callers[i].account;
      if text.None? then s.(callers := s.callers - {i})
      else s.(callers := s.callers[i := Storing(account, Minted(text.value, account, s.now))])
    case Store(i) =>
      var account, token := s.callers[i].account, s.callers[i].token;
      Return(s.(m := s.m[account := Cached(token, s.now + ttl)]), i, account, token, None)
  }

  ghost function Run(ttl: int, s: State, steps: seq<Step>): Option<State> {
    if steps == [] then Some(s)
    else
      var r := Run(ttl, s, steps[..|steps| - 1]);
      if r.Some? && CanStep(r.value, steps[|steps| - 1]) then Some(DoStep(ttl, r.value, steps[|steps| - 1])) else None
  }

  /** Minted for its account, and stored no earlier than minted. */
  predicate EntryOk(ttl: int, now: int, account: string, token: Minted, exp: int) {
    token.account == account && token.at <= exp - ttl <= now
  }

  predicate ReturnOk(ttl: int, s: State, r: Returned) {
    && r.token.account == r.account && r.token.at <= r.at <= s.now
    && (r.exp.Some? ==> EntryOk(ttl, r.at, r.account, r.token, r.exp.value) && r.at < r.exp.value)
  }

  predicate Inv(ttl: int, s: State) {
    && (forall a | a in s.m :: EntryOk(ttl, s.now, a, s.m[a].token, s.m[a].exp))
    && (forall i | i in s.callers && s.callers[i].Storing? ::
          s.callers[i].token.account == s.callers[i].account && s.callers[i].token.at <= s.now)
    && (forall n | 0 <= n < |s.answers| :: ReturnOk(ttl, s, s.answers[n]))
  }

  lemma StepKeeps(ttl: int, s: State, t: Step)
    requires Inv(ttl, s) && CanStep(s, t)
    ensures Inv(ttl, DoStep(ttl, s, t))
  {
    var s' := DoStep(ttl, s, t);
    forall n | 0 <= n < |s'.answers| ensures ReturnOk(ttl, s', s'.answers[n]) {
      if n < |s.answers| { assert ReturnOk(ttl, s, s.answers[n]) && s'.answers[n] == s.answers[n]; }
    }
  }

  lemma {:induction false} RunKeeps(ttl: int, s: State, steps: seq<Step>)
    requires Inv(ttl, s) && Run(ttl, s, steps).Some?
    ensures Inv(ttl, Run(ttl, s, steps).value)
  {
    if steps != [] {
      RunKeeps(ttl, s, steps[..|steps| - 1]);
      StepKeeps(ttl, Run(ttl, s, steps[..|steps| - 1]).value, steps[|steps| - 1]);
    }
  }

  /** Four fifths of the token's lifetime, in whole seconds. */
  function CacheTtl(seconds: nat): int {
    (seconds * 4 / 5) * SECOND
  }

  lemma CacheTtlIs(seconds: nat)
    ensures CacheTtl(seconds) % SECOND == 0
    ensures 5 * CacheTtl(seconds) <= 4 * seconds * SECOND < 5 * (CacheTtl(seconds) + SECOND)
  {
    var n := seconds * 4 / 5;
    assert 5 * n <= seconds * 4 < 5 * n + 5;
  }

  /** Whatever the interleaving, even when an older mint overwrites a newer one: every returned token was minted for the
      account that was asked for; one from the cache is returned only before its entry's time is up, which is CacheTtl
      after it was stored; hence before its own expiry, provided it was stored within the remaining fifth. */
  lemma Returns(seconds: nat, steps: seq<Step>, s: State, n: nat)
    requires Run(CacheTtl(seconds), START, steps) == Some(s) && n < |s.answers|
    ensures var r := s.answers[n];
      && r.token.account == r.account && r.token.at <= r.at
      && (r.exp.Some? ==>
            var stored := r.exp.value - CacheTtl(seconds);
            && r.token.at <= stored <= r.at < stored + CacheTtl(seconds)
            && 5 * (r.at - stored) < 4 * seconds * SECOND
            && (stored - r.token.at <= seconds * SECOND - CacheTtl(seconds) ==> r.at < r.token.at + seconds * SECOND))
  {
    CacheTtlIs(seconds);
    RunKeeps(CacheTtl(seconds), START, steps);
    assert ReturnOk(CacheTtl(seconds), s, s.answers[n]);
  }

  lemma RunExtends(ttl: int, s: State, steps: seq<Step>, t: Step)
    requires Run(ttl, s, steps).Some? && CanStep(Run(ttl, s, steps).value, t)
    ensures Run(ttl, s, steps + [t]) == Some(DoStep(ttl, Run(ttl, s, steps).value, t))
  {
    assert (steps + [t])[..|steps|] == steps;
  }

  lemma {:induction false} RunsTogether(ttl: int, s: State, steps: seq<Step>, more: seq<Step>)
    requires Run(ttl, s, steps).Some?
    ensures Run(ttl, s, steps + more) == Run(ttl, Run(ttl, s, steps).value, more)
  {
    if more == [] {
      assert steps + more == steps;
    } else {
      var init := more[..|more| - 1];
      RunsTogether(ttl, s, steps, init);
      assert (steps + more)[..|steps + more| - 1] == steps + init;
    }
  }

  /** Answers are kept, and new ones are dated no earlier than now. */
  lemma {:induction false} AnswersGrow(ttl: int, s: State, steps: seq<Step>, s': State)
    requires Run(ttl, s, steps) == Some(s')
    ensures s.now <= s'.now && s.answers <= s'.answers
    ensures forall n | |s.answers| <= n < |s'.answers| :: s.now <= s'.answers[n].at
  {
    if steps != [] { AnswersGrow(ttl, s, steps[..|steps| - 1], Run(ttl, s, steps[..|steps| - 1]).value); }
  }

  /** The last answer of `end` came, later than `s`, from the entry that `s` has for the account, and its token had
      expired by then. */
  predicate ServesExpired(seconds: nat, s: State, account: string, end: State) {
    && account in s.m && |s.answers| < |end.answers|
    && var r := end.answers[|end.answers| - 1];
    && r == Returned(account, s.m[account].token, r.at, Some(s.m[account].exp))
    && s.m[account].token.at + seconds * SECOND <= r.at
  }

  /** The proviso is exact: of an entry in a reachable cache, some continuation serves the token after its expiry if and
      only if the entry still stands and storing it took longer than the part of the lifetime that the cache leaves
      unused. */
  lemma ServedExpiredExactly(seconds: nat, steps: seq<Step>, s: State, account: string)
    requires Run(CacheTtl(seconds), START, steps) == Some(s) && account in s.m
    ensures (exists more, end ::
             Run(CacheTtl(seconds), s, more) == Some(end) && ServesExpired(seconds, s, account, end))
      <==>
      && s.now < s.m[account].exp
      && s.m[account].exp - CacheTtl(seconds) - s.m[account].token.at > seconds * SECOND - CacheTtl(seconds)
  {
    var e := s.m[account];
    forall more, end | Run(CacheTtl(seconds), s, more) == Some(end) && ServesExpired(seconds, s, account, end)
      ensures s.now < e.exp && e.exp - e.token.at > seconds * SECOND
    {
      AnswersGrow(CacheTtl(seconds), s, more, end);
      RunsTogether(CacheTtl(seconds), START, steps, more);
      Returns(seconds, steps + more, end, |end.answers| - 1);
    }
    if s.now < e.exp && e.exp - e.token.at > seconds * SECOND {
      var more, end := ServeAt(CacheTtl(seconds), s, account, e.exp - 1);
      assert ServesExpired(seconds, s, account, end);
    }
  }

  /** A new caller is served from the entry, at any instant before its time is up. */
  lemma ServeAt(ttl: int, s: State, account: string, t: int) returns (more: seq<Step>, end: State)
    requires account in s.m && s.now <= t < s.m[account].exp
    ensures Run(ttl, s, more) == Some(end)
    ensures end.answers == s.answers + [Returned(account, s.m[account].token, t, Some(s.m[account].exp))]
  {
    var i := FreshCaller(s.callers.Keys);
    more, end := [], s;
    more, end := Take(ttl, s, more, end, Tick(t));
    more, end := Take(ttl, s, more, end, Call(i, account));
    more, end := Take(ttl, s, more, end, Check(i));
  }

  lemma Take(ttl: int, s0: State, steps: seq<Step>, s: State, t: Step) returns (steps': seq<Step>, s': State)
    requires Run(ttl, s0, steps) == Some(s) && CanStep(s, t)
    ensures s' == DoStep(ttl, s, t) && Run(ttl, s0, steps') == Some(s')
  {
    steps', s' := steps + [t], DoStep(ttl, s, t);
    RunExtends(ttl, s0, steps, t);
  }

  lemma {:induction false} FreshCaller(used: set<nat>) returns (i: nat)
    ensures forall j | j in used :: j < i
  {
    if used == {} {
      i := 0;
    } else {
      var j :| j in used;
      var k := FreshCaller(used - {j});
      i := k + j + 1;
      forall l | l in used ensures l < i { if l != j { assert l in used - {j}; } }
    }
  }

  /** It happens: a token of ten seconds, minted at once but stored after five, is served at eleven. */
  lemma ExpiredIsServed() returns (steps: seq<Step>, s: State)
    ensures Run(CacheTtl(10), START, steps) == Some(s) && |s.answers| > 0
    ensures var r := s.answers[|s.answers| - 1]; r.exp.Some? && r.token.at + 10 * SECOND <= r.at
  {
    var ttl := CacheTtl(10);
    steps, s := [], START;
    steps, s := Take(ttl, START, steps, s, Call(0, "a"));
    steps, s := Take(ttl, START, steps, s, Check(0));
    steps, s := Take(ttl, START, steps, s, Mint(0, Some("t")));
    steps, s := Take(ttl, START, steps, s, Tick(5 * SECOND));
    steps, s := Take(ttl, START, steps, s, Store(0));
    steps, s := Take(ttl, START, steps, s, Call(1, "a"));
    steps, s := Take(ttl, START, steps, s, Tick(11 * SECOND));
    steps, s := Take(ttl, START, steps, s, Check(1));
  }

  // ----- The cache as the source has it -----

  /** The steps of everybody but caller `i`. */
  predicate Foreign(t: Step, i: nat) {
    match t
    case Tick(_) => true
    case Call(j, _) => j != i
    case Check(j) => j != i
    case Mint(j, _) => j != i
    case Store(j) => j != i
  }

  class TokenCache {
    const ttl: int
    var s: State

    // the run so far
    ghost var steps: seq<Step>

    ghost predicate Valid()
      reads this
    {
      Run(ttl, START, steps) == Some(s)
    }

    constructor (ttl: int)
      ensures Valid() && s == START && this.ttl == ttl
    {
      this.ttl := ttl;
      s, steps := START, [];
    }

    method Take(t: Step)
      requires Valid() && CanStep(s, t)
      modifies this
      ensures Valid() && s == DoStep(ttl, old(s), t) && steps == old(steps) + [t]
    {
      RunExtends(ttl, START, steps, t);
      s := DoStep(ttl, s, t);
      steps := steps + [t];
    }

    /** Any number of steps of the other callers and the clock. */
    method Others(i: nat)
      requires Valid() && i in s.callers
      modifies this
      ensures Valid() && old(steps) <= steps && i in s.callers && s.callers[i] == old(s.callers[i])
      ensures old(s.now) <= s.now
    {
      var n :| 0 <= n;
      for j := 0 to n
        invariant Valid() && old(steps) <= steps && i in s.callers && s.callers[i] == old(s.callers[i])
        invariant old(s.now) <= s.now
      {
        var t: Step := *;
        if CanStep(s, t) && Foreign(t, i) { Take(t); }
      }
    }

    /** `token`: look under the lock, mint without it, store under it again. The answer is a token of the account asked
        for, minted before; None is a failed mint. What was not in the cache is minted, and served from then on. */
    method Token(i: nat, account: string, lucky: bool) returns (token: Option<Minted>)
      requires Valid() && i !in s.callers
      modifies this
      ensures Valid() && old(steps) <= steps && old(s.now) <= s.now && i !in s.callers
      ensures token.Some? ==> token.value.account == account && token.value.at <= s.now && |s.answers| > 0
      ensures token.Some? ==>
        s.answers[|s.answers| - 1].token == token.value && s.answers[|s.answers| - 1].account == account
      ensures account in old(s).m && old(s).now < old(s).m[account].exp ==>
        token == Some(old(s).m[account].token) && s.m == old(s).m
      ensures !(account in old(s).m && old(s).now < old(s).m[account].exp) && token.Some? ==>
        old(s).now <= token.value.at && account in s.m && s.m[account] == Cached(token.value, s.now + ttl)
      ensures lucky ==> token.Some?
    {
      RunKeeps(ttl, START, steps);
      if account in s.m { assert EntryOk(ttl, s.now, account, s.m[account].token, s.m[account].exp); }
      Take(Call(i, account));
      if Serves(s, account) {
        token := Some(s.m[account].token);
        Take(Check(i));
      } else {
        Take(Check(i));
        token := MintAndStore(i, account, lucky);
      }
    }

    /** The mint, and the second critical section. */
    method MintAndStore(i: nat, account: string, lucky: bool) returns (token: Option<Minted>)
      requires Valid() && i in s.callers && s.callers[i] == Minting(account)
      modifies this
      ensures Valid() && old(steps) <= steps && old(s.now) <= s.now && i !in s.callers
      ensures token.Some? ==> token.value.account == account && token.value.at <= s.now && |s.answers| > 0
      ensures token.Some? ==>
        s.answers[|s.answers| - 1].token == token.value && s.answers[|s.answers| - 1].account == account
      ensures token.Some? ==> old(s.now) <= token.value.at && account in s.m
      ensures token.Some? ==> s.m[account] == Cached(token.value, s.now + ttl)
      ensures lucky ==> token.Some?
    {
      Others(i);
      var failed, text: string := *, *;
      if failed && !lucky {
        Take(Mint(i, None));
        return None;
      }
      var minted := Minted(text, account, s.now);
      Take(Mint(i, Some(text)));
      Others(i);
      Take(Store(i));
      return Some(minted);
    }
  }

  // ----- The swap -----

  type Headers = map<string, string>

  const IMPERSONATE: string := "Impersonate-"

  /** The bearer token of a request. */
  function Bearer(h: Headers): string {
    if "Authorization" in h && HasPrefix(h["Authorization"], "Bearer ") then h["Authorization"][7..] else ""
  }

  /** The text of a claim, when it has one. */
  function ClaimText(c: Broker.Claims, name: string): string {
    if name == "email" then c.email
    else if name == "sub" then c.sub
    else if name == "name" then c.name
    else if name == "nonce" then c.nonce
    else if name == "aud" then c.aud
    else ""
  }

  /** The account that the proxy derives from an id_token. */
  function AccountOf(lower: char -> char, c: Broker.Claims, claim: string): Option<string> {
    if ClaimText(c, claim) == "" then None else Some(SanitizeName(lower, ClaimText(c, claim)))
  }

  /** swap, once the token is there: the bearer is replaced and the impersonation headers are dropped. `canonical` is
      http.CanonicalHeaderKey; Del removes the canonical key. */
  method Swap(canonical: string -> string, h: Headers, token: string) returns (r: Headers)
    ensures "Authorization" in r && r["Authorization"] == "Bearer " + token && Bearer(r) == token
    ensures forall k :: k in r ==> k == "Authorization" || (k in h && r[k] == h[k])
    ensures forall k | k in r && canonical(k) == k :: !HasPrefix(k, "Impersonate-")
    ensures forall k | k in h && !HasPrefix(k, "Impersonate-") :: k in r
  {
    assert "Authorization"[..12][0] != IMPERSONATE[0];
    r := h["Authorization" := "Bearer " + token];
    var all, rest := r, r.Keys;
    while rest != {}
      invariant rest <= all.Keys && r.Keys <= all.Keys && forall k | k in r :: r[k] == all[k]
      invariant forall k | k in all && !HasPrefix(k, IMPERSONATE) :: k in r
      invariant forall k | k in r && canonical(k) == k && HasPrefix(k, IMPERSONATE) :: k in rest
      decreases rest
    {
      var k :| k in rest;
      if HasPrefix(canonical(k), IMPERSONATE) { r := r - {canonical(k)}; }
      rest := rest - {k};
    }
    assert r["Authorization"] == all["Authorization"];
  }

  /** swap as a whole: without a username claim the request passes unchanged; otherwise it goes on with a token of the
      account that the claim names, exactly when one could be had. */
  method SwapBearer(cache: TokenCache, i: nat, lower: char -> char, claim: string, claims: Broker.Claims,
                    canonical: string -> string, h: Headers, lucky: bool)
    returns (forward: bool, r: Headers, token: Option<Minted>)
    requires cache.Valid() && i !in cache.s.callers
    modifies cache
    ensures cache.Valid()
    ensures AccountOf(lower, claims, claim).None? ==> forward && r == h && cache.s == old(cache.s)
    ensures AccountOf(lower, claims, claim).Some? ==> (forward <==> token.Some?) && (lucky ==> forward)
    ensures AccountOf(lower, claims, claim).Some? && forward ==>
      && |cache.s.answers| > 0
      && var last := cache.s.answers[|cache.s.answers| - 1];
      && last.account == last.token.account == AccountOf(lower, claims, claim).value && last.token == token.value
      && "Authorization" in r && r["Authorization"] == "Bearer " + token.value.text
      && (forall k | k in r && canonical(k) == k :: !HasPrefix(k, IMPERSONATE))
      && (forall k | k in h && k != "Authorization" && !HasPrefix(k, IMPERSONATE) :: k in r && r[k] == h[k])
  {
    var user := ClaimText(claims, claim);
    if user == "" { return true, h, None; }
    var name := Sanitized(lower, user);
    token := cache.Token(i, name, lucky);
    if token.None? { return false, h, None; }
    r := Swap(canonical, h, token.value.text);
    forward := true;
  }
}
