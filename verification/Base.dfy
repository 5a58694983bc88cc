/** Values shared by every component: optional values, API call outcomes and the clock's arithmetic. */
module Base {

  datatype Option<+T> = None | Some(value: T)

  /** How one API call ends, seen from the caller: it took effect and said so, it was refused without
      effect, or it took effect and the answer was lost (the caller sees an error). */
  datatype Outcome = Ok | Refused | Lost

  /** One second, in the nanoseconds that every instant and duration is counted in. */
  const SECOND: int := 1_000_000_000

  /** Go's `Time.Truncate(time.Second)`: round down to a whole second. */
  function Truncate(t: int): (r: int)
    ensures r <= t < r + SECOND
    ensures r % SECOND == 0
    ensures t % SECOND == 0 ==> r == t
  {
    t - t % SECOND
  }

  lemma TruncateMonotone(s: int, t: int)
    requires s <= t
    ensures Truncate(s) <= Truncate(t)
  {
    if Truncate(t) < Truncate(s) {
      WholeSecondsApart(Truncate(t), Truncate(s));
    }
  }

  lemma WholeSecondsApart(a: int, b: int)
    requires a % SECOND == 0 && b % SECOND == 0 && a < b
    ensures a + SECOND <= b
  {
    assert a == SECOND * (a / SECOND) && b == SECOND * (b / SECOND);
  }

  predicate HasPrefix(s: string, p: string) {
    |p| <= |s| && s[..|p|] == p
  }
}
