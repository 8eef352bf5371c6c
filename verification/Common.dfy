/** Vocabulary shared by every model.

    Text stands for the strings the program only compares and copies (identifiers,
    addresses, stamps).  A string is represented by its rank in code-point order, so
    that equality and `<` mean what they mean on the strings; 0 is the empty string,
    which is below every other.
  */
module Common {

  datatype Option<+T> = None | Some(value: T)

  /** A run either returns a value or raises; a raising run leaves the cursor alone. */
  datatype Result<+T> = Ok(value: T) | Err(error: string)

  type Text = nat

  /** Instants, in microseconds. */
  type Time = int

  const SECOND: Time := 1_000_000
  const MINUTE: Time := 60 * SECOND

  /** What is left of an instant once it is written with whole-second precision. */
  function WholeSecond(t: Time): Time {
    t - t % SECOND
  }

  /** The smaller of two texts, an empty one counting as absent. */
  function MinPresent(a: Text, b: Text): Text {
    if a == 0 then b else if b == 0 then a else if a <= b then a else b
  }

  predicate Future(deadline: Option<Time>, now: Time) {
    deadline.Some? && deadline.value > now
  }

  function Max(a: int, b: int): int {
    if a >= b then a else b
  }

  function Min(a: int, b: int): int {
    if a <= b then a else b
  }

  // ---- the days of one run ----------------------------------------------------------------------

  function DayCount(start: int, target: int, maxDays: int): nat
    requires maxDays >= 1
  {
    if start > target then 0 else Min(maxDays, target - start + 1)
  }

  method PlanDays(start: int, target: int, maxDays: int) returns (days: seq<int>)
    requires maxDays >= 1
    ensures |days| == DayCount(start, target, maxDays)
    ensures forall i | 0 <= i < |days| :: days[i] == start + i
  {
    days := [];
    var day := start;
    while day <= target && |days| < maxDays
      invariant day == start + |days| && |days| <= DayCount(start, target, maxDays)
      invariant forall i | 0 <= i < |days| :: days[i] == start + i
    {
      days := days + [day];
      day := day + 1;
    }
  }

  lemma {:induction false} SubsetIsSmaller<T>(a: set<T>, b: set<T>)
    requires a <= b
    ensures |a| <= |b|
  {
    if a != {} {
      var x :| x in a;
      SubsetIsSmaller(a - {x}, b - {x});
    }
  }

  // ---- products and minima, one step at a time ------------------------------------------------

  lemma MinIs(a: int, b: int)
    ensures Min(a, b) == if a <= b then a else b
    ensures a >= 0 && b >= 0 ==> 0 <= Min(a, b) <= b
  {
  }

  lemma OneMore(n: int, d: int)
    ensures (n + 1) * d == n * d + d
  {
  }

  lemma MultiplyKeepsOrder(a: int, b: int, d: int)
    requires a <= b && d >= 0
    ensures a * d <= b * d
  {
    assert b * d - a * d == (b - a) * d;
    assert (b - a) * d >= 0;
  }
}
