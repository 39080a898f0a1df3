/** Small shared vocabulary: optional values, instants in nanoseconds, int64 arithmetic. */
module Base {

  datatype Option<+T> = None | Some(value: T)

  /** What became of a write sent to another system: it took effect and was confirmed, it was
      refused without effect, or it took effect and the confirmation never arrived. */
  datatype Outcome = Applied | Rejected | LostReply

  /** What a reconcile returns: an error, nothing, Requeue, or RequeueAfter a span. */
  datatype Result = Error | Done | Requeue | After(span: int)

  /** The work queue calls again by itself; a span that is not positive counts as none. */
  predicate Wakes(r: Result) { r.Error? || r.Requeue? || (r.After? && r.span > 0) }

  const SECOND: int := 1_000_000_000

  /** RFC 3339 with whole seconds, as metav1.Time is stored: the fraction is dropped. */
  function FloorSecond(t: int): (r: int)
    ensures r <= t < r + SECOND
    ensures r % SECOND == 0
  {
    t - t % SECOND
  }

  function FloorStamp(t: Option<int>): (r: Option<int>) {
    if t.Some? then Some(FloorSecond(t.value)) else None
  }

  lemma FloorSecondShift(t: int, seconds: int)
    ensures FloorSecond(t + seconds * SECOND) == FloorSecond(t) + seconds * SECOND
  {
    var a, b := FloorSecond(t + seconds * SECOND), FloorSecond(t) + seconds * SECOND;
    assert -SECOND < a - b < SECOND;
    var x, y := a / SECOND, FloorSecond(t) / SECOND + seconds;
    assert a == x * SECOND && b == y * SECOND;
  }

  const TWO63: int := 0x8000_0000_0000_0000
  const TWO64: int := 0x1_0000_0000_0000_0000

  predicate FitsInt64(x: int) { -TWO63 <= x < TWO63 }

  type Int64 = x: int | FitsInt64(x)

  /** Two's-complement wrap-around, as Go's int64 multiplication does. */
  function Wrap64(x: int): (r: Int64)
    ensures FitsInt64(x) <==> r == x
    ensures (r - x) % TWO64 == 0
  {
    (x + TWO63) % TWO64 - TWO63
  }

  /** time.Duration(n) * time.Second */
  function SecondsSpan(n: Int64): Int64 { Wrap64(n * SECOND) }

  /** The distance between the stored form of an instant and of that instant plus n seconds is n
      seconds exactly when the nanosecond product fits int64. */
  lemma StoredSpan(t: int, n: Int64)
    ensures FitsInt64(n * SECOND) <==> FloorSecond(t + SecondsSpan(n)) == FloorSecond(t) + n * SECOND
  {
    if FitsInt64(n * SECOND) {
      FloorSecondShift(t, n);
    } else {
      var d := SecondsSpan(n) - n * SECOND;
      assert d % TWO64 == 0 && d != 0;
      assert d <= -TWO64 || d >= TWO64;
    }
  }
}
