/** The client-side check on the requested amount, made before any request. */
module AmountGuard {
  import opened Options

  const MinAmount: real := 1000.0
  const MaxAmount: real := 2000000.0

  /** The amounts the terminal accepts: an inclusive range. */
  predicate InRange(a: real) {
    MinAmount <= a <= MaxAmount
  }

  /** The guard of `withdraw`, with `None` standing for NaN: it rejects NaN,
      anything below the minimum and anything above the maximum, and hands
      the parsed amount on otherwise. */
  function Check(parsed: Option<real>): (r: Option<real>)
    ensures r.Some? <==> parsed.Some? && InRange(parsed.value)
    ensures r.Some? ==> r == parsed
  {
    if parsed.None? || parsed.value < MinAmount || parsed.value > MaxAmount then None
    else parsed
  }

  /** Both ends of the range are accepted; the nearest values outside are not. */
  lemma Boundaries()
    ensures Check(Some(1000.0)) == Some(1000.0)
    ensures Check(Some(2000000.0)) == Some(2000000.0)
    ensures Check(Some(999.99)).None?
    ensures Check(Some(2000000.01)).None?
    ensures Check(None).None?
  {
  }
}
