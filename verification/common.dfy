/** Definitions shared by the two chaincode models: handler results, Go's 64-bit
    `int` arithmetic and what `strconv.Atoi` makes of a decimal argument. */
module Common {

  datatype Option<+T> = None | Some(value: T)

  /** What a handler returns: a nil error (`Pass`) or the error it reports. */
  datatype Outcome<+E> = Pass | Fail(error: E)

  const INT64_MIN: int := -0x8000_0000_0000_0000
  const INT64_MAX: int := 0x7FFF_FFFF_FFFF_FFFF
  const TWO_TO_64: int := 0x1_0000_0000_0000_0000

  /** Values a Go `int` can hold on a 64-bit peer. */
  predicate InInt64(x: int) {
    INT64_MIN <= x <= INT64_MAX
  }

  /** Go's `int` arithmetic: the mathematical result reduced to two's complement. */
  function Wrap64(x: int): (r: int)
    ensures InInt64(r)
    ensures InInt64(x) ==> r == x
    ensures INT64_MAX < x <= INT64_MAX - INT64_MIN ==> r == x - TWO_TO_64
  {
    (x - INT64_MIN) % TWO_TO_64 + INT64_MIN
  }

  /** Wrapping an intermediate sum does not change a wrapped total: an accumulator
      updated with `acc = acc + x` in Go holds the wrapped mathematical sum. */
  lemma WrapAdd(a: int, b: int)
    ensures Wrap64(Wrap64(a) + b) == Wrap64(a + b)
  {
  }

  /** A decimal argument as `strconv.Atoi` reads it. `Malformed` is text Atoi
      rejects with a syntax error, for which it returns 0. `Literal(n)` is text
      that reads as the integer n, of any magnitude. Text whose leading digits
      exceed 2^64 - 1 (the unsigned 64-bit limit the digits are counted in)
      before its first bad character is rejected with a range error and the
      nearest bound, exactly as an out-of-range literal of that sign is, so it
      counts as such a `Literal`; any other text with a bad character is
      `Malformed`. Decimal syntax itself is not modelled. */
  datatype Numeral = Literal(n: int) | Malformed

  /** `strconv.Atoi` returns a nil error: a literal that fits in an `int`. */
  predicate AtoiOk(s: Numeral) {
    s.Literal? && InInt64(s.n)
  }

  /** The `int` that `strconv.Atoi` returns next to its error: 0 on a syntax
      error, the nearest bound on a range error. */
  function AtoiValue(s: Numeral): (r: int)
    ensures InInt64(r)
    ensures AtoiOk(s) ==> r == s.n
    ensures s.Malformed? ==> r == 0
    ensures s.Literal? && !AtoiOk(s) ==> r == (if s.n < 0 then INT64_MIN else INT64_MAX)
  {
    match s
    case Malformed => 0
    case Literal(n) => if n < INT64_MIN then INT64_MIN else if n > INT64_MAX then INT64_MAX else n
  }
}
