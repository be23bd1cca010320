/**
 * Count resolution: how each primitive turns its count-or-fraction argument
 * into an absolute number of slices for an axis of length n.
 */
module Params {
  import opened Outcomes

  type Denominator = d: int | d > 0 witness 1

  /** A count-or-fraction argument as a caller passes it. */
  datatype Param =
    | Int(v: int)                     // a Python int
    | Float(num: int, den: Denominator)  // a Python float, taken as the exact rational num / den
    | Null                            // Python None
    | Other                           // any other value

  /**
   * The shared resolution: an int is taken as it is, a float f with 0 <= f <= 1
   * becomes `int(f * n)` (truncation, which is the floor for f >= 0), anything else fails.
   */
  function Resolve(p: Param, n: nat): (r: Result<int>)
    ensures r.Ok? <==> p.Int? || (p.Float? && 0 <= p.num <= p.den)
    ensures p.Int? ==> r == Ok(p.v)
    ensures r.Err? ==> r.error == InvalidParameter
    ensures r.Ok? && p.Float? ==>
      0 <= r.value <= n && r.value * p.den <= p.num * n < (r.value + 1) * p.den
  {
    match p
    case Int(v) => Ok(v)
    case Float(num, den) =>
      if 0 <= num <= den then FloorBounds(num, den, n); Ok(num * n / den) else Err(InvalidParameter)
    case _ => Err(InvalidParameter)
  }

  lemma FloorBounds(num: int, den: Denominator, n: nat)
    requires 0 <= num <= den
    ensures 0 <= num * n / den <= n
    ensures (num * n / den) * den <= num * n < (num * n / den + 1) * den
  {
    var x := num * n;
    var q, r := x / den, x % den;
    assert x == q * den + r && 0 <= r < den;
    MulMono(0, num, n);
    MulMono(num, den, n);
    assert 0 <= x <= n * den;
    assert q * den <= n * den;
    MulCancel(q, n, den);
  }

  /** A positive factor can be cancelled from both sides of an inequality. */
  lemma MulCancel(a: int, b: int, c: int)
    requires c > 0 && a * c <= b * c
    ensures a <= b
  {
  }

  /** Multiplying by a non-negative factor keeps the order. */
  lemma {:induction false} MulMono(a: int, b: int, c: nat)
    requires a <= b
    ensures a * c <= b * c
  {
    if c > 0 {
      MulMono(a, b, c - 1);
      assert a * c == a * (c - 1) + a && b * c == b * (c - 1) + b;
    }
  }

  /**
   * Removal (`simulate_missing_slides`): the resolved k must be below n; a
   * negative k then fails in `np.random.choice`.
   */
  function RemovalCount(p: Param, n: nat): (r: Result<nat>)
    ensures r.Ok? <==> Resolve(p, n).Ok? && 0 <= Resolve(p, n).value < n
    ensures r.Ok? ==> r.value == Resolve(p, n).value
    ensures p.Int? ==> (r.Ok? <==> 0 <= p.v < n) && (r.Ok? ==> r.value == p.v)
  {
    match Resolve(p, n)
    case Err(e) => Err(e)
    case Ok(k) =>
      if k >= n then Err(CountTooLarge)
      else if k < 0 then Err(NegativeCount)
      else Ok(k)
  }

  /**
   * Reordering with a parameter (`simulate_wrong_sequence`) and substitution
   * (`simulate_mixed_axis`): the resolved m may equal n but not exceed it; a
   * negative m then fails in `np.random.choice`.
   */
  function SubsetCount(p: Param, n: nat): (r: Result<nat>)
    ensures r.Ok? <==> Resolve(p, n).Ok? && 0 <= Resolve(p, n).value <= n
    ensures r.Ok? ==> r.value == Resolve(p, n).value
    ensures p.Int? ==> (r.Ok? <==> 0 <= p.v <= n) && (r.Ok? ==> r.value == p.v)
  {
    match Resolve(p, n)
    case Err(e) => Err(e)
    case Ok(m) =>
      if m > n then Err(CountTooLarge)
      else if m < 0 then Err(NegativeCount)
      else Ok(m)
  }

  /**
   * The boundary fractions: 1.0 always fails for removal and is a full count for
   * the other two; 0.0 is a no-op count for removal whenever the axis is non-empty.
   */
  lemma FractionBoundaries(n: nat)
    ensures RemovalCount(Float(1, 1), n).Err?
    ensures n > 0 ==> RemovalCount(Float(0, 1), n) == Ok(0)
    ensures SubsetCount(Float(1, 1), n) == Ok(n)
    ensures SubsetCount(Float(0, 1), n) == Ok(0)
  {
  }
}
