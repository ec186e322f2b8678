/** Small value-level helpers shared by the allocation engine: optional
    values, dictionary lookups with a default of zero, the minimum of two
    quantities and Python's `int()` on a quantity. */
module Common {

  datatype Option<T> = None | Some(value: T)

  /** `d.get(k, 0)` on a dictionary of quantities. */
  function Get(m: map<string, real>, k: string): (q: real)
    ensures k in m ==> q == m[k]
    ensures k !in m ==> q == 0.0
  {
    if k in m then m[k] else 0.0
  }

  /** Python's two-argument `min` on quantities. */
  function Min(x: real, y: real): (r: real)
    ensures r <= x && r <= y
    ensures r == x || r == y
  {
    if y < x then y else x
  }

  /** Python's `int(x)` on a finite number: truncation toward zero. */
  function Trunc(x: real): (n: int)
    ensures 0.0 <= x ==> 0 <= n && n as real <= x < n as real + 1.0
    ensures x < 0.0 ==> n <= 0 && n as real - 1.0 < x <= n as real
  {
    if 0.0 <= x then x.Floor else -((-x).Floor)
  }

  /** Every quantity held in `m` is non-negative. */
  predicate NonNegative(m: map<string, real>)
  {
    forall k :: k in m ==> m[k] >= 0.0
  }
}
