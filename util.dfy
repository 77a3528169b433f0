/** Integer helpers of util.ts. */
module Util {

  function Abs(v: int): int
  {
    if v < 0 then -v else v
  }

  /** `clamp(x, lo, hi)`: lo below the range, hi above it, x itself inside it. */
  function Clamp(x: int, lo: int, hi: int): (r: int)
    ensures lo <= hi ==> lo <= r <= hi
    ensures lo <= x <= hi ==> r == x
    ensures x < lo ==> r == lo
    ensures lo <= x && hi < x ==> r == hi
  {
    if x < lo then lo else if x > hi then hi else x
  }

  /** Clamping a value that is already clamped changes nothing. */
  lemma ClampIdempotent(x: int, lo: int, hi: int)
    requires lo <= hi
    ensures Clamp(Clamp(x, lo, hi), lo, hi) == Clamp(x, lo, hi)
  {
  }

  /** `sign(v)`: -1, 0 or +1 according to the sign of v. */
  function Sign(v: int): (r: int)
    ensures r == -1 || r == 0 || r == 1
    ensures r == 0 <==> v == 0
    ensures r == 1 <==> v > 0
    ensures r * v == Abs(v)
  {
    if v < 0 then -1 else if v > 0 then 1 else 0
  }

  /** The sign of a negated value is the negated sign. */
  lemma SignNegate(v: int)
    ensures Sign(-v) == -Sign(v)
  {
  }
}
