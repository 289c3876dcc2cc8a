/** `torch.clamp` on one value. */
module Clamping {

  /** `torch.clamp(x, min=lo, max=hi)`: raise `x` to `lo`, then lower it to `hi`.
      When `lo > hi` every input becomes `hi`, as in torch. */
  function Clamp(x: real, lo: real, hi: real): (r: real)
    ensures lo <= hi ==> lo <= r <= hi
    ensures lo <= x <= hi ==> r == x
    ensures hi <= x ==> r == hi
    ensures x <= lo && lo <= hi ==> r == lo
    ensures hi < lo ==> r == hi
  {
    var raised := if x < lo then lo else x;
    if raised > hi then hi else raised
  }

  /** `torch.clamp(x, max=hi)`: an upper bound only. */
  function ClampMax(x: real, hi: real): (r: real)
    ensures r <= hi
    ensures x <= hi ==> r == x
    ensures hi <= x ==> r == hi
  {
    if x > hi then hi else x
  }
}
