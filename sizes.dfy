/** Width-and-height pairs, shared by the preset table, the canvases and the labels. */
module Sizes {

  datatype Dims = Dims(width: nat, height: nat)

  function Min(a: nat, b: nat): (m: nat)
    ensures m <= a && m <= b && (m == a || m == b)
  {
    if a <= b then a else b
  }
}
