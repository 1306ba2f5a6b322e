/** Small numeric helpers shared by the gallery and the lightbox: the
    `Math.abs`, `Math.min`, `Math.max` and min/max clamping the components
    use, over exact reals. */
module Numeric {

  function Abs(x: real): (r: real)
    ensures r >= 0.0
    ensures r == x || r == -x
  {
    if x < 0.0 then -x else x
  }

  function Min(a: real, b: real): (r: real)
    ensures r <= a && r <= b
    ensures r == a || r == b
  {
    if a <= b then a else b
  }

  function Max(a: real, b: real): (r: real)
    ensures r >= a && r >= b
    ensures r == a || r == b
  {
    if a >= b then a else b
  }

  /** `Math.max(lo, Math.min(hi, x))`: the nearest point of [lo, hi] to x. */
  function Clamp(lo: real, hi: real, x: real): (r: real)
    requires lo <= hi
    ensures lo <= r <= hi
    ensures lo <= x <= hi ==> r == x
    ensures x < lo ==> r == lo
    ensures x > hi ==> r == hi
  {
    Max(lo, Min(hi, x))
  }
}

/** The record every media listing produces and the gallery and lightbox
    display: `{ id, image, title }`. */
module Media {

  datatype Option<T> = None | Some(value: T)

  datatype Item = Item(id: int, image: string, title: string)
}
