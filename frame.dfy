/** The size argument of the three-dimensional frame scene object. */
module Frames {
  import opened Options

  /** The frame's extents along x, y and z: a missing extent defaults to 1 and
      the given ones are kept. A list of more than three extents matches none
      of the cases, so the frame's size is never set (None). */
  function NormaliseSize(size: seq<real>): (r: Option<seq<real>>)
    ensures r.Some? <==> |size| <= 3
    ensures r.Some? ==> |r.value| == 3 && r.value[..|size|] == size
    ensures r.Some? ==> forall i :: |size| <= i < 3 ==> r.value[i] == 1.0
  {
    if |size| == 0 then Some([1.0, 1.0, 1.0])
    else if |size| == 1 then Some(size[0..1] + [1.0, 1.0])
    else if |size| == 2 then Some(size[0..2] + [1.0])
    else if |size| == 3 then Some(size[0..3])
    else None
  }
}
