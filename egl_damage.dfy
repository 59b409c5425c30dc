/**
 * wlr_egl_swap_buffers: which swap entry point is used, and how the
 * damage rectangles are laid out in the EGLint array handed to
 * eglSwapBuffersWithDamage{EXT,KHR}. The vertical flip of the damage
 * region (wlr_region_transform) is not part of this model; its
 * rectangles are the input here.
 */
module EglDamage {
  import opened Wrappers
  import Egl

  /** A pixman box: top-left corner (x1, y1), bottom-right corner (x2, y2). */
  datatype Box = Box(x1: int, y1: int, x2: int, y2: int)

  /** How the buffers are swapped. */
  datatype SwapCall = SwapWithDamageExt | SwapWithDamageKhr | PlainSwap

  /**
   * The swap entry point: with damage only when a region was passed and
   * one of the damage extensions is available, preferring the EXT one.
   */
  function SwapPath(damageGiven: bool, damageExt: bool, damageKhr: bool): (c: SwapCall)
    ensures c == PlainSwap <==> !damageGiven || (!damageExt && !damageKhr)
    ensures c == SwapWithDamageExt <==> damageGiven && damageExt
    ensures c == SwapWithDamageKhr <==> damageGiven && !damageExt && damageKhr
  {
    if damageGiven && (damageExt || damageKhr) then
      if damageExt then SwapWithDamageExt else SwapWithDamageKhr
    else PlainSwap
  }

  /** The rectangle that entries 4i .. 4i+3 of a damage array describe, as (x, y, width, height). */
  function Decoded(rects: seq<int>, i: nat): (b: Box)
    requires 4 * i + 3 < |rects|
    ensures b.x2 - b.x1 == rects[4 * i + 2] && b.y2 - b.y1 == rects[4 * i + 3]
  {
    Box(rects[4 * i], rects[4 * i + 1], rects[4 * i] + rects[4 * i + 2], rects[4 * i + 1] + rects[4 * i + 3])
  }

  /**
   * The damage array as written: `4 * nrects + 1` entries, one
   * (x, y, width, height) group per rectangle. For an empty region the
   * count is raised to one rectangle and the array zeroed, but the array
   * keeps the single entry it was declared with: the swap call, reading
   * four entries per rectangle, reads three entries past its end.
   */
  method DamageArrayAsWritten(boxes: seq<Box>) returns (rects: seq<int>, nrects: int)
    ensures |rects| == 4 * |boxes| + 1
    ensures forall i :: 0 <= i < |boxes| ==> Decoded(rects, i) == boxes[i]
    ensures |boxes| > 0 ==> nrects == |boxes|
    ensures |boxes| == 0 ==> nrects == 1 && rects == [0] && |rects| < 4 * nrects
    ensures |boxes| > 0 ==> 4 * nrects < |rects|
  {
    var n := |boxes|;
    var a := new int[4 * n + 1];
    for i := 0 to n
      invariant forall j :: 0 <= j < i ==> Decoded(a[..], j) == boxes[j]
    {
      a[4 * i] := boxes[i].x1;
      a[4 * i + 1] := boxes[i].y1;
      a[4 * i + 2] := boxes[i].x2 - boxes[i].x1;
      a[4 * i + 3] := boxes[i].y2 - boxes[i].y1;
      assert Decoded(a[..], i) == boxes[i];
    }
    nrects := n;
    if nrects == 0 {
      nrects := 1;
      a[0] := 0;
    }
    rects := a[..];
  }

  /**
   * The damage array with room for the single empty rectangle: for an
   * empty region it holds one all-zero rectangle, otherwise one group per
   * rectangle. Either way the call's four entries per rectangle lie
   * inside the array, and every rectangle can be read back.
   */
  method DamageArray(boxes: seq<Box>) returns (rects: seq<int>, nrects: int)
    ensures nrects >= 1 && 4 * nrects < |rects|
    ensures |boxes| > 0 ==> nrects == |boxes|
    ensures forall i :: 0 <= i < |boxes| ==> Decoded(rects, i) == boxes[i]
    ensures |boxes| == 0 ==> nrects == 1 && Decoded(rects, 0) == Box(0, 0, 0, 0)
  {
    var n := |boxes|;
    var a := new int[4 * (if n == 0 then 1 else n) + 1];
    for i := 0 to n
      invariant forall j :: 0 <= j < i ==> Decoded(a[..], j) == boxes[j]
    {
      a[4 * i] := boxes[i].x1;
      a[4 * i + 1] := boxes[i].y1;
      a[4 * i + 2] := boxes[i].x2 - boxes[i].x1;
      a[4 * i + 3] := boxes[i].y2 - boxes[i].y1;
      assert Decoded(a[..], i) == boxes[i];
    }
    nrects := n;
    if nrects == 0 {
      nrects := 1;
      a[0], a[1], a[2], a[3] := 0, 0, 0, 0;
    }
    rects := a[..];
  }

  /**
   * wlr_egl_swap_buffers. `damage` holds the rectangles of the flipped
   * damage region when a region was passed. The swap interval is reset to
   * zero on the Wayland platform; the damage array is built, as written,
   * only for a damage swap; the result is the swap call's. For an empty
   * region the call is told of one rectangle in a one-entry array.
   */
  method SwapBuffers(platform: int, damage: Option<seq<Box>>, damageExt: bool, damageKhr: bool, swapOk: bool)
    returns (ok: bool, intervalZeroed: bool, call: SwapCall, rects: seq<int>, nrects: int)
    ensures ok == swapOk
    ensures intervalZeroed <==> platform == Egl.EGL_PLATFORM_WAYLAND_EXT
    ensures call == SwapPath(damage.Some?, damageExt, damageKhr)
    ensures call == PlainSwap ==> rects == [] && nrects == 0
    ensures call != PlainSwap ==>
      |rects| == 4 * |damage.value| + 1 &&
      (forall i :: 0 <= i < |damage.value| ==> Decoded(rects, i) == damage.value[i]) &&
      (|damage.value| > 0 ==> nrects == |damage.value| && 4 * nrects < |rects|) &&
      (|damage.value| == 0 ==> nrects == 1 && rects == [0] && |rects| < 4 * nrects)
  {
    intervalZeroed := platform == Egl.EGL_PLATFORM_WAYLAND_EXT;
    call := SwapPath(damage.Some?, damageExt, damageKhr);
    if call != PlainSwap {
      rects, nrects := DamageArrayAsWritten(damage.value);
    } else {
      rects, nrects := [], 0;
    }
    ok := swapOk;
  }
}
