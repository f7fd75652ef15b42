/** The window-manager side shared by the overlay services: the pixel size and position
    of an overlay window, the drag listener every overlay installs on its eye, and the
    pending posts of a `Handler`. */
module Window {
  import opened Platform

  /** The parts of `layoutParams` the service sets: the side of the square window in
      pixels and its offset from the top-right corner. */
  datatype LayoutParams = LayoutParams(size: int, x: int, y: int)

  /** Where the current drag started: the window offset and the raw touch position. */
  datatype DragStart = DragStart(x: int, y: int, touchX: real, touchY: real)

  /** `(dp * density + 0.5f).toInt()`: density-independent pixels to pixels, rounded. */
  function DpToPx(dp: real, density: real): int {
    FloatToInt(dp * density + 0.5)
  }

  /** The pending posts of a handler without the one at `i`, which the looper has just
      taken to run. */
  function RemoveAt<T>(s: seq<T>, i: nat): (r: seq<T>)
    requires i < |s|
    ensures |r| == |s| - 1
    ensures forall k :: 0 <= k < |r| ==> r[k] == if k < i then s[k] else s[k + 1]
  {
    s[..i] + s[i + 1..]
  }

  /** The drag listener consumes presses and moves, and nothing else. */
  predicate Consumes(action: MotionAction) {
    action == ActionDown || action == ActionMove
  }

  /** The window offset during a drag: the window follows the finger, mirrored
      horizontally because it is anchored to the right edge. */
  function Dragged(p: LayoutParams, d: DragStart, rawX: real, rawY: real): LayoutParams {
    p.(x := d.x - FloatToInt(rawX - d.touchX), y := d.y + FloatToInt(rawY - d.touchY))
  }

  /** A drag that moves the finger by whole pixels moves the window by the same amount:
      left for a move to the right, down for a move down. */
  lemma DraggedByWholePixels(p: LayoutParams, d: DragStart, dx: int, dy: int)
    requires INT_MIN <= dx <= INT_MAX && INT_MIN <= dy <= INT_MAX
    ensures Dragged(p, d, d.touchX + dx as real, d.touchY + dy as real) == p.(x := d.x - dx, y := d.y + dy)
  {
    assert d.touchX + dx as real - d.touchX == dx as real;
    assert d.touchY + dy as real - d.touchY == dy as real;
  }
}
