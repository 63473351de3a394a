/**
 * Turning an object's time range into the frames it covers:
 * `frame_files[floor(start * fps) : ceil(end * fps) + 1]`, with Python's
 * slice semantics (negative bounds count from the end, bounds are clamped).
 * Times and the frame rate are exact reals; floating-point rounding is not modelled.
 */
module FrameSelect {

  function Floor(r: real): int {
    r.Floor
  }

  function Ceil(r: real): (c: int)
    ensures c as real - 1.0 < r <= c as real
  {
    -((-r).Floor)
  }

  /** Python's normalisation of a slice bound `i` against a sequence of length `n`. */
  function SliceBound(i: int, n: nat): (b: nat)
    ensures b <= n
    ensures 0 <= i <= n ==> b == i
  {
    if i < 0 then (if i + n < 0 then 0 else i + n)
    else if i > n then n
    else i
  }

  /** `math.floor(start_time * fps)` */
  function StartFrame(start: real, fps: real): int {
    Floor(start * fps)
  }

  /** `math.ceil(end_time * fps) + 1` */
  function EndFrame(end: real, fps: real): int {
    Ceil(end * fps) + 1
  }

  /**
   * The positions, in a store of `n` frames, that
   * `frame_files[StartFrame : EndFrame]` selects. They always form a
   * contiguous run of valid positions.
   */
  function Selection(n: nat, start: real, end: real, fps: real): (sel: seq<nat>)
    ensures forall p :: 0 <= p < |sel| ==> sel[p] < n
    ensures forall p :: 0 <= p < |sel| ==> sel[p] == sel[0] + p
  {
    var lo := SliceBound(StartFrame(start, fps), n);
    var hi := SliceBound(EndFrame(end, fps), n);
    if lo < hi then seq(hi - lo, p requires 0 <= p < hi - lo => lo + p) else []
  }

  /**
   * For a valid clipped range (0 <= start <= end, fps >= 0) the selection is
   * exactly the frames from floor(start * fps) up to and including
   * ceil(end * fps) that exist, and it is empty exactly when the first of
   * them lies past the last frame.
   */
  lemma {:induction false} SelectionOfClippedRange(n: nat, start: real, end: real, fps: real)
    requires 0.0 <= start <= end && 0.0 <= fps
    ensures forall f: nat :: f in Selection(n, start, end, fps) <==> StartFrame(start, fps) <= f < EndFrame(end, fps) && f < n
    ensures Selection(n, start, end, fps) == [] <==> n <= StartFrame(start, fps)
  {
    var lo := StartFrame(start, fps);
    assert 0.0 <= start * fps by {
      assert 0.0 <= start && 0.0 <= fps;
    }
    assert start * fps <= end * fps by {
      assert (end - start) * fps >= 0.0;
    }
    assert 0 <= lo;
    assert lo <= Ceil(end * fps);
    var sel := Selection(n, start, end, fps);
    forall f: nat
      ensures f in sel <==> lo <= f < EndFrame(end, fps) && f < n
    {
      if lo <= f < EndFrame(end, fps) && f < n {
        var hi := SliceBound(EndFrame(end, fps), n);
        assert sel[f - lo] == f;
      }
    }
  }

  /** A static image is read with fps = 0: whatever the times, the selection is its single first frame. */
  lemma StaticSelection(n: nat, start: real, end: real)
    requires n >= 1
    ensures Selection(n, start, end, 0.0) == [0]
  {
    assert start * 0.0 == 0.0 && end * 0.0 == 0.0;
    assert Ceil(0.0) == 0;
  }
}
