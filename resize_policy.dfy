/**
 * The resize policy of the improved (flow-guided) retouch: a VRAM table
 * gives the largest long edge the GPU can take, and every frame whose long
 * edge exceeds it is scaled down with its aspect ratio kept; the others are
 * copied unchanged into the resized frame store.
 */
module ResizePolicy {
  import opened Wrappers
  import opened Media

  /** `gpu_table`, in its dictionary order: VRAM threshold in GiB, maximum long edge in pixels. */
  const GpuTable: seq<(int, nat)> := [(19, 1280), (7, 720), (6, 640), (2, 320)]

  function Max(a: int, b: int): int {
    if a < b then b else a
  }

  /**
   * `max(val for key, val in table.items() if key <= vram)`: the largest
   * value among the entries whose threshold is at most the VRAM, or `None`
   * where no threshold is (Python's `max` raises on the empty generator).
   */
  function MaxEligible(table: seq<(int, nat)>, vram: real): (r: Option<nat>)
    ensures r.None? <==> forall e :: e in table ==> e.0 as real > vram
    ensures r.Some? ==> exists e :: e in table && e.0 as real <= vram && e.1 == r.value
    ensures r.Some? ==> forall e :: e in table && e.0 as real <= vram ==> e.1 <= r.value
  {
    if table == [] then None
    else
      var rest := MaxEligible(table[1..], vram);
      assert forall e :: e in table <==> e == table[0] || e in table[1..];
      if table[0].0 as real <= vram then
        (if rest.Some? && rest.value > table[0].1 then rest else Some(table[0].1))
      else rest
  }

  /** The maximum long edge chosen for a GPU with `vram` GiB: the tier of the largest threshold it reaches. */
  lemma {:induction false} MaxSizeTiers(vram: real)
    ensures MaxEligible(GpuTable, vram) ==
      if vram >= 19.0 then Some(1280)
      else if vram >= 7.0 then Some(720)
      else if vram >= 6.0 then Some(640)
      else if vram >= 2.0 then Some(320)
      else None
  {
    var t := GpuTable;
    assert t[1..][1..][1..][1..] == t[4..] && |t[4..]| == 0;
    assert MaxEligible(t[4..], vram) == None;
    assert MaxEligible(t[3..], vram) == if vram >= 2.0 then Some(320) else None by {
      assert t[3..][1..] == t[4..];
    }
    assert MaxEligible(t[2..], vram) == if vram >= 6.0 then Some(640) else if vram >= 2.0 then Some(320) else None by {
      assert t[2..][1..] == t[3..];
    }
    assert MaxEligible(t[1..], vram) == if vram >= 7.0 then Some(720) else if vram >= 6.0 then Some(640) else if vram >= 2.0 then Some(320) else None by {
      assert t[1..][1..] == t[2..];
    }
  }

  /** `int(side * (max_size / long))`, in exact arithmetic. */
  function ScaledSide(side: nat, maxSize: nat, long: nat): nat
    requires long > 0
  {
    MulLe(0, side, maxSize);
    side * maxSize / long
  }

  /** The (height, width) a frame is written at for a maximum long edge `maxSize`. */
  function TargetSize(h: nat, w: nat, maxSize: nat): (nat, nat) {
    if Max(h, w) > maxSize then
      if h > w then (maxSize, ScaledSide(w, maxSize, h)) else (ScaledSide(h, maxSize, w), maxSize)
    else (h, w)
  }

  /**
   * A frame whose long edge is at most `maxSize` keeps its size (the bound
   * is inclusive). Otherwise the longer side (the height if strictly
   * longer, else the width, so also when both are equal) becomes exactly
   * `maxSize`, and the other side is `int(side * maxSize / long)`: the
   * largest size not above the exact proportional one, never above `maxSize`.
   */
  lemma TargetSizeProperties(h: nat, w: nat, maxSize: nat)
    ensures var d := TargetSize(h, w, maxSize);
      && (Max(h, w) <= maxSize ==> d == (h, w))
      && (Max(h, w) > maxSize ==> Max(d.0, d.1) == maxSize)
      && (Max(h, w) > maxSize && h > w ==>
            d.0 == maxSize && d.1 * h <= w * maxSize < (d.1 + 1) * h && d.1 <= maxSize)
      && (Max(h, w) > maxSize && h <= w ==>
            d.1 == maxSize && d.0 * w <= h * maxSize < (d.0 + 1) * w && d.0 <= maxSize)
  {
    if Max(h, w) > maxSize {
      if h > w {
        ProportionalSide(w, h, maxSize);
      } else {
        ProportionalSide(h, w, maxSize);
      }
    }
  }

  lemma MulLe(a: int, b: int, c: nat)
    requires a <= b
    ensures a * c <= b * c
  {
    if c > 0 {
      MulLe(a, b, c - 1);
      assert a * c == a * (c - 1) + a;
      assert b * c == b * (c - 1) + b;
    }
  }

  lemma MulLtCancel(a: int, b: int, c: nat)
    ensures c * a < c * b ==> a < b
  {
    if b <= a {
      MulLe(b, a, c);
    }
  }

  /** `int(side * (maxSize / long))` for a side no longer than `long`, in exact arithmetic. */
  lemma ProportionalSide(side: nat, long: nat, maxSize: nat)
    requires 0 < long && side <= long
    ensures (side * maxSize / long) * long <= side * maxSize < (side * maxSize / long + 1) * long
    ensures side * maxSize / long <= maxSize
  {
    var q := side * maxSize / long;
    var x := side * maxSize;
    assert x == long * q + x % long;
    MulLe(side, long, maxSize);
    assert long * (maxSize + 1) == long * maxSize + long;
    MulLtCancel(q, maxSize + 1, long);
  }

  /** One frame of the resize loop: resized to `TargetSize` by the scaler, or copied unchanged. */
  function ResizeFrame(f: Frame, maxSize: nat, scale: Scaler): (r: Frame)
    ensures Max(f.height, f.width) <= maxSize ==> r == f
    ensures (r.height, r.width) == TargetSize(f.height, f.width, maxSize)
  {
    if Max(f.height, f.width) > maxSize then
      var d := TargetSize(f.height, f.width, maxSize);
      Frame(d.0, d.1, scale(f, d.0, d.1))
    else f
  }

  /** The resize loop: every frame of the store is written, resized or copied, to a new store at the same position. */
  method ResizeFrames(frames: array<Frame>, maxSize: nat, scale: Scaler) returns (resized: array<Frame>)
    ensures fresh(resized) && resized.Length == frames.Length
    ensures forall i :: 0 <= i < frames.Length ==> resized[i] == ResizeFrame(frames[i], maxSize, scale)
  {
    resized := new Frame[frames.Length](i => Frame(0, 0, []));
    for i := 0 to frames.Length
      invariant forall j :: 0 <= j < i ==> resized[j] == ResizeFrame(frames[j], maxSize, scale)
    {
      var frame := frames[i];
      var h, w := frame.height, frame.width;
      if Max(h, w) > maxSize {
        var newH, newW;
        if h > w {
          newH := maxSize;
          newW := ScaledSide(w, maxSize, h);
        } else {
          newW := maxSize;
          newH := ScaledSide(h, maxSize, w);
        }
        resized[i] := Frame(newH, newW, scale(frame, newH, newW));
      } else {
        resized[i] := frame;
      }
    }
  }
}
