/**
 * The window schedule of the improved retouch: an object's mask files are
 * cut into windows of `BatchSize` entries that start every
 * `BatchSize - Overlap` entries, windows with fewer than `MinFrames`
 * remaining entries are skipped, and in every window after the first the
 * first `Overlap` entries get an empty mask.
 */
module Windows {

  /** `frame_batch_size` */
  const BatchSize: nat := 50
  /** `int(0.2 * frame_batch_size)`, a fifth of the batch */
  const Overlap: nat := 10
  /** The step of `range(0, len(mask_files), frame_batch_size - overlap)`. */
  const Stride: nat := BatchSize - Overlap
  /** The fewest frames the flow inpainter is given. */
  const MinFrames: nat := 3

  function Min(a: int, b: int): int {
    if a < b then a else b
  }

  /** A window starting at entry `i` of `n` mask files is processed: `i` is a start of the range and at least `MinFrames` entries remain. */
  predicate Processed(n: nat, i: int) {
    0 <= i < n && i % Stride == 0 && n - i >= MinFrames
  }

  /** `mask_files[i : i + frame_batch_size]` ends here (Python clamps the slice). */
  function WindowEnd(n: nat, i: nat): nat
    requires i <= n
  {
    Min(i + BatchSize, n)
  }

  /** Entry `idx` of the window starting at `i` is an overlap entry, whose mask is cleared. */
  predicate Zeroed(i: nat, idx: nat) {
    i > 0 && idx < Overlap
  }

  /** The first entry, counted over all mask files, whose mask the window starting at `i` keeps. */
  function KeptFrom(i: nat): nat {
    if i > 0 then i + Overlap else i
  }

  /** The starts the loop visits from `i` on, minus those it skips for having too few entries left. */
  function StartsFrom(n: nat, i: nat): (r: seq<nat>)
    ensures forall j :: j in r ==> i <= j < n
    decreases n - i
  {
    if i >= n then []
    else if n - i < MinFrames then StartsFrom(n, i + Stride)
    else [i] + StartsFrom(n, i + Stride)
  }

  /** The windows processed for an object with `n` mask files; an object with fewer than `MinFrames` is skipped whole. */
  function Schedule(n: nat): (r: seq<nat>)
    ensures forall j :: j in r ==> j < n
  {
    if n < MinFrames then [] else StartsFrom(n, 0)
  }

  lemma {:induction false} StartsFromShape(n: nat, i: nat)
    requires i % Stride == 0
    ensures forall p :: 0 <= p < |StartsFrom(n, i)| ==> StartsFrom(n, i)[p] == i + p * Stride
    ensures forall j :: j in StartsFrom(n, i) <==> i <= j && Processed(n, j)
    decreases n - i
  {
    if i < n {
      StartsFromShape(n, i + Stride);
      var r := StartsFrom(n, i);
      var t := StartsFrom(n, i + Stride);
      if n - i >= MinFrames {
        assert r == [i] + t;
        forall p | 0 <= p < |r|
          ensures r[p] == i + p * Stride
        {
          if p > 0 {
            assert r[p] == t[p - 1];
            assert t[p - 1] == i + Stride + (p - 1) * Stride;
            assert (p - 1) * Stride + Stride == p * Stride;
          }
        }
      }
    }
  }

  /**
   * The schedule is 0, Stride, 2 * Stride, ... and holds exactly the
   * processed starts; every window it submits has between `MinFrames` and
   * `BatchSize` entries.
   */
  lemma ScheduleShape(n: nat)
    ensures var r := Schedule(n);
      && (forall p :: 0 <= p < |r| ==> r[p] == p * Stride)
      && (forall i :: i in r <==> Processed(n, i))
      && (forall i :: i in r ==> MinFrames <= WindowEnd(n, i) - i <= BatchSize)
  {
    StartsFromShape(n, 0);
    var r := Schedule(n);
    if n >= MinFrames {
      assert r == StartsFrom(n, 0);
      forall p | 0 <= p < |r|
        ensures r[p] == p * Stride
      {
        assert r[p] == 0 + p * Stride;
      }
    }
  }

  /** The schedules of the boundary cases: 2, 3 and `BatchSize + 2` mask files, and a range of 102 frames. */
  lemma ScheduleExamples()
    ensures Schedule(2) == []
    ensures Schedule(3) == [0]
    ensures Schedule(BatchSize + 2) == [0, Stride]
    ensures Schedule(102) == [0, 40, 80] && WindowEnd(102, 80) == 102
  {
    assert StartsFrom(52, 80) == [];
    assert StartsFrom(52, 40) == [40];
    assert StartsFrom(102, 120) == [];
    assert StartsFrom(102, 80) == [80];
    assert StartsFrom(102, 40) == [40, 80];
  }

  /** The processed window whose kept part holds entry `idx`. */
  function Owner(idx: nat): nat {
    if idx < BatchSize then 0 else ((idx - Overlap) / Stride) * Stride
  }

  /** Every entry of an object with at least `MinFrames` mask files lies in some processed window. */
  lemma Coverage(n: nat, idx: nat)
    requires MinFrames <= n && idx < n
    ensures Processed(n, Owner(idx)) && Owner(idx) <= idx < WindowEnd(n, Owner(idx))
  {
    KeptPartOfOwner(n, idx);
  }

  /** The owner of an entry is a processed window, and the entry lies in the part of it whose masks are kept. */
  lemma KeptPartOfOwner(n: nat, idx: nat)
    requires MinFrames <= n && idx < n
    ensures Processed(n, Owner(idx)) && KeptFrom(Owner(idx)) <= idx < WindowEnd(n, Owner(idx))
  {
    if idx >= BatchSize {
      var k := (idx - Overlap) / Stride;
      assert k * Stride <= idx - Overlap < k * Stride + Stride;
      assert k >= 1;
    }
  }

  /**
   * The kept (not cleared) parts of the processed windows cover every
   * entry exactly once: entry `idx` is kept by the window starting at `i`
   * if and only if `i` is its owner.
   */
  lemma KeptExactlyOnce(n: nat, idx: nat, i: nat)
    requires MinFrames <= n && idx < n
    ensures (Processed(n, i) && KeptFrom(i) <= idx < WindowEnd(n, i)) <==> i == Owner(idx)
  {
    KeptPartOfOwner(n, idx);
    if Processed(n, i) && KeptFrom(i) <= idx < WindowEnd(n, i) {
      var k := i / Stride;
      assert i == k * Stride;
      if idx >= BatchSize {
        assert k >= 1;
        assert k * Stride <= idx - Overlap < k * Stride + Stride;
        assert (idx - Overlap) / Stride == k;
      }
    }
  }

  /**
   * The cleared entries of a window are the last `Overlap` entries of the
   * window before it, which was itself processed.
   */
  lemma ClearedEntriesWereProcessed(n: nat, i: nat, idx: nat)
    requires Processed(n, i) && i > 0 && idx < Overlap && i + idx < n
    ensures Processed(n, i - Stride)
    ensures i - Stride + Stride + idx < WindowEnd(n, i - Stride) && Stride + idx >= KeptFrom(i - Stride) - (i - Stride)
    ensures i + idx < WindowEnd(n, i)
  {
  }
}
