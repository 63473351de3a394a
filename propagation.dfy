/**
 * Mask propagation for one object over its selected frames: the first
 * selected frame is seeded from the object's point prompts, every later
 * frame is tracked in order, and propagation stops at the first frame the
 * tracker loses.
 */
module Propagation {
  import opened Wrappers
  import opened Media

  /** Every selected position names a frame of the store. */
  ghost predicate InStore(frames: seq<Frame>, sel: seq<nat>) {
    forall p :: 0 <= p < |sel| ==> sel[p] < |frames|
  }

  /** The frames fed to the segmenter once the first `k` selected frames have been read. */
  function Fed(frames: seq<Frame>, sel: seq<nat>, k: nat): (fed: seq<Frame>)
    requires k <= |sel| && InStore(frames, sel)
    ensures |fed| == k
  {
    seq(k, q requires 0 <= q < k => frames[sel[q]])
  }

  /**
   * The mask files written from selected position `j` on: each frame is
   * tracked with everything fed before it, and the first `None` ends the run.
   */
  function TrackFrom(frames: seq<Frame>, sel: seq<nat>, j: nat, points: seq<Point>, track: Tracker): (r: seq<MaskFile>)
    requires 1 <= j <= |sel| && InStore(frames, sel)
    ensures |r| <= |sel| - j
    decreases |sel| - j
  {
    if j == |sel| then []
    else
      match track(points, Fed(frames, sel, j + 1))
      case None => []
      case Some(g) => [MaskFile(sel[j], g)] + TrackFrom(frames, sel, j + 1, points, track)
  }

  /**
   * The run written from position `j` on follows the selection, each file
   * holding the tracker's mask for its frame, and it stops early only where
   * the tracker returned `None`.
   */
  lemma {:induction false} TrackFromFacts(frames: seq<Frame>, sel: seq<nat>, j: nat, points: seq<Point>, track: Tracker)
    requires 1 <= j <= |sel| && InStore(frames, sel)
    ensures var r := TrackFrom(frames, sel, j, points, track);
      && (forall p :: 0 <= p < |r| ==> r[p].frame == sel[j + p])
      && (forall p :: 0 <= p < |r| ==> track(points, Fed(frames, sel, j + p + 1)) == Some(r[p].grey))
      && (j + |r| < |sel| ==> track(points, Fed(frames, sel, j + |r| + 1)) == None)
    decreases |sel| - j
  {
    if j < |sel| && track(points, Fed(frames, sel, j + 1)).Some? {
      TrackFromFacts(frames, sel, j + 1, points, track);
      var r := TrackFrom(frames, sel, j, points, track);
      var t := TrackFrom(frames, sel, j + 1, points, track);
      assert r == [r[0]] + t;
      forall p | 1 <= p < |r|
        ensures r[p] == t[p - 1]
      {
      }
    }
  }

  /** All mask files written for an object: the seeded first frame, then the tracked run. */
  function Propagated(frames: seq<Frame>, sel: seq<nat>, points: seq<Point>, seed: Seeder, track: Tracker): (r: seq<MaskFile>)
    requires |sel| > 0 && InStore(frames, sel)
  {
    [MaskFile(sel[0], seed(points, frames[sel[0]]))] + TrackFrom(frames, sel, 1, points, track)
  }

  /**
   * The written mask files are an in-order prefix of the selection that
   * always holds the seeded first frame; every later file holds the
   * tracker's mask for its frame, and a prefix shorter than the selection
   * ends exactly where the tracker returned `None`.
   */
  lemma PropagatedIsPrefix(frames: seq<Frame>, sel: seq<nat>, points: seq<Point>, seed: Seeder, track: Tracker)
    requires |sel| > 0 && InStore(frames, sel)
    ensures var r := Propagated(frames, sel, points, seed, track);
      && 1 <= |r| <= |sel|
      && (forall p :: 0 <= p < |r| ==> r[p].frame == sel[p])
      && r[0].grey == seed(points, frames[sel[0]])
      && (forall p :: 1 <= p < |r| ==> track(points, Fed(frames, sel, p + 1)) == Some(r[p].grey))
      && (|r| < |sel| ==> track(points, Fed(frames, sel, |r| + 1)) == None)
  {
    TrackFromFacts(frames, sel, 1, points, track);
    var t := TrackFrom(frames, sel, 1, points, track);
    var r := Propagated(frames, sel, points, seed, track);
    assert r == [r[0]] + t;
    forall p | 1 <= p < |r|
      ensures r[p].frame == sel[p] && track(points, Fed(frames, sel, p + 1)) == Some(r[p].grey)
    {
      assert r[p] == t[p - 1];
    }
  }

  /** When the selection holds consecutive frame positions, so do the written mask files: they are sorted and distinct. */
  lemma PropagatedConsecutive(frames: seq<Frame>, sel: seq<nat>, points: seq<Point>, seed: Seeder, track: Tracker)
    requires |sel| > 0 && InStore(frames, sel)
    requires forall p :: 0 <= p < |sel| ==> sel[p] == sel[0] + p
    ensures var r := Propagated(frames, sel, points, seed, track);
      forall p :: 0 <= p < |r| ==> r[p].frame == r[0].frame + p && r[p].frame < |frames|
  {
    PropagatedIsPrefix(frames, sel, points, seed, track);
  }

  /** The propagation loop: seed, then track frame by frame until the tracker loses the object. */
  method PropagateObject(work: array<Frame>, sel: seq<nat>, points: seq<Point>, seed: Seeder, track: Tracker)
    returns (files: seq<MaskFile>)
    requires |sel| > 0 && InStore(work[..], sel)
    ensures files == Propagated(work[..], sel, points, seed, track)
  {
    var first := work[sel[0]];
    files := [MaskFile(sel[0], seed(points, first))];
    var fed := [first];
    var j := 1;
    while j < |sel|
      invariant 1 <= j <= |sel|
      invariant fed == Fed(work[..], sel, j)
      invariant files + TrackFrom(work[..], sel, j, points, track) == Propagated(work[..], sel, points, seed, track)
    {
      fed := fed + [work[sel[j]]];
      assert fed == Fed(work[..], sel, j + 1);
      var mask := track(points, fed);
      if mask.None? {
        break;
      }
      files := files + [MaskFile(sel[j], mask.value)];
      j := j + 1;
    }
  }
}
