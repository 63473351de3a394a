/**
 * The windowed batch inpainting of the improved retouch. For every object
 * in key order, every scheduled window of its mask files is inpainted as
 * one batch, and each corrected frame is written back in place into the
 * working frame store (and, with upscaling, merged into the
 * original-resolution store), so later windows read frames earlier windows
 * already corrected. When no resize happened the working store IS the
 * original store, and the model keeps that aliasing.
 */
module WindowedInpaint {
  import opened Media
  import opened Windows

  /** The working store (`work_dir`) and the original-resolution store (`frame_dir`), indexed by frame position. */
  datatype Stores = Stores(work: seq<Frame>, orig: seq<Frame>)

  /**
   * What stays fixed for a whole run: whether the two stores are one
   * directory (`shared`), the upscale flag, the capabilities and the
   * original frame size passed to the upscaler.
   */
  datatype Setting = Setting(shared: bool, upscale: bool, inpaint: Inpainter, up: Upscaler, width: nat, height: nat)

  ghost predicate Consistent(st: Stores, s: Setting) {
    |st.work| == |st.orig| && (s.shared ==> st.work == st.orig)
  }

  /**
   * Writing back one corrected frame `c` for frame `f`, whose window mask is
   * `m`: the working frame is overwritten; with upscaling, the original
   * frame is then read (from the same store when it is shared) and replaced
   * by the upscaler's merge.
   */
  function Commit(st: Stores, f: nat, c: Frame, m: BoolMask, s: Setting): (r: Stores)
    requires Consistent(st, s) && f < |st.work|
    ensures Consistent(r, s)
  {
    var work := st.work[f := c];
    var orig := if s.shared then work else st.orig;
    if s.upscale then
      var merged := s.up(m, c, orig[f], s.width, s.height);
      var orig' := orig[f := merged];
      Stores(if s.shared then orig' else work, orig')
    else Stores(work, orig)
  }

  /** `current_mask_files = mask_files[i : i + frame_batch_size]` */
  function WindowOf(mf: seq<MaskFile>, i: nat): (win: seq<MaskFile>)
    requires i <= |mf|
    ensures |win| == WindowEnd(|mf|, i) - i
  {
    mf[i..WindowEnd(|mf|, i)]
  }

  /** The masks handed to the inpainter: binarised, but cleared for the overlap entries of every window after the first. */
  function WindowMasks(win: seq<MaskFile>, i: nat): (ms: seq<BoolMask>)
    ensures |ms| == |win|
  {
    seq(|win|, idx requires 0 <= idx < |win| => if Zeroed(i, idx) then Cleared(win[idx].grey) else Binarize(win[idx].grey))
  }

  /** The working frames named by the window, read from the store as it is when the window starts. */
  function WindowInput(st: Stores, win: seq<MaskFile>): (fs: seq<Frame>)
    requires forall p :: 0 <= p < |win| ==> win[p].frame < |st.work|
    ensures |fs| == |win|
  {
    seq(|win|, j requires 0 <= j < |win| => st.work[win[j].frame])
  }

  /** The inpainter's corrected frames for the window, one per entry. */
  function Inpainted(st: Stores, win: seq<MaskFile>, i: nat, s: Setting): (cs: seq<Frame>)
    requires forall p :: 0 <= p < |win| ==> win[p].frame < |st.work|
    ensures |cs| == |win|
  {
    var frames := WindowInput(st, win);
    var masks := WindowMasks(win, i);
    seq(|win|, j requires 0 <= j < |win| => s.inpaint(frames, masks, j))
  }

  /** The stores after the first `j` corrected frames of a window are written back, in order. */
  function WriteUpTo(st: Stores, win: seq<MaskFile>, comps: seq<Frame>, masks: seq<BoolMask>, j: nat, s: Setting): (r: Stores)
    requires Consistent(st, s) && (forall p :: 0 <= p < |win| ==> win[p].frame < |st.work|)
    requires j <= |win| == |comps| == |masks|
    ensures Consistent(r, s) && |r.work| == |st.work|
  {
    if j == 0 then st
    else Commit(WriteUpTo(st, win, comps, masks, j - 1, s), win[j - 1].frame, comps[j - 1], masks[j - 1], s)
  }

  /** One window: read its frames, inpaint them with its masks, write every corrected frame back. */
  function ApplyWindow(st: Stores, mf: seq<MaskFile>, i: nat, s: Setting): (r: Stores)
    requires Consistent(st, s) && SortedIn(mf, |st.work|) && i < |mf|
    ensures Consistent(r, s) && |r.work| == |st.work|
  {
    var win := WindowOf(mf, i);
    WriteUpTo(st, win, Inpainted(st, win, i, s), WindowMasks(win, i), |win|, s)
  }

  /** The windows starting at `starts`, applied in order. */
  function Fold(st: Stores, mf: seq<MaskFile>, starts: seq<nat>, s: Setting): (r: Stores)
    requires Consistent(st, s) && SortedIn(mf, |st.work|) && forall j :: j in starts ==> j < |mf|
    ensures Consistent(r, s) && |r.work| == |st.work|
    decreases |starts|
  {
    if starts == [] then st
    else
      assert starts[0] in starts;
      assert forall j :: j in starts[1..] ==> j in starts;
      Fold(ApplyWindow(st, mf, starts[0], s), mf, starts[1..], s)
  }

  /** One object: all its scheduled windows. */
  function ObjectPass(st: Stores, mf: seq<MaskFile>, s: Setting): (r: Stores)
    requires Consistent(st, s) && SortedIn(mf, |st.work|)
    ensures Consistent(r, s) && |r.work| == |st.work|
  {
    Fold(st, mf, Schedule(|mf|), s)
  }

  /** The first `k` objects, in key order. */
  function Passes(st: Stores, dirs: seq<seq<MaskFile>>, k: nat, s: Setting): (r: Stores)
    requires Consistent(st, s) && k <= |dirs| && forall d :: d in dirs ==> SortedIn(d, |st.work|)
    ensures Consistent(r, s) && |r.work| == |st.work|
  {
    if k == 0 then st else ObjectPass(Passes(st, dirs, k - 1, s), dirs[k - 1], s)
  }

  /**
   * A write-back changes frame `f` only: its working frame becomes the
   * corrected frame (or, when the stores are one and upscaling is on, the
   * upscaler's merge of it), and with upscaling its original frame becomes
   * the upscaler's merge, made from the original frame as it was (or, in a
   * shared store, from the corrected frame just written over it).
   */
  lemma CommitEffect(st: Stores, f: nat, c: Frame, m: BoolMask, s: Setting)
    requires Consistent(st, s) && f < |st.work|
    ensures forall g :: 0 <= g < |st.work| && g != f ==>
      Commit(st, f, c, m, s).work[g] == st.work[g] && Commit(st, f, c, m, s).orig[g] == st.orig[g]
    ensures Commit(st, f, c, m, s).work[f] == if s.shared && s.upscale then s.up(m, c, c, s.width, s.height) else c
    ensures Commit(st, f, c, m, s).orig[f] ==
      if s.upscale then s.up(m, c, if s.shared then c else st.orig[f], s.width, s.height)
      else if s.shared then c else st.orig[f]
  {
  }

  /** Writing back the first `j` corrected frames of a window leaves every other frame of both stores as it was. */
  lemma {:induction false} WriteUpToKeeps(st: Stores, win: seq<MaskFile>, comps: seq<Frame>, masks: seq<BoolMask>, j: nat, s: Setting,
                                          g: nat)
    requires Consistent(st, s) && (forall p :: 0 <= p < |win| ==> win[p].frame < |st.work|)
    requires j <= |win| == |comps| == |masks|
    requires g < |st.work| && forall p :: 0 <= p < j ==> win[p].frame != g
    ensures WriteUpTo(st, win, comps, masks, j, s).work[g] == st.work[g] && WriteUpTo(st, win, comps, masks, j, s).orig[g] == st.orig[g]
  {
    if j > 0 {
      WriteUpToKeeps(st, win, comps, masks, j - 1, s, g);
      CommitEffect(WriteUpTo(st, win, comps, masks, j - 1, s), win[j - 1].frame, comps[j - 1], masks[j - 1], s);
    }
  }

  /** After the first `j` write-backs, entry `p < j` holds its own write-back on the stores the window started from. */
  lemma {:induction false} WriteUpToWrites(st: Stores, win: seq<MaskFile>, comps: seq<Frame>, masks: seq<BoolMask>, j: nat, s: Setting,
                                           p: nat)
    requires Consistent(st, s) && (forall q :: 0 <= q < |win| ==> win[q].frame < |st.work|)
    requires forall q, q' :: 0 <= q < q' < |win| ==> win[q].frame < win[q'].frame
    requires p < j <= |win| == |comps| == |masks|
    ensures WriteUpTo(st, win, comps, masks, j, s).work[win[p].frame] == Commit(st, win[p].frame, comps[p], masks[p], s).work[win[p].frame]
    ensures WriteUpTo(st, win, comps, masks, j, s).orig[win[p].frame] == Commit(st, win[p].frame, comps[p], masks[p], s).orig[win[p].frame]
  {
    var prev := WriteUpTo(st, win, comps, masks, j - 1, s);
    var f := win[j - 1].frame;
    CommitEffect(prev, f, comps[j - 1], masks[j - 1], s);
    if p == j - 1 {
      WriteUpToKeeps(st, win, comps, masks, j - 1, s, f);
      CommitEffect(st, f, comps[p], masks[p], s);
    } else {
      WriteUpToWrites(st, win, comps, masks, j - 1, s, p);
    }
  }

  /**
   * Writing back the first `j` corrected frames of a window whose frames
   * are distinct changes those frames only, each exactly as its own
   * write-back on the stores the window started from.
   */
  lemma WriteUpToEffect(st: Stores, win: seq<MaskFile>, comps: seq<Frame>, masks: seq<BoolMask>, j: nat, s: Setting)
    requires Consistent(st, s) && (forall p :: 0 <= p < |win| ==> win[p].frame < |st.work|)
    requires forall p, q :: 0 <= p < q < |win| ==> win[p].frame < win[q].frame
    requires j <= |win| == |comps| == |masks|
    ensures forall g :: 0 <= g < |st.work| && (forall p :: 0 <= p < j ==> win[p].frame != g) ==>
      WriteUpTo(st, win, comps, masks, j, s).work[g] == st.work[g] && WriteUpTo(st, win, comps, masks, j, s).orig[g] == st.orig[g]
    ensures forall p :: 0 <= p < j ==>
      && WriteUpTo(st, win, comps, masks, j, s).work[win[p].frame] == Commit(st, win[p].frame, comps[p], masks[p], s).work[win[p].frame]
      && WriteUpTo(st, win, comps, masks, j, s).orig[win[p].frame] == Commit(st, win[p].frame, comps[p], masks[p], s).orig[win[p].frame]
  {
    forall g | 0 <= g < |st.work| && (forall p :: 0 <= p < j ==> win[p].frame != g)
      ensures WriteUpTo(st, win, comps, masks, j, s).work[g] == st.work[g] && WriteUpTo(st, win, comps, masks, j, s).orig[g] == st.orig[g]
    {
      WriteUpToKeeps(st, win, comps, masks, j, s, g);
    }
    forall p | 0 <= p < j
      ensures WriteUpTo(st, win, comps, masks, j, s).work[win[p].frame] == Commit(st, win[p].frame, comps[p], masks[p], s).work[win[p].frame]
      ensures WriteUpTo(st, win, comps, masks, j, s).orig[win[p].frame] == Commit(st, win[p].frame, comps[p], masks[p], s).orig[win[p].frame]
    {
      WriteUpToWrites(st, win, comps, masks, j, s, p);
    }
  }

  /** A frame none of a window's mask files name is left as it was in both stores. */
  lemma ApplyWindowKeeps(st: Stores, mf: seq<MaskFile>, i: nat, s: Setting, g: nat)
    requires Consistent(st, s) && SortedIn(mf, |st.work|) && i < |mf|
    requires g < |st.work| && forall p :: i <= p < WindowEnd(|mf|, i) ==> mf[p].frame != g
    ensures ApplyWindow(st, mf, i, s).work[g] == st.work[g] && ApplyWindow(st, mf, i, s).orig[g] == st.orig[g]
  {
    var win := WindowOf(mf, i);
    forall q | 0 <= q < |win|
      ensures win[q].frame != g
    {
      assert win[q] == mf[i + q];
    }
    WriteUpToKeeps(st, win, Inpainted(st, win, i, s), WindowMasks(win, i), |win|, s, g);
  }

  /** Each frame a window's mask files name receives the write-back of the inpainter's output for its entry. */
  lemma ApplyWindowWrites(st: Stores, mf: seq<MaskFile>, i: nat, s: Setting, p: nat)
    requires Consistent(st, s) && SortedIn(mf, |st.work|) && i <= p && i < |mf| && p < WindowEnd(|mf|, i)
    ensures ApplyWindow(st, mf, i, s).work[mf[p].frame] ==
      Commit(st, mf[p].frame, Inpainted(st, WindowOf(mf, i), i, s)[p - i], WindowMasks(WindowOf(mf, i), i)[p - i], s).work[mf[p].frame]
    ensures ApplyWindow(st, mf, i, s).orig[mf[p].frame] ==
      Commit(st, mf[p].frame, Inpainted(st, WindowOf(mf, i), i, s)[p - i], WindowMasks(WindowOf(mf, i), i)[p - i], s).orig[mf[p].frame]
  {
    var win := WindowOf(mf, i);
    assert win[p - i] == mf[p];
    WriteUpToWrites(st, win, Inpainted(st, win, i, s), WindowMasks(win, i), |win|, s, p - i);
  }

  /**
   * A window overwrites exactly the frames its mask files name: every other
   * frame of both stores is left as it was, and each named frame receives
   * the write-back of the inpainter's output for its entry, computed from
   * the frames as they were when the window started.
   */
  lemma ApplyWindowEffect(st: Stores, mf: seq<MaskFile>, i: nat, s: Setting)
    requires Consistent(st, s) && SortedIn(mf, |st.work|) && i < |mf|
    ensures forall g :: 0 <= g < |st.work| && (forall p :: i <= p < WindowEnd(|mf|, i) ==> mf[p].frame != g) ==>
      ApplyWindow(st, mf, i, s).work[g] == st.work[g] && ApplyWindow(st, mf, i, s).orig[g] == st.orig[g]
    ensures forall p :: i <= p < WindowEnd(|mf|, i) ==>
      && ApplyWindow(st, mf, i, s).work[mf[p].frame] ==
           Commit(st, mf[p].frame, Inpainted(st, WindowOf(mf, i), i, s)[p - i], WindowMasks(WindowOf(mf, i), i)[p - i], s).work[mf[p].frame]
      && ApplyWindow(st, mf, i, s).orig[mf[p].frame] ==
           Commit(st, mf[p].frame, Inpainted(st, WindowOf(mf, i), i, s)[p - i], WindowMasks(WindowOf(mf, i), i)[p - i], s).orig[mf[p].frame]
  {
    forall g | 0 <= g < |st.work| && (forall p :: i <= p < WindowEnd(|mf|, i) ==> mf[p].frame != g)
      ensures ApplyWindow(st, mf, i, s).work[g] == st.work[g] && ApplyWindow(st, mf, i, s).orig[g] == st.orig[g]
    {
      ApplyWindowKeeps(st, mf, i, s, g);
    }
    forall p | i <= p < WindowEnd(|mf|, i)
      ensures ApplyWindow(st, mf, i, s).work[mf[p].frame] ==
        Commit(st, mf[p].frame, Inpainted(st, WindowOf(mf, i), i, s)[p - i], WindowMasks(WindowOf(mf, i), i)[p - i], s).work[mf[p].frame]
      ensures ApplyWindow(st, mf, i, s).orig[mf[p].frame] ==
        Commit(st, mf[p].frame, Inpainted(st, WindowOf(mf, i), i, s)[p - i], WindowMasks(WindowOf(mf, i), i)[p - i], s).orig[mf[p].frame]
    {
      ApplyWindowWrites(st, mf, i, s, p);
    }
  }

  /** A window starting at `i` reads, for an entry the window at `prev` wrote, that window's write-back. */
  lemma ReadsWritten(st: Stores, mf: seq<MaskFile>, prev: nat, i: nat, idx: nat, s: Setting)
    requires Consistent(st, s) && SortedIn(mf, |st.work|)
    requires prev <= i + idx && prev < |mf| && i + idx < WindowEnd(|mf|, prev) && i + idx < WindowEnd(|mf|, i)
    ensures WindowInput(ApplyWindow(st, mf, prev, s), WindowOf(mf, i))[idx] ==
      Commit(st, mf[i + idx].frame,
             Inpainted(st, WindowOf(mf, prev), prev, s)[i + idx - prev],
             WindowMasks(WindowOf(mf, prev), prev)[i + idx - prev], s).work[mf[i + idx].frame]
  {
    ApplyWindowWrites(st, mf, prev, s, i + idx);
    var after := ApplyWindow(st, mf, prev, s);
    var win := WindowOf(mf, i);
    assert win[idx] == mf[i + idx];
    assert WindowInput(after, win)[idx] == after.work[mf[i + idx].frame];
  }

  /**
   * Later windows read the already corrected overlap frames: entry `idx`
   * of the overlap of the window starting at `i` is read, after the window
   * before it ran, as exactly the frame that window wrote back for it.
   */
  lemma ReadsCorrected(st: Stores, mf: seq<MaskFile>, i: nat, idx: nat, s: Setting)
    requires Consistent(st, s) && SortedIn(mf, |st.work|)
    requires Processed(|mf|, i) && i > 0 && idx < Overlap && i + idx < |mf|
    ensures Processed(|mf|, i - Stride)
    ensures WindowInput(ApplyWindow(st, mf, i - Stride, s), WindowOf(mf, i))[idx] ==
      Commit(st, mf[i + idx].frame,
             Inpainted(st, WindowOf(mf, i - Stride), i - Stride, s)[idx + Stride],
             WindowMasks(WindowOf(mf, i - Stride), i - Stride)[idx + Stride], s).work[mf[i + idx].frame]
  {
    ClearedEntriesWereProcessed(|mf|, i, idx);
    ReadsWritten(st, mf, i - Stride, i, idx, s);
  }

  /** A frame named by none of the mask files of `mf` is left as it was by all of the object's windows. */
  lemma {:induction false} FoldLocality(st: Stores, mf: seq<MaskFile>, starts: seq<nat>, s: Setting, g: nat)
    requires Consistent(st, s) && SortedIn(mf, |st.work|) && forall j :: j in starts ==> j < |mf|
    requires g < |st.work| && forall p :: 0 <= p < |mf| ==> mf[p].frame != g
    ensures Fold(st, mf, starts, s).work[g] == st.work[g] && Fold(st, mf, starts, s).orig[g] == st.orig[g]
    decreases |starts|
  {
    if starts != [] {
      assert starts[0] in starts;
      assert forall j :: j in starts[1..] ==> j in starts;
      ApplyWindowKeeps(st, mf, starts[0], s, g);
      FoldLocality(ApplyWindow(st, mf, starts[0], s), mf, starts[1..], s, g);
    }
  }

  /** A frame that no object's mask files name is never rewritten, in either store. */
  lemma {:induction false} PassesLocality(st: Stores, dirs: seq<seq<MaskFile>>, k: nat, s: Setting, g: nat)
    requires Consistent(st, s) && k <= |dirs| && forall d :: d in dirs ==> SortedIn(d, |st.work|)
    requires g < |st.work| && forall d: seq<MaskFile>, p :: d in dirs && 0 <= p < |d| ==> d[p].frame != g
    ensures Passes(st, dirs, k, s).work[g] == st.work[g] && Passes(st, dirs, k, s).orig[g] == st.orig[g]
  {
    if k > 0 {
      PassesLocality(st, dirs, k - 1, s, g);
      var d := dirs[k - 1];
      assert d in dirs;
      FoldLocality(Passes(st, dirs, k - 1, s), d, Schedule(|d|), s, g);
    }
  }

  /** Without upscaling and with separate stores, the original-resolution frames are never touched. */
  lemma {:induction false} FoldKeepsOriginals(st: Stores, mf: seq<MaskFile>, starts: seq<nat>, s: Setting)
    requires Consistent(st, s) && SortedIn(mf, |st.work|) && forall j :: j in starts ==> j < |mf|
    requires !s.upscale && !s.shared
    ensures Fold(st, mf, starts, s).orig == st.orig
    decreases |starts|
  {
    if starts != [] {
      assert starts[0] in starts;
      assert forall j :: j in starts[1..] ==> j in starts;
      var win := WindowOf(mf, starts[0]);
      WriteKeepsOriginals(st, win, Inpainted(st, win, starts[0], s), WindowMasks(win, starts[0]), |win|, s);
      FoldKeepsOriginals(ApplyWindow(st, mf, starts[0], s), mf, starts[1..], s);
    }
  }

  lemma {:induction false} WriteKeepsOriginals(st: Stores, win: seq<MaskFile>, comps: seq<Frame>, masks: seq<BoolMask>, j: nat, s: Setting)
    requires Consistent(st, s) && (forall p :: 0 <= p < |win| ==> win[p].frame < |st.work|)
    requires j <= |win| == |comps| == |masks|
    requires !s.upscale && !s.shared
    ensures WriteUpTo(st, win, comps, masks, j, s).orig == st.orig
  {
    if j > 0 {
      WriteKeepsOriginals(st, win, comps, masks, j - 1, s);
    }
  }

  /** The binarisation loop of a window: entry `idx` is thresholded, or cleared when it is an overlap entry of a later window. */
  method BinaryMasks(win: seq<MaskFile>, i: nat) returns (masks: seq<BoolMask>)
    ensures |masks| == |win|
    ensures forall idx :: 0 <= idx < |win| ==>
      masks[idx] == if i > 0 && idx < Overlap then Cleared(win[idx].grey) else Binarize(win[idx].grey)
  {
    masks := [];
    var idx := 0;
    while idx < |win|
      invariant 0 <= idx <= |win| && |masks| == idx
      invariant forall q :: 0 <= q < idx ==>
        masks[q] == if i > 0 && q < Overlap then Cleared(win[q].grey) else Binarize(win[q].grey)
    {
      var binary := Binarize(win[idx].grey);
      if i > 0 && idx < Overlap {
        binary := Cleared(win[idx].grey);
      }
      masks := masks + [binary];
      idx := idx + 1;
    }
  }

  /** One window of the batch loop, on the frame stores in place. */
  method ProcessWindow(work: array<Frame>, orig: array<Frame>, mf: seq<MaskFile>, i: nat, s: Setting)
    requires work.Length == orig.Length && s.shared == (work == orig)
    requires SortedIn(mf, work.Length) && i < |mf|
    modifies work, orig
    ensures Stores(work[..], orig[..]) == ApplyWindow(Stores(old(work[..]), old(orig[..])), mf, i, s)
  {
    ghost var st := Stores(work[..], orig[..]);
    var current := mf[i..Min(i + BatchSize, |mf|)];
    assert current == WindowOf(mf, i);
    var masks := BinaryMasks(current, i);
    assert masks == WindowMasks(current, i);
    var store := work[..];
    var frames := seq(|current|, j requires 0 <= j < |current| => store[current[j].frame]);
    assert frames == WindowInput(st, current);
    var comps := seq(|current|, j requires 0 <= j < |current| => s.inpaint(frames, masks, j));
    assert comps == Inpainted(st, current, i, s);
    for j := 0 to |current|
      invariant Stores(work[..], orig[..]) == WriteUpTo(st, current, comps, masks, j, s)
    {
      WriteBack(work, orig, current[j].frame, comps[j], masks[j], s);
    }
  }

  /** Writes one corrected frame back: into the working store, and merged by the upscaler into the frame store. */
  method WriteBack(work: array<Frame>, orig: array<Frame>, f: nat, c: Frame, m: BoolMask, s: Setting)
    requires work.Length == orig.Length && s.shared == (work == orig) && f < work.Length
    modifies work, orig
    ensures Stores(work[..], orig[..]) == Commit(Stores(old(work[..]), old(orig[..])), f, c, m, s)
  {
    work[f] := c;
    if s.upscale {
      var o := orig[f];
      orig[f] := s.up(m, c, o, s.width, s.height);
    }
  }

  /** The window loop of one object: `range(0, n, Stride)`, skipping starts with fewer than `MinFrames` entries left. */
  method InpaintObject(work: array<Frame>, orig: array<Frame>, mf: seq<MaskFile>, s: Setting)
    requires work.Length == orig.Length && s.shared == (work == orig)
    requires SortedIn(mf, work.Length)
    modifies work, orig
    ensures Stores(work[..], orig[..]) == ObjectPass(Stores(old(work[..]), old(orig[..])), mf, s)
  {
    if |mf| < MinFrames {
      return;
    }
    var i := 0;
    while i < |mf|
      invariant Consistent(Stores(work[..], orig[..]), s)
      invariant Fold(Stores(work[..], orig[..]), mf, StartsFrom(|mf|, i), s) == ObjectPass(Stores(old(work[..]), old(orig[..])), mf, s)
      decreases |mf| - i
    {
      if |mf| - i < MinFrames {
        i := i + Stride;
        continue;
      }
      ProcessWindow(work, orig, mf, i, s);
      i := i + Stride;
    }
  }

  /** The object loop: every object's mask files, in key order. */
  method InpaintObjects(work: array<Frame>, orig: array<Frame>, dirs: seq<seq<MaskFile>>, s: Setting)
    requires work.Length == orig.Length && s.shared == (work == orig)
    requires forall d :: d in dirs ==> SortedIn(d, work.Length)
    modifies work, orig
    ensures Stores(work[..], orig[..]) == Passes(Stores(old(work[..]), old(orig[..])), dirs, |dirs|, s)
  {
    for k := 0 to |dirs|
      invariant Stores(work[..], orig[..]) == Passes(Stores(old(work[..]), old(orig[..])), dirs, k, s)
    {
      InpaintObject(work, orig, dirs[k], s);
    }
  }
}
