/**
 * The per-frame retouch branch, used for static images and for every mode
 * other than the improved one on animated sources: for every object in key
 * order, every frame named by its mask files is replaced in the working
 * store by the single-frame model's retouch of it under the binarised mask.
 */
module FrameRetouch {
  import opened Media

  /** The single-frame model the branch loads for a requested retouch mode. */
  function ModelName(modelType: string): (name: string)
    ensures name == "retouch_face" <==> modelType == "retouch_face"
    ensures name == "retouch_face" || name == "retouch_object"
  {
    if modelType == "retouch_face" then "retouch_face" else "retouch_object"
  }

  /** The store after the first `j` mask files of one object are retouched, in order. */
  function RetouchUpTo(work: seq<Frame>, mf: seq<MaskFile>, j: nat, name: string, retouch: Retoucher): (r: seq<Frame>)
    requires j <= |mf| && forall p :: 0 <= p < |mf| ==> mf[p].frame < |work|
    ensures |r| == |work|
  {
    if j == 0 then work
    else
      var w := RetouchUpTo(work, mf, j - 1, name, retouch);
      var f := mf[j - 1].frame;
      w[f := retouch(name, w[f], Binarize(mf[j - 1].grey))]
  }

  /** The store after the first `k` objects are retouched, in key order. */
  function RetouchAll(work: seq<Frame>, dirs: seq<seq<MaskFile>>, k: nat, name: string, retouch: Retoucher): (r: seq<Frame>)
    requires k <= |dirs| && forall d :: d in dirs ==> SortedIn(d, |work|)
    ensures |r| == |work|
  {
    if k == 0 then work
    else
      assert dirs[k - 1] in dirs;
      RetouchUpTo(RetouchAll(work, dirs, k - 1, name, retouch), dirs[k - 1], |dirs[k - 1]|, name, retouch)
  }

  /**
   * Retouching one object's sorted mask files replaces each named frame by
   * the model's retouch of the frame as it was, under that file's binarised
   * mask, and leaves every other frame as it was.
   */
  lemma {:induction false} RetouchObjectEffect(work: seq<Frame>, mf: seq<MaskFile>, j: nat, name: string, retouch: Retoucher)
    requires j <= |mf| && SortedIn(mf, |work|)
    ensures forall p :: 0 <= p < j ==>
      RetouchUpTo(work, mf, j, name, retouch)[mf[p].frame] == retouch(name, work[mf[p].frame], Binarize(mf[p].grey))
    ensures forall g :: 0 <= g < |work| && (forall p :: 0 <= p < j ==> mf[p].frame != g) ==>
      RetouchUpTo(work, mf, j, name, retouch)[g] == work[g]
  {
    if j > 0 {
      RetouchObjectEffect(work, mf, j - 1, name, retouch);
      forall p | 0 <= p < j - 1
        ensures mf[p].frame != mf[j - 1].frame
      {
      }
    }
  }

  /** A frame that no object's mask files name is never retouched. */
  lemma {:induction false} RetouchAllLocality(work: seq<Frame>, dirs: seq<seq<MaskFile>>, k: nat, name: string, retouch: Retoucher, g: nat)
    requires k <= |dirs| && forall d :: d in dirs ==> SortedIn(d, |work|)
    requires g < |work| && forall d: seq<MaskFile>, p :: d in dirs && 0 <= p < |d| ==> d[p].frame != g
    ensures RetouchAll(work, dirs, k, name, retouch)[g] == work[g]
  {
    if k > 0 {
      RetouchAllLocality(work, dirs, k - 1, name, retouch, g);
      var d := dirs[k - 1];
      assert d in dirs;
      RetouchObjectEffect(RetouchAll(work, dirs, k - 1, name, retouch), d, |d|, name, retouch);
    }
  }

  /** The per-frame loops, on the working store in place. */
  method RetouchObjects(work: array<Frame>, dirs: seq<seq<MaskFile>>, name: string, retouch: Retoucher)
    requires forall d :: d in dirs ==> SortedIn(d, work.Length)
    modifies work
    ensures work[..] == RetouchAll(old(work[..]), dirs, |dirs|, name, retouch)
  {
    for k := 0 to |dirs|
      invariant work[..] == RetouchAll(old(work[..]), dirs, k, name, retouch)
    {
      var files := dirs[k];
      assert files in dirs;
      ghost var before := work[..];
      for j := 0 to |files|
        invariant work[..] == RetouchUpTo(before, files, j, name, retouch)
      {
        var f := files[j].frame;
        var mask := Binarize(files[j].grey);
        var current := work[f];
        work[f] := retouch(name, current, mask);
      }
    }
  }
}
