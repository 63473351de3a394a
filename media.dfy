/**
 * Frames, mask images and the external capabilities of the retouch
 * pipeline. Pixel content is kept as a flat sequence of intensities: the
 * pipeline's decisions never look at it, only the capabilities do.
 */
module Media {
  import opened Wrappers

  /** A decoded frame image: its height and width in pixels and its pixel data. */
  datatype Frame = Frame(height: nat, width: nat, pixels: seq<int>)

  /** A grey-scale mask image as the segmenter saves it (intensities 0..255). */
  type Grey = seq<int>

  /** A boolean mask, one entry per pixel. */
  type BoolMask = seq<bool>

  /** A user point prompt (x, y). */
  type Point = (int, int)

  /** One file of an object's mask directory: the frame it belongs to and its image. */
  datatype MaskFile = MaskFile(frame: nat, grey: Grey)

  /** An object's mask files, as listed sorted: they name frames of a store of `n`, in strictly increasing order. */
  ghost predicate SortedIn(mf: seq<MaskFile>, n: nat) {
    && (forall p :: 0 <= p < |mf| ==> mf[p].frame < n)
    && (forall p, q :: 0 <= p < q < |mf| ==> mf[p].frame < mf[q].frame)
  }

  /** Grey level above which `cv2.threshold(..., 128, 1, THRESH_BINARY)` sets a pixel. */
  const Threshold: int := 128

  /** The external capabilities, which the model keeps uninterpreted. */

  /** Segmenter seed: point prompts and the first frame give its mask. */
  type Seeder = (seq<Point>, Frame) -> Grey

  /**
   * Segmenter track: stateful; after seeding with `points`, the answer for
   * the latest frame depends on every frame fed since the seed (the seed
   * frame first). `None` is tracking loss.
   */
  type Tracker = (seq<Point>, seq<Frame>) -> Option<Grey>

  /**
   * Flow inpainter: for a batch of frames and masks, `inpaint(frames, masks, j)`
   * is the j-th of the corrected frames it returns, one per input frame.
   */
  type Inpainter = (seq<Frame>, seq<BoolMask>, nat) -> Frame

  /** `upscale_retouch_frame(mask, frame, original_frame, width, height)`. */
  type Upscaler = (BoolMask, Frame, Frame, nat, nat) -> Frame

  /** `process_retouch` with the named single-frame model ("retouch_face" or "retouch_object"). */
  type Retoucher = (string, Frame, BoolMask) -> Frame

  /** The pixel data `cv2.resize` produces for a frame at a new (height, width). */
  type Scaler = (Frame, nat, nat) -> seq<int>

  /** Binarisation of a saved mask: a pixel is set iff its grey level exceeds the threshold. */
  function Binarize(g: Grey): (m: BoolMask)
    ensures |m| == |g|
    ensures forall p :: 0 <= p < |g| ==> (m[p] <==> g[p] > Threshold)
  {
    seq(|g|, p requires 0 <= p < |g| => g[p] > Threshold)
  }

  /** `np.zeros_like(binary_mask)`: a mask of the same size with no pixel set. */
  function Cleared(g: Grey): (m: BoolMask)
    ensures |m| == |g|
    ensures forall p :: 0 <= p < |g| ==> !m[p]
  {
    seq(|g|, _ => false)
  }
}
