/**
 * The retouch run as a whole: clip the mask timeline to the trimmed range,
 * load the frames of the source, shrink them for the GPU in the improved
 * video mode, propagate every object's mask, then either stop with the mask
 * folder (no retouch mode) or retouch, windowed for the improved video
 * mode and frame by frame otherwise, and hand back the frames of the store
 * the output is built from.
 */
module Retouch {
  import opened Wrappers
  import opened Media
  import opened Timeline
  import opened ResizePolicy
  import opened WindowedInpaint
  import opened FrameRetouch

  /** What the source file is detected as: one still image, a frame sequence with its rate, or neither. */
  datatype MediaSource =
    | StaticImage(image: Frame)
    | Animated(frames: seq<Frame>, fps: real)
    | Unrecognised

  datatype Device = Cuda | Cpu

  /** The neural models and the image scaler, as functions of their inputs. */
  datatype Capabilities = Capabilities(
    seed: Seeder, track: Tracker, inpaint: Inpainter, up: Upscaler, retouch: Retoucher, scale: Scaler)

  /** What a successful run leaves: the mask folder only, a video's frames with its rate, or one image. */
  datatype RunOutput =
    | MaskFolder
    | Video(frames: seq<Frame>, fps: real)
    | Image(image: Frame)

  /** The improved (windowed flow inpainting) mode. */
  const ImprovedMode: string := "improved_retouch_object"

  /** The frames written to the frame folder: the image itself, or every frame of the video. */
  function SourceFrames(src: MediaSource): (frames: seq<Frame>)
    requires !src.Unrecognised?
    ensures src.StaticImage? ==> frames == [src.image]
  {
    if src.StaticImage? then [src.image] else src.frames
  }

  /** A still image has rate 0, so every object selects its single frame. */
  function SourceFps(src: MediaSource): real
    requires !src.Unrecognised?
  {
    if src.StaticImage? then 0.0 else src.fps
  }

  /** The windowed branch runs for videos in the improved mode. */
  predicate Windowed(src: MediaSource, modelType: Option<string>) {
    src.Animated? && modelType == Some(ImprovedMode)
  }

  /** The frames are shrunk for the GPU only when the windowed branch runs on CUDA. */
  predicate Shrinks(src: MediaSource, modelType: Option<string>, device: Device) {
    Windowed(src, modelType) && device == Cuda
  }

  /** The working store: the shrunk copies, or the frame store itself. */
  function WorkFrames(frames: seq<Frame>, shrink: bool, maxSize: nat, scale: Scaler): (work: seq<Frame>)
    ensures |work| == |frames|
  {
    if shrink then seq(|frames|, i requires 0 <= i < |frames| => ResizeFrame(frames[i], maxSize, scale)) else frames
  }

  /** The mask directories in key order. */
  function Dirs(objs: map<Key, MaskObject>, keys: seq<Key>): (dirs: seq<seq<MaskFile>>)
    requires forall k :: k in keys ==> k in objs && objs[k].maskDir.Some?
    ensures |dirs| == |keys|
  {
    seq(|keys|, i requires 0 <= i < |keys| => objs[keys[i]].maskDir.value)
  }

  /**
   * The retouched stores after the retouch branch: the windowed branch on
   * the working and frame stores (one store when nothing was shrunk), or
   * the per-frame branch on the working store, which is then the frame
   * store. The result is the store the output is built from: the frame
   * store with upscaling, the working store without.
   */
  ghost function Retouched(src: MediaSource, modelType: string, frames: seq<Frame>, work: seq<Frame>, shrunk: bool,
                           dirs: seq<seq<MaskFile>>, upscale: bool, caps: Capabilities): (out: seq<Frame>)
    requires |frames| == |work| > 0 && (!shrunk ==> work == frames) && (shrunk ==> Windowed(src, Some(modelType)))
    requires forall d :: d in dirs ==> SortedIn(d, |work|)
    ensures |out| == |work|
  {
    if Windowed(src, Some(modelType)) then
      var s := Setting(!shrunk, upscale, caps.inpaint, caps.up, frames[0].width, frames[0].height);
      var st := Passes(Stores(work, frames), dirs, |dirs|, s);
      if upscale then st.orig else st.work
    else
      RetouchAll(work, dirs, |dirs|, ModelName(modelType), caps.retouch)
  }

  /** The mask directories propagation writes, in key order; each lists frames of the working store in increasing order. */
  ghost function PropagatedDirs(clipped: map<Key, MaskObject>, order: seq<Key>, work: seq<Frame>, fps: real, caps: Capabilities)
    : (dirs: seq<seq<MaskFile>>)
    requires forall k :: k in clipped ==> SelectionOf(clipped[k], |work|, fps) != []
    ensures forall d :: d in dirs ==> SortedIn(d, |work|)
  {
    PropagatedDirsSorted(clipped, work, fps, caps.seed, caps.track);
    var dirs := Dirs(PropagateAll(clipped, work, fps, caps.seed, caps.track), Present(order, clipped));
    assert forall d :: d in dirs ==> SortedIn(d, |work|) by {
      forall d | d in dirs
        ensures SortedIn(d, |work|)
      {
        var i :| 0 <= i < |dirs| && dirs[i] == d;
      }
    }
    dirs
  }

  /**
   * The run, step by step in the order the errors are raised: the objects
   * are clipped to the trimmed range, then an unrecognised source, no
   * frames (`frame_files[0]`), no GPU tier at or below the card's memory
   * (`max` of nothing), then an object whose selection is empty
   * (`filter_frames_files[0]`).
   */
  ghost function Run(objs: map<Key, MaskObject>, order: seq<Key>, src: MediaSource, modelType: Option<string>,
                     device: Device, vram: real, sourceStart: real, sourceEnd: real, upscale: bool,
                     caps: Capabilities): Result<RunOutput, RunError>
  {
    RunClipped(ClipAll(objs, sourceStart, sourceEnd), order, src, modelType, device, vram, upscale, caps)
  }

  /** The run from the clipped objects on. */
  ghost function RunClipped(clipped: map<Key, MaskObject>, order: seq<Key>, src: MediaSource, modelType: Option<string>,
                            device: Device, vram: real, upscale: bool, caps: Capabilities): (r: Result<RunOutput, RunError>)
    ensures r.Success? && r.value.Video? ==> src.Animated? && |r.value.frames| == |src.frames|
  {
    if src.Unrecognised? then Failure(UnknownMediaType)
    else
      var frames := SourceFrames(src);
      var fps := SourceFps(src);
      var shrink := Shrinks(src, modelType, device);
      if |frames| == 0 then Failure(NoFrames)
      else if shrink && MaxEligible(GpuTable, vram).None? then Failure(NoVramTier)
      else
        var work := WorkFrames(frames, shrink, if shrink then MaxEligible(GpuTable, vram).value else 0, caps.scale);
        RunLoaded(clipped, order, src, modelType, frames, work, fps, shrink, upscale, caps)
  }

  /** The run from the loaded (and possibly shrunk) frames on: propagation, then the retouch branch. */
  ghost function RunLoaded(clipped: map<Key, MaskObject>, order: seq<Key>, src: MediaSource, modelType: Option<string>,
                           frames: seq<Frame>, work: seq<Frame>, fps: real, shrink: bool, upscale: bool,
                           caps: Capabilities): (r: Result<RunOutput, RunError>)
    requires |frames| == |work| > 0 && (!shrink ==> work == frames) && (shrink ==> Windowed(src, modelType))
    ensures r.Failure? <==> exists k :: k in clipped && SelectionOf(clipped[k], |work|, fps) == []
    ensures r.Failure? ==> r.error == EmptySelection
    ensures r.Success? && r.value.Video? ==> src.Animated? && |r.value.frames| == |work|
  {
    if exists k :: k in clipped && SelectionOf(clipped[k], |work|, fps) == [] then Failure(EmptySelection)
    else if modelType.None? then Success(MaskFolder)
    else
      var dirs := PropagatedDirs(clipped, order, work, fps, caps);
      var out := Retouched(src, modelType.value, frames, work, shrink, dirs, upscale, caps);
      if src.Animated? then Success(Video(out, fps)) else Success(Image(out[0]))
  }

  /**
   * `after` is the dictionary `before` with every object given its mask
   * directory (`frame_files_path`) and nothing else changed.
   */
  ghost predicate MasksGiven(before: map<Key, MaskObject>, after: map<Key, MaskObject>) {
    after.Keys == before.Keys &&
    forall k :: k in after ==> after[k].maskDir.Some? && after[k] == before[k].(maskDir := after[k].maskDir)
  }

  /**
   * The retouch branch on the stores in place, and the choice of the store
   * the output is read from (`work_dir = frame_dir` with upscaling).
   */
  method RetouchStores(workDir: array<Frame>, frameDir: array<Frame>, shrunk: bool, src: MediaSource, modelType: string,
                       dirs: seq<seq<MaskFile>>, upscale: bool, caps: Capabilities) returns (out: seq<Frame>)
    requires workDir.Length == frameDir.Length > 0 && shrunk == (workDir != frameDir)
    requires shrunk ==> Windowed(src, Some(modelType))
    requires forall d :: d in dirs ==> SortedIn(d, workDir.Length)
    modifies workDir, frameDir
    ensures out == Retouched(src, modelType, old(frameDir[..]), old(workDir[..]), shrunk, dirs, upscale, caps)
  {
    if src.Animated? && modelType == ImprovedMode {
      var s := Setting(workDir == frameDir, upscale, caps.inpaint, caps.up, frameDir[0].width, frameDir[0].height);
      InpaintObjects(workDir, frameDir, dirs, s);
    } else {
      RetouchObjects(workDir, dirs, ModelName(modelType), caps.retouch);
    }
    var store := workDir;
    if upscale {
      store := frameDir;
    }
    out := store[..];
  }

  /**
   * `main_retouch`: the mask timeline is clipped and then propagated in
   * place; the frame store and the working store are arrays, the same
   * array unless the frames were shrunk.
   */
  method MainRetouch(timeline: MaskTimeline, src: MediaSource, modelType: Option<string>, device: Device, vram: real,
                     sourceStart: real, sourceEnd: real, upscale: bool, caps: Capabilities)
    returns (r: Result<RunOutput, RunError>)
    requires timeline.Valid()
    modifies timeline
    ensures r == Run(old(timeline.objects), old(timeline.order), src, modelType, device, vram, sourceStart, sourceEnd, upscale, caps)
    ensures timeline.Valid() && timeline.order == old(timeline.order)
    ensures timeline.objects.Keys == ClipAll(old(timeline.objects), sourceStart, sourceEnd).Keys
    ensures r.Failure? && r.error != EmptySelection ==> timeline.objects == ClipAll(old(timeline.objects), sourceStart, sourceEnd)
    ensures r.Success? ==> MasksGiven(ClipAll(old(timeline.objects), sourceStart, sourceEnd), timeline.objects)
  {
    timeline.Clip(sourceStart, sourceEnd);
    r := RetouchClipped(timeline, src, modelType, device, vram, upscale, caps);
  }

  /** `main_retouch` after clipping: loading, shrinking, propagation and the retouch branch. */
  method RetouchClipped(timeline: MaskTimeline, src: MediaSource, modelType: Option<string>, device: Device, vram: real,
                        upscale: bool, caps: Capabilities)
    returns (r: Result<RunOutput, RunError>)
    requires timeline.Valid()
    modifies timeline
    ensures r == RunClipped(old(timeline.objects), old(timeline.order), src, modelType, device, vram, upscale, caps)
    ensures timeline.Valid() && timeline.order == old(timeline.order) && timeline.objects.Keys == old(timeline.objects).Keys
    ensures r.Failure? && r.error != EmptySelection ==> timeline.objects == old(timeline.objects)
    ensures r.Success? ==> MasksGiven(old(timeline.objects), timeline.objects)
  {
    ghost var clipped := timeline.objects;
    if src.Unrecognised? {
      return Failure(UnknownMediaType);
    }
    var fps: real;
    var frameFiles: seq<Frame>;
    if src.StaticImage? {
      fps := 0.0;
      frameFiles := [src.image];
    } else {
      fps, frameFiles := src.fps, src.frames;
    }
    if |frameFiles| == 0 {
      return Failure(NoFrames);
    }
    var frameDir := new Frame[|frameFiles|](i requires 0 <= i < |frameFiles| => frameFiles[i]);
    assert frameDir[..] == frameFiles;
    var workDir := frameDir;
    var shrink := src.Animated? && modelType == Some(ImprovedMode) && device == Cuda;
    ghost var maxSize := 0;
    if shrink {
      var tier := MaxEligible(GpuTable, vram);
      if tier.None? {
        return Failure(NoVramTier);
      }
      maxSize := tier.value;
      workDir := ResizeFrames(frameDir, tier.value, caps.scale);
    }
    assert workDir[..] == WorkFrames(frameFiles, shrink, maxSize, caps.scale);
    assert shrink ==> workDir != frameDir;
    r := PropagateAndRetouch(timeline, workDir, frameDir, shrink, src, modelType, fps, upscale, caps);
  }

  /** `main_retouch` from the loaded frames on: propagation, then the retouch branch when a mode is given. */
  method PropagateAndRetouch(timeline: MaskTimeline, workDir: array<Frame>, frameDir: array<Frame>, shrunk: bool,
                             src: MediaSource, modelType: Option<string>, fps: real, upscale: bool, caps: Capabilities)
    returns (r: Result<RunOutput, RunError>)
    requires timeline.Valid()
    requires workDir.Length == frameDir.Length > 0 && shrunk == (workDir != frameDir)
    requires shrunk ==> Windowed(src, modelType)
    modifies timeline, workDir, frameDir
    ensures r == RunLoaded(old(timeline.objects), old(timeline.order), src, modelType, old(frameDir[..]), old(workDir[..]),
      fps, shrunk, upscale, caps)
    ensures timeline.Valid() && timeline.order == old(timeline.order) && timeline.objects.Keys == old(timeline.objects).Keys
    ensures r.Success? ==> timeline.objects == PropagateAll(old(timeline.objects), old(workDir[..]), fps, caps.seed, caps.track)
  {
    ghost var clipped := timeline.objects;
    var outcome := timeline.Propagate(workDir, fps, caps.seed, caps.track);
    if outcome.Fail? {
      return Failure(outcome.error);
    }
    if modelType.None? {
      return Success(MaskFolder);
    }
    var out := RetouchPropagated(timeline, workDir, frameDir, shrunk, src, modelType.value, fps, upscale, caps, clipped);
    if src.Animated? {
      r := Success(Video(out, fps));
    } else {
      r := Success(Image(out[0]));
    }
  }

  /**
   * The retouch branch once every object has its mask directory: the
   * directories are read in key order and the stores are retouched.
   */
  method RetouchPropagated(timeline: MaskTimeline, workDir: array<Frame>, frameDir: array<Frame>, shrunk: bool,
                           src: MediaSource, modelType: string, fps: real, upscale: bool, caps: Capabilities,
                           ghost clipped: map<Key, MaskObject>)
    returns (out: seq<Frame>)
    requires timeline.Valid() && clipped.Keys == timeline.objects.Keys
    requires forall k :: k in clipped ==> SelectionOf(clipped[k], workDir.Length, fps) != []
    requires timeline.objects == PropagateAll(clipped, workDir[..], fps, caps.seed, caps.track)
    requires workDir.Length == frameDir.Length > 0 && shrunk == (workDir != frameDir)
    requires shrunk ==> Windowed(src, Some(modelType))
    modifies workDir, frameDir
    ensures out == Retouched(src, modelType, old(frameDir[..]), old(workDir[..]), shrunk,
      PropagatedDirs(clipped, timeline.order, old(workDir[..]), fps, caps), upscale, caps)
  {
    ghost var propagated := timeline.objects;
    PropagatedDirsSorted(clipped, workDir[..], fps, caps.seed, caps.track);
    PresentSameKeys(timeline.order, clipped, propagated);
    var keys := timeline.Keys();
    var objects := timeline.objects;
    var dirs := seq(|keys|, i requires 0 <= i < |keys| => objects[keys[i]].maskDir.value);
    assert dirs == PropagatedDirs(clipped, timeline.order, workDir[..], fps, caps);
    out := RetouchStores(workDir, frameDir, shrunk, src, modelType, dirs, upscale, caps);
  }

  /**
   * The error cases, each exactly: an unrecognised source; a video with no
   * frames; a shrinking run on a card below the smallest tier (2 GiB).
   */
  lemma RunFailures(objs: map<Key, MaskObject>, order: seq<Key>, src: MediaSource, modelType: Option<string>,
                    device: Device, vram: real, sourceStart: real, sourceEnd: real, upscale: bool, caps: Capabilities)
    ensures Run(objs, order, src, modelType, device, vram, sourceStart, sourceEnd, upscale, caps) == Failure(UnknownMediaType)
      <==> src.Unrecognised?
    ensures Run(objs, order, src, modelType, device, vram, sourceStart, sourceEnd, upscale, caps) == Failure(NoFrames)
      <==> src.Animated? && src.frames == []
    ensures Run(objs, order, src, modelType, device, vram, sourceStart, sourceEnd, upscale, caps) == Failure(NoVramTier)
      <==> src.Animated? && src.frames != [] && Shrinks(src, modelType, device) && vram < 2.0
  {
    MaxSizeTiers(vram);
  }

  /**
   * A still image always runs to the end: its one frame is selected by
   * every object whatever its time range, no mode shrinks it, and the
   * result is the mask folder without a retouch mode and the retouched
   * image with one.
   */
  lemma StaticRunSucceeds(objs: map<Key, MaskObject>, order: seq<Key>, image: Frame, modelType: Option<string>,
                          device: Device, vram: real, sourceStart: real, sourceEnd: real, upscale: bool, caps: Capabilities)
    ensures Run(objs, order, StaticImage(image), modelType, device, vram, sourceStart, sourceEnd, upscale, caps).Success?
    ensures (Run(objs, order, StaticImage(image), modelType, device, vram, sourceStart, sourceEnd, upscale, caps).value
      == MaskFolder) <==> modelType.None?
    ensures modelType.Some? ==>
      Run(objs, order, StaticImage(image), modelType, device, vram, sourceStart, sourceEnd, upscale, caps).value.Image?
  {
    var clipped := ClipAll(objs, sourceStart, sourceEnd);
    forall k | k in clipped
      ensures SelectionOf(clipped[k], 1, 0.0) == [0]
    {
      FrameSelect.StaticSelection(1, clipped[k].startTime, clipped[k].endTime);
    }
  }

  /** No mask directory names a frame that no object's selection holds. */
  lemma DirsAvoid(clipped: map<Key, MaskObject>, order: seq<Key>, work: seq<Frame>, fps: real, caps: Capabilities, g: nat)
    requires forall k :: k in clipped ==> SelectionOf(clipped[k], |work|, fps) != []
    requires forall k :: k in clipped ==> g !in SelectionOf(clipped[k], |work|, fps)
    ensures forall d: seq<MaskFile>, p :: d in PropagatedDirs(clipped, order, work, fps, caps) && 0 <= p < |d| ==> d[p].frame != g
  {
    var dirs := PropagatedDirs(clipped, order, work, fps, caps);
    var propagated := PropagateAll(clipped, work, fps, caps.seed, caps.track);
    var keys := Present(order, clipped);
    PropagatedFramesSelected(clipped, work, fps, caps.seed, caps.track);
    assert dirs == Dirs(propagated, keys);
    forall d: seq<MaskFile>, p | d in dirs && 0 <= p < |d|
      ensures d[p].frame != g
    {
      var i :| 0 <= i < |dirs| && dirs[i] == d;
      assert d == propagated[keys[i]].maskDir.value;
      assert d[p].frame in SelectionOf(clipped[keys[i]], |work|, fps);
    }
  }

  /**
   * A frame no mask directory names is read back as it was: from the
   * frame store with upscaling, from the working store without.
   */
  lemma RetouchedLocality(src: MediaSource, modelType: string, frames: seq<Frame>, work: seq<Frame>, shrunk: bool,
                          dirs: seq<seq<MaskFile>>, upscale: bool, caps: Capabilities, g: nat)
    requires |frames| == |work| > 0 && (!shrunk ==> work == frames) && (shrunk ==> Windowed(src, Some(modelType)))
    requires forall d :: d in dirs ==> SortedIn(d, |work|)
    requires g < |work| && forall d: seq<MaskFile>, p :: d in dirs && 0 <= p < |d| ==> d[p].frame != g
    ensures Retouched(src, modelType, frames, work, shrunk, dirs, upscale, caps)[g] == if upscale then frames[g] else work[g]
  {
    if Windowed(src, Some(modelType)) {
      var s := Setting(!shrunk, upscale, caps.inpaint, caps.up, frames[0].width, frames[0].height);
      PassesLocality(Stores(work, frames), dirs, |dirs|, s, g);
    } else {
      RetouchAllLocality(work, dirs, |dirs|, ModelName(modelType), caps.retouch, g);
    }
  }

  /**
   * A frame of a video that no object's clipped time range selects comes
   * out as it went in, except that a shrinking run without upscaling
   * hands back the shrunk copy.
   */
  lemma UnselectedFramesKept(objs: map<Key, MaskObject>, order: seq<Key>, src: MediaSource, modelType: Option<string>,
                             device: Device, vram: real, sourceStart: real, sourceEnd: real, upscale: bool,
                             caps: Capabilities, g: nat)
    requires src.Animated? && g < |src.frames|
    requires forall k :: k in ClipAll(objs, sourceStart, sourceEnd) ==>
      g !in SelectionOf(ClipAll(objs, sourceStart, sourceEnd)[k], |src.frames|, src.fps)
    requires Run(objs, order, src, modelType, device, vram, sourceStart, sourceEnd, upscale, caps).Success?
    requires Run(objs, order, src, modelType, device, vram, sourceStart, sourceEnd, upscale, caps).value.Video?
    ensures Shrinks(src, modelType, device) ==> MaxEligible(GpuTable, vram).Some?
    ensures Run(objs, order, src, modelType, device, vram, sourceStart, sourceEnd, upscale, caps).value.frames[g] ==
      if Shrinks(src, modelType, device) && !upscale
      then ResizeFrame(src.frames[g], MaxEligible(GpuTable, vram).value, caps.scale)
      else src.frames[g]
  {
    var clipped := ClipAll(objs, sourceStart, sourceEnd);
    var frames := src.frames;
    var shrink := Shrinks(src, modelType, device);
    var work := WorkFrames(frames, shrink, if shrink then MaxEligible(GpuTable, vram).value else 0, caps.scale);
    DirsAvoid(clipped, order, work, src.fps, caps, g);
    var dirs := PropagatedDirs(clipped, order, work, src.fps, caps);
    RetouchedLocality(src, modelType.value, frames, work, shrink, dirs, upscale, caps, g);
  }
}
