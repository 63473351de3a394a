# Retouch pipeline of wunjo, modelled in Dafny

This project models the object-removal ("retouch") pipeline of the wunjo
deepfake backend, `Retouch.main_retouch`, together with two backend
helpers (`format_dir_time` and the defaulting in `set_settings`) and the
attribute dictionary of the speech synthesiser's hyper-parameters.

What the retouch run does, and how each step is modelled:

- **Clipping** (`Timeline.MaskTimeline.Clip`). The masks dictionary is a class. It holds the insertion order of its keys and a map from key to object. Objects that start before or after the trimmed range are removed after the loop. The others are moved onto the trimmed timeline, and an end past the trim is cut.
- **Frame selection** (`FrameSelect`). An object selects `frame_files[floor(start*fps) : ceil(end*fps)+1]`. Python's slice rules are written out: negative bounds count from the end, and bounds are clamped. A still image has rate 0, so it always selects its single frame.
- **Mask propagation** (`Propagation`). The segmenter is seeded on the first selected frame. The tracker is then fed one frame at a time until it returns no mask. Both are function parameters. The tracker is stateful in the source, so it is modelled as a function of the frames fed since the seed.
- **GPU shrink** (`ResizePolicy`). This runs only for videos in the improved mode on CUDA. The longest edge is limited to the largest tier whose VRAM threshold the card reaches, and the other side keeps its aspect ratio with `int()` truncation.
- **Windowed inpainting** (`Windows`, `WindowedInpaint`). An object's mask files are cut into windows of 50, starting every 40. A window with fewer than 3 remaining files is skipped. In every window after the first, the first 10 masks are cleared. Corrected frames are written back in place into the working store. With upscaling, the upscaler also merges them into the original-resolution store. Frame stores are arrays. When nothing was shrunk, the working store and the frame store are the same array, as the two directory names are the same folder in the source.
- **Per-frame retouch** (`FrameRetouch`). Every named frame is replaced by the single-frame model's output. The model name is `retouch_face` or `retouch_object`.
- **Output** (`Retouch`). The output store is the frame store with upscaling and the working store without. The run returns either a video's frames with its rate, one image, or only the mask folder when no retouch mode is given. `Retouch.MainRetouch` is proved equal to the pure `Retouch.Run`.

Neural networks, the image scaler and the YAML loader are function-typed
parameters. Frames are values with a height, a width and opaque pixel
data.

Notes on the code's behaviour, which the model follows:

- A mask colour (`mask_color`) only adds preview images next to the run; inpainting still runs. Only a missing retouch mode (`retouch_model_type is None`) stops the run after propagation.
- No window is checked for having as many frames as masks, and no window is skipped for a mismatch.
- Overlap frames are rewritten by the later window under a cleared mask, with whatever the inpainter returns for them. The last write to a frame decides its final value, so overlap frames end with the later window's output. `WindowedInpaint.ReadsCorrected` shows that the later window reads, as its input, the frames the earlier window wrote.
- In the shared-store case (no shrink) with upscaling, the upscaler's "original frame" is the corrected frame just written to the same file, not the untouched original (`WindowedInpaint.CommitEffect`).

## Model

| member | source | states |
|---|---|---|
| Timeline.ClipObject | portable/src/deepfake/inference.py:619-626 | a kept object's times are moved onto the trimmed range: the start lies in [0, trim length], the end is at most the trim length, an ordered range stays ordered and never grows, and the points and mask are unchanged |
| Timeline.ClipAll | portable/src/deepfake/inference.py:611-628 | a key survives iff its object starts inside the trim range, and each survivor is its clipped object |
| Timeline.OutsideTrim | portable/src/deepfake/inference.py:613-617 | definition of a removed object (starts before or after the trim range); its properties are in Timeline.ClipAll and Timeline.MaskTimeline.ClipKey |
| Timeline.Present | portable/src/deepfake/inference.py:612 | dictionary iteration order: exactly the keys in both the insertion order and the map, without repeats |
| Timeline.PresentInOrder | portable/src/deepfake/inference.py:612 | the iteration order keeps the insertion order: the present keys sit at strictly increasing positions of it |
| Timeline.PresentSameKeys | portable/src/deepfake/inference.py:760 | the iteration order after propagation equals the order after clipping, because only values changed |
| Timeline.PropagateAll | portable/src/deepfake/inference.py:679-728 | every object gets a mask directory, the keys are the same, and no other field changes |
| Timeline.SelectionOf | portable/src/deepfake/inference.py:684-689 | definition of an object's selected frames; its properties are in FrameSelect.SelectionOfClippedRange and Timeline.PropagatedFramesSelected |
| Timeline.WithMasks | portable/src/deepfake/inference.py:693-728 | definition of an object after propagation (its mask directory set); its properties are in Timeline.PropagateAll and Propagation.PropagatedIsPrefix |
| Timeline.PropagatedDirsSorted | portable/src/deepfake/inference.py:710-728 | each mask directory lists frames of the store in strictly increasing order |
| Timeline.PropagatedFramesSelected | portable/src/deepfake/inference.py:689-726 | each mask file names a frame of its object's selection |
| Timeline.MaskTimeline.Keys | portable/src/deepfake/inference.py:612 | the keys in iteration order are distinct and are exactly the dictionary's keys |
| Timeline.MaskTimeline.constructor | portable/src/deepfake/inference.py:474 | the dictionary as passed in, with its key order |
| Timeline.MaskTimeline.Clip | portable/src/deepfake/inference.py:611-628 | after the loop and the removals, the dictionary is ClipAll of the old one, and the key order is kept |
| Timeline.MaskTimeline.ClipTimes | portable/src/deepfake/inference.py:611-625 | the loop marks exactly the objects outside the trim range and clips every other object in place |
| Timeline.MaskTimeline.ClipKey | portable/src/deepfake/inference.py:613-625 | one step of the loop: the key is marked iff its object starts outside the trim range, and then nothing changes; otherwise that object alone becomes its clipped object |
| Timeline.MaskTimeline.RemoveKeys | portable/src/deepfake/inference.py:626-628 | exactly the marked keys are removed; the other objects and the key order are unchanged |
| Timeline.MaskTimeline.Propagate | portable/src/deepfake/inference.py:679-728 | the run fails with EmptySelection iff some object selects no frame; otherwise the dictionary is PropagateAll of the old one |
| Timeline.MaskTimeline.PropagateKeys | portable/src/deepfake/inference.py:680-728 | the loop over the keys stops with EmptySelection only when some object selects no frame; when it finishes, every object, one key at a time, has its propagated mask directory |
| Timeline.MaskTimeline.PropagateKey | portable/src/deepfake/inference.py:680-728 | one step: it fails iff the object selects no frame, leaving the dictionary unchanged; otherwise that object alone gets its propagated mask directory |
| Timeline.PropagationComplete | portable/src/deepfake/inference.py:680-728 | when no object's selection is empty, updating the objects one key at a time in iteration order gives PropagateAll |
| FrameSelect.Ceil | portable/src/deepfake/inference.py:687 | the result c satisfies c - 1 < r <= c (`math.ceil`) |
| FrameSelect.Floor | portable/src/deepfake/inference.py:686 | definition of `math.floor` on exact reals; its properties are in FrameSelect.SelectionOfClippedRange |
| FrameSelect.StartFrame | portable/src/deepfake/inference.py:686 | definition of `start_frame`; its properties are in FrameSelect.SelectionOfClippedRange |
| FrameSelect.EndFrame | portable/src/deepfake/inference.py:687 | definition of `end_frame`; its properties are in FrameSelect.SelectionOfClippedRange |
| FrameSelect.SliceBound | portable/src/deepfake/inference.py:689 | Python slice-bound normalisation: the result is within [0, n] and an in-range bound is kept |
| FrameSelect.Selection | portable/src/deepfake/inference.py:686-689 | the selected positions are frames of the store and are consecutive |
| FrameSelect.SelectionOfClippedRange | portable/src/deepfake/inference.py:686-692 | for a clipped range, f is selected iff floor(start*fps) <= f < ceil(end*fps)+1 and f < n; the selection is empty (so `[0]` raises) iff the start frame is past the store |
| FrameSelect.StaticSelection | portable/src/deepfake/inference.py:631-634 | with rate 0, any range selects exactly frame 0 |
| Propagation.Fed | portable/src/deepfake/inference.py:711-713 | the frames fed to the tracker so far, one per step |
| Propagation.TrackFrom | portable/src/deepfake/inference.py:710-726 | at most one tracked file per selected frame still ahead |
| Propagation.TrackFromFacts | portable/src/deepfake/inference.py:710-726 | the tracked files follow the selection in order, each holds the tracker's mask for the frames fed so far, and a run shorter than the selection stops exactly where the tracker returned None |
| Propagation.Propagated | portable/src/deepfake/inference.py:693-726 | definition of the mask files one object gets; its properties are in Propagation.PropagatedIsPrefix and Propagation.PropagatedConsecutive |
| Propagation.PropagatedIsPrefix | portable/src/deepfake/inference.py:693-726 | the mask files are a non-empty in-order prefix of the selection: the seeded first frame, then one tracked mask per frame up to the first None |
| Propagation.PropagatedConsecutive | portable/src/deepfake/inference.py:689-726 | for a consecutive selection, the written files name consecutive frames of the store |
| Propagation.PropagateObject | portable/src/deepfake/inference.py:693-726 | the loop with its `break` writes exactly the Propagated files |
| ResizePolicy.MaxEligible | portable/src/deepfake/inference.py:651-653 | None iff no threshold is at most the VRAM; otherwise an eligible tier's size that is at least every eligible size |
| ResizePolicy.MaxSizeTiers | portable/src/deepfake/inference.py:651-653 | 1280 from 19 GiB, 720 from 7, 640 from 6, 320 from 2, and a raise below 2 |
| ResizePolicy.TargetSize | portable/src/deepfake/inference.py:659-669 | definition of the size a frame is written at; its properties are in ResizePolicy.TargetSizeProperties |
| ResizePolicy.ScaledSide | portable/src/deepfake/inference.py:662-665 | definition of `int(side * (max_size / long))`; its properties are in ResizePolicy.ProportionalSide |
| ResizePolicy.TargetSizeProperties | portable/src/deepfake/inference.py:659-669 | a frame whose long edge is at most the limit keeps its size; otherwise the long side becomes the limit and the other side is the truncated proportional side, itself within the limit |
| ResizePolicy.ProportionalSide | portable/src/deepfake/inference.py:662-665 | `int(w * (max_size / h))` is the floor of w*max/h and does not exceed max |
| ResizePolicy.ResizeFrame | portable/src/deepfake/inference.py:657-669 | a small frame is unchanged, and every frame gets the target size |
| ResizePolicy.ResizeFrames | portable/src/deepfake/inference.py:656-670 | a fresh store of the same length, each frame resized |
| Windows.StartsFrom | portable/src/deepfake/inference.py:767-770 | the visited starts lie in [i, n) |
| Windows.Processed | portable/src/deepfake/inference.py:764-770 | definition of a start the loop processes; its properties are in Windows.ScheduleShape |
| Windows.WindowEnd | portable/src/deepfake/inference.py:771 | definition of the clamped end of `mask_files[i : i + frame_batch_size]`; its properties are in Windows.ScheduleShape and Windows.ScheduleExamples |
| Windows.Zeroed | portable/src/deepfake/inference.py:778-779 | definition of an overlap entry whose mask is cleared; its properties are in Windows.KeptExactlyOnce |
| Windows.KeptFrom | portable/src/deepfake/inference.py:778-779 | definition of the first entry a window keeps; its properties are in Windows.KeptExactlyOnce |
| Windows.Owner | portable/src/deepfake/inference.py:767-779 | definition of the window whose kept part holds an entry; its properties are in Windows.KeptPartOfOwner and Windows.Coverage |
| Windows.Schedule | portable/src/deepfake/inference.py:764-770 | the processed starts are positions of the mask files |
| Windows.StartsFromShape | portable/src/deepfake/inference.py:767-770 | the starts from i are i, i+40, ... and are exactly the processed starts at or after i |
| Windows.ScheduleShape | portable/src/deepfake/inference.py:764-771 | the schedule is 0, 40, 80, ...; a start is scheduled iff it is processed; every window has 3 to 50 files |
| Windows.ScheduleExamples | portable/src/deepfake/inference.py:764-771 | 2 files give no window, 3 give one, 52 give starts 0 and 40, and 102 give starts 0, 40 and 80 with the last window ending at 102 |
| Windows.Coverage | portable/src/deepfake/inference.py:767-771 | with at least 3 files, every file lies in some processed window |
| Windows.KeptPartOfOwner | portable/src/deepfake/inference.py:767-779 | the owner of an entry is a processed window whose kept part holds that entry |
| Windows.KeptExactlyOnce | portable/src/deepfake/inference.py:767-779 | each file is kept (not cleared) by exactly one processed window, its owner |
| Windows.ClearedEntriesWereProcessed | portable/src/deepfake/inference.py:767-779 | the files a window clears belong to the window before it, which was processed and keeps them |
| Media.Binarize | portable/src/deepfake/inference.py:776 | a pixel is set iff its grey level exceeds 128 |
| Media.Cleared | portable/src/deepfake/inference.py:779 | a mask of the same size with no pixel set |
| Media.SortedIn | portable/src/deepfake/inference.py:761 | definition of a sorted mask directory (frames of the store, strictly increasing); its properties are in Timeline.PropagatedDirsSorted |
| WindowedInpaint.Commit | portable/src/deepfake/inference.py:798-804 | a write-back keeps the stores consistent, and one array stays one array |
| WindowedInpaint.CommitEffect | portable/src/deepfake/inference.py:798-804 | a write-back changes only frame f: the working frame becomes the corrected frame, and with upscaling the original becomes the upscaler's merge of the frame read back from the frame store |
| WindowedInpaint.WindowOf | portable/src/deepfake/inference.py:771 | a window holds min(50, remaining) files |
| WindowedInpaint.WindowMasks | portable/src/deepfake/inference.py:774-782 | one mask per file |
| WindowedInpaint.WindowInput | portable/src/deepfake/inference.py:784-785 | one working frame per file |
| WindowedInpaint.Inpainted | portable/src/deepfake/inference.py:786-796 | one corrected frame per file |
| WindowedInpaint.WriteUpTo | portable/src/deepfake/inference.py:798-804 | write-backs keep the stores consistent and their length unchanged |
| WindowedInpaint.WriteUpToKeeps | portable/src/deepfake/inference.py:798-804 | a frame that none of the first j entries names is unchanged in both stores |
| WindowedInpaint.WriteUpToWrites | portable/src/deepfake/inference.py:798-804 | with distinct frames, after the first j write-backs each written frame holds its own write-back on the stores the window started from |
| WindowedInpaint.WriteUpToEffect | portable/src/deepfake/inference.py:798-804 | writing back a window with distinct frames changes exactly those frames, each as its own write-back |
| WindowedInpaint.ApplyWindow | portable/src/deepfake/inference.py:771-804 | a window keeps the stores consistent |
| WindowedInpaint.ApplyWindowKeeps | portable/src/deepfake/inference.py:771-804 | a frame the window does not name is unchanged in both stores |
| WindowedInpaint.ApplyWindowWrites | portable/src/deepfake/inference.py:771-804 | each frame the window names holds the write-back of the inpainter's output for its entry |
| WindowedInpaint.ApplyWindowEffect | portable/src/deepfake/inference.py:771-804 | a window rewrites exactly its named frames, each from the inpainter's output for that entry |
| WindowedInpaint.ReadsCorrected | portable/src/deepfake/inference.py:767-785 | a window's overlap input is what the window before it wrote back |
| WindowedInpaint.ReadsWritten | portable/src/deepfake/inference.py:771-785 | a window reads, for an entry an earlier window wrote, exactly that write-back |
| WindowedInpaint.Fold | portable/src/deepfake/inference.py:767-804 | a sequence of windows keeps the stores consistent |
| WindowedInpaint.ObjectPass | portable/src/deepfake/inference.py:761-804 | one object's windows keep the stores consistent |
| WindowedInpaint.Passes | portable/src/deepfake/inference.py:760-804 | all objects' windows keep the stores consistent |
| WindowedInpaint.FoldLocality | portable/src/deepfake/inference.py:767-804 | an object's windows leave every frame they do not name unchanged in both stores |
| WindowedInpaint.PassesLocality | portable/src/deepfake/inference.py:760-804 | a frame no object names is never rewritten |
| WindowedInpaint.FoldKeepsOriginals | portable/src/deepfake/inference.py:798-804 | without upscaling and with separate stores, the original frames are never touched |
| WindowedInpaint.WriteKeepsOriginals | portable/src/deepfake/inference.py:798-804 | the same for one window's write-backs |
| WindowedInpaint.BinaryMasks | portable/src/deepfake/inference.py:774-782 | the mask of entry idx is cleared when i > 0 and idx < 10, and binarised otherwise |
| WindowedInpaint.ProcessWindow | portable/src/deepfake/inference.py:771-804 | the in-place window body leaves the stores as ApplyWindow says, including the aliased case |
| WindowedInpaint.WriteBack | portable/src/deepfake/inference.py:798-804 | one in-place write-back leaves the arrays as Commit says, including when both stores are one array |
| WindowedInpaint.InpaintObject | portable/src/deepfake/inference.py:761-804 | the window loop with its skips leaves the stores as ObjectPass says |
| WindowedInpaint.InpaintObjects | portable/src/deepfake/inference.py:760-804 | the object loop leaves the stores as Passes says |
| FrameRetouch.ModelName | portable/src/deepfake/inference.py:537-542 | the model is `retouch_face` iff that mode was asked for, else `retouch_object` |
| FrameRetouch.RetouchUpTo | portable/src/deepfake/inference.py:816-829 | retouching keeps the store's length |
| FrameRetouch.RetouchAll | portable/src/deepfake/inference.py:812-829 | the same over all objects |
| FrameRetouch.RetouchObjectEffect | portable/src/deepfake/inference.py:816-829 | each named frame becomes the model's retouch of it under its binarised mask, and the other frames are unchanged |
| FrameRetouch.RetouchAllLocality | portable/src/deepfake/inference.py:812-829 | a frame no object names is never retouched |
| FrameRetouch.RetouchObjects | portable/src/deepfake/inference.py:812-829 | the nested in-place loops leave the store as RetouchAll says |
| Retouch.SourceFrames | portable/src/deepfake/inference.py:631-641 | a still image gives the one-frame store |
| Retouch.SourceFps | portable/src/deepfake/inference.py:631-637 | definition of the rate: 0 for a still image, the video's rate otherwise; its properties are in Retouch.StaticRunSucceeds |
| Retouch.Windowed | portable/src/deepfake/inference.py:755 | definition of the windowed branch's condition; its properties are in Retouch.RetouchedLocality |
| Retouch.Shrinks | portable/src/deepfake/inference.py:647 | definition of the shrink condition; its properties are in Retouch.RunFailures and Retouch.UnselectedFramesKept |
| Retouch.WorkFrames | portable/src/deepfake/inference.py:645-670 | the working store has as many frames as the frame store |
| Retouch.Dirs | portable/src/deepfake/inference.py:761 | one mask directory per key |
| Retouch.Retouched | portable/src/deepfake/inference.py:755-840 | the output store has as many frames as the working store |
| Retouch.PropagatedDirs | portable/src/deepfake/inference.py:679-728 | the mask directories in key order are sorted frames of the working store |
| Retouch.Run | portable/src/deepfake/inference.py:610-852 | definition of the whole run as a value; its properties are in Retouch.MainRetouch, Retouch.RunFailures, Retouch.StaticRunSucceeds and Retouch.UnselectedFramesKept |
| Retouch.RetouchStores | portable/src/deepfake/inference.py:755-840 | the branch in place and the store read for output give Retouched |
| Retouch.MainRetouch | portable/src/deepfake/inference.py:610-852 | the whole run returns Run of the dictionary, source, mode, device, VRAM, trim and upscale flag; afterwards the caller's `masks` is valid, keeps its key order and holds exactly the clipped keys; after an error raised before propagation it is the clipped dictionary, and after a successful run every clipped object has its mask directory and is otherwise unchanged |
| Retouch.RetouchClipped | portable/src/deepfake/inference.py:630-852 | after clipping, loading, shrinking, propagation and the retouch branch return RunClipped; `masks` stays valid with the same key order and keys, is unchanged after an error raised before propagation, and after success has every object's mask directory set and nothing else changed |
| Retouch.PropagateAndRetouch | portable/src/deepfake/inference.py:679-852 | from the loaded stores on, the run returns RunLoaded; `masks` stays valid with the same key order and keys, and after success it is PropagateAll of the clipped dictionary over the working frames |
| Retouch.MasksGiven | portable/src/deepfake/inference.py:680-728 | definition of the dictionary after propagation (same keys, a mask directory on every object, no other change); its properties are in Retouch.MainRetouch and Retouch.RetouchClipped |
| Retouch.RetouchPropagated | portable/src/deepfake/inference.py:755-840 | once every object has its mask directory, the branch on the stores gives Retouched of the directories in key order |
| Retouch.RunClipped | portable/src/deepfake/inference.py:630-852 | a video output has one frame per source frame |
| Retouch.RunLoaded | portable/src/deepfake/inference.py:679-852 | after loading, the only failure is EmptySelection, exactly when some object selects no frame; a video output has one frame per working frame |
| Retouch.RunFailures | portable/src/deepfake/inference.py:630-653 | the run fails with UnknownMediaType iff the source is neither image nor video, with NoFrames iff a video has no frames, and with NoVramTier iff a shrinking run has less than 2 GiB |
| Retouch.StaticRunSucceeds | portable/src/deepfake/inference.py:631-692 | a still image never fails; it gives the mask folder iff no retouch mode is given, and otherwise an image |
| Retouch.DirsAvoid | portable/src/deepfake/inference.py:689-728 | a frame outside every selection is named by no mask directory |
| Retouch.RetouchedLocality | portable/src/deepfake/inference.py:755-840 | an unnamed frame is read back from the frame store with upscaling, and from the working store without |
| Retouch.UnselectedFramesKept | portable/src/deepfake/inference.py:645-852 | a video frame that no clipped range selects comes out unchanged, or only shrunk when shrinking without upscaling |
| GeneralUtils.Slice | portable/src/backend/general_utils.py:148-153 | Python's clamped slice: its length and its characters |
| GeneralUtils.FormatDirTime | portable/src/backend/general_utils.py:146-156 | definition of `format_dir_time`; its properties are in GeneralUtils.FormatDirTimeLayout, GeneralUtils.FormatDirTimeRoundTrip and GeneralUtils.FormatDirTimeIgnoresTail |
| GeneralUtils.FormatDirTimeLayout | portable/src/backend/general_utils.py:146-156 | for 12 or more characters: 16 characters, with `.` at 2 and 5, a space at 10, `:` at 13, and day, month, year, hour and minute in their places |
| GeneralUtils.FormatDirTimeRoundTrip | portable/src/backend/general_utils.py:146-156 | the first 12 characters can be read back from the display form |
| GeneralUtils.FormatDirTimeIgnoresTail | portable/src/backend/general_utils.py:148-153 | anything after the 12th character does not change the display form |
| GeneralUtils.FormatDirTimeShort | portable/src/backend/general_utils.py:146-156 | a date without a time gives `15.03.2024 :` |
| GeneralUtils.Merged | portable/src/backend/general_utils.py:119-124 | both language keys are present and not None; existing non-None values and all other keys are kept; a `.get` that is None is replaced by its default |
| PyValues.GetIsNone | portable/src/backend/general_utils.py:119-122 | definition of `d.get(k) is None`; its properties are in GeneralUtils.Merged |
| GeneralUtils.MergedIdempotent | portable/src/backend/general_utils.py:119-124 | merging twice is merging once |
| GeneralUtils.DefaultsAreMerged | portable/src/backend/general_utils.py:104-124 | the default settings are already complete |
| GeneralUtils.DefaultSettings | portable/src/backend/general_utils.py:92-107 | definition of `default_settings`; its properties are in GeneralUtils.DefaultsAreMerged |
| GeneralUtils.Settings | portable/src/backend/general_utils.py:108-127 | definition of the value `set_settings` returns; its properties are in GeneralUtils.SetSettings and GeneralUtils.Merged |
| GeneralUtils.SetSettings | portable/src/backend/general_utils.py:108-127 | a missing file, a parse failure or a non-object gives the defaults; an object is merged; the result always has both language keys, not None |
| HParams.Convert | portable/src/tacotron2/hparams.py:41-44 | mappings become attribute dictionaries with the same keys, and other values are kept |
| HParams.Construct | portable/src/tacotron2/hparams.py:38-44 | a falsy argument gives no entries; a mapping gives the same keys, each value converted |
| PyValues.HasKeys | portable/src/tacotron2/hparams.py:42 | definition of `hasattr(value, 'keys')`; its properties are in HParams.Convert and HParams.NewAttributeDict |
| PyValues.Falsy | portable/src/tacotron2/hparams.py:40 | definition of `not dct`; its properties are in HParams.Construct and HParams.NewAttributeDict |
| HParams.ConvertKeepsShape | portable/src/tacotron2/hparams.py:41-44 | conversion keeps the nested key structure and every leaf |
| HParams.ConvertIdempotent | portable/src/tacotron2/hparams.py:41-44 | converting again changes nothing |
| HParams.PlainUndoesConvert | portable/src/tacotron2/hparams.py:41-44 | for a loaded configuration, undoing the conversion gives it back |
| HParams.AttributeDict.constructor | portable/src/tacotron2/hparams.py:38-44 | the loop fills the entries as Construct says |
| HParams.AttributeDict.GetAttr | portable/src/tacotron2/hparams.py:47-48 | class attributes win; otherwise the entry, or KeyError iff it is missing |
| HParams.AttributeDict.SetAttr | portable/src/tacotron2/hparams.py:51-52 | the entry is set, reading it back gives the value, and every other name reads as before |
| HParams.AttributeDict.Export | portable/src/tacotron2/hparams.py:63-64 | a plain dictionary with the same entries |
| HParams.ExportRoundTrip | portable/src/tacotron2/hparams.py:38-64 | building from a loaded configuration and exporting it deeply gives the configuration back |
| HParams.NewAttributeDict | portable/src/tacotron2/hparams.py:38-44 | building succeeds iff the argument is falsy or a mapping; otherwise it raises at `items` |
| HParams.CreateHParams | portable/src/tacotron2/hparams.py:67-74 | a mapping gives an attribute dictionary with the same keys; a string uses the loaded YAML; anything else leaves `config` unbound |

## Left out

- Downloading models and configuration and checking file sizes: network and file I/O.
- Timestamped folders, the temporary directory and its cleanup, progress bars, opening the output folder, and emptying the CUDA cache: side effects with no bearing on the result.
- The mask-colour preview images: they are written next to the run and are never read back.
- Device detection and the VRAM query: they are inputs (`Device`, `vram`).
- The segmenter, tracker, flow inpainter, single-frame retouch model, upscaler and `cv2.resize`: these are function parameters. Their pixel arithmetic, the dilation kernel (`blur`), colour conversions and the inpainter's internal resizing are not modelled.
- Trimming the source video (`cut_start_video`) and extracting frames: the source arrives as its frames and rate.
- Encoding the output video and muxing its audio: the run returns the output frames and the rate.
- The sizes handed to the mask writer (`work_height`, `work_width`): mask images are the segmenter's output as it is.
- Floating-point arithmetic: times, rates and VRAM are exact reals. `math.floor`, `math.ceil` and `int()` are applied to exact values, so IEEE rounding of `start_time * fps` is not modelled.
- Timeline.MaskTimeline.Propagate: after an EmptySelection error only the key set and order of `masks` are stated, not which earlier objects had already been given their mask directory when the loop stopped.
- Timeline.MaskTimeline.Clip: times are reals, and a missing `start_time` (where `.get` returns None and the comparison raises) is not modelled.
- HParams.AttributeDict.GetAttr: only the public dict methods and `export` are treated as class attributes; dunder names are not.
- HParams: mapping keys are strings, and floats among the values are not represented. Nested attribute dictionaries are values, so aliasing between a nested dictionary and its copy is not modelled.
- HParams.CreateHParams: reading the YAML file is the `loadYaml` parameter, and I/O errors are not modelled.
- GeneralUtils.SetSettings: creating the missing file with the defaults is not modelled. JSON floats are not represented.
- The rest of the repository (other pipelines, the speech vocoder, the web backend): these are outside the retouch core.
