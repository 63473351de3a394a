/**
 * The per-object mask dictionary of a retouch run (`masks` in
 * `Retouch.main_retouch`): each object's time range and point prompts,
 * clipped against the trim range of the source, and later the directory of
 * mask files propagated for it. The dictionary is mutated in place, so it is
 * a class; its key order is Python's insertion order.
 */
module Timeline {
  import opened Wrappers
  import opened Media
  import FrameSelect
  import Propagation

  type Key = string

  /** `masks[key]`: `start_time`, `end_time`, `point_list` and, once written, `frame_files_path` with the files it holds. */
  datatype MaskObject = MaskObject(startTime: real, endTime: real, points: seq<Point>, maskDir: Option<seq<MaskFile>>)

  /** Why a run of `main_retouch` raises. */
  datatype RunError =
    | UnknownMediaType   // the source is neither a static image nor an animated one
    | NoFrames           // `frame_files[0]` on an empty frame list
    | NoVramTier         // `max()` over no eligible VRAM table entry
    | EmptySelection     // `filter_frames_files[0]` on an empty selection

  ghost predicate Distinct<T>(s: seq<T>) {
    forall i, j :: 0 <= i < j < |s| ==> s[i] != s[j]
  }

  /** An object starting before the trimmed clip or after its end is removed. */
  predicate OutsideTrim(o: MaskObject, sourceStart: real, sourceEnd: real) {
    o.startTime < sourceStart || o.startTime > sourceEnd
  }

  /**
   * A kept object: its end is cut at the trim end, then both times are made
   * relative to the trimmed clip. The clipped range lies inside
   * [0, sourceEnd - sourceStart] and an ordered range stays ordered.
   */
  function ClipObject(o: MaskObject, sourceStart: real, sourceEnd: real): (c: MaskObject)
    requires !OutsideTrim(o, sourceStart, sourceEnd)
    ensures 0.0 <= c.startTime <= sourceEnd - sourceStart
    ensures c.endTime <= sourceEnd - sourceStart
    ensures o.startTime <= o.endTime ==> c.startTime <= c.endTime
    ensures c.startTime - c.endTime >= o.startTime - o.endTime
    ensures c.points == o.points && c.maskDir == o.maskDir
  {
    var end := if o.endTime > sourceEnd then sourceEnd else o.endTime;
    o.(startTime := o.startTime - sourceStart, endTime := end - sourceStart)
  }

  /** The dictionary after clipping: exactly the objects inside the trim range survive, each clipped. */
  function ClipAll(objs: map<Key, MaskObject>, sourceStart: real, sourceEnd: real): (r: map<Key, MaskObject>)
    ensures forall k :: k in r <==> k in objs && !OutsideTrim(objs[k], sourceStart, sourceEnd)
    ensures forall k :: k in r ==> r[k] == ClipObject(objs[k], sourceStart, sourceEnd)
  {
    map k | k in objs && !OutsideTrim(objs[k], sourceStart, sourceEnd) :: ClipObject(objs[k], sourceStart, sourceEnd)
  }

  /** The keys of `order` that are still in `objs`, in order: the iteration order of the dictionary. */
  function Present<V>(order: seq<Key>, objs: map<Key, V>): (r: seq<Key>)
    ensures forall k :: k in r <==> k in order && k in objs
    ensures Distinct(order) ==> Distinct(r)
  {
    if order == [] then []
    else if order[0] in objs then [order[0]] + Present(order[1..], objs)
    else Present(order[1..], objs)
  }

  /**
   * `Present` keeps the relative order of `order`: its keys sit at
   * strictly increasing positions `ix` of the insertion order.
   */
  lemma {:induction false} PresentInOrder<V>(order: seq<Key>, objs: map<Key, V>) returns (ix: seq<nat>)
    ensures |ix| == |Present(order, objs)|
    ensures forall i :: 0 <= i < |ix| ==> ix[i] < |order| && order[ix[i]] == Present(order, objs)[i]
    ensures forall i, j :: 0 <= i < j < |ix| ==> ix[i] < ix[j]
  {
    if order == [] {
      ix := [];
    } else {
      var rest := PresentInOrder(order[1..], objs);
      var shifted := seq(|rest|, i requires 0 <= i < |rest| => rest[i] + 1);
      if order[0] in objs {
        ix := [0] + shifted;
      } else {
        ix := shifted;
      }
    }
  }

  /** The frames an object's time range selects in a store of `n` frames. */
  function SelectionOf(o: MaskObject, n: nat, fps: real): seq<nat> {
    FrameSelect.Selection(n, o.startTime, o.endTime, fps)
  }

  /** One object with the mask directory propagation writes for it. */
  function WithMasks(o: MaskObject, frames: seq<Frame>, fps: real, seed: Seeder, track: Tracker): (r: MaskObject)
    requires SelectionOf(o, |frames|, fps) != []
    ensures r.maskDir.Some? && r == o.(maskDir := r.maskDir)
  {
    o.(maskDir := Some(Propagation.Propagated(frames, SelectionOf(o, |frames|, fps), o.points, seed, track)))
  }

  /** The dictionary after mask propagation: every object gets its mask directory, nothing else changes. */
  function PropagateAll(objs: map<Key, MaskObject>, frames: seq<Frame>, fps: real, seed: Seeder, track: Tracker)
    : (r: map<Key, MaskObject>)
    requires forall k :: k in objs ==> SelectionOf(objs[k], |frames|, fps) != []
    ensures r.Keys == objs.Keys
    ensures forall k :: k in r ==> r[k].maskDir.Some? && r[k] == objs[k].(maskDir := r[k].maskDir)
  {
    map k | k in objs :: WithMasks(objs[k], frames, fps, seed, track)
  }

  /** Every propagated mask directory lists frames of the store in strictly increasing order, as `sorted(os.listdir(...))` reads them back. */
  lemma PropagatedDirsSorted(objs: map<Key, MaskObject>, frames: seq<Frame>, fps: real, seed: Seeder, track: Tracker)
    requires forall k :: k in objs ==> SelectionOf(objs[k], |frames|, fps) != []
    ensures forall k :: k in PropagateAll(objs, frames, fps, seed, track) ==>
      SortedIn(PropagateAll(objs, frames, fps, seed, track)[k].maskDir.value, |frames|)
  {
    var r := PropagateAll(objs, frames, fps, seed, track);
    forall k | k in r
      ensures SortedIn(r[k].maskDir.value, |frames|)
    {
      var sel := SelectionOf(objs[k], |frames|, fps);
      Propagation.PropagatedConsecutive(frames, sel, objs[k].points, seed, track);
    }
  }

  /** Every mask file propagation writes for an object names a frame of that object's selection. */
  lemma PropagatedFramesSelected(objs: map<Key, MaskObject>, frames: seq<Frame>, fps: real, seed: Seeder, track: Tracker)
    requires forall k :: k in objs ==> SelectionOf(objs[k], |frames|, fps) != []
    ensures forall k, p ::
      k in PropagateAll(objs, frames, fps, seed, track) &&
      0 <= p < |PropagateAll(objs, frames, fps, seed, track)[k].maskDir.value|
      ==> PropagateAll(objs, frames, fps, seed, track)[k].maskDir.value[p].frame in SelectionOf(objs[k], |frames|, fps)
  {
    var r := PropagateAll(objs, frames, fps, seed, track);
    forall k, p | k in r && 0 <= p < |r[k].maskDir.value|
      ensures r[k].maskDir.value[p].frame in SelectionOf(objs[k], |frames|, fps)
    {
      var sel := SelectionOf(objs[k], |frames|, fps);
      Propagation.PropagatedIsPrefix(frames, sel, objs[k].points, seed, track);
    }
  }

  /** The iteration order depends on the keys only, not on the values stored under them. */
  lemma {:induction false} PresentSameKeys<V>(order: seq<Key>, a: map<Key, V>, b: map<Key, V>)
    requires a.Keys == b.Keys
    ensures Present(order, a) == Present(order, b)
  {
    if order != [] {
      PresentSameKeys(order[1..], a, b);
    }
  }

  /** The dictionary part-way through the clipping pass: the kept objects among `done` are clipped. */
  function ClippedSome(objs: map<Key, MaskObject>, done: set<Key>, sourceStart: real, sourceEnd: real): map<Key, MaskObject> {
    map k | k in objs :: if k in done && !OutsideTrim(objs[k], sourceStart, sourceEnd) then ClipObject(objs[k], sourceStart, sourceEnd) else objs[k]
  }

  /** One more key through the clipping pass. */
  lemma ClippedStep(objs: map<Key, MaskObject>, done: set<Key>, key: Key, sourceStart: real, sourceEnd: real)
    requires key in objs && key !in done
    ensures OutsideTrim(objs[key], sourceStart, sourceEnd) ==>
      ClippedSome(objs, done + {key}, sourceStart, sourceEnd) == ClippedSome(objs, done, sourceStart, sourceEnd)
    ensures !OutsideTrim(objs[key], sourceStart, sourceEnd) ==>
      ClippedSome(objs, done + {key}, sourceStart, sourceEnd) ==
      ClippedSome(objs, done, sourceStart, sourceEnd)[key := ClipObject(objs[key], sourceStart, sourceEnd)]
  {
  }

  /** The dictionary once a loop over `keys` has stored, for each of the first `i` keys found in `upd`, the value `upd` holds for it. */
  ghost function UpdatedPrefix(objs: map<Key, MaskObject>, keys: seq<Key>, i: nat, upd: map<Key, MaskObject>)
    : (r: map<Key, MaskObject>)
    requires i <= |keys|
    ensures r.Keys == objs.Keys
  {
    if i == 0 then objs
    else
      var k := keys[i - 1];
      var m := UpdatedPrefix(objs, keys, i - 1, upd);
      if k in objs && k in upd then m[k := upd[k]] else m
  }

  /** The loop has not yet touched the keys it has still to visit. */
  lemma {:induction false} UpdatedPrefixUntouched(objs: map<Key, MaskObject>, keys: seq<Key>, i: nat, j: nat, upd: map<Key, MaskObject>)
    requires Distinct(keys) && i <= j < |keys| && keys[j] in objs
    ensures UpdatedPrefix(objs, keys, i, upd)[keys[j]] == objs[keys[j]]
  {
    if i > 0 {
      UpdatedPrefixUntouched(objs, keys, i - 1, j, upd);
    }
  }

  /** One more key through the loop. */
  lemma UpdatedPrefixStep(objs: map<Key, MaskObject>, keys: seq<Key>, i: nat, upd: map<Key, MaskObject>)
    requires i < |keys| && keys[i] in objs && keys[i] in upd
    ensures UpdatedPrefix(objs, keys, i + 1, upd) == UpdatedPrefix(objs, keys, i, upd)[keys[i] := upd[keys[i]]]
  {
  }

  /** After `i` keys, each of the first `i` keys holds its new value. */
  lemma {:induction false} UpdatedPrefixDone(objs: map<Key, MaskObject>, keys: seq<Key>, i: nat, upd: map<Key, MaskObject>)
    requires Distinct(keys) && i <= |keys|
    requires forall j :: 0 <= j < i ==> keys[j] in objs && keys[j] in upd
    ensures forall j :: 0 <= j < i ==> UpdatedPrefix(objs, keys, i, upd)[keys[j]] == upd[keys[j]]
  {
    if i > 0 {
      UpdatedPrefixDone(objs, keys, i - 1, upd);
    }
  }

  /** A loop over every key of the dictionary, with a new value for each, leaves exactly the new values. */
  lemma UpdatedPrefixComplete(objs: map<Key, MaskObject>, keys: seq<Key>, upd: map<Key, MaskObject>)
    requires Distinct(keys) && upd.Keys == objs.Keys
    requires forall k :: k in keys <==> k in objs
    ensures UpdatedPrefix(objs, keys, |keys|, upd) == upd
  {
    UpdatedPrefixDone(objs, keys, |keys|, upd);
    forall k | k in objs
      ensures UpdatedPrefix(objs, keys, |keys|, upd)[k] == upd[k]
    {
      var j :| 0 <= j < |keys| && keys[j] == k;
    }
  }

  /** The new value of every object whose selection is not empty. */
  ghost function Targets(objs: map<Key, MaskObject>, frames: seq<Frame>, fps: real, seed: Seeder, track: Tracker)
    : map<Key, MaskObject>
  {
    map k | k in objs && SelectionOf(objs[k], |frames|, fps) != [] :: WithMasks(objs[k], frames, fps, seed, track)
  }

  /** What `Targets` says about one key. */
  lemma TargetsAt(objs: map<Key, MaskObject>, frames: seq<Frame>, fps: real, seed: Seeder, track: Tracker, k: Key)
    requires k in objs
    ensures k in Targets(objs, frames, fps, seed, track) <==> SelectionOf(objs[k], |frames|, fps) != []
    ensures k in Targets(objs, frames, fps, seed, track) ==>
      Targets(objs, frames, fps, seed, track)[k] == WithMasks(objs[k], frames, fps, seed, track)
  {
  }

  /** The `j`-th key names an object of `objs`, and `upd` holds its new value exactly when its selection is not empty. */
  ghost predicate TargetAt(upd: map<Key, MaskObject>, objs: map<Key, MaskObject>, keys: seq<Key>, j: nat,
                           frames: seq<Frame>, fps: real, seed: Seeder, track: Tracker)
  {
    && j < |keys| && keys[j] in objs
    && (keys[j] in upd <==> SelectionOf(objs[keys[j]], |frames|, fps) != [])
    && (keys[j] in upd ==> upd[keys[j]] == WithMasks(objs[keys[j]], frames, fps, seed, track))
  }

  /** When every object has a new value, the new values are exactly the propagated dictionary. */
  lemma TargetsComplete(objs: map<Key, MaskObject>, frames: seq<Frame>, fps: real, seed: Seeder, track: Tracker)
    requires Targets(objs, frames, fps, seed, track).Keys == objs.Keys
    ensures forall k :: k in objs ==> SelectionOf(objs[k], |frames|, fps) != []
    ensures Targets(objs, frames, fps, seed, track) == PropagateAll(objs, frames, fps, seed, track)
  {
    assert forall k :: k in objs ==> k in Targets(objs, frames, fps, seed, track);
  }

  /** `TargetAt` holds at every position of an iteration order of `objs`. */
  lemma TargetsEverywhere(objs: map<Key, MaskObject>, keys: seq<Key>, frames: seq<Frame>, fps: real, seed: Seeder, track: Tracker)
    requires forall k :: k in keys <==> k in objs
    ensures forall j :: 0 <= j < |keys| ==> TargetAt(Targets(objs, frames, fps, seed, track), objs, keys, j, frames, fps, seed, track)
  {
    forall j | 0 <= j < |keys|
      ensures TargetAt(Targets(objs, frames, fps, seed, track), objs, keys, j, frames, fps, seed, track)
    {
      TargetsAt(objs, frames, fps, seed, track, keys[j]);
    }
  }

  /**
   * A loop over an iteration order of `objs` that found a new value for
   * every key leaves the propagated dictionary, and every selection was
   * non-empty.
   */
  lemma PropagationComplete(objs: map<Key, MaskObject>, keys: seq<Key>, frames: seq<Frame>, fps: real, seed: Seeder, track: Tracker)
    requires Distinct(keys) && forall k :: k in keys <==> k in objs
    requires forall j :: 0 <= j < |keys| ==> keys[j] in Targets(objs, frames, fps, seed, track)
    ensures forall k :: k in objs ==> SelectionOf(objs[k], |frames|, fps) != []
    ensures UpdatedPrefix(objs, keys, |keys|, Targets(objs, frames, fps, seed, track)) == PropagateAll(objs, frames, fps, seed, track)
  {
    var targets := Targets(objs, frames, fps, seed, track);
    assert targets.Keys == objs.Keys by {
      forall k | k in objs
        ensures k in targets
      {
        var j :| 0 <= j < |keys| && keys[j] == k;
      }
    }
    UpdatedPrefixComplete(objs, keys, targets);
    TargetsComplete(objs, frames, fps, seed, track);
  }

  /** A pass that has visited every key of the iteration order has visited every key of the dictionary. */
  lemma AllKeysDone(keys: seq<Key>, objs: map<Key, MaskObject>, done: set<Key>)
    requires forall k :: k in keys ==> k in objs
    requires forall k :: k in objs ==> k in keys
    requires forall j :: 0 <= j < |keys| ==> keys[j] in done
    requires done <= objs.Keys
    ensures done == objs.Keys
  {
    forall k | k in objs
      ensures k in done
    {
      var j :| 0 <= j < |keys| && keys[j] == k;
    }
  }

  class MaskTimeline {
    /** Every key ever inserted, in insertion order (removed keys included). */
    var order: seq<Key>
    var objects: map<Key, MaskObject>

    ghost predicate Valid()
      reads this
    {
      Distinct(order) && forall k :: k in objects ==> k in order
    }

    /** The dictionary's keys in iteration order. */
    function Keys(): (ks: seq<Key>)
      reads this
      ensures Valid() ==> Distinct(ks) && forall k :: k in ks <==> k in objects
    {
      Present(order, objects)
    }

    constructor(order: seq<Key>, objects: map<Key, MaskObject>)
      requires Distinct(order) && forall k :: k in order ==> k in objects
      requires forall k :: k in objects ==> k in order
      ensures Valid() && this.order == order && this.objects == objects
    {
      this.order := order;
      this.objects := objects;
    }

    /**
     * Clipping against the trim range: one pass over the keys records the
     * keys to remove and rewrites the kept objects' times; the removals are
     * made only after the pass.
     */
    method Clip(sourceStart: real, sourceEnd: real)
      requires Valid()
      modifies this
      ensures Valid() && order == old(order)
      ensures objects == ClipAll(old(objects), sourceStart, sourceEnd)
    {
      var removeKeys := ClipTimes(sourceStart, sourceEnd);
      RemoveKeys(removeKeys);
      assert objects.Keys == ClipAll(old(objects), sourceStart, sourceEnd).Keys;
    }

    /** The pass over the keys: the kept objects get their clipped times, the others are listed for removal. */
    method ClipTimes(sourceStart: real, sourceEnd: real) returns (removeKeys: seq<Key>)
      requires Valid()
      modifies this
      ensures Valid() && order == old(order)
      ensures forall k :: k in removeKeys <==> k in old(objects) && OutsideTrim(old(objects)[k], sourceStart, sourceEnd)
      ensures objects == ClippedSome(old(objects), old(objects).Keys, sourceStart, sourceEnd)
    {
      var keys := Keys();
      removeKeys := [];
      ghost var done: set<Key> := {};
      var i := 0;
      while i < |keys|
        invariant 0 <= i <= |keys|
        invariant order == old(order)
        invariant forall j :: 0 <= j < i ==> keys[j] in done
        invariant done <= old(objects).Keys
        invariant forall j :: i <= j < |keys| ==> keys[j] !in done
        invariant forall k :: k in removeKeys <==> k in done && OutsideTrim(old(objects)[k], sourceStart, sourceEnd)
        invariant objects == ClippedSome(old(objects), done, sourceStart, sourceEnd)
      {
        var key := keys[i];
        assert key !in done;
        var remove := ClipKey(key, sourceStart, sourceEnd);
        if remove {
          removeKeys := removeKeys + [key];
        }
        ClippedStep(old(objects), done, key, sourceStart, sourceEnd);
        done := done + {key};
        i := i + 1;
      }
      AllKeysDone(keys, old(objects), done);
    }

    /** One key of the clipping pass: an object outside the trim range is reported, a kept one gets its clipped times. */
    method ClipKey(key: Key, sourceStart: real, sourceEnd: real) returns (remove: bool)
      requires key in objects
      modifies this
      ensures order == old(order)
      ensures remove <==> OutsideTrim(old(objects)[key], sourceStart, sourceEnd)
      ensures remove ==> objects == old(objects)
      ensures !remove ==> objects == old(objects)[key := ClipObject(old(objects)[key], sourceStart, sourceEnd)]
    {
      var o := objects[key];
      if o.startTime < sourceStart {
        return true;
      } else if o.startTime > sourceEnd {
        return true;
      }
      var end := o.endTime;
      if end > sourceEnd {
        end := sourceEnd;
      }
      end := end - sourceStart;
      objects := objects[key := o.(endTime := end, startTime := o.startTime - sourceStart)];
      remove := false;
    }

    /** `masks.pop(remove_key)` for every listed key. */
    method RemoveKeys(removeKeys: seq<Key>)
      requires Valid()
      modifies this
      ensures Valid() && order == old(order)
      ensures forall k :: k in objects <==> k in old(objects) && k !in removeKeys
      ensures forall k :: k in objects ==> objects[k] == old(objects)[k]
    {
      var j := 0;
      while j < |removeKeys|
        invariant 0 <= j <= |removeKeys|
        invariant order == old(order)
        invariant forall k :: k in objects <==> k in old(objects) && k !in removeKeys[..j]
        invariant forall k :: k in objects ==> objects[k] == old(objects)[k]
      {
        assert removeKeys[..j + 1] == removeKeys[..j] + [removeKeys[j]];
        objects := objects - {removeKeys[j]};
        j := j + 1;
      }
      assert removeKeys[..j] == removeKeys;
    }

    /**
     * Mask propagation for every object in key order. An object whose
     * selection is empty makes the run raise (`filter_frames_files[0]`);
     * otherwise every object gets its propagated mask directory.
     */
    method Propagate(work: array<Frame>, fps: real, seed: Seeder, track: Tracker) returns (r: Outcome<RunError>)
      requires Valid()
      modifies this
      ensures Valid() && order == old(order) && objects.Keys == old(objects).Keys
      ensures r.Fail? <==> exists k :: k in old(objects) && SelectionOf(old(objects)[k], work.Length, fps) == []
      ensures r.Fail? ==> r.error == EmptySelection
      ensures r.Pass? ==> objects == PropagateAll(old(objects), work[..], fps, seed, track)
    {
      ghost var frames := work[..];
      ghost var targets := Targets(objects, frames, fps, seed, track);
      var keys := Keys();
      TargetsEverywhere(objects, keys, frames, fps, seed, track);
      r := PropagateKeys(work, frames, keys, fps, seed, track, targets);
      if r.Pass? {
        PropagationComplete(old(objects), keys, frames, fps, seed, track);
      } else {
        ghost var k :| k in old(objects) && k !in targets;
        TargetsAt(old(objects), frames, fps, seed, track, k);
      }
    }

    /** The loop of `Propagate` over the keys in order, stated with the new values `upd` of the objects. */
    method PropagateKeys(work: array<Frame>, ghost frames: seq<Frame>, keys: seq<Key>, fps: real, seed: Seeder, track: Tracker,
                         ghost upd: map<Key, MaskObject>)
      returns (r: Outcome<RunError>)
      requires frames == work[..] && Distinct(keys)
      requires forall j :: 0 <= j < |keys| ==> TargetAt(upd, objects, keys, j, frames, fps, seed, track)
      modifies this
      ensures order == old(order) && objects.Keys == old(objects).Keys
      ensures r.Fail? ==> r == Fail(EmptySelection) && exists k :: k in old(objects) && k !in upd
      ensures r.Pass? ==> forall j :: 0 <= j < |keys| ==> keys[j] in upd
      ensures r.Pass? ==> objects == UpdatedPrefix(old(objects), keys, |keys|, upd)
    {
      var i := 0;
      r := Pass;
      while i < |keys| && r.Pass?
        invariant 0 <= i <= |keys|
        invariant order == old(order)
        invariant forall j :: 0 <= j < i ==> keys[j] in upd
        invariant objects == UpdatedPrefix(old(objects), keys, i, upd)
        invariant r.Fail? ==> r == Fail(EmptySelection) && exists k :: k in old(objects) && k !in upd
        decreases |keys| - i, r.Pass?
      {
        var ok := PropagateKey(work, frames, keys, i, fps, seed, track, old(objects), upd);
        if ok {
          i := i + 1;
        } else {
          r := Fail(EmptySelection);
        }
      }
    }

    /**
     * One object of the propagation loop, the `i`-th key of `keys`: its
     * selection is checked, then its masks are propagated. `upd` holds the
     * new value of every object of the dictionary `objs` the loop started
     * from whose selection is not empty.
     */
    method PropagateKey(work: array<Frame>, ghost frames: seq<Frame>, keys: seq<Key>, i: nat, fps: real, seed: Seeder, track: Tracker,
                        ghost objs: map<Key, MaskObject>, ghost upd: map<Key, MaskObject>)
      returns (ok: bool)
      requires frames == work[..] && Distinct(keys) && TargetAt(upd, objs, keys, i, frames, fps, seed, track)
      requires objects == UpdatedPrefix(objs, keys, i, upd)
      modifies this
      ensures order == old(order)
      ensures ok <==> keys[i] in upd
      ensures !ok ==> objects == old(objects)
      ensures ok ==> objects == UpdatedPrefix(objs, keys, i + 1, upd)
    {
      var key := keys[i];
      UpdatedPrefixUntouched(objs, keys, i, i, upd);
      var o := objects[key];
      var sel := SelectionOf(o, work.Length, fps);
      if |sel| == 0 {
        return false;
      }
      var files := Propagation.PropagateObject(work, sel, o.points, seed, track);
      objects := objects[key := o.(maskDir := Some(files))];
      UpdatedPrefixStep(objs, keys, i, upd);
      ok := true;
    }
  }
}
