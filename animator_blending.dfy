/**
 * The clip orchestrator (vox.render/animation/animator_blending.cpp): owns a
 * vector of clips, advances every one of them each frame, sorts their
 * local-transform buffers into normal and additive layers and runs the
 * blending job once.
 *
 * The clips are stored by value, as in the source's vector; each element is
 * the abstract value of an AnimatorClip (AnimatorClips.ClipState) and is
 * advanced by AnimatorClips.Advanced, the transition AnimatorClip.Update is
 * proved to perform. BlendingJob::Run is an external collaborator
 * (quaternion/SoA blending is not modelled): every run is recorded with the
 * layers and threshold it was given.
 */
module AnimatorBlendings {
  import opened AnimatorClips

  /** The skeleton the orchestrator is bound to (consumed read-only). */
  datatype Skeleton = Skeleton(numJoints: nat, numSoaJoints: nat, restPoses: seq<SoaTransform>)

  /** The inputs of one BlendingJob::Run call. */
  datatype BlendRun = BlendRun(layers: seq<seq<SoaTransform>>, additiveLayers: seq<seq<SoaTransform>>, threshold: real)

  /** A clip that is valid and whose buffers are sized to the skeleton. */
  ghost predicate Fits(s: ClipState, sk: Skeleton) {
    s.Valid() && |s.locals| == sk.numSoaJoints && s.contextSize == sk.numJoints
  }

  /** The clip addAnimatorClip stores: a new clip resized to the skeleton. */
  function AddedClip(loaded: bool, duration: real, sk: Skeleton): ClipState {
    WithNumJoints(WithNumSoaJoints(NewClip(loaded, duration), sk.numSoaJoints), sk.numJoints)
  }

  /** The locals of the Normal clips, in clip order. */
  function NormalLayers(states: seq<ClipState>): seq<seq<SoaTransform>>
    decreases |states|
  {
    if states == [] then []
    else
      var last := states[|states| - 1];
      NormalLayers(states[..|states| - 1]) + (if last.blendMode == Normal then [last.locals] else [])
  }

  /** The locals of every other (Additive) clip, in clip order. */
  function AdditiveLayers(states: seq<ClipState>): seq<seq<SoaTransform>>
    decreases |states|
  {
    if states == [] then []
    else
      var last := states[|states| - 1];
      AdditiveLayers(states[..|states| - 1]) + (if last.blendMode == Normal then [] else [last.locals])
  }

  /** Every clip advanced once with the same dt and its own sample. */
  function AdvancedAll(states: seq<ClipState>, dt: real, samples: seq<seq<SoaTransform>>): (r: seq<ClipState>)
    requires |samples| == |states|
    requires forall k :: 0 <= k < |states| ==> states[k].play ==> states[k].duration > 0.0
    ensures |r| == |states| && forall k :: 0 <= k < |states| ==> r[k] == Advanced(states[k], dt, samples[k])
  {
    seq(|states|, k requires 0 <= k < |states| => Advanced(states[k], dt, samples[k]))
  }

  /**
   * The state of update(dt)'s loop after i clips: those are advanced, the
   * rest untouched, and every clip fits the skeleton.
   */
  ghost predicate AdvancedUpTo(before: seq<ClipState>, cur: seq<ClipState>, i: int, dt: real, samples: seq<seq<SoaTransform>>, sk: Skeleton) {
    && 0 <= i <= |cur| == |before| == |samples|
    && (forall k :: 0 <= k < |before| ==> before[k].play ==> before[k].duration > 0.0)
    && (forall k :: 0 <= k < i ==> cur[k] == Advanced(before[k], dt, samples[k]))
    && (forall k :: i <= k < |cur| ==> cur[k] == before[k] && |samples[k]| == sk.numSoaJoints)
    && (forall k :: 0 <= k < |cur| ==> Fits(cur[k], sk))
  }

  /** One step of the loop: advancing clip i extends the advanced prefix. */
  lemma AdvanceNext(before: seq<ClipState>, cur: seq<ClipState>, i: int, dt: real, samples: seq<seq<SoaTransform>>, sk: Skeleton)
    requires AdvancedUpTo(before, cur, i, dt, samples, sk) && i < |cur|
    ensures cur[i].play ==> cur[i].duration > 0.0
    ensures AdvancedUpTo(before, cur[i := Advanced(cur[i], dt, samples[i])], i + 1, dt, samples, sk)
  {
    AdvancedKeepsValid(cur[i], dt, samples[i]);
    AdvancedKeepsSettings(cur[i], dt, samples[i]);
  }

  /** Replacing clip i and taking the first i + 1 clips extends exactly one layer list. */
  lemma AppendAt(cur: seq<ClipState>, i: nat, c: ClipState)
    requires i < |cur|
    ensures NormalLayers(cur[i := c][..i + 1]) == NormalLayers(cur[..i]) + (if c.blendMode == Normal then [c.locals] else [])
    ensures AdditiveLayers(cur[i := c][..i + 1]) == AdditiveLayers(cur[..i]) + (if c.blendMode == Normal then [] else [c.locals])
  {
    assert cur[i := c][..i + 1] == cur[..i] + [c];
    AppendClip(cur[..i], c);
  }

  /** When the loop ends, every clip is advanced. */
  lemma AdvancedUpToAll(before: seq<ClipState>, cur: seq<ClipState>, dt: real, samples: seq<seq<SoaTransform>>, sk: Skeleton)
    requires AdvancedUpTo(before, cur, |cur|, dt, samples, sk)
    ensures cur == AdvancedAll(before, dt, samples) && cur[..|cur|] == cur
  {
  }

  class AnimatorBlending {
    const skeleton: Skeleton
    var clips: seq<ClipState>
    var layers: seq<seq<SoaTransform>>
    var additiveLayers: seq<seq<SoaTransform>>
    const blendedLocals: seq<SoaTransform>
    const blendOutput: nat            // length of the span _blend_job.output
    const restPose: seq<SoaTransform> // _blend_job.rest_pose
    var threshold: real               // _blend_job.threshold
    var blendRuns: seq<BlendRun>

    /** Every clip fits the skeleton; the blend output views the blended locals, one per SoA joint. */
    ghost predicate Valid()
      reads this
    {
      && (forall i :: 0 <= i < |clips| ==> Fits(clips[i], skeleton))
      && |blendedLocals| == skeleton.numSoaJoints
      && blendOutput == |blendedLocals|
    }

    /**
     * AnimatorBlending(skeleton): the blended output is sized to the
     * skeleton's SoA joint count and the rest pose is the skeleton's.
     * `jobThreshold` is the blending job's default threshold, which is not
     * part of this model.
     */
    constructor (skeleton: Skeleton, jobThreshold: real)
      ensures Valid()
      ensures this.skeleton == skeleton && clips == [] && layers == [] && additiveLayers == []
      ensures blendedLocals == Resized([], skeleton.numSoaJoints) && blendOutput == skeleton.numSoaJoints
      ensures restPose == skeleton.restPoses && threshold == jobThreshold && blendRuns == []
    {
      this.skeleton := skeleton;
      clips, layers, additiveLayers := [], [], [];
      blendedLocals := Resized([], skeleton.numSoaJoints);
      blendOutput := skeleton.numSoaJoints;
      restPose := skeleton.restPoses;
      threshold := jobThreshold;
      blendRuns := [];
    }

    /**
     * addAnimatorClip(filename): appends one new clip whose locals are sized
     * to the SoA joint count and whose sampling context to the joint count;
     * `index` is where it is stored.
     */
    method AddAnimatorClip(loaded: bool, duration: real) returns (index: nat)
      requires Valid()
      modifies this`clips
      ensures Valid()
      ensures index == |old(clips)| && clips == old(clips) + [AddedClip(loaded, duration, skeleton)]
    {
      var clip := AddedClip(loaded, duration, skeleton);
      clips := clips + [clip];
      index := |clips| - 1;
    }

    /**
     * update(dt): clears both layer lists, advances every clip once with the
     * same dt (`samples[i]` is what clip i's sampling job writes), files each
     * clip's locals as a normal or an additive layer, and runs the blend job once.
     */
    method Update(dt: real, samples: seq<seq<SoaTransform>>)
      requires Valid()
      requires |samples| == |clips|
      requires forall i :: 0 <= i < |clips| ==> |samples[i]| == skeleton.numSoaJoints
      requires forall i :: 0 <= i < |clips| ==> clips[i].play ==> clips[i].duration > 0.0
      modifies this`clips, this`layers, this`additiveLayers, this`blendRuns
      ensures Valid()
      ensures clips == AdvancedAll(old(clips), dt, samples)
      ensures layers == NormalLayers(clips) && additiveLayers == AdditiveLayers(clips)
      ensures blendRuns == old(blendRuns) + [BlendRun(layers, additiveLayers, threshold)]
    {
      layers, additiveLayers := [], [];
      ghost var before := clips;
      var i := 0;
      while i < |clips|
        invariant blendRuns == old(blendRuns)
        invariant AdvancedUpTo(before, clips, i, dt, samples, skeleton)
        invariant layers == NormalLayers(clips[..i]) && additiveLayers == AdditiveLayers(clips[..i])
      {
        var clip := Advanced(clips[i], dt, samples[i]);
        AdvanceNext(before, clips, i, dt, samples, skeleton);
        AppendAt(clips, i, clip);
        clips := clips[i := clip];
        if clip.blendMode == Normal {
          layers := layers + [clip.locals];
        } else {
          additiveLayers := additiveLayers + [clip.locals];
        }
        i := i + 1;
      }
      AdvancedUpToAll(before, clips, dt, samples, skeleton);
      blendRuns := blendRuns + [BlendRun(layers, additiveLayers, threshold)];
    }

    /** threshold(). */
    function Threshold(): real
      reads this
    {
      threshold
    }

    /** setThreshold(v): the next Threshold() is v. */
    method SetThreshold(v: real)
      modifies this`threshold
      ensures Threshold() == v
    {
      threshold := v;
    }
  }

  // ---------------------------------------------------------------------------
  // Properties of the layer partition

  /** Every clip lands in exactly one of the two lists. */
  lemma {:induction false} LayerCounts(states: seq<ClipState>)
    ensures |NormalLayers(states)| + |AdditiveLayers(states)| == |states|
  {
    if states != [] {
      LayerCounts(states[..|states| - 1]);
    }
  }

  /** A buffer is a normal layer iff some Normal clip has it as its locals. */
  lemma {:induction false} NormalLayerMembership(states: seq<ClipState>, l: seq<SoaTransform>)
    ensures l in NormalLayers(states) <==> exists i :: 0 <= i < |states| && states[i].blendMode == Normal && states[i].locals == l
  {
    if states != [] {
      var init := states[..|states| - 1];
      NormalLayerMembership(init, l);
      assert forall i :: 0 <= i < |init| ==> states[i] == init[i];
    }
  }

  /** A buffer is an additive layer iff some Additive clip has it as its locals. */
  lemma {:induction false} AdditiveLayerMembership(states: seq<ClipState>, l: seq<SoaTransform>)
    ensures l in AdditiveLayers(states) <==> exists i :: 0 <= i < |states| && states[i].blendMode == Additive && states[i].locals == l
  {
    if states != [] {
      var init := states[..|states| - 1];
      AdditiveLayerMembership(init, l);
      assert forall i :: 0 <= i < |init| ==> states[i] == init[i];
    }
  }

  /** When every clip is Normal, the normal layers are all locals in clip order and no layer is additive. */
  lemma {:induction false} AllNormal(states: seq<ClipState>)
    requires forall i :: 0 <= i < |states| ==> states[i].blendMode == Normal
    ensures |NormalLayers(states)| == |states|
    ensures forall i :: 0 <= i < |states| ==> NormalLayers(states)[i] == states[i].locals
    ensures AdditiveLayers(states) == []
  {
    if states != [] {
      AllNormal(states[..|states| - 1]);
    }
  }

  /** Appending a clip extends exactly one of the two lists, at its end. */
  lemma AppendClip(states: seq<ClipState>, c: ClipState)
    ensures NormalLayers(states + [c]) == NormalLayers(states) + (if c.blendMode == Normal then [c.locals] else [])
    ensures AdditiveLayers(states + [c]) == AdditiveLayers(states) + (if c.blendMode == Normal then [] else [c.locals])
  {
    assert (states + [c])[..|states|] == states;
  }

  /** A clip added to an orchestrator fits its skeleton, starts at ratio 0 and blends normally. */
  lemma AddedClipFits(loaded: bool, duration: real, sk: Skeleton)
    ensures var c := AddedClip(loaded, duration, sk);
      && Fits(c, sk) && c.blendMode == Normal && c.timeRatio == 0.0
      && c.locals == Resized([], sk.numSoaJoints) && c.animationBound == loaded
  {
  }

  /** Advancing keeps every clip fitted to the skeleton and does not move any clip between the two lists. */
  lemma {:induction false} AdvancedAllKeepsModes(states: seq<ClipState>, dt: real, samples: seq<seq<SoaTransform>>, sk: Skeleton)
    requires |samples| == |states|
    requires forall k :: 0 <= k < |states| ==> states[k].play ==> states[k].duration > 0.0
    requires forall k :: 0 <= k < |states| ==> Fits(states[k], sk) && |samples[k]| == sk.numSoaJoints
    ensures forall k :: 0 <= k < |states| ==> Fits(AdvancedAll(states, dt, samples)[k], sk)
    ensures |NormalLayers(AdvancedAll(states, dt, samples))| == |NormalLayers(states)|
  {
    var r := AdvancedAll(states, dt, samples);
    forall k | 0 <= k < |states|
      ensures Fits(r[k], sk) && r[k].blendMode == states[k].blendMode
    {
      AdvancedKeepsValid(states[k], dt, samples[k]);
      AdvancedKeepsSettings(states[k], dt, samples[k]);
    }
    SameModesSameNormalCount(states, r);
  }

  /** Two clip lists with the same blend modes, index by index, have equally many normal layers. */
  lemma {:induction false} SameModesSameNormalCount(a: seq<ClipState>, b: seq<ClipState>)
    requires |a| == |b| && forall k :: 0 <= k < |a| ==> a[k].blendMode == b[k].blendMode
    ensures |NormalLayers(a)| == |NormalLayers(b)|
  {
    if a != [] {
      SameModesSameNormalCount(a[..|a| - 1], b[..|b| - 1]);
    }
  }
}
