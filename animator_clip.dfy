/**
 * One playing animation clip (vox.render/animation/animator_clip.h, with the
 * member bodies of vox.render/animation/animator_state.cpp, which implements
 * the same class under the name AnimatorState).
 *
 * Floating-point time ratios are modelled as exact reals. The sampling job
 * that decodes the animation is an external collaborator: what it writes into
 * the clip's local-transform buffer is a parameter of Update, and each run is
 * recorded by the ratio it was asked to sample.
 */
module AnimatorClips {

  /** AnimatorClip::BlendMode. */
  datatype BlendMode = Normal | Additive

  /** One SoA local transform; its translation/rotation/scale lanes are not modelled. */
  datatype SoaTransform = SoaTransform(lanes: seq<real>)

  /** The value-initialised transform that std::vector::resize appends. */
  const ZeroTransform: SoaTransform := SoaTransform([])

  /** std::vector::resize(n): keeps the first n elements and value-initialises any new ones. */
  function Resized(s: seq<SoaTransform>, n: nat): (r: seq<SoaTransform>)
    ensures |r| == n
    ensures forall i :: 0 <= i < n && i < |s| ==> r[i] == s[i]
    ensures forall i :: |s| <= i < n ==> r[i] == ZeroTransform
  {
    if n <= |s| then s[..n] else s + seq(n - |s|, _ => ZeroTransform)
  }

  /** Looping mode: r - floor(r), which lands in [0,1) even for negative r. */
  function Wrap(r: real): (w: real)
    ensures 0.0 <= w < 1.0
    ensures (r - w).Floor as real == r - w
    ensures 0.0 <= r < 1.0 ==> w == r
  {
    r - r.Floor as real
  }

  /** Non-looping mode: vox::clamp(0, r, 1). */
  function Clamp01(r: real): (c: real)
    ensures 0.0 <= c <= 1.0
    ensures 0.0 <= r <= 1.0 ==> c == r
    ensures r < 0.0 ==> c == 0.0
    ensures r > 1.0 ==> c == 1.0
  {
    if r < 0.0 then 0.0 else if r > 1.0 then 1.0 else r
  }

  /** The ratio setTimeRatio stores for a requested ratio r. */
  function NextRatio(loop: bool, r: real): (n: real)
    ensures 0.0 <= n <= 1.0
  {
    if loop then Wrap(r) else Clamp01(r)
  }

  /** The abstract value of a clip: every field the clip's methods read or write. */
  datatype ClipState = ClipState(
    blendMode: BlendMode,
    playbackSpeed: real,
    play: bool,
    loop: bool,
    timeRatio: real,
    previousTimeRatio: real,
    locals: seq<SoaTransform>,
    contextSize: nat,
    duration: real,
    animationBound: bool,   // _sampling_job.animation != nullptr
    samplingRatio: real,    // _sampling_job.ratio
    samplingOutput: nat,    // length of the span _sampling_job.output
    sampledRatios: seq<real>) // the ratio of every SamplingJob::Run so far
  {
    ghost predicate Valid() {
      && 0.0 <= timeRatio <= 1.0
      && 0.0 <= previousTimeRatio <= 1.0
      && samplingOutput == |locals|
    }
  }

  /**
   * A freshly constructed clip: normal blending at speed 1, playing and
   * looping from ratio 0, with empty buffers; `loaded` says whether the
   * animation file loaded, which binds the sampling job to it.
   */
  function NewClip(loaded: bool, duration: real): (s: ClipState)
    ensures s.Valid() && s.play && s.loop && s.timeRatio == 0.0 && s.locals == []
  {
    ClipState(Normal, 1.0, true, true, 0.0, 0.0, [], 0, duration, loaded, 0.0, 0, [])
  }

  /** _setNumSoaJoints(n) on the abstract value: the locals are resized and the sampling output views them. */
  function WithNumSoaJoints(s: ClipState, n: nat): (t: ClipState)
    ensures |t.locals| == n && t.samplingOutput == n
    ensures s.Valid() ==> t.Valid()
  {
    s.(locals := Resized(s.locals, n), samplingOutput := n)
  }

  /** _setNumJoints(n) on the abstract value: the sampling context is resized. */
  function WithNumJoints(s: ClipState, n: nat): (t: ClipState)
    ensures t.contextSize == n && t.locals == s.locals
    ensures s.Valid() ==> t.Valid()
  {
    s.(contextSize := n)
  }

  /** setTimeRatio(r) on the abstract value. */
  function SetTimeRatioOn(s: ClipState, r: real): ClipState {
    s.(previousTimeRatio := s.timeRatio, timeRatio := NextRatio(s.loop, r))
  }

  /** The ratio _update(dt) asks for: advanced by dt * playback_speed / duration only while playing. */
  function RequestedRatio(s: ClipState, dt: real): real
    requires s.play ==> s.duration > 0.0
  {
    if s.play then s.timeRatio + dt * s.playbackSpeed / s.duration else s.timeRatio
  }

  /**
   * _update(dt) on the abstract value; `sample` stands for what
   * SamplingJob::Run writes into the locals.
   */
  function Advanced(s: ClipState, dt: real, sample: seq<SoaTransform>): ClipState
    requires s.play ==> s.duration > 0.0
  {
    var t := SetTimeRatioOn(s, RequestedRatio(s, dt));
    t.(samplingRatio := t.timeRatio,
       locals := if t.animationBound then sample else t.locals,
       sampledRatios := if t.animationBound then t.sampledRatios + [t.timeRatio] else t.sampledRatios)
  }

  class AnimatorClip {
    var blendMode: BlendMode
    var playbackSpeed: real
    var play: bool
    var loop: bool
    var timeRatio: real
    var previousTimeRatio: real
    var locals: seq<SoaTransform>
    var contextSize: nat
    const duration: real
    const animationBound: bool
    var samplingRatio: real
    var samplingOutput: nat
    var sampledRatios: seq<real>

    function State(): ClipState
      reads this
    {
      ClipState(blendMode, playbackSpeed, play, loop, timeRatio, previousTimeRatio, locals, contextSize,
                duration, animationBound, samplingRatio, samplingOutput, sampledRatios)
    }

    /** The time ratios stay in the unit interval, and the sampling output views the locals. */
    ghost predicate Valid()
      reads this
    {
      State().Valid()
    }

    /**
     * AnimatorClip(filename): `loaded` is what loadAnimation returned and
     * `duration` the loaded animation's duration; the sampling job is bound
     * to the animation only when loading succeeded.
     */
    constructor (loaded: bool, duration: real)
      ensures Valid() && State() == NewClip(loaded, duration)
      ensures blendMode == Normal && playbackSpeed == 1.0 && play && loop
      ensures timeRatio == 0.0 && previousTimeRatio == 0.0
      ensures locals == [] && contextSize == 0 && samplingOutput == 0
      ensures this.duration == duration && animationBound == loaded
      ensures samplingRatio == 0.0 && sampledRatios == []
    {
      blendMode, playbackSpeed, play, loop := Normal, 1.0, true, true;
      timeRatio, previousTimeRatio := 0.0, 0.0;
      locals, contextSize, samplingOutput := [], 0, 0;
      this.duration, animationBound := duration, loaded;
      samplingRatio, sampledRatios := 0.0, [];
    }

    /** timeRatio(). */
    function TimeRatio(): (r: real)
      reads this
      requires Valid()
      ensures 0.0 <= r <= 1.0
    {
      timeRatio
    }

    /** previousTimeRatio(). */
    function PreviousTimeRatio(): (r: real)
      reads this
      requires Valid()
      ensures 0.0 <= r <= 1.0
    {
      previousTimeRatio
    }

    /** setTimeRatio(r): remembers the old ratio, then wraps (loop) or clamps into the unit interval. */
    method SetTimeRatio(r: real)
      requires Valid()
      modifies this
      ensures Valid()
      ensures previousTimeRatio == old(timeRatio)
      ensures timeRatio == if loop then r - r.Floor as real else Clamp01(r)
      ensures State() == SetTimeRatioOn(old(State()), r)
    {
      previousTimeRatio := timeRatio;
      if loop {
        timeRatio := r - r.Floor as real;
      } else {
        timeRatio := Clamp01(r);
      }
    }

    /**
     * update(dt) / _update(dt): always goes through setTimeRatio (so the
     * previous ratio is refreshed even while paused), hands the new ratio to
     * the sampling job and runs it only when an animation is bound.
     */
    method Update(dt: real, sample: seq<SoaTransform>)
      requires Valid()
      requires play ==> duration > 0.0
      requires |sample| == |locals|
      modifies this
      ensures Valid()
      ensures State() == Advanced(old(State()), dt, sample)
    {
      var newTime := timeRatio;
      if play {
        newTime := timeRatio + dt * playbackSpeed / duration;
      }
      assert newTime == RequestedRatio(old(State()), dt);
      SetTimeRatio(newTime);
      assert State() == SetTimeRatioOn(old(State()), RequestedRatio(old(State()), dt));
      samplingRatio := TimeRatio();
      if animationBound {
        locals := sample;
        sampledRatios := sampledRatios + [samplingRatio];
      }
    }

    /** reset(): both ratios to 0, speed 1, playing; the loop flag is kept. */
    method Reset()
      requires Valid()
      modifies this
      ensures Valid()
      ensures State() == old(State()).(timeRatio := 0.0, previousTimeRatio := 0.0, playbackSpeed := 1.0, play := true)
    {
      previousTimeRatio, timeRatio := 0.0, 0.0;
      playbackSpeed := 1.0;
      play := true;
    }

    /** _setNumSoaJoints(n): resizes the locals and points the sampling output at them. */
    method SetNumSoaJoints(n: nat)
      requires Valid()
      modifies this
      ensures Valid()
      ensures State() == WithNumSoaJoints(old(State()), n)
    {
      locals := Resized(locals, n);
      samplingOutput := |locals|;
    }

    /** _setNumJoints(n): resizes the sampling context. */
    method SetNumJoints(n: nat)
      requires Valid()
      modifies this
      ensures Valid()
      ensures State() == WithNumJoints(old(State()), n)
    {
      contextSize := n;
    }
  }

  // ---------------------------------------------------------------------------
  // Properties of the time-ratio update

  /** Wrapping is idempotent and the identity on [0,1). */
  lemma WrapIdempotent(r: real)
    ensures Wrap(Wrap(r)) == Wrap(r)
  {
  }

  /** Wrapping in testable terms: 1.25 loops to 0.25 and -0.25 loops to 0.75. */
  lemma WrapExamples()
    ensures Wrap(1.25) == 0.25 && Wrap(-0.25) == 0.75 && Clamp01(1.25) == 1.0
  {
    assert (1.25).Floor == 1;
    assert (-0.25).Floor == -1;
  }

  /** Wrap(r) is the unique value in [0,1) that differs from r by an integer. */
  lemma {:induction false} WrapUnique(r: real, w: real, k: int)
    requires 0.0 <= w < 1.0 && r - w == k as real
    ensures Wrap(r) == w
  {
    assert r.Floor == k;
  }

  /** Every update keeps the clip's invariant and records the ratio it started from. */
  lemma AdvancedKeepsValid(s: ClipState, dt: real, sample: seq<SoaTransform>)
    requires s.Valid() && (s.play ==> s.duration > 0.0)
    requires |sample| == |s.locals|
    ensures Advanced(s, dt, sample).Valid()
    ensures Advanced(s, dt, sample).previousTimeRatio == s.timeRatio
    ensures 0.0 <= Advanced(s, dt, sample).timeRatio <= 1.0
  {
  }

  /** The sampling job samples exactly the new time ratio, once, and only when an animation is bound. */
  lemma AdvancedSamplesTimeRatio(s: ClipState, dt: real, sample: seq<SoaTransform>)
    requires s.play ==> s.duration > 0.0
    ensures var t := Advanced(s, dt, sample);
      && t.samplingRatio == t.timeRatio
      && (s.animationBound ==> t.sampledRatios == s.sampledRatios + [t.timeRatio] && t.locals == sample)
      && (!s.animationBound ==> t.sampledRatios == s.sampledRatios && t.locals == s.locals)
  {
  }

  /**
   * A paused clip keeps its ratio, with one exception: a ratio of exactly 1
   * (reachable by clamping before loop was switched on) wraps to 0.
   */
  lemma PausedKeepsRatio(s: ClipState, dt: real, sample: seq<SoaTransform>)
    requires s.Valid() && !s.play
    ensures var t := Advanced(s, dt, sample);
      && t.previousTimeRatio == s.timeRatio
      && t.timeRatio == (if s.loop && s.timeRatio == 1.0 then 0.0 else s.timeRatio)
  {
    if s.loop && s.timeRatio == 1.0 {
      assert (1.0).Floor == 1;
    }
  }

  /** While playing with looping, the new ratio is the advanced ratio modulo 1. */
  lemma {:induction false} PlayingLoopAdvances(s: ClipState, dt: real, sample: seq<SoaTransform>)
    requires s.play && s.loop && s.duration > 0.0
    ensures var t := Advanced(s, dt, sample);
      var target := s.timeRatio + dt * s.playbackSpeed / s.duration;
      0.0 <= t.timeRatio < 1.0 && (target - t.timeRatio).Floor as real == target - t.timeRatio
  {
    var target := s.timeRatio + dt * s.playbackSpeed / s.duration;
    assert RequestedRatio(s, dt) == target;
    assert Advanced(s, dt, sample).timeRatio == Wrap(target);
  }

  /** Only time, sampling and locals change under update; the playback settings do not. */
  lemma AdvancedKeepsSettings(s: ClipState, dt: real, sample: seq<SoaTransform>)
    requires s.play ==> s.duration > 0.0
    ensures var t := Advanced(s, dt, sample);
      && t.blendMode == s.blendMode && t.playbackSpeed == s.playbackSpeed
      && t.play == s.play && t.loop == s.loop && t.contextSize == s.contextSize
      && t.duration == s.duration && t.animationBound == s.animationBound
      && t.samplingOutput == s.samplingOutput
      && (|sample| == |s.locals| ==> |t.locals| == |s.locals|)
  {
  }
}
