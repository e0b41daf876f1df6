/**
 * The multi-value drag widget (vox.render/ui/widgets/drags/drag_multiple_scalars.h):
 * a fixed-size array of values, all initialised to one value, and the clamp
 * step its draw routine runs before handing the values to the UI library:
 * the bound max is raised to min if below it, then every value is clamped
 * into [min, max].
 *
 * The element type T is modelled as real; its comparisons are the only
 * operations used.
 */
module DragScalars {

  /** One value after the clamp step: below lo becomes lo, otherwise above hi becomes hi. */
  function ClampValue(v: real, lo: real, hi: real): real {
    if v < lo then lo else if v > hi then hi else v
  }

  /** Every value of s clamped into [lo, hi]. */
  function Clamped(s: seq<real>, lo: real, hi: real): (r: seq<real>)
    requires lo <= hi
    ensures |r| == |s|
    ensures forall i :: 0 <= i < |s| ==> lo <= r[i] <= hi
    ensures forall i :: 0 <= i < |s| ==> (lo <= s[i] <= hi ==> r[i] == s[i])
    ensures forall i :: 0 <= i < |s| ==> (s[i] < lo ==> r[i] == lo) && (s[i] > hi ==> r[i] == hi)
  {
    seq(|s|, i requires 0 <= i < |s| => ClampValue(s[i], lo, hi))
  }

  /** The bound max after the clamp step. */
  function RaisedMax(lo: real, hi: real): (m: real)
    ensures lo <= m
    ensures hi >= lo ==> m == hi
    ensures hi < lo ==> m == lo
  {
    if hi < lo then lo else hi
  }

  class DragMultipleScalars {
    var min: real
    var max: real
    var speed: real
    /** `values`: a std::array of _Size elements. */
    const values: array<real>
    var labelText: string
    var format: string

    /** DragMultipleScalars(dataType, min, max, value, speed, label, format); _Size must be at least 2. */
    constructor (size: nat, pMin: real, pMax: real, pValue: real, pSpeed: real, pLabel: string, pFormat: string)
      requires size > 1
      ensures values.Length == size && fresh(values)
      ensures forall i :: 0 <= i < size ==> values[i] == pValue
      ensures min == pMin && max == pMax && speed == pSpeed && labelText == pLabel && format == pFormat
    {
      min, max, speed, labelText, format := pMin, pMax, pSpeed, pLabel, pFormat;
      var a := new real[size];
      var i := 0;
      while i < size
        invariant 0 <= i <= size
        invariant forall j :: 0 <= j < i ==> a[j] == pValue
      {
        a[i] := pValue;
        i := i + 1;
      }
      values := a;
    }

    /** The clamp step at the head of _draw_Impl. */
    method ClampStep()
      modifies this, values
      ensures min == old(min) && max == RaisedMax(old(min), old(max))
      ensures values[..] == Clamped(old(values[..]), min, max)
      ensures DragState(min, max, values[..]) == Step(DragState(old(min), old(max), old(values[..])))
      ensures speed == old(speed) && labelText == old(labelText) && format == old(format)
    {
      if max < min {
        max := min;
      }
      var i := 0;
      while i < values.Length
        invariant 0 <= i <= values.Length
        invariant min <= max
        invariant forall j :: 0 <= j < i ==> values[j] == ClampValue(old(values[j]), min, max)
        invariant forall j :: i <= j < values.Length ==> values[j] == old(values[j])
        invariant min == old(min) && max == RaisedMax(old(min), old(max))
        invariant speed == old(speed) && labelText == old(labelText) && format == old(format)
      {
        if values[i] < min {
          values[i] := min;
        } else if values[i] > max {
          values[i] := max;
        }
        i := i + 1;
      }
    }
  }

  // ---------------------------------------------------------------------------
  // Properties

  /** The clamp step on bounds and values together. */
  datatype DragState = DragState(min: real, max: real, values: seq<real>)

  function Step(d: DragState): (r: DragState)
    ensures r.min == d.min && r.min <= r.max && |r.values| == |d.values|
    ensures forall i :: 0 <= i < |r.values| ==> r.min <= r.values[i] <= r.max
  {
    var hi := RaisedMax(d.min, d.max);
    DragState(d.min, hi, Clamped(d.values, d.min, hi))
  }

  /** Clamping twice into the same interval is clamping once. */
  lemma ClampedIdempotent(s: seq<real>, lo: real, hi: real)
    requires lo <= hi
    ensures Clamped(Clamped(s, lo, hi), lo, hi) == Clamped(s, lo, hi)
  {
    var once := Clamped(s, lo, hi);
    var twice := Clamped(once, lo, hi);
    assert forall i :: 0 <= i < |s| ==> twice[i] == once[i];
  }

  /** Drawing twice without a change in between clamps exactly as drawing once. */
  lemma StepIdempotent(d: DragState)
    ensures Step(Step(d)) == Step(d)
  {
    var hi := RaisedMax(d.min, d.max);
    ClampedIdempotent(d.values, d.min, hi);
  }

  /** Values already in a valid range pass through unchanged. */
  lemma InRangeUnchanged(d: DragState)
    requires d.min <= d.max
    requires forall i :: 0 <= i < |d.values| ==> d.min <= d.values[i] <= d.max
    ensures Step(d) == d
  {
    assert Step(d).values == d.values;
  }
}
