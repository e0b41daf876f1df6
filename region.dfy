/**
 * An inclusive integer box of voxel positions (vox.geometry/region.h).
 *
 * The region keeps its two corners and four derived quantities (width in cells,
 * size in voxels, centre, stride) that every constructor and every mutator
 * recomputes. The integer coordinates are unbounded here: the source's 64-bit
 * ssize_t overflow is not modelled.
 */
module Regions {

  /** An integer point (Point3I). */
  datatype Point3I = Point3I(x: int, y: int, z: int)

  function Add(a: Point3I, b: Point3I): Point3I {
    Point3I(a.x + b.x, a.y + b.y, a.z + b.z)
  }

  function Sub(a: Point3I, b: Point3I): Point3I {
    Point3I(a.x - b.x, a.y - b.y, a.z - b.z)
  }

  /** The boundary arguments of the containment tests are uint8_t. */
  newtype u8 = x: int | 0 <= x < 256

  /**
   * C++ `w / 2` on a signed integer: the quotient is truncated toward zero,
   * which differs from Dafny's Euclidean `/` for odd negative w.
   */
  function TruncHalf(w: int): (q: int)
    ensures w >= 0 ==> w == 2 * q || w == 2 * q + 1
    ensures w < 0 ==> w == 2 * q || w == 2 * q - 1
  {
    if w >= 0 then w / 2 else -((-w) / 2)
  }

  class Region {
    var mins: Point3I
    var maxs: Point3I
    var width: Point3I
    var voxels: Point3I
    var center: Point3I
    var stride: int

    /**
     * The derived fields agree with the corners as the six-coordinate
     * constructor computes them (and as update() is taken to recompute them).
     */
    ghost predicate Derived()
      reads this
    {
      && width == Sub(maxs, mins)
      && voxels == Point3I(width.x + 1, width.y + 1, width.z + 1)
      && center == Point3I(mins.x + TruncHalf(width.x), mins.y + TruncHalf(width.y), mins.z + TruncHalf(width.z))
      && stride == voxels.x * voxels.y
    }

    /** Region(): every extent zero, one voxel per axis, but a stride of zero. */
    constructor Default()
      ensures mins == Point3I(0, 0, 0) && maxs == Point3I(0, 0, 0)
      ensures width == Point3I(0, 0, 0) && voxels == Point3I(1, 1, 1) && center == Point3I(0, 0, 0)
      ensures stride == 0
    {
      mins, maxs := Point3I(0, 0, 0), Point3I(0, 0, 0);
      width, voxels, center := Point3I(0, 0, 0), Point3I(1, 1, 1), Point3I(0, 0, 0);
      stride := 0;
    }

    /** Region(minsx, minsy, minsz, maxsx, maxsy, maxsz). */
    constructor (minsx: int, minsy: int, minsz: int, maxsx: int, maxsy: int, maxsz: int)
      ensures mins == Point3I(minsx, minsy, minsz) && maxs == Point3I(maxsx, maxsy, maxsz)
      ensures Derived()
    {
      mins := Point3I(minsx, minsy, minsz);
      maxs := Point3I(maxsx, maxsy, maxsz);
      width := Point3I(maxsx - minsx, maxsy - minsy, maxsz - minsz);
      voxels := Point3I(maxsx - minsx + 1, maxsy - minsy + 1, maxsz - minsz + 1);
      center := Point3I(minsx + TruncHalf(maxsx - minsx), minsy + TruncHalf(maxsy - minsy), minsz + TruncHalf(maxsz - minsz));
      stride := (maxsx - minsx + 1) * (maxsy - minsy + 1);
    }

    /** Region(mins, maxs) with scalar bounds: the cube whose every lower coordinate is lo and every upper one hi. */
    constructor Uniform(lo: int, hi: int)
      ensures mins == Point3I(lo, lo, lo) && maxs == Point3I(hi, hi, hi)
      ensures Derived()
    {
      mins := Point3I(lo, lo, lo);
      maxs := Point3I(hi, hi, hi);
      width := Point3I(hi - lo, hi - lo, hi - lo);
      voxels := Point3I(hi - lo + 1, hi - lo + 1, hi - lo + 1);
      center := Point3I(lo + TruncHalf(hi - lo), lo + TruncHalf(hi - lo), lo + TruncHalf(hi - lo));
      stride := (hi - lo + 1) * (hi - lo + 1);
    }

    /** update(): recomputes the derived fields from the corners. */
    method Update()
      modifies this
      ensures mins == old(mins) && maxs == old(maxs)
      ensures Derived()
    {
      width := Sub(maxs, mins);
      voxels := Point3I(width.x + 1, width.y + 1, width.z + 1);
      center := Point3I(mins.x + TruncHalf(width.x), mins.y + TruncHalf(width.y), mins.z + TruncHalf(width.z));
      stride := voxels.x * voxels.y;
    }

    /** operator==: only the six corner coordinates are compared. */
    function Equal(other: Region): (r: bool)
      reads this, other
      ensures r <==> mins == other.mins && maxs == other.maxs
    {
      && mins.x == other.mins.x && mins.y == other.mins.y && mins.z == other.mins.z
      && maxs.x == other.maxs.x && maxs.y == other.maxs.y && maxs.z == other.maxs.z
    }

    /** operator!=. */
    function NotEqual(other: Region): (r: bool)
      reads this, other
      ensures r <==> !Equal(other)
    {
      !Equal(other)
    }

    /** containsPointInX(ssize_t, uint8_t). */
    function ContainsPointInX(pos: int, boundary: u8): (r: bool)
      reads this
      ensures r <==> boundary as int <= pos - mins.x && boundary as int <= maxs.x - pos
      ensures r ==> mins.x <= pos <= maxs.x
    {
      pos <= maxs.x - boundary as int && pos >= mins.x + boundary as int
    }

    /** containsPointInY(ssize_t, uint8_t). */
    function ContainsPointInY(pos: int, boundary: u8): (r: bool)
      reads this
      ensures r <==> boundary as int <= pos - mins.y && boundary as int <= maxs.y - pos
      ensures r ==> mins.y <= pos <= maxs.y
    {
      pos <= maxs.y - boundary as int && pos >= mins.y + boundary as int
    }

    /** containsPointInZ(ssize_t, uint8_t). */
    function ContainsPointInZ(pos: int, boundary: u8): (r: bool)
      reads this
      ensures r <==> boundary as int <= pos - mins.z && boundary as int <= maxs.z - pos
      ensures r ==> mins.z <= pos <= maxs.z
    {
      pos <= maxs.z - boundary as int && pos >= mins.z + boundary as int
    }

    /** containsPoint(ssize_t, ssize_t, ssize_t, uint8_t): inclusive on every face, narrowed by boundary. */
    function ContainsPoint(x: int, y: int, z: int, boundary: u8): (r: bool)
      reads this
      ensures r <==> ContainsPointInX(x, boundary) && ContainsPointInY(y, boundary) && ContainsPointInZ(z, boundary)
    {
      (x <= maxs.x - boundary as int) && (y <= maxs.y - boundary as int) && (z <= maxs.z - boundary as int)
      && (x >= mins.x + boundary as int) && (y >= mins.y + boundary as int) && (z >= mins.z + boundary as int)
    }

    /** containsRegion(reg, boundary). */
    function ContainsRegion(reg: Region, boundary: u8): (r: bool)
      reads this, reg
      ensures reg.IsValid() ==>
        (r <==> (ContainsPoint(reg.mins.x, reg.mins.y, reg.mins.z, boundary) && ContainsPoint(reg.maxs.x, reg.maxs.y, reg.maxs.z, boundary)))
    {
      (reg.maxs.x <= maxs.x - boundary as int) && (reg.maxs.y <= maxs.y - boundary as int) && (reg.maxs.z <= maxs.z - boundary as int)
      && (reg.mins.x >= mins.x + boundary as int) && (reg.mins.y >= mins.y + boundary as int) && (reg.mins.z >= mins.z + boundary as int)
    }

    /** isValid(): the upper corner is at least the lower one on every axis. */
    predicate IsValid()
      reads this
      ensures IsValid() <==> ContainsPoint(mins.x, mins.y, mins.z, 0)
    {
      maxs.x >= mins.x && maxs.y >= mins.y && maxs.z >= mins.z
    }

    method SetLowerX(v: int)
      modifies this
      ensures mins == old(mins).(x := v) && maxs == old(maxs) && Derived()
    {
      mins := mins.(x := v);
      Update();
    }

    method SetLowerY(v: int)
      modifies this
      ensures mins == old(mins).(y := v) && maxs == old(maxs) && Derived()
    {
      mins := mins.(y := v);
      Update();
    }

    method SetLowerZ(v: int)
      modifies this
      ensures mins == old(mins).(z := v) && maxs == old(maxs) && Derived()
    {
      mins := mins.(z := v);
      Update();
    }

    method SetUpperX(v: int)
      modifies this
      ensures maxs == old(maxs).(x := v) && mins == old(mins) && Derived()
    {
      maxs := maxs.(x := v);
      Update();
    }

    method SetUpperY(v: int)
      modifies this
      ensures maxs == old(maxs).(y := v) && mins == old(mins) && Derived()
    {
      maxs := maxs.(y := v);
      Update();
    }

    method SetUpperZ(v: int)
      modifies this
      ensures maxs == old(maxs).(z := v) && mins == old(mins) && Derived()
    {
      maxs := maxs.(z := v);
      Update();
    }

    /** shiftLowerCorner(x, y, z). */
    method ShiftLowerCorner(amount: Point3I)
      modifies this
      ensures mins == Add(old(mins), amount) && maxs == old(maxs) && Derived()
    {
      mins := Add(mins, amount);
      Update();
    }

    /** shiftUpperCorner(x, y, z). */
    method ShiftUpperCorner(amount: Point3I)
      modifies this
      ensures maxs == Add(old(maxs), amount) && mins == old(mins) && Derived()
    {
      maxs := Add(maxs, amount);
      Update();
    }

    /** shift(x, y, z): both corners move by the same amount, so the extent is unchanged. */
    method Shift(amount: Point3I)
      modifies this
      ensures mins == Add(old(mins), amount) && maxs == Add(old(maxs), amount) && Derived()
      ensures width == Sub(old(maxs), old(mins))
      ensures voxels == Point3I(width.x + 1, width.y + 1, width.z + 1)
    {
      ShiftLowerCorner(amount);
      ShiftUpperCorner(amount);
    }

    /** shrink(amountX, amountY, amountZ): lower corner moves in, upper corner moves in, by the same amounts. */
    method ShrinkBy(amount: Point3I)
      modifies this
      ensures mins == Add(old(mins), amount) && maxs == Sub(old(maxs), amount) && Derived()
      ensures width == Point3I(old(maxs.x - mins.x) - 2 * amount.x, old(maxs.y - mins.y) - 2 * amount.y, old(maxs.z - mins.z) - 2 * amount.z)
    {
      mins := Add(mins, amount);
      maxs := Sub(maxs, amount);
      Update();
    }

    /** shrink(amount): the same amount on every axis. */
    method Shrink(amount: int)
      modifies this
      ensures mins == Add(old(mins), Point3I(amount, amount, amount))
      ensures maxs == Sub(old(maxs), Point3I(amount, amount, amount))
      ensures Derived()
      ensures width == Point3I(old(maxs.x - mins.x) - 2 * amount, old(maxs.y - mins.y) - 2 * amount, old(maxs.z - mins.z) - 2 * amount)
    {
      mins := Point3I(mins.x + amount, mins.y + amount, mins.z + amount);
      maxs := Point3I(maxs.x - amount, maxs.y - amount, maxs.z - amount);
      Update();
    }
  }

  /**
   * intersects(a, b): false exactly when the two regions are separated along
   * some axis. Bounds are inclusive, so two regions whose faces lie on the
   * same coordinate share that layer of voxels and do intersect.
   */
  function Intersects(a: Region, b: Region): (r: bool)
    reads a, b
    ensures r && a.IsValid() && b.IsValid() ==>
      var p := Point3I(Max(a.mins.x, b.mins.x), Max(a.mins.y, b.mins.y), Max(a.mins.z, b.mins.z));
      a.ContainsPoint(p.x, p.y, p.z, 0) && b.ContainsPoint(p.x, p.y, p.z, 0)
  {
    if a.maxs.x < b.mins.x || a.mins.x > b.maxs.x then false
    else if a.maxs.y < b.mins.y || a.mins.y > b.maxs.y then false
    else if a.maxs.z < b.mins.z || a.mins.z > b.maxs.z then false
    else true
  }

  function Max(a: int, b: int): int { if a >= b then a else b }

  // ---------------------------------------------------------------------------
  // Properties

  /** The default region's stride is not voxels.x * voxels.y, so Derived() is not a universal invariant. */
  lemma DefaultIsNotDerived(r: Region)
    requires r.mins == Point3I(0, 0, 0) && r.maxs == Point3I(0, 0, 0)
    requires r.voxels == Point3I(1, 1, 1) && r.stride == 0
    ensures !r.Derived()
  {
  }

  /** == ignores the derived fields, but two up-to-date regions that are == agree on all of them. */
  lemma EqualRegionsAgree(a: Region, b: Region)
    requires a.Derived() && b.Derived() && a.Equal(b)
    ensures a.width == b.width && a.voxels == b.voxels && a.center == b.center && a.stride == b.stride
  {
  }

  /** The centre of a valid, up-to-date region lies inside it. */
  lemma CenterInside(r: Region)
    requires r.Derived() && r.IsValid()
    ensures r.ContainsPoint(r.center.x, r.center.y, r.center.z, 0)
  {
  }

  /** A larger boundary only narrows the containment test. */
  lemma BoundaryNarrows(r: Region, x: int, y: int, z: int, b1: u8, b2: u8)
    requires b1 <= b2
    ensures r.ContainsPoint(x, y, z, b2) ==> r.ContainsPoint(x, y, z, b1)
  {
  }

  /** The test is inclusive: a valid region contains both of its corners. */
  lemma ContainsCorners(r: Region)
    requires r.IsValid()
    ensures r.ContainsPoint(r.mins.x, r.mins.y, r.mins.z, 0)
    ensures r.ContainsPoint(r.maxs.x, r.maxs.y, r.maxs.z, 0)
  {
  }

  /** A region is valid exactly when it contains some point. */
  lemma ValidIffNonEmpty(r: Region)
    ensures r.IsValid() <==> exists x, y, z :: r.ContainsPoint(x, y, z, 0)
  {
    if r.IsValid() {
      assert r.ContainsPoint(r.mins.x, r.mins.y, r.mins.z, 0);
    }
  }

  /** Every region contains itself with boundary 0. */
  lemma ContainsItself(r: Region)
    ensures r.ContainsRegion(r, 0)
  {
  }

  /** containsRegion with boundary b means every point of reg is inside this region with boundary b. */
  lemma ContainsRegionSound(outer: Region, reg: Region, b: u8, x: int, y: int, z: int)
    requires outer.ContainsRegion(reg, b)
    requires reg.ContainsPoint(x, y, z, 0)
    ensures outer.ContainsPoint(x, y, z, b)
  {
  }

  /** For a valid reg, containsRegion is also necessary: test it on reg's two corners. */
  lemma ContainsRegionComplete(outer: Region, reg: Region, b: u8)
    requires reg.IsValid()
    requires outer.ContainsPoint(reg.mins.x, reg.mins.y, reg.mins.z, b)
    requires outer.ContainsPoint(reg.maxs.x, reg.maxs.y, reg.maxs.z, b)
    ensures outer.ContainsRegion(reg, b)
  {
  }

  lemma IntersectsSymmetric(a: Region, b: Region)
    ensures Intersects(a, b) == Intersects(b, a)
  {
  }

  /** Two valid regions intersect exactly when some voxel lies in both. */
  lemma IntersectsIffCommonPoint(a: Region, b: Region)
    requires a.IsValid() && b.IsValid()
    ensures Intersects(a, b) <==> exists x, y, z :: a.ContainsPoint(x, y, z, 0) && b.ContainsPoint(x, y, z, 0)
  {
    if Intersects(a, b) {
      var x, y, z := Max(a.mins.x, b.mins.x), Max(a.mins.y, b.mins.y), Max(a.mins.z, b.mins.z);
      assert a.ContainsPoint(x, y, z, 0) && b.ContainsPoint(x, y, z, 0);
    }
  }

  /** Regions that merely sit next to each other (no shared voxel layer) do not intersect. */
  lemma AdjacentDoNotIntersect(a: Region, b: Region)
    requires a.maxs.x + 1 == b.mins.x
    ensures !Intersects(a, b)
  {
  }

  /** Regions whose faces lie on the same coordinate (inclusive bounds) do intersect. */
  lemma SharedFaceIntersects(a: Region, b: Region)
    requires a.IsValid() && b.IsValid()
    requires a.maxs.x == b.mins.x
    requires a.mins.y == b.mins.y && a.maxs.y == b.maxs.y && a.mins.z == b.mins.z && a.maxs.z == b.maxs.z
    ensures Intersects(a, b)
  {
  }
}
