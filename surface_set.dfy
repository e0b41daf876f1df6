/**
 * The container surface of vox.geometry (vox.geometry/surface_set3.cpp): a
 * list of surfaces, the sub-list of those that are unbounded (which the BVH
 * cannot hold and which queries scan linearly), and a lazily rebuilt BVH
 * guarded by an invalidated flag.
 *
 * A surface is modelled by its identity and the answers of its isBounded and
 * isValidGeometry queries; an isInside query at a fixed point is a function
 * parameter. The BVH is modelled by the list of surfaces it was last built from.
 */
module SurfaceSets {

  datatype Surface = Surface(id: nat, bounded: bool, validGeometry: bool)

  /** The unbounded surfaces of ss, in order. */
  function Unbounded(ss: seq<Surface>): (u: seq<Surface>)
    ensures |u| <= |ss|
    ensures forall i :: 0 <= i < |u| ==> !u[i].bounded && u[i] in ss
  {
    if ss == [] then []
    else if ss[|ss| - 1].bounded then Unbounded(ss[..|ss| - 1])
    else Unbounded(ss[..|ss| - 1]) + [ss[|ss| - 1]]
  }

  /** The bounded surfaces of ss, in order: what the BVH is built from. */
  function Bounded(ss: seq<Surface>): (b: seq<Surface>)
    ensures |b| <= |ss|
    ensures forall i :: 0 <= i < |b| ==> b[i].bounded && b[i] in ss
  {
    if ss == [] then []
    else if ss[|ss| - 1].bounded then Bounded(ss[..|ss| - 1]) + [ss[|ss| - 1]]
    else Bounded(ss[..|ss| - 1])
  }

  predicate AllBounded(ss: seq<Surface>) {
    forall i :: 0 <= i < |ss| ==> ss[i].bounded
  }

  predicate AllValid(ss: seq<Surface>) {
    forall i :: 0 <= i < |ss| ==> ss[i].validGeometry
  }

  class SurfaceSet3 {
    /** `_surfaces`. */
    var surfaces: seq<Surface>
    /** `_unboundedSurfaces`. */
    var unboundedSurfaces: seq<Surface>
    /** `_bvhInvalidated`. */
    var bvhInvalidated: bool
    /** The surfaces `_bvh` was last built from. */
    var bvhItems: seq<Surface>

    /** The unbounded list is always the unbounded sub-list of the surfaces. */
    predicate Valid()
      reads this
    {
      unboundedSurfaces == Unbounded(surfaces)
    }

    /** SurfaceSet3(): no surfaces, BVH not built yet. */
    constructor Empty()
      ensures Valid()
      ensures surfaces == [] && bvhInvalidated && bvhItems == []
    {
      surfaces := [];
      unboundedSurfaces := [];
      bvhInvalidated := true;
      bvhItems := [];
    }

    /** SurfaceSet3(others, transform, isNormalFlipped): collects the unbounded members in a loop. */
    constructor (others: seq<Surface>)
      ensures Valid()
      ensures surfaces == others && bvhInvalidated && bvhItems == []
    {
      surfaces := others;
      bvhItems := [];
      var unbounded: seq<Surface> := [];
      var i := 0;
      while i < |others|
        invariant 0 <= i <= |others|
        invariant unbounded == Unbounded(others[..i])
      {
        assert others[..i + 1][..i] == others[..i];
        if !others[i].bounded {
          unbounded := unbounded + [others[i]];
        }
        i := i + 1;
      }
      assert others[..i] == others;
      unboundedSurfaces := unbounded;
      bvhInvalidated := true;
    }

    /** The copy constructor: the lists are copied, the BVH is not and must be rebuilt. */
    constructor Copy(other: SurfaceSet3)
      ensures surfaces == other.surfaces && unboundedSurfaces == other.unboundedSurfaces
      ensures other.Valid() ==> Valid()
      ensures bvhInvalidated && bvhItems == []
    {
      surfaces := other.surfaces;
      unboundedSurfaces := other.unboundedSurfaces;
      bvhItems := [];
      bvhInvalidated := true;
    }

    /** isBounded(): every surface is bounded, and the set is not empty. */
    method IsBounded() returns (b: bool)
      ensures b <==> |surfaces| > 0 && AllBounded(surfaces)
    {
      var i := 0;
      while i < |surfaces|
        invariant 0 <= i <= |surfaces|
        invariant AllBounded(surfaces[..i])
      {
        if !surfaces[i].bounded {
          return false;
        }
        assert surfaces[..i + 1] == surfaces[..i] + [surfaces[i]];
        i := i + 1;
      }
      assert surfaces[..i] == surfaces;
      return |surfaces| > 0;
    }

    /** isValidGeometry(): every surface is valid, and the set is not empty. */
    method IsValidGeometry() returns (b: bool)
      ensures b <==> |surfaces| > 0 && AllValid(surfaces)
    {
      var i := 0;
      while i < |surfaces|
        invariant 0 <= i <= |surfaces|
        invariant AllValid(surfaces[..i])
      {
        if !surfaces[i].validGeometry {
          return false;
        }
        assert surfaces[..i + 1] == surfaces[..i] + [surfaces[i]];
        i := i + 1;
      }
      assert surfaces[..i] == surfaces;
      return |surfaces| > 0;
    }

    /** numberOfSurfaces(). */
    function NumberOfSurfaces(): (n: nat)
      reads this
      ensures n == |surfaces|
    {
      |surfaces|
    }

    /** surfaceAt(i): the i-th surface; indexing past the end is undefined in the source. */
    function SurfaceAt(i: nat): (s: Surface)
      reads this
      requires i < |surfaces|
      ensures s == surfaces[i]
    {
      surfaces[i]
    }

    /** addSurface(surface): appended at the end, and to the unbounded list too if it is unbounded. */
    method AddSurface(s: Surface)
      modifies this
      requires Valid()
      ensures Valid()
      ensures surfaces == old(surfaces) + [s]
      ensures unboundedSurfaces == if s.bounded then old(unboundedSurfaces) else old(unboundedSurfaces) + [s]
      ensures bvhInvalidated && bvhItems == old(bvhItems)
    {
      surfaces := surfaces + [s];
      assert surfaces[..|surfaces| - 1] == old(surfaces);
      if !s.bounded {
        unboundedSurfaces := unboundedSurfaces + [s];
      }
      bvhInvalidated := true;
    }

    /** isInsideLocal(point): some surface reports the point inside; inside(s) is s->isInside(point). */
    method IsInsideLocal(inside: Surface -> bool) returns (b: bool)
      ensures b <==> exists i :: 0 <= i < |surfaces| && inside(surfaces[i])
    {
      var i := 0;
      while i < |surfaces|
        invariant 0 <= i <= |surfaces|
        invariant forall j :: 0 <= j < i ==> !inside(surfaces[j])
      {
        if inside(surfaces[i]) {
          return true;
        }
        i := i + 1;
      }
      return false;
    }

    /** invalidateBvh(). */
    method InvalidateBvh()
      modifies this
      ensures bvhInvalidated
      ensures surfaces == old(surfaces) && unboundedSurfaces == old(unboundedSurfaces) && bvhItems == old(bvhItems)
    {
      bvhInvalidated := true;
    }

    /** buildBvh(): rebuilds from the bounded surfaces, in order, only when invalidated. */
    method BuildBvh()
      modifies this
      ensures !bvhInvalidated
      ensures bvhItems == if old(bvhInvalidated) then Bounded(surfaces) else old(bvhItems)
      ensures surfaces == old(surfaces) && unboundedSurfaces == old(unboundedSurfaces)
    {
      if bvhInvalidated {
        var surfs: seq<Surface> := [];
        var i := 0;
        while i < |surfaces|
          invariant 0 <= i <= |surfaces|
          invariant surfs == Bounded(surfaces[..i])
        {
          assert surfaces[..i + 1][..i] == surfaces[..i];
          if surfaces[i].bounded {
            surfs := surfs + [surfaces[i]];
          }
          i := i + 1;
        }
        assert surfaces[..i] == surfaces;
        bvhItems := surfs;
        bvhInvalidated := false;
      }
    }

    /** updateQueryEngine(): always rebuilds. */
    method UpdateQueryEngine()
      modifies this
      ensures !bvhInvalidated && bvhItems == Bounded(surfaces)
      ensures surfaces == old(surfaces) && unboundedSurfaces == old(unboundedSurfaces)
    {
      InvalidateBvh();
      BuildBvh();
    }
  }

  // ---------------------------------------------------------------------------
  // Properties

  /** Filtering a concatenation filters each part. */
  lemma {:induction false} UnboundedConcat(a: seq<Surface>, b: seq<Surface>)
    ensures Unbounded(a + b) == Unbounded(a) + Unbounded(b)
    decreases |b|
  {
    if b == [] {
      assert a + b == a;
    } else {
      var b' := b[..|b| - 1];
      assert (a + b)[..|a + b| - 1] == a + b';
      UnboundedConcat(a, b');
    }
  }

  /** Filtering a concatenation filters each part. */
  lemma {:induction false} BoundedConcat(a: seq<Surface>, b: seq<Surface>)
    ensures Bounded(a + b) == Bounded(a) + Bounded(b)
    decreases |b|
  {
    if b == [] {
      assert a + b == a;
    } else {
      var b' := b[..|b| - 1];
      assert (a + b)[..|a + b| - 1] == a + b';
      BoundedConcat(a, b');
    }
  }

  /**
   * Every surface goes to exactly one of the two lists: the BVH items and the
   * unbounded list together are a permutation of the surfaces.
   */
  lemma {:induction false} PartitionIsPermutation(ss: seq<Surface>)
    ensures multiset(Bounded(ss)) + multiset(Unbounded(ss)) == multiset(ss)
    decreases |ss|
  {
    if ss != [] {
      var init := ss[..|ss| - 1];
      PartitionIsPermutation(init);
      assert ss == init + [ss[|ss| - 1]];
    }
  }

  /** A surface is in the unbounded list iff it is one of the surfaces and is unbounded. */
  lemma {:induction false} UnboundedMembership(ss: seq<Surface>, s: Surface)
    ensures s in Unbounded(ss) <==> s in ss && !s.bounded
    decreases |ss|
  {
    if ss != [] {
      var init := ss[..|ss| - 1];
      UnboundedMembership(init, s);
      assert ss == init + [ss[|ss| - 1]];
    }
  }

  /** All surfaces are bounded exactly when there is no unbounded one to scan. */
  lemma {:induction false} AllBoundedIffNoUnbounded(ss: seq<Surface>)
    ensures AllBounded(ss) <==> Unbounded(ss) == []
    decreases |ss|
  {
    if ss != [] {
      var init := ss[..|ss| - 1];
      AllBoundedIffNoUnbounded(init);
      assert forall i :: 0 <= i < |init| ==> init[i] == ss[i];
      if !ss[|ss| - 1].bounded {
        assert |Unbounded(ss)| > 0;
      }
    }
  }

  /** Sets built from the same surfaces one by one, or all at once, agree. */
  lemma AddSurfaceAgreesWithConstructor(ss: seq<Surface>, s: Surface)
    ensures Unbounded(ss + [s]) == if s.bounded then Unbounded(ss) else Unbounded(ss) + [s]
  {
    assert (ss + [s])[..|ss|] == ss;
  }
}
