/**
 * A mesh assembled from caller-supplied GPU buffers (vox.render/mesh/buffer_mesh.cpp):
 * the instance count, the list of vertex-buffer slots (each empty or holding
 * a buffer), and the optional index-buffer binding.
 *
 * Buffers are modelled by identity. The base-class stores
 * (`_setVertexBufferBinding`, `_setIndexBufferBinding`) are not part of this
 * model; the vertex store is taken to overwrite an existing slot, which is
 * what the padding both setters do before it is for.
 */
module BufferMeshes {
  import opened Wrappers

  datatype Buffer = Buffer(id: nat)

  /** wgpu::IndexFormat. */
  datatype IndexFormat = Undefined | Uint16 | Uint32

  datatype IndexBufferBinding = IndexBufferBinding(buffer: Buffer, format: IndexFormat)

  /** n empty slots. */
  function Empties(n: nat): (r: seq<Option<Buffer>>)
    ensures |r| == n && forall i :: 0 <= i < n ==> r[i] == None
  {
    if n == 0 then [] else Empties(n - 1) + [None]
  }

  /** The slot list extended with empty slots up to length n; a list already that long is unchanged. */
  function Padded(slots: seq<Option<Buffer>>, n: nat): (r: seq<Option<Buffer>>)
    ensures |r| == if |slots| < n then n else |slots|
    ensures r[..|slots|] == slots
    ensures forall i :: |slots| <= i < |r| ==> r[i] == None
  {
    if |slots| < n then slots + Empties(n - |slots|) else slots
  }

  /** The slot list with bs[k] stored at first + k for every k; the list must already be long enough. */
  function StoredAll(slots: seq<Option<Buffer>>, first: nat, bs: seq<Buffer>): (r: seq<Option<Buffer>>)
    requires first + |bs| <= |slots|
    ensures |r| == |slots|
    ensures forall k :: 0 <= k < |bs| ==> r[first + k] == Some(bs[k])
    ensures forall i :: 0 <= i < |slots| && !(first <= i < first + |bs|) ==> r[i] == slots[i]
  {
    seq(|slots|, i requires 0 <= i < |slots| => if first <= i < first + |bs| then Some(bs[i - first]) else slots[i])
  }

  /**
   * The padding step of setVertexBufferBinding as written: empty slots are
   * added while the length is below index, so the list ends at length index
   * and has no slot index for the store that follows.
   */
  function AsWrittenPadding(slots: seq<Option<Buffer>>, index: nat): seq<Option<Buffer>> {
    if |slots| <= index then slots + Empties(index - |slots|) else slots
  }

  class BufferMesh {
    /** `_instanceCount`. */
    var instanceCount: nat
    /** `_vertexBufferBindings`. */
    var vertexBufferBindings: seq<Option<Buffer>>
    /** `_indexBufferBinding`. */
    var indexBufferBinding: Option<IndexBufferBinding>

    constructor ()
      ensures vertexBufferBindings == [] && indexBufferBinding == None
    {
      instanceCount := 0;
      vertexBufferBindings := [];
      indexBufferBinding := None;
    }

    /** instanceCount(). */
    function InstanceCount(): (n: nat)
      reads this
      ensures n == instanceCount
    {
      instanceCount
    }

    /** setInstanceCount(newValue). */
    method SetInstanceCount(n: nat)
      modifies this
      ensures instanceCount == n
      ensures vertexBufferBindings == old(vertexBufferBindings) && indexBufferBinding == old(indexBufferBinding)
    {
      instanceCount := n;
    }

    /** Appends empty slots until the list has length n. */
    method PadTo(n: nat)
      modifies this
      ensures vertexBufferBindings == Padded(old(vertexBufferBindings), n)
      ensures instanceCount == old(instanceCount) && indexBufferBinding == old(indexBufferBinding)
    {
      ghost var start := vertexBufferBindings;
      var i := |vertexBufferBindings|;
      while i < n
        invariant |start| <= i
        invariant i == |start| || i <= n
        invariant vertexBufferBindings == start + Empties(i - |start|)
        invariant instanceCount == old(instanceCount) && indexBufferBinding == old(indexBufferBinding)
      {
        vertexBufferBindings := vertexBufferBindings + [None];
        i := i + 1;
      }
    }

    /**
     * setVertexBufferBinding(buffer, index), with the padding reaching slot
     * index: buffer sits at index, slots that existed are kept, the others
     * stay empty.
     */
    method SetVertexBufferBinding(b: Buffer, index: nat)
      modifies this
      ensures vertexBufferBindings == Padded(old(vertexBufferBindings), index + 1)[index := Some(b)]
      ensures instanceCount == old(instanceCount) && indexBufferBinding == old(indexBufferBinding)
    {
      if |vertexBufferBindings| <= index {
        PadTo(index + 1);
      }
      vertexBufferBindings := vertexBufferBindings[index := Some(b)];
    }

    /**
     * setVertexBufferBindings(buffers, firstIndex): pads to firstIndex +
     * |buffers| and stores buffers[k] at firstIndex + k, in increasing k.
     */
    method SetVertexBufferBindings(bs: seq<Buffer>, first: nat)
      modifies this
      ensures vertexBufferBindings == StoredAll(Padded(old(vertexBufferBindings), first + |bs|), first, bs)
      ensures instanceCount == old(instanceCount) && indexBufferBinding == old(indexBufferBinding)
    {
      if |vertexBufferBindings| < first + |bs| {
        PadTo(first + |bs|);
      }
      ghost var padded := vertexBufferBindings;
      var i := 0;
      while i < |bs|
        invariant 0 <= i <= |bs|
        invariant first + |bs| <= |padded|
        invariant vertexBufferBindings == StoredAll(padded, first, bs[..i])
        invariant instanceCount == old(instanceCount) && indexBufferBinding == old(indexBufferBinding)
      {
        vertexBufferBindings := vertexBufferBindings[first + i := Some(bs[i])];
        assert bs[..i + 1] == bs[..i] + [bs[i]];
        i := i + 1;
      }
      assert bs[..i] == bs;
    }

    /** setIndexBufferBinding(buffer, format). */
    method SetIndexBufferBinding(b: Buffer, format: IndexFormat)
      modifies this
      ensures indexBufferBinding == Some(IndexBufferBinding(b, format))
      ensures instanceCount == old(instanceCount) && vertexBufferBindings == old(vertexBufferBindings)
    {
      indexBufferBinding := Some(IndexBufferBinding(b, format));
    }

    /** setIndexBufferBinding(optional binding): None clears the binding. */
    method SetOptionalIndexBufferBinding(binding: Option<IndexBufferBinding>)
      modifies this
      ensures indexBufferBinding == binding
      ensures instanceCount == old(instanceCount) && vertexBufferBindings == old(vertexBufferBindings)
    {
      indexBufferBinding := binding;
    }
  }

  // ---------------------------------------------------------------------------
  // Properties

  /** As written, padding a list no longer than index leaves no slot index to store into. */
  lemma AsWrittenMissesSlot(slots: seq<Option<Buffer>>, index: nat)
    requires |slots| <= index
    ensures |AsWrittenPadding(slots, index)| == index
    ensures !(index < |AsWrittenPadding(slots, index)|)
  {
  }

  /** The smallest instance: storing into slot 0 of an empty mesh finds no slot 0. */
  lemma AsWrittenEmptyMesh()
    ensures AsWrittenPadding([], 0) == []
  {
  }

  /** With padding to index + 1, the slot always exists, which is what the multi-buffer setter guarantees too. */
  lemma CorrectedPaddingHasSlot(slots: seq<Option<Buffer>>, index: nat)
    ensures index < |Padded(slots, index + 1)|
    ensures |AsWrittenPadding(slots, index)| <= |Padded(slots, index + 1)|
  {
  }

  /** Setting one slot is the multi-buffer setter with a one-element list. */
  lemma SingleIsMultiOfOne(slots: seq<Option<Buffer>>, b: Buffer, index: nat)
    ensures Padded(slots, index + 1)[index := Some(b)] == StoredAll(Padded(slots, index + 1), index, [b])
  {
    var p := Padded(slots, index + 1);
    var l := p[index := Some(b)];
    var r := StoredAll(p, index, [b]);
    assert r[index] == Some(b);
    assert forall i :: 0 <= i < |p| ==> l[i] == r[i];
  }

  /** Padding twice pads to the larger length. */
  lemma {:induction false} PaddingComposes(slots: seq<Option<Buffer>>, n: nat, m: nat)
    ensures Padded(Padded(slots, n), m) == Padded(slots, if n < m then m else n)
  {
    var a := Padded(Padded(slots, n), m);
    var b := Padded(slots, if n < m then m else n);
    assert |a| == |b|;
    forall i | 0 <= i < |a|
      ensures a[i] == b[i]
    {
      var p := Padded(slots, n);
      if i < |slots| {
        assert a[..|p|][..|slots|] == slots;
        assert a[i] == a[..|p|][..|slots|][i];
        assert b[i] == b[..|slots|][i];
      } else if i < |p| {
        assert a[i] == a[..|p|][i];
      }
    }
  }

  /**
   * After the multi-buffer setter, slots below first that existed are
   * untouched and padding slots not written stay empty.
   */
  lemma MultiSetFrame(slots: seq<Option<Buffer>>, bs: seq<Buffer>, first: nat, i: nat)
    requires i < |StoredAll(Padded(slots, first + |bs|), first, bs)|
    ensures i < first && i < |slots| ==> StoredAll(Padded(slots, first + |bs|), first, bs)[i] == slots[i]
    ensures i >= first + |bs| && i < |slots| ==> StoredAll(Padded(slots, first + |bs|), first, bs)[i] == slots[i]
    ensures !(first <= i < first + |bs|) && i >= |slots| ==> StoredAll(Padded(slots, first + |bs|), first, bs)[i] == None
  {
    var p := Padded(slots, first + |bs|);
    if i < |slots| {
      assert p[i] == p[..|slots|][i];
    }
  }
}
