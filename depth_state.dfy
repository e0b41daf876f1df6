/**
 * The depth part of a render state (vox.render/shader/state/depth_state.cpp):
 * platformApply writes the compare function and the write flag into a
 * WebGPU depth-stencil descriptor, when depth testing is enabled and a
 * descriptor is given.
 *
 * The descriptor keeps its other fields; the model carries the format, the
 * stencil masks and the depth bias as representatives of them.
 */
module DepthStates {

  /** wgpu::CompareFunction. */
  datatype CompareFunction = Undefined | Never | Less | LessEqual | Greater | GreaterEqual | Equal | NotEqual | Always

  /** A snapshot of a descriptor's fields. */
  datatype Descriptor = Descriptor(format: nat, depthWriteEnabled: bool, depthCompare: CompareFunction,
                                   stencilReadMask: nat, stencilWriteMask: nat, depthBias: int)

  /** The descriptor platformApply leaves, for the given state. */
  function Applied(d: Descriptor, enabled: bool, compare: CompareFunction, write: bool): (r: Descriptor)
    ensures enabled ==> r.depthCompare == compare && r.depthWriteEnabled == write
    ensures !enabled ==> r == d
    ensures r.format == d.format && r.stencilReadMask == d.stencilReadMask
    ensures r.stencilWriteMask == d.stencilWriteMask && r.depthBias == d.depthBias
  {
    if enabled then d.(depthCompare := compare, depthWriteEnabled := write) else d
  }

  /** wgpu::DepthStencilState, written in place by platformApply. */
  class DepthStencilState {
    var format: nat
    var depthWriteEnabled: bool
    var depthCompare: CompareFunction
    var stencilReadMask: nat
    var stencilWriteMask: nat
    var depthBias: int

    function Fields(): Descriptor
      reads this
    {
      Descriptor(format, depthWriteEnabled, depthCompare, stencilReadMask, stencilWriteMask, depthBias)
    }

    constructor (d: Descriptor)
      ensures Fields() == d
    {
      format, depthWriteEnabled, depthCompare := d.format, d.depthWriteEnabled, d.depthCompare;
      stencilReadMask, stencilWriteMask, depthBias := d.stencilReadMask, d.stencilWriteMask, d.depthBias;
    }
  }

  class DepthState {
    var enabled: bool
    var compareFunction: CompareFunction
    var writeEnabled: bool

    constructor (enabled: bool, compareFunction: CompareFunction, writeEnabled: bool)
      ensures this.enabled == enabled && this.compareFunction == compareFunction && this.writeEnabled == writeEnabled
    {
      this.enabled, this.compareFunction, this.writeEnabled := enabled, compareFunction, writeEnabled;
    }

    /** platformApply(depthStencil): a null descriptor is left alone. */
    method PlatformApply(depthStencil: DepthStencilState?)
      modifies depthStencil
      ensures depthStencil != null ==> depthStencil.Fields() == Applied(old(depthStencil.Fields()), enabled, compareFunction, writeEnabled)
    {
      if enabled && depthStencil != null {
        depthStencil.depthCompare := compareFunction;
        depthStencil.depthWriteEnabled := writeEnabled;
      }
    }
  }

  // ---------------------------------------------------------------------------
  // Properties

  /** Applying the same state twice is applying it once. */
  lemma ApplyIdempotent(d: Descriptor, enabled: bool, compare: CompareFunction, write: bool)
    ensures Applied(Applied(d, enabled, compare, write), enabled, compare, write) == Applied(d, enabled, compare, write)
  {
  }

  /** The last enabled state applied decides both depth fields, whatever was applied before. */
  lemma LastApplyWins(d: Descriptor, c1: CompareFunction, w1: bool, c2: CompareFunction, w2: bool)
    ensures Applied(Applied(d, true, c1, w1), true, c2, w2) == Applied(d, true, c2, w2)
  {
  }

  /** The descriptor ends with the state's values exactly when they were already there or the state is enabled. */
  lemma AppliedMatchesState(d: Descriptor, enabled: bool, compare: CompareFunction, write: bool)
    ensures (Applied(d, enabled, compare, write).depthCompare == compare && Applied(d, enabled, compare, write).depthWriteEnabled == write)
        <==> enabled || (d.depthCompare == compare && d.depthWriteEnabled == write)
  {
  }
}
