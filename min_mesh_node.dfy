/**
 * The editor node giving a mesh's minimum coordinates
 * (editor/node_editor/nodes/min_mesh_coordinates_node.cpp): three output
 * pins, one per axis, and an evaluate that answers the coordinate of the
 * pin asked for.
 *
 * Pin ids are handed out by the pin constructor, which is not part of this
 * model; the node's constructor takes the three ids it would receive.
 */
module MinMeshNodes {
  import opened Wrappers

  datatype PinKind = Input | Output

  class NodeEditorPin {
    const id: int
    const kind: PinKind

    constructor (id: int, kind: PinKind)
      ensures this.id == id && this.kind == kind
    {
      this.id, this.kind := id, kind;
    }
  }

  /** The inputs the node reads: the mesh's minimum corner. */
  datatype NodeInputParam = NodeInputParam(minX: real, minY: real, minZ: real)

  /** NodeOutput: the values produced; NodeOutput() has none. */
  datatype NodeOutput = NodeOutput(values: seq<real>)

  /** The coordinate output pin k stands for: 0 is x, 1 is y, 2 is z. */
  function Coordinate(input: NodeInputParam, k: nat): real
    requires k < 3
  {
    if k == 0 then input.minX else if k == 1 then input.minY else input.minZ
  }

  /** The first of the first three ids equal to id, if any. */
  function FirstMatch(ids: seq<int>, id: int): (r: Option<nat>)
    requires |ids| >= 3
    ensures r.Some? ==> r.value < 3 && ids[r.value] == id && forall j :: 0 <= j < r.value ==> ids[j] != id
    ensures r.None? <==> forall j :: 0 <= j < 3 ==> ids[j] != id
  {
    if ids[0] == id then Some(0)
    else if ids[1] == id then Some(1)
    else if ids[2] == id then Some(2)
    else None
  }

  class MinMeshCoordinatesNode {
    var outputPins: seq<NodeEditorPin>

    /** The ids of the output pins, in order. */
    function PinIds(): (ids: seq<int>)
      reads this
      ensures |ids| == |outputPins| && forall k :: 0 <= k < |ids| ==> ids[k] == outputPins[k].id
    {
      seq(|outputPins|, k requires 0 <= k < |outputPins| reads this => outputPins[k].id)
    }

    /** MinMeshCoordinatesNode(): exactly three output pins, in order. */
    constructor (id0: int, id1: int, id2: int)
      ensures |outputPins| == 3 && fresh(outputPins[0]) && fresh(outputPins[1]) && fresh(outputPins[2])
      ensures PinIds() == [id0, id1, id2]
      ensures forall k :: 0 <= k < 3 ==> outputPins[k].kind == Output
    {
      var p0 := new NodeEditorPin(id0, Output);
      var p1 := new NodeEditorPin(id1, Output);
      var p2 := new NodeEditorPin(id2, Output);
      outputPins := [p0, p1, p2];
    }

    /**
     * evaluate(input, pin): the coordinate of the first output pin whose id
     * is the pin's id, or an empty output when none is.
     */
    function Evaluate(input: NodeInputParam, pin: NodeEditorPin): (r: NodeOutput)
      reads this
      requires |outputPins| >= 3
      ensures r == match FirstMatch(PinIds(), pin.id) {
                     case Some(k) => NodeOutput([Coordinate(input, k)])
                     case None => NodeOutput([])
                   }
    {
      var id := pin.id;
      if outputPins[0].id == id then NodeOutput([input.minX])
      else if outputPins[1].id == id then NodeOutput([input.minY])
      else if outputPins[2].id == id then NodeOutput([input.minZ])
      else NodeOutput([])
    }
  }

  // ---------------------------------------------------------------------------
  // Properties

  /** With distinct pin ids, asking pin k gives coordinate k. */
  lemma DistinctPinsAnswerTheirAxis(node: MinMeshCoordinatesNode, input: NodeInputParam, k: nat)
    requires |node.outputPins| >= 3 && k < 3
    requires forall i, j :: 0 <= i < j < 3 ==> node.outputPins[i].id != node.outputPins[j].id
    ensures node.Evaluate(input, node.outputPins[k]) == NodeOutput([Coordinate(input, k)])
  {
    var ids := node.PinIds();
    assert ids[k] == node.outputPins[k].id;
  }

  /** A pin whose id matches none of the three outputs gets an empty output. */
  lemma ForeignPinEmpty(node: MinMeshCoordinatesNode, input: NodeInputParam, pin: NodeEditorPin)
    requires |node.outputPins| >= 3
    requires forall k :: 0 <= k < 3 ==> node.outputPins[k].id != pin.id
    ensures node.Evaluate(input, pin).values == []
  {
    var ids := node.PinIds();
    assert forall k :: 0 <= k < 3 ==> ids[k] != pin.id;
  }

  /** Every answer has at most one value, and a non-empty one is one of the three coordinates. */
  lemma EvaluateShape(node: MinMeshCoordinatesNode, input: NodeInputParam, pin: NodeEditorPin)
    requires |node.outputPins| >= 3
    ensures |node.Evaluate(input, pin).values| <= 1
    ensures |node.Evaluate(input, pin).values| == 1 ==>
      node.Evaluate(input, pin).values[0] in {input.minX, input.minY, input.minZ}
  {
  }
}
