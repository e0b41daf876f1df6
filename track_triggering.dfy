/**
 * The output iterator of the track edge-triggering job
 * (vox.animation/runtime/track_triggering_job.h): iterator identity, the
 * end sentinel, post-increment, and the rule that classifies a threshold
 * crossing as a rising or a falling edge.
 *
 * The job's Validate, Run and the keyframe scan done by prefix ++ are only
 * declared in the header; the state a ++ step reaches is therefore a
 * parameter of PostIncrement.
 */
module TrackTriggering {
  import opened Wrappers

  /** TrackTriggeringJob::Edge: the ratio of a crossing and its direction. */
  datatype Edge = Edge(ratio: real, rising: bool)

  /** The value-initialised edge (`Edge edge_{}`). */
  const NoEdge: Edge := Edge(0.0, false)

  /** The job's inputs; `from` and `to` may be in any order, sign and range. */
  class TrackTriggeringJob {
    var fromRatio: real
    var toRatio: real
    var threshold: real

    constructor (fromRatio: real, toRatio: real, threshold: real)
      ensures this.fromRatio == fromRatio && this.toRatio == toRatio && this.threshold == threshold
    {
      this.fromRatio, this.toRatio, this.threshold := fromRatio, toRatio, threshold;
    }

    /** end(): the past-the-end iterator of this job, whose inner index -2 no scan reaches. */
    function End(): (it: IteratorValue)
      ensures it.job == this && it.outer == 0.0 && it.inner == -2
    {
      IteratorValue(this, 0.0, -2, NoEdge)
    }

    /** Whether the track is traversed backward (from > to), which swaps rising and falling. */
    function Backward(): bool
      reads this
    {
      fromRatio > toRatio
    }
  }

  /** The state of a TrackTriggeringJob::Iterator. */
  datatype IteratorValue = IteratorValue(job: TrackTriggeringJob?, outer: real, inner: int, edge: Edge)
  {
    /** operator==: same job, same outer ratio cursor, same keyframe index; the edge is not compared. */
    predicate Equal(other: IteratorValue)
      ensures Equal(other) <==> this.(edge := other.edge) == other
    {
      job == other.job && outer == other.outer && inner == other.inner
    }

    /** operator!=, written out field by field in the opposite order. */
    predicate NotEqual(other: IteratorValue)
      ensures NotEqual(other) <==> this.(edge := other.edge) != other
    {
      inner != other.inner || outer != other.outer || job != other.job
    }
  }

  /** Iterator(): no job, both cursors at 0. */
  function DefaultIterator(): (it: IteratorValue)
    ensures it.job == null && it.outer == 0.0 && it.inner == 0
  {
    IteratorValue(null, 0.0, 0, NoEdge)
  }

  /** operator* / operator->: the latest edge; dereferencing an end iterator is an assertion failure. */
  function Deref(it: IteratorValue): (e: Edge)
    requires it.job != null && it.NotEqual(it.job.End())
    ensures e == it.edge
  {
    it.edge
  }

  /** An iterator object, for the operators that change it in place. */
  class Iterator {
    var value: IteratorValue

    /** Iterator(). */
    constructor ()
      ensures value == DefaultIterator()
    {
      value := DefaultIterator();
    }

    /**
     * operator++(int): copies the current state, steps (`stepped` is the
     * state prefix ++ computes) and returns the copy.
     */
    method PostIncrement(stepped: IteratorValue) returns (prev: IteratorValue)
      modifies this
      ensures prev == old(value) && value == stepped
    {
      prev := value;
      value := stepped;
    }
  }

  /**
   * The edge between consecutive track values a then b for threshold t:
   * rising when the value becomes greater than t, falling when it becomes
   * smaller than or equal to t, none when it stays on one side.
   */
  function CrossingEdge(a: real, b: real, t: real): (r: Option<bool>)
    ensures r == Some(true) <==> a <= t < b
    ensures r == Some(false) <==> b <= t < a
    ensures r == None <==> (a <= t <==> b <= t)
  {
    if a <= t && t < b then Some(true)
    else if b <= t && t < a then Some(false)
    else None
  }

  /** The edge a job reports: a forward crossing, with rising and falling swapped when traversal is backward. */
  function ReportedEdge(backward: bool, a: real, b: real, t: real): (r: Option<bool>)
    ensures !backward ==> r == CrossingEdge(a, b, t)
    ensures backward ==> r == CrossingEdge(b, a, t)
  {
    match CrossingEdge(a, b, t)
    case None => None
    case Some(rising) => Some(rising != backward)
  }

  // ---------------------------------------------------------------------------
  // Properties

  /** != is exactly the negation of ==. */
  lemma NotEqualIsNegation(a: IteratorValue, b: IteratorValue)
    ensures a.NotEqual(b) <==> !a.Equal(b)
  {
  }

  /** Equality ignores the latest edge, and is an equivalence. */
  lemma EqualIsEquivalence(a: IteratorValue, b: IteratorValue, c: IteratorValue, e: Edge)
    ensures a.Equal(a) && a.Equal(a.(edge := e))
    ensures a.Equal(b) ==> b.Equal(a)
    ensures a.Equal(b) && b.Equal(c) ==> a.Equal(c)
  {
  }

  /** Two end() iterators of the same job compare equal; iterators of different jobs never do. */
  lemma EndIdentity(j: TrackTriggeringJob, k: TrackTriggeringJob, a: IteratorValue, b: IteratorValue)
    ensures j.End().Equal(j.End())
    ensures j != k ==> j.End().NotEqual(k.End())
    ensures a.job != b.job ==> !a.Equal(b)
  {
  }

  /** A default iterator is not the end of any job. */
  lemma DefaultIsNotEnd(j: TrackTriggeringJob)
    ensures DefaultIterator().NotEqual(j.End())
  {
  }

  /** Reading the values backward turns every rising edge into a falling one and vice versa. */
  lemma ReversedCrossing(a: real, b: real, t: real)
    ensures CrossingEdge(b, a, t) == match CrossingEdge(a, b, t) { case None => None case Some(r) => Some(!r) }
  {
  }

  /** Backward traversal reports a forward rising crossing as falling, and a falling one as rising. */
  lemma BackwardSwapsEdges(a: real, b: real, t: real)
    ensures ReportedEdge(false, a, b, t) == CrossingEdge(a, b, t)
    ensures CrossingEdge(a, b, t) == Some(true) ==> ReportedEdge(true, a, b, t) == Some(false)
    ensures CrossingEdge(a, b, t) == Some(false) ==> ReportedEdge(true, a, b, t) == Some(true)
  {
  }
}
