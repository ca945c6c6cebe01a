/**
 Whole runs of buffer calls: the ring against a plain FIFO queue of bytes, its capacity, and
 draining it through `writeFd`.
*/
module RingRuns {
  import opened Prelude
  import opened Ring

  datatype Op = AppendOp(data: Bytes) | RetrieveOp(len: nat) | RetrieveAllOp | RetrieveAsStringOp

  /** Where a call, or a run of calls, leaves the buffer and what it handed back. */
  datatype Result<S> = Aborted | Done(state: S, out: seq<Bytes>)

  // ----- the ring -----

  function Step(code: Code, r: Ring, op: Op): (res: Result<Ring>)
    requires r.Shaped()
    ensures res.Done? ==> res.state.Shaped()
  {
    match op
    case AppendOp(data) =>
      (match Append(code, r, data)
       case None => Aborted
       case Some(r') => Done(r', []))
    case RetrieveOp(len) => if len <= r.Readable() then Done(Retrieve(code, r, len), []) else Aborted
    case RetrieveAllOp => Done(RetrieveAll(r), [])
    case RetrieveAsStringOp =>
      (match RetrieveAsString(r)
       case None => Aborted
       case Some(data) => Done(RetrieveAll(r), [data]))
  }

  function Run(code: Code, r: Ring, ops: seq<Op>): (res: Result<Ring>)
    requires r.Shaped()
    ensures res.Done? ==> res.state.Shaped()
    decreases |ops|
  {
    if ops == [] then Done(r, [])
    else
      match Step(code, r, ops[0])
      case Aborted => Aborted
      case Done(r', out) =>
        match Run(code, r', ops[1..])
        case Aborted => Aborted
        case Done(last, outs) => Done(last, out + outs)
  }

  // ----- the queue it stands for -----

  function QueueStep(q: Bytes, op: Op): Result<Bytes> {
    match op
    case AppendOp(data) => Done(q + data, [])
    case RetrieveOp(len) => if len <= |q| then Done(q[len..], []) else Aborted
    case RetrieveAllOp => Done([], [])
    case RetrieveAsStringOp => Done([], [q])
  }

  function QueueRun(q: Bytes, ops: seq<Op>): Result<Bytes>
    decreases |ops|
  {
    if ops == [] then Done(q, [])
    else
      match QueueStep(q, ops[0])
      case Aborted => Aborted
      case Done(q', out) =>
        match QueueRun(q', ops[1..])
        case Aborted => Aborted
        case Done(last, outs) => Done(last, out + outs)
  }

  /** The largest length the queue has right after an append of the run, or `peak` if that is larger. */
  function Peak(peak: nat, q: Bytes, ops: seq<Op>): nat
    decreases |ops|
  {
    if ops == [] then peak
    else
      match QueueStep(q, ops[0])
      case Aborted => peak
      case Done(q', _) => Peak(if ops[0].AppendOp? then Max(peak, |q'|) else peak, q', ops[1..])
  }

  // ----- refinement -----

  lemma StepRefinesQueue(r: Ring, op: Op)
    requires r.Coherent()
    ensures match (Step(Repaired, r, op), QueueStep(r.Content(), op))
            case (Done(r', out), Done(q', out')) =>
              && r'.Coherent() && r'.Content() == q' && out == out'
              && |r'.cells| == (if op.AppendOp? then Max(|r.cells|, |q'|) else |r.cells|)
            case (Aborted, Aborted) => true
            case _ => false
  {
    ContentAt(r);
    match op
    case AppendOp(data) => AppendAddsNewest(r, data);
    case RetrieveOp(len) => if len <= r.Readable() { RetrieveDropsOldest(r, len); }
    case RetrieveAllOp =>
    case RetrieveAsStringOp => RetrieveAsStringIsContent(r);
  }

  /**
   Any run of calls gives the results of the same run on a queue, aborts exactly when a
   `retrieve` asks for more than the queue holds, and leaves the vector at the largest length
   the queue ever had after an append (and no larger).
  */
  lemma {:induction false} RunRefinesQueue(r: Ring, ops: seq<Op>)
    requires r.Coherent()
    ensures match (Run(Repaired, r, ops), QueueRun(r.Content(), ops))
            case (Done(r', out), Done(q', out')) =>
              && r'.Coherent() && r'.Content() == q' && out == out'
              && |r'.cells| == Peak(|r.cells|, r.Content(), ops)
            case (Aborted, Aborted) => true
            case _ => false
    decreases |ops|
  {
    if ops != [] {
      StepRefinesQueue(r, ops[0]);
      match Step(Repaired, r, ops[0])
      case Aborted =>
      case Done(r', _) => RunRefinesQueue(r', ops[1..]);
    }
  }

  /** The queries agree with the queue in every coherent state. */
  lemma QueriesAgree(r: Ring)
    requires r.Coherent()
    ensures r.Readable() == |r.Content()|
    ensures r.Writable() == |r.cells| - |r.Content()|
    ensures r.IsEmpty() <==> r.Content() == []
    ensures r.BytesAfterEnd() <= r.Writable()
    ensures r.BytesAfterEnd() == r.Writable() <==> r.full || r.end < r.start || r.start == 0
  {
    ContentAt(r);
  }

  // ----- draining through writeFd -----

  /** The bytes `writeFd` hands to `write`; nothing when it would read past the last cell. */
  function Offered(r: Ring): Option<Bytes>
    requires r.Shaped()
  {
    if r.start < r.end then
      if r.start + r.Readable() <= |r.cells| then Some(r.cells[r.start..r.start + r.Readable()]) else None
    else Some(r.cells[r.start..])
  }

  predicate IsPrefix(p: Bytes, q: Bytes) {
    |p| <= |q| && q[..|p|] == p
  }

  /** `writeFd` offers a non-empty prefix of the queue, and all of it exactly when the data is contiguous. */
  lemma OffersPrefix(r: Ring)
    requires r.Coherent() && !r.IsEmpty()
    ensures var offer := Offered(r);
            && offer.Some? && offer.value != [] && IsPrefix(offer.value, r.Content())
            && (offer.value == r.Content() <==> r.start < r.end || r.end == 0)
  {
    ContentAt(r);
    if r.start >= r.end {
      assert r.Content() == Offered(r).value + r.cells[..r.end];
    }
  }

  /** Whatever part of the offer the kernel takes, that many of the oldest bytes leave the queue. */
  lemma AcceptedBytesLeave(r: Ring, taken: nat)
    requires r.Coherent() && !r.IsEmpty()
    requires Offered(r).Some? && taken <= |Offered(r).value|
    ensures taken <= r.Readable()
    ensures Offered(r).value[..taken] + Retrieve(Repaired, r, taken).Content() == r.Content()
    ensures Retrieve(Repaired, r, taken).Readable() == r.Readable() - taken
  {
    OffersPrefix(r);
    ContentAt(r);
    RetrieveDropsOldest(r, taken);
    ContentAt(Retrieve(Repaired, r, taken));
    assert r.Content() == r.Content()[..taken] + r.Content()[taken..];
  }

  function WriteOnce(r: Ring): Ring
    requires r.Coherent()
  {
    OffersPrefixOrEmpty(r);
    if r.IsEmpty() then r else Retrieve(Repaired, r, |Offered(r).value|)
  }

  lemma OffersPrefixOrEmpty(r: Ring)
    requires r.Coherent()
    ensures !r.IsEmpty() ==> Offered(r).Some? && |Offered(r).value| <= r.Readable()
  {
    if !r.IsEmpty() { OffersPrefix(r); ContentAt(r); }
  }

  /** A kernel that takes all it is offered drains any content in at most two writes. */
  lemma TwoWritesDrain(r: Ring)
    requires r.Coherent()
    ensures WriteOnce(r).Coherent() && WriteOnce(WriteOnce(r)).IsEmpty()
    ensures WriteOnce(r).IsEmpty() <==> r.start < r.end || r.end == 0 || r.IsEmpty()
  {
    QueriesAgree(r);
    if !r.IsEmpty() {
      OffersPrefix(r);
      RetrieveDropsOldest(r, |Offered(r).value|);
      var r1 := WriteOnce(r);
      QueriesAgree(r1);
      if !r1.IsEmpty() {
        assert r1.start == 0;
        OffersPrefix(r1);
        RetrieveDropsOldest(r1, |Offered(r1).value|);
        QueriesAgree(WriteOnce(r1));
      }
    }
  }
}
