/**
 Which runs of calls base/Buffer.h gets right as it is written: an exact condition on the
 lengths of the calls, and the run of tests/Buffertest.cpp, which does not meet it.
*/
module RingAsWritten {
  import opened Prelude
  import opened Ring
  import opened RingRuns

  // A partial drain of a full buffer leaves the flag set where the indices no longer meet. The
  // content is still right; what `readableBytes` says is not, and some later calls go wrong.

  predicate IsStale(r: Ring) {
    r.full && r.start != r.end
  }

  /** The number of bytes between the indices, whatever the flag says. */
  function Held(r: Ring): nat
    requires r.Shaped()
  {
    if r.start < r.end then r.end - r.start
    else if r.start > r.end || r.full then |r.cells| - r.start + r.end
    else 0
  }

  lemma HeldIsContent(r: Ring)
    requires r.Shaped()
    ensures Held(r) == |r.Content()|
    ensures r.Readable() == Held(r) <==> !IsStale(r)
  {
  }

  /** The calls that go right; `asks` says that the caller goes by `readableBytes` as well. */
  predicate OpIsSound(asks: bool, r: Ring, op: Op)
    requires r.Shaped()
  {
    match op
    case AppendOp(data) => AppendIsSound(r, |data|)
    case RetrieveOp(len) =>
      && (asks ==> !(r.full && 0 < len < |r.cells|))
      && (IsStale(r) ==> len <= Held(r) || len > |r.cells|)
    case RetrieveAllOp => true
    case RetrieveAsStringOp => IsStale(r) ==> r.start > r.end
  }

  predicate RunIsSound(asks: bool, r: Ring, ops: seq<Op>)
    requires r.Shaped()
    decreases |ops|
  {
    ops == [] || (OpIsSound(asks, r, ops[0]) &&
                  match Step(AsWritten, r, ops[0])
                  case Aborted => true
                  case Done(r', _) => RunIsSound(asks, r', ops[1..]))
  }

  // ----- the condition is exact -----

  predicate SameShape(a: Op, b: Op) {
    if a.AppendOp? then b.AppendOp? && |a.data| == |b.data| else a == b
  }

  /** The same calls with the same lengths; the bytes may differ. */
  predicate SameShapes(a: seq<Op>, b: seq<Op>)
    decreases |a|
  {
    if a == [] then b == [] else b != [] && SameShape(a[0], b[0]) && SameShapes(a[1..], b[1..])
  }

  predicate SameIndices(a: Ring, b: Ring) {
    a.start == b.start && a.end == b.end && a.full == b.full && |a.cells| == |b.cells|
  }

  /** The call does what the call on the queue does, and the answer of `readableBytes` fits if it is asked for. */
  predicate StepIsRight(asks: bool, r: Ring, op: Op)
    requires r.Shaped()
  {
    match (Step(AsWritten, r, op), QueueStep(r.Content(), op))
    case (Done(r', out), Done(q', out')) =>
      r'.Content() == q' && out == out' && (asks ==> r'.Readable() == |q'|)
    case (Aborted, Aborted) => true
    case _ => false
  }

  /** Call by call, the code as written does what the queue does: content, strings handed out, aborts. */
  predicate Faithful(asks: bool, r: Ring, ops: seq<Op>)
    requires r.Shaped()
    decreases |ops|
  {
    ops == [] || (StepIsRight(asks, r, ops[0]) &&
                  match Step(AsWritten, r, ops[0])
                  case Aborted => true
                  case Done(r', _) => Faithful(asks, r', ops[1..]))
  }

  lemma SoundAppendIsRight(asks: bool, r: Ring, data: Bytes)
    requires r.Shaped() && OpIsSound(asks, r, AppendOp(data)) && (asks ==> !IsStale(r))
    ensures StepIsRight(asks, r, AppendOp(data))
  {
    if IsStale(r) {
      assert r.Content() + data == r.Content();
    } else {
      SoundAppendsAgree(r, data);
      AppendAddsNewest(r, data);
      ContentAt(Append(Repaired, r, data).value);
    }
  }

  /** Stale or not, `retrieve` as written drops the oldest bytes if there are as many. */
  lemma RetrieveDropsHeld(r: Ring, len: nat)
    requires r.Shaped() && len <= Held(r)
    ensures len <= r.Readable() && Retrieve(AsWritten, r, len).Content() == r.Content()[len..]
  {
    if !IsStale(r) {
      HeldIsContent(r);
      RetrieveAsWrittenExactlyWhen(r, len);
    }
  }

  lemma SoundRetrieveIsRight(asks: bool, r: Ring, len: nat)
    requires r.Shaped() && OpIsSound(asks, r, RetrieveOp(len)) && (asks ==> !IsStale(r))
    ensures StepIsRight(asks, r, RetrieveOp(len))
  {
    HeldIsContent(r);
    if len <= Held(r) {
      RetrieveDropsHeld(r, len);
      if asks {
        RetrieveAsWrittenExactlyWhen(r, len);
        HeldIsContent(Retrieve(AsWritten, r, len));
      }
      hide Retrieve, Held;
    }
  }

  lemma SoundCallIsRight(asks: bool, r: Ring, op: Op)
    requires r.Shaped() && OpIsSound(asks, r, op) && (asks ==> !IsStale(r))
    ensures StepIsRight(asks, r, op)
  {
    match op
    case AppendOp(data) => SoundAppendIsRight(asks, r, data);
    case RetrieveOp(len) => SoundRetrieveIsRight(asks, r, len);
    case RetrieveAllOp =>
    case RetrieveAsStringOp => HeldIsContent(r);
  }

  /** While the caller goes by `readableBytes`, no sound run comes to a stale state. */
  lemma SoundStepIsRight(asks: bool, r: Ring, op: Op)
    requires r.Shaped() && OpIsSound(asks, r, op) && (asks ==> !IsStale(r))
    ensures StepIsRight(asks, r, op)
    ensures match Step(AsWritten, r, op)
            case Done(r', _) => asks ==> !IsStale(r')
            case Aborted => true
  {
    hide OpIsSound, Step, IsStale;
    SoundCallIsRight(asks, r, op);
    match Step(AsWritten, r, op)
    case Done(r', _) => HeldIsContent(r');
    case Aborted =>
  }

  lemma {:induction false} SoundRunsAreFaithful(asks: bool, r: Ring, ops: seq<Op>)
    requires r.Shaped() && RunIsSound(asks, r, ops) && (asks ==> !IsStale(r))
    ensures Faithful(asks, r, ops)
    decreases |ops|
  {
    hide StepIsRight, OpIsSound, Step;
    if ops != [] {
      SoundStepIsRight(asks, r, ops[0]);
      match Step(AsWritten, r, ops[0])
      case Aborted =>
      case Done(r', _) => SoundRunsAreFaithful(asks, r', ops[1..]);
    }
  }

  /** Where a coherent ring starts, its size and how much it holds fix the other index and the flag. */
  lemma IndicesFollow(a: Ring, b: Ring)
    requires a.Coherent() && b.Coherent()
    requires a.start == b.start && |a.cells| == |b.cells| && a.Readable() == b.Readable()
    ensures SameIndices(a, b)
  {
  }

  lemma AppendedIndices(a: Ring, b: Ring, x: Bytes, y: Bytes)
    requires a.Coherent() && b.Coherent() && SameIndices(a, b) && |x| == |y|
    ensures Append(Repaired, a, x).Some? && Append(Repaired, b, y).Some?
    ensures SameIndices(Append(Repaired, a, x).value, Append(Repaired, b, y).value)
  {
    AppendAddsNewest(a, x);
    AppendAddsNewest(b, y);
    var a', b' := Append(Repaired, a, x).value, Append(Repaired, b, y).value;
    QueriesAgree(a);
    QueriesAgree(b);
    QueriesAgree(a');
    QueriesAgree(b');
    AppendStart(a, x);
    AppendStart(b, y);
    IndicesFollow(a', b');
  }

  lemma AppendStart(r: Ring, data: Bytes)
    requires r.Coherent() && Append(Repaired, r, data).Some?
    ensures Append(Repaired, r, data).value.start == if r.Writable() < |data| then 0 else r.start
  {
    if r.Writable() < |data| {
      MakeSpaceKeepsContent(r, |data|);
      WriteShape(MakeSpace(Repaired, r, |data|).value, data);
    } else {
      WriteShape(r, data);
    }
  }

  /** The bytes have no say in which calls are sound and where these leave the indices. */
  lemma SoundStepsKeepIndices(asks: bool, a: Ring, b: Ring, x: Op, y: Op)
    requires a.Shaped() && b.Shaped() && SameIndices(a, b) && SameShape(x, y)
    ensures OpIsSound(asks, a, x) <==> OpIsSound(asks, b, y)
    ensures OpIsSound(asks, a, x) ==>
              match (Step(AsWritten, a, x), Step(AsWritten, b, y))
              case (Done(a', _), Done(b', _)) => SameIndices(a', b')
              case (Aborted, Aborted) => true
              case _ => false
  {
    match x
    case AppendOp(data) => if OpIsSound(asks, a, x) { SoundAppendsKeepIndices(a, b, data, y.data); }
    case _ =>
  }

  lemma SoundAppendsKeepIndices(a: Ring, b: Ring, x: Bytes, y: Bytes)
    requires a.Shaped() && b.Shaped() && SameIndices(a, b) && |x| == |y| && AppendIsSound(a, |x|)
    ensures Append(AsWritten, a, x).Some? && Append(AsWritten, b, y).Some?
    ensures SameIndices(Append(AsWritten, a, x).value, Append(AsWritten, b, y).value)
  {
    if !IsStale(a) {
      SoundAppendsAgree(a, x);
      SoundAppendsAgree(b, y);
      AppendedIndices(a, b, x, y);
    }
  }

  /** So soundness is a matter of lengths. */
  lemma {:induction false} SoundnessIsShape(asks: bool, a: Ring, b: Ring, xs: seq<Op>, ys: seq<Op>)
    requires a.Shaped() && b.Shaped() && SameIndices(a, b) && SameShapes(xs, ys)
    ensures RunIsSound(asks, a, xs) <==> RunIsSound(asks, b, ys)
    decreases |xs|
  {
    hide OpIsSound, Step;
    if xs != [] {
      SoundStepsKeepIndices(asks, a, b, xs[0], ys[0]);
      if OpIsSound(asks, a, xs[0]) {
        match (Step(AsWritten, a, xs[0]), Step(AsWritten, b, ys[0]))
        case (Done(a', _), Done(b', _)) => SoundnessIsShape(asks, a', b', xs[1..], ys[1..]);
        case _ =>
      }
    }
  }

  predicate AllZero(data: Bytes) {
    forall i :: 0 <= i < |data| ==> data[i] == 0
  }

  function Zeroed(op: Op): Op {
    if op.AppendOp? then AppendOp(Zeros(|op.data|)) else op
  }

  lemma ZeroWrite(r: Ring, data: Bytes)
    requires r.Coherent() && AllZero(r.cells) && AllZero(data) && |data| <= r.Writable()
    ensures var res := WriteAfterEnd(Repaired, r, data); res.Some? && AllZero(res.value.cells)
  {
  }

  lemma ZeroAppend(r: Ring, data: Bytes)
    requires r.Coherent() && AllZero(r.cells) && AllZero(data)
    ensures var res := Append(Repaired, r, data); res.Some? && AllZero(res.value.cells)
  {
    AppendAddsNewest(r, data);
    if r.Writable() < |data| {
      MakeSpaceKeepsContent(r, |data|);
      RetrieveAsStringIsContent(r);
      ContentAt(r);
      ZeroWrite(Ring(Resize(r.cells, r.Readable() + |data|), 0, 0, false), r.Content());
      ZeroWrite(MakeSpace(Repaired, r, |data|).value, data);
    } else {
      ZeroWrite(r, data);
    }
  }

  lemma ZeroStep(asks: bool, r: Ring, op: Op)
    requires r.Shaped() && AllZero(r.cells) && OpIsSound(asks, r, Zeroed(op))
    ensures match Step(AsWritten, r, Zeroed(op))
            case Done(r', _) => AllZero(r'.cells)
            case Aborted => true
  {
    if op.AppendOp? && !IsStale(r) {
      SoundAppendsAgree(r, Zeros(|op.data|));
      ZeroAppend(r, Zeros(|op.data|));
    }
  }

  /** Zeros up to the first call that is not sound, and ones from there. */
  function Witness(asks: bool, r: Ring, ops: seq<Op>): seq<Op>
    requires r.Shaped()
    decreases |ops|
  {
    if ops == [] then []
    else if !OpIsSound(asks, r, ops[0]) then
      [if ops[0].AppendOp? then AppendOp(seq(|ops[0].data|, i => 1)) else ops[0]] + ops[1..]
    else
      match Step(AsWritten, r, Zeroed(ops[0]))
      case Aborted => ops
      case Done(r', _) => [Zeroed(ops[0])] + Witness(asks, r', ops[1..])
  }

  lemma {:induction false} SameShapesItself(ops: seq<Op>)
    ensures SameShapes(ops, ops)
    decreases |ops|
  {
    if ops != [] { SameShapesItself(ops[1..]); }
  }

  lemma {:induction false} WitnessHasShape(asks: bool, r: Ring, ops: seq<Op>)
    requires r.Shaped()
    ensures SameShapes(Witness(asks, r, ops), ops)
    decreases |ops|
  {
    if ops != [] {
      SameShapesItself(ops);
      if OpIsSound(asks, r, ops[0]) {
        match Step(AsWritten, r, Zeroed(ops[0]))
        case Aborted =>
        case Done(r', _) =>
          WitnessHasShape(asks, r', ops[1..]);
          assert Witness(asks, r, ops)[1..] == Witness(asks, r', ops[1..]);
      } else {
        assert Witness(asks, r, ops)[1..] == ops[1..];
      }
    }
  }

  lemma UnsoundCallFails(asks: bool, r: Ring, ops: seq<Op>)
    requires r.Shaped() && AllZero(r.cells) && ops != [] && !OpIsSound(asks, r, ops[0])
    requires asks ==> !IsStale(r)
    ensures !StepIsRight(asks, r, Witness(asks, r, ops)[0])
  {
    HeldIsContent(r);
    match ops[0]
    case AppendOp(data) =>
      var ones: Bytes := seq(|data|, i => 1);
      if IsStale(r) {
        StaleAppendFails(r, ones);
      } else {
        assert r.cells == Zeros(|r.cells|);
        WrappedAppendFails(r, ones);
      }
    case RetrieveOp(len) =>
      if len <= r.Readable() { HeldIsContent(Retrieve(AsWritten, r, len)); }
    case RetrieveAsStringOp =>
      assert RetrieveAsString(r).Some? ==> |RetrieveAsString(r).value| != |r.Content()|;
  }

  lemma {:induction false} WitnessFails(asks: bool, r: Ring, ops: seq<Op>)
    requires r.Shaped() && AllZero(r.cells) && !RunIsSound(asks, r, ops) && (asks ==> !IsStale(r))
    ensures !Faithful(asks, r, Witness(asks, r, ops))
    decreases |ops|
  {
    if !OpIsSound(asks, r, ops[0]) {
      UnsoundCallFails(asks, r, ops);
    } else {
      hide OpIsSound, Step, StepIsRight;
      var zeroed := Zeroed(ops[0]);
      SoundStepsKeepIndices(asks, r, r, ops[0], zeroed);
      var actual := Step(AsWritten, r, ops[0]).state;
      var r' := Step(AsWritten, r, zeroed).state;
      SameShapesItself(ops[1..]);
      SoundnessIsShape(asks, actual, r', ops[1..], ops[1..]);
      ZeroStep(asks, r, ops[0]);
      SoundStepIsRight(asks, r, zeroed);
      WitnessFails(asks, r', ops[1..]);
      assert Witness(asks, r, ops)[1..] == Witness(asks, r', ops[1..]);
    }
  }

  /**
   A run of calls on a new buffer does what the queue does (its content, the strings it hands
   out, where it aborts), for all bytes that calls of these lengths can carry, exactly when every
   call on the way is sound: no write wraps, and in a stale state nothing is appended, no more is
   retrieved than is held, and the string is only taken while the data wraps. A caller that goes
   by `readableBytes` besides must never drain part of a full buffer.
  */
  lemma RunsAreRightExactlyWhen(asks: bool, ops: seq<Op>)
    ensures RunIsSound(asks, EMPTY_RING, ops)
            <==> forall others: seq<Op> | SameShapes(others, ops) :: Faithful(asks, EMPTY_RING, others)
  {
    if RunIsSound(asks, EMPTY_RING, ops) {
      forall others: seq<Op> | SameShapes(others, ops) ensures Faithful(asks, EMPTY_RING, others) {
        SoundnessIsShape(asks, EMPTY_RING, EMPTY_RING, others, ops);
        SoundRunsAreFaithful(asks, EMPTY_RING, others);
      }
    } else {
      WitnessHasShape(asks, EMPTY_RING, ops);
      WitnessFails(asks, EMPTY_RING, ops);
    }
  }

  /** Ten bytes in, five out, the rest as a string: right although the flag is stale on the way. */
  lemma StaleRunMayBeRight(data: Bytes)
    requires |data| == 10
    ensures var ops := [AppendOp(data), RetrieveOp(5), RetrieveAsStringOp];
            RunIsSound(false, EMPTY_RING, ops) && !RunIsSound(true, EMPTY_RING, ops)
  {
    var ops := [AppendOp(data), RetrieveOp(5), RetrieveAsStringOp];
    var r1 := Append(AsWritten, EMPTY_RING, data).value;
    var r2 := Retrieve(AsWritten, r1, 5);
    assert ops[1..][0] == RetrieveOp(5) && ops[1..][1..][0] == RetrieveAsStringOp && ops[1..][1..][1..] == [];
    assert RunIsSound(false, r2, ops[1..][1..]);
    assert RunIsSound(false, r1, ops[1..]);
  }

  // ----- the run of tests/Buffertest.cpp -----

  /** Eight bytes in, five out, seven in, four in, all out: the calls of tests/Buffertest.cpp. */
  function WrappingRun(first: Bytes, second: Bytes, third: Bytes): seq<Op> {
    [AppendOp(first), RetrieveOp(5), AppendOp(second), AppendOp(third), RetrieveAsStringOp]
  }

  lemma RunFront(code: Code, r: Ring, ops: seq<Op>, r1: Ring, out: seq<Bytes>, last: Ring, outs: seq<Bytes>)
    requires ops != [] && r.Shaped() && r1.Shaped()
    requires Step(code, r, ops[0]) == Done(r1, out) && Run(code, r1, ops[1..]) == Done(last, outs)
    ensures Run(code, r, ops) == Done(last, out + outs)
  {
  }

  lemma WrappedAppendAsWritten(first: Bytes, second: Bytes)
    requires |first| == 8 && |second| == 7
    ensures Append(AsWritten, Ring(first + Zeros(2), 5, 8, false), second)
            == Some(Ring(second[2..5] + first[3..] + second[..2], 5, 5, true))
  {
    var r3 := Append(AsWritten, Ring(first + Zeros(2), 5, 8, false), second).value;
    assert r3.cells == second[2..5] + first[3..] + second[..2];
  }

  lemma FirstAppendAsWritten(first: Bytes)
    requires |first| == 8
    ensures Append(AsWritten, EMPTY_RING, first) == Some(Ring(first + Zeros(2), 0, 8, false))
  {
    assert Append(AsWritten, EMPTY_RING, first).value.cells == first + Zeros(2);
  }

  /** The last two calls, on a full buffer whose flag is right: it grows, and all of it comes out. */
  lemma GrowAndTakeAll(r: Ring, data: Bytes)
    requires r.Coherent() && r.full
    ensures var ops := [AppendOp(data), RetrieveAsStringOp];
            Run(AsWritten, r, ops).Done? && Run(AsWritten, r, ops).out == [r.Content() + data]
  {
    SoundAppendsAgree(r, data);
    AppendAddsNewest(r, data);
    var r1 := Append(AsWritten, r, data).value;
    RetrieveAsStringIsContent(r1);
    var ops := [AppendOp(data), RetrieveAsStringOp];
    var r2 := RetrieveAll(r1);
    assert ops[1..][0] == RetrieveAsStringOp && ops[1..][1..] == [];
    RunFront(AsWritten, r1, ops[1..], r2, [r.Content() + data], r2, []);
    RunFront(AsWritten, r, ops, r1, [], r2, [r.Content() + data] + []);
  }

  lemma WrappingRunAsWritten(first: Bytes, second: Bytes, third: Bytes)
    requires |first| == 8 && |second| == 7
    ensures var res := Run(AsWritten, EMPTY_RING, WrappingRun(first, second, third));
            res.Done? && res.out == [first[5..] + second[..5] + first[3..5] + third]
  {
    hide Run;
    var ops := WrappingRun(first, second, third);
    FirstAppendAsWritten(first);
    hide WriteAfterEnd;
    var r1 := Ring(first + Zeros(2), 0, 8, false);
    var r2 := r1.(start := 5);
    assert Retrieve(AsWritten, r1, 5) == r2;
    WrappedAppendAsWritten(first, second);
    hide Append, Retrieve;
    var r3 := Ring(second[2..5] + first[3..] + second[..2], 5, 5, true);
    assert r3.Content() == first[5..] + second[..5] + first[3..5];
    GrowAndTakeAll(r3, third);
    assert ops[1..][1..][1..] == [AppendOp(third), RetrieveAsStringOp];
    var last, outs := Run(AsWritten, r3, ops[1..][1..][1..]).state, Run(AsWritten, r3, ops[1..][1..][1..]).out;
    RunFront(AsWritten, r2, ops[1..][1..], r3, [], last, outs);
    RunFront(AsWritten, r1, ops[1..], r2, [], last, outs);
    RunFront(AsWritten, EMPTY_RING, ops, r1, [], last, outs);
  }

  lemma WrappingRunOnQueue(first: Bytes, second: Bytes, third: Bytes)
    requires |first| == 8 && |second| == 7
    ensures var res := QueueRun([], WrappingRun(first, second, third));
            res.Done? && res.out == [first[5..] + second + third]
  {
    var ops := WrappingRun(first, second, third);
    var q := first[5..] + second;
    assert ops[1..][1..][1..] == [AppendOp(third), RetrieveAsStringOp];
    assert [AppendOp(third), RetrieveAsStringOp][1..] == [RetrieveAsStringOp] && [RetrieveAsStringOp][1..] == [];
    assert QueueRun(q + third, [RetrieveAsStringOp]).out == [q + third];
    assert QueueRun(q, ops[1..][1..][1..]).out == [q + third];
    assert QueueRun(first[5..], ops[1..][1..]).out == [q + third];
    assert QueueRun(first, ops[1..]).out == [q + third];
    assert [] + first == first;
  }

  /**
   As written two bytes of the string that comes out are whatever bytes 3 and 4 of the first
   string were, so this run is right exactly when the strings happen to repeat.
  */
  lemma WrappingRunExactlyWhen(first: Bytes, second: Bytes, third: Bytes)
    requires |first| == 8 && |second| == 7
    ensures var ops := WrappingRun(first, second, third);
            Run(AsWritten, EMPTY_RING, ops).Done? && QueueRun([], ops).Done? &&
            (Run(AsWritten, EMPTY_RING, ops).out == QueueRun([], ops).out <==> first[3..5] == second[5..])
  {
    WrappingRunAsWritten(first, second, third);
    WrappingRunOnQueue(first, second, third);
    var kept := first[5..] + second[..5];
    assert first[5..] + second + third == kept + second[5..] + third;
    assert (kept + second[5..] + third)[8..10] == second[5..];
    assert (kept + first[3..5] + third)[8..10] == first[3..5];
  }
}
