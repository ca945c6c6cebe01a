/**
 A connection over the buffer as base/Buffer.h is written: exactly which runs keep the stream,
 and two short ones that do not.
*/
module ConnectionAsWritten {
  import opened Prelude
  import opened Ring
  import opened Connection
  import A = RingAsWritten
  import G = Registry
  import RR = RingRuns

  /**
   The steps that go right. Draining part of a full buffer leaves its flag stale; from then on a
   message that would have to wait goes wrong, and `writeFd` offers what the queue holds only
   while the data wraps, or from the first cell as far as the data goes.
  */
  predicate IsSound(c: Conn, op: Op)
    requires c.out.Shaped() && Possible(c, op)
  {
    && !WritesTooLate(c, op)
    && match op
       case Send(message, kernel) => AppendIsSound(c.out, |message| - Answer(c, op))
       case Writable(accepted) =>
         c.IsWriting() && A.IsStale(c.out) ==>
           c.out.start > c.out.end || (c.out.start == 0 && accepted <= c.out.end)
       case _ => true
  }

  /** Every step that can be taken on the way is sound. */
  ghost predicate RunIsSound(c: Conn, ops: seq<Op>)
    requires c.out.Shaped()
    decreases |ops|
  {
    ops == [] || (Possible(c, ops[0]) ==>
                    IsSound(c, ops[0]) &&
                    match Step(AsWritten, c, ops[0])
                    case None => true
                    case Some(c') => RunIsSound(c', ops[1..]))
  }

  /** The socket and the buffer make up the stream; until a close POLLOUT is asked for exactly while data waits. */
  ghost predicate Intact(c: Conn) {
    && c.out.Shaped()
    && c.sent + c.out.Content() == c.taken
    && (c.closes == 0 ==> (c.IsWriting() <==> c.out.Content() != []))
  }

  /** From `c` to `c'` the stream has grown by `message`, and what the socket got stays. */
  ghost predicate Extends(c: Conn, c': Conn, message: Bytes) {
    Intact(c') && c'.taken == c.taken + message && c.sent <= c'.sent
  }

  /**
   No step that can be taken aborts, and each leaves the stream and the interest as they should be,
   with as many more bytes on the socket as the kernel took.
  */
  ghost predicate KeepsStream(c: Conn, ops: seq<Op>)
    requires c.out.Shaped()
    decreases |ops|
  {
    ops == [] || (Possible(c, ops[0]) ==>
                    match Step(AsWritten, c, ops[0])
                    case None => false
                    case Some(c') =>
                      && Extends(c, c', MessageOf(ops[0])) && |c'.sent| == |c.sent| + Answer(c, ops[0])
                      && KeepsStream(c', ops[1..]))
  }

  // ----- sound steps keep the stream -----

  /** Also after a close, POLLOUT is asked for only while data waits. */
  ghost predicate Kept(c: Conn) {
    Intact(c) && (c.IsWriting() ==> c.out.Content() != [])
  }

  ghost predicate Advances(c: Conn, op: Op)
    requires c.out.Shaped() && Possible(c, op)
  {
    var res := Step(AsWritten, c, op);
    res.Some? && Kept(res.value) && Extends(c, res.value, MessageOf(op))
  }

  /** An append that is right keeps the connection right. */
  lemma RestIsKept(c: Conn, rest: Bytes)
    requires Kept(c) && (rest != [] ==> Appends(c.out, rest))
    ensures KeepRest(AsWritten, c, rest).Some?
    ensures var c' := KeepRest(AsWritten, c, rest).value; Kept(c') && Extends(c, c', rest)
  {
    G.MaskLaws(c.interest);
    if rest != [] {
      var out := Append(AsWritten, c.out, rest).value;
      assert out.Content() != [];
      assert c.sent + out.Content() == c.sent + c.out.Content() + rest;
    } else {
      assert c.taken + rest == c.taken;
    }
  }

  /** What goes straight to the socket does so while nothing waits. */
  lemma DirectIsKept(c: Conn, message: Bytes, kernel: Kernel)
    requires Kept(c) && Fits(kernel, message)
    ensures var n := WrittenDirectly(c, message, kernel);
            var c1 := WriteDirectly(c, message, kernel);
            Kept(c1) && Extends(c, c1, message[..n]) && c1.out == c.out
  {
    A.HeldIsContent(c.out);
    var n := WrittenDirectly(c, message, kernel);
    if n > 0 {
      assert c.out.Content() == [];
      assert c.sent + message[..n] + [] == c.sent + [] + message[..n];
    } else {
      assert c.sent + [] == c.sent && c.taken + [] == c.taken;
    }
  }

  lemma SoundAppends(r: Ring, data: Bytes)
    requires r.Shaped() && AppendIsSound(r, |data|)
    ensures Appends(r, data)
  {
    AppendAsWrittenExactlyWhen(r, |data|);
    assert Appends(r.(cells := r.cells), data);
  }

  lemma ExtendsCompose(c: Conn, c1: Conn, c2: Conn, front: Bytes, rest: Bytes)
    requires Extends(c, c1, front) && Extends(c1, c2, rest)
    ensures Extends(c, c2, front + rest)
  {
    assert c.taken + front + rest == c.taken + (front + rest);
  }

  lemma AnswerIsWritten(c: Conn, message: Bytes, kernel: Kernel)
    requires c.out.Shaped() && Fits(kernel, message)
    ensures Answer(c, Send(message, kernel)) == WrittenDirectly(c, message, kernel)
  {
    G.HasFlags(c.interest);
  }

  lemma SoundSendAdvances(c: Conn, message: Bytes, kernel: Kernel)
    requires Kept(c) && Possible(c, Send(message, kernel)) && IsSound(c, Send(message, kernel))
    ensures Advances(c, Send(message, kernel))
  {
    assert c.out.Shaped();
    hide Append, KeepRest, WriteDirectly, Extends, Intact;
    AnswerIsWritten(c, message, kernel);
    var n := WrittenDirectly(c, message, kernel);
    var c1 := WriteDirectly(c, message, kernel);
    DirectIsKept(c, message, kernel);
    SoundAppends(c.out, message[n..]);
    RestIsKept(c1, message[n..]);
    ExtendsCompose(c, c1, KeepRest(AsWritten, c1, message[n..]).value, message[..n], message[n..]);
    assert message[..n] + message[n..] == message;
  }

  /** Where a write is sound, the bytes taken are the oldest held. */
  lemma SoundOffer(r: Ring, accepted: nat)
    requires r.Shaped() && r.Content() != [] && RR.Offered(r).Some? && accepted <= |RR.Offered(r).value|
    requires A.IsStale(r) ==> r.start > r.end || (r.start == 0 && accepted <= r.end)
    ensures accepted <= A.Held(r) && RR.Offered(r).value[..accepted] == r.Content()[..accepted]
    ensures !r.IsEmpty()
  {
    A.HeldIsContent(r);
  }

  lemma NotWritingStays(c: Conn, accepted: nat)
    requires Kept(c) && !c.IsWriting() && Possible(c, Writable(accepted))
    ensures Advances(c, Writable(accepted))
  {
    assert c.taken + [] == c.taken;
  }

  lemma AfterDrainIsKept(c: Conn)
    requires c.out.Shaped() && c.IsWriting() && c.sent + c.out.Content() == c.taken
    ensures Kept(AfterDrain(c)) && AfterDrain(c).taken == c.taken && AfterDrain(c).sent == c.sent
  {
    A.HeldIsContent(c.out);
    G.MaskLaws(c.interest);
  }

  /** Where a write is sound, it moves bytes from the front of what is held to the socket. */
  lemma OldestMoves(sent: Bytes, content: Bytes, accepted: nat)
    requires accepted <= |content|
    ensures sent + content[..accepted] + content[accepted..] == sent + content
  {
    assert content[..accepted] + content[accepted..] == content;
  }

  lemma SoundDrain(c: Conn, accepted: nat)
    requires Kept(c) && c.IsWriting() && Possible(c, Writable(accepted)) && IsSound(c, Writable(accepted))
    ensures Drain(AsWritten, c, accepted).Some?
    ensures var drained := Drain(AsWritten, c, accepted).value;
            && drained.sent + drained.out.Content() == c.taken && c.sent <= drained.sent
            && drained.taken == c.taken && drained.closes == c.closes && drained.IsWriting()
  {
    A.HeldIsContent(c.out);
    assert RR.Offered(c.out).Some?;
    SoundOffer(c.out, accepted);
    A.RetrieveDropsHeld(c.out, accepted);
    hide Retrieve, A.Held, A.IsStale, RR.Offered;
    OldestMoves(c.sent, c.out.Content(), accepted);
  }

  lemma SoundWriteAdvances(c: Conn, accepted: nat)
    requires Kept(c) && Possible(c, Writable(accepted)) && IsSound(c, Writable(accepted))
    ensures Advances(c, Writable(accepted))
  {
    if c.IsWriting() {
      SoundDrain(c, accepted);
      AfterDrainIsKept(Drain(AsWritten, c, accepted).value);
      assert c.taken + [] == c.taken;
      hide Drain, AfterDrain, MayAccept, IsSound;
    } else {
      NotWritingStays(c, accepted);
    }
  }

  lemma SoundStepAdvances(c: Conn, op: Op)
    requires Kept(c) && Possible(c, op) && IsSound(c, op)
    ensures Advances(c, op)
  {
    match op
    case Send(message, kernel) => SoundSendAdvances(c, message, kernel);
    case Writable(accepted) => SoundWriteAdvances(c, accepted);
    case HalfClose => assert c.taken + [] == c.taken;
    case Close => assert c.taken + [] == c.taken;
  }

  lemma {:induction false} SoundRunsKeepStream(c: Conn, ops: seq<Op>)
    requires Kept(c) && RunIsSound(c, ops)
    ensures KeepsStream(c, ops)
    decreases |ops|
  {
    hide IsSound, Possible, Step, Extends, Answer;
    if ops != [] && Possible(c, ops[0]) {
      SoundStepAdvances(c, ops[0]);
      StepIsAnswered(AsWritten, c, ops[0]);
      SoundRunsKeepStream(Step(AsWritten, c, ops[0]).value, ops[1..]);
    }
  }

  // ----- soundness is a matter of lengths -----

  predicate SameShape(a: Op, b: Op) {
    if a.Send? then b.Send? && |a.message| == |b.message| && a.kernel == b.kernel else a == b
  }

  /** The same steps with messages of the same lengths. */
  predicate SameShapes(a: seq<Op>, b: seq<Op>)
    decreases |a|
  {
    if a == [] then b == [] else b != [] && SameShape(a[0], b[0]) && SameShapes(a[1..], b[1..])
  }

  predicate SameForm(a: Conn, b: Conn) {
    a.state == b.state && a.interest == b.interest && a.halfCloses == b.halfCloses && A.SameIndices(a.out, b.out)
  }

  lemma SameReadable(a: Ring, b: Ring)
    requires a.Shaped() && b.Shaped() && A.SameIndices(a, b)
    ensures a.Readable() == b.Readable() && a.Writable() == b.Writable()
    ensures a.IsEmpty() == b.IsEmpty() && RR.Offered(a).Some? == RR.Offered(b).Some?
    ensures RR.Offered(a).Some? ==> |RR.Offered(a).value| == |RR.Offered(b).value|
  {
  }

  lemma SameFormSameSoundness(a: Conn, b: Conn, x: Op, y: Op)
    requires a.out.Shaped() && b.out.Shaped() && SameForm(a, b) && SameShape(x, y)
    ensures Possible(a, x) <==> Possible(b, y)
    ensures Possible(a, x) ==> (IsSound(a, x) <==> IsSound(b, y))
  {
    SameReadable(a.out, b.out);
  }

  lemma SameFormSends(a: Conn, b: Conn, x: Op, y: Op)
    requires a.out.Shaped() && b.out.Shaped() && SameForm(a, b) && SameShape(x, y) && x.Send?
    requires Possible(a, x) && IsSound(a, x) && Possible(b, y)
    ensures Step(AsWritten, a, x).Some? && Step(AsWritten, b, y).Some?
    ensures SameForm(Step(AsWritten, a, x).value, Step(AsWritten, b, y).value)
  {
    hide Append;
    SameReadable(a.out, b.out);
    AnswerIsWritten(a, x.message, x.kernel);
    var n := WrittenDirectly(a, x.message, x.kernel);
    assert n == WrittenDirectly(b, y.message, y.kernel);
    A.SoundAppendsKeepIndices(a.out, b.out, x.message[n..], y.message[n..]);
  }

  lemma SameFormDrains(a: Conn, b: Conn, accepted: nat)
    requires a.out.Shaped() && b.out.Shaped() && SameForm(a, b) && Drain(AsWritten, a, accepted).Some?
    ensures Drain(AsWritten, b, accepted).Some?
    ensures SameForm(Drain(AsWritten, a, accepted).value, Drain(AsWritten, b, accepted).value)
  {
    SameReadable(a.out, b.out);
  }

  lemma SameFormAfterDrain(a: Conn, b: Conn)
    requires a.out.Shaped() && b.out.Shaped() && SameForm(a, b)
    ensures SameForm(AfterDrain(a), AfterDrain(b))
  {
    SameReadable(a.out, b.out);
  }

  lemma SameFormWrites(a: Conn, b: Conn, accepted: nat)
    requires a.out.Shaped() && b.out.Shaped() && SameForm(a, b) && HandleWrite(AsWritten, a, accepted).Some?
    ensures HandleWrite(AsWritten, b, accepted).Some?
    ensures SameForm(HandleWrite(AsWritten, a, accepted).value, HandleWrite(AsWritten, b, accepted).value)
  {
    hide Drain, AfterDrain;
    if a.IsWriting() {
      SameFormDrains(a, b, accepted);
      SameFormAfterDrain(Drain(AsWritten, a, accepted).value, Drain(AsWritten, b, accepted).value);
    }
  }

  lemma SameFormSteps(a: Conn, b: Conn, x: Op, y: Op)
    requires Kept(a) && b.out.Shaped() && SameForm(a, b) && SameShape(x, y)
    requires Possible(a, x) && IsSound(a, x)
    ensures Possible(b, y) && Step(AsWritten, a, x).Some? && Step(AsWritten, b, y).Some?
    ensures SameForm(Step(AsWritten, a, x).value, Step(AsWritten, b, y).value)
  {
    SameFormSameSoundness(a, b, x, y);
    SoundStepAdvances(a, x);
    match x
    case Send(_, _) => SameFormSends(a, b, x, y);
    case Writable(accepted) => SameFormWrites(a, b, accepted);
    case _ =>
  }

  lemma {:induction false} SoundnessIsShape(a: Conn, b: Conn, xs: seq<Op>, ys: seq<Op>)
    requires Kept(a) && Kept(b) && SameForm(a, b) && SameShapes(xs, ys)
    ensures RunIsSound(a, xs) <==> RunIsSound(b, ys)
    decreases |xs|
  {
    if xs != [] {
      SameFormSameSoundness(a, b, xs[0], ys[0]);
      if Possible(a, xs[0]) && IsSound(a, xs[0]) {
        SameFormSteps(a, b, xs[0], ys[0]);
        SoundStepAdvances(a, xs[0]);
        SoundStepAdvances(b, ys[0]);
        hide IsSound, Possible, Step, SameForm, Intact;
        SoundnessIsShape(Step(AsWritten, a, xs[0]).value, Step(AsWritten, b, ys[0]).value, xs[1..], ys[1..]);
      }
    }
  }

  // ----- a run that is not sound fails for some messages -----

  function Zeroed(op: Op): Op {
    if op.Send? then Send(Zeros(|op.message|), op.kernel) else op
  }

  function Ones(n: nat): Bytes {
    seq(n, i => 1)
  }

  function WithOnes(op: Op): Op {
    if op.Send? then Send(Ones(|op.message|), op.kernel) else op
  }

  /** Zeros up to the first step that is not sound, and ones in that one. */
  ghost function Witness(c: Conn, ops: seq<Op>): seq<Op>
    requires c.out.Shaped()
    decreases |ops|
  {
    if ops == [] || !Possible(c, ops[0]) then ops
    else if !IsSound(c, ops[0]) then [WithOnes(ops[0])] + ops[1..]
    else
      match Step(AsWritten, c, Zeroed(ops[0]))
      case None => ops
      case Some(c') => [Zeroed(ops[0])] + Witness(c', ops[1..])
  }

  lemma {:induction false} SameShapesItself(ops: seq<Op>)
    ensures SameShapes(ops, ops)
    decreases |ops|
  {
    if ops != [] { SameShapesItself(ops[1..]); }
  }

  lemma {:induction false} WitnessHasShape(c: Conn, ops: seq<Op>)
    requires c.out.Shaped()
    ensures SameShapes(Witness(c, ops), ops)
    decreases |ops|
  {
    SameShapesItself(ops);
    if ops != [] && Possible(c, ops[0]) {
      if !IsSound(c, ops[0]) {
        assert Witness(c, ops)[1..] == ops[1..];
      } else {
        match Step(AsWritten, c, Zeroed(ops[0]))
        case None =>
        case Some(c') =>
          WitnessHasShape(c', ops[1..]);
          assert Witness(c, ops)[1..] == Witness(c', ops[1..]);
      }
    }
  }

  lemma ZeroSend(c: Conn, op: Op)
    requires c.out.Shaped() && A.AllZero(c.out.cells) && op.Send? && op.message == Zeros(|op.message|)
    requires Possible(c, op) && IsSound(c, op) && Step(AsWritten, c, op).Some?
    ensures A.AllZero(Step(AsWritten, c, op).value.out.cells)
  {
    AnswerIsWritten(c, op.message, op.kernel);
    var rest := op.message[WrittenDirectly(c, op.message, op.kernel)..];
    A.ZeroStep(false, c.out, RR.AppendOp(rest));
    assert rest == Zeros(|rest|);
  }

  lemma ZeroStep(c: Conn, op: Op)
    requires Kept(c) && A.AllZero(c.out.cells) && Possible(c, op) && IsSound(c, op)
    ensures Possible(c, Zeroed(op)) && IsSound(c, Zeroed(op)) && Step(AsWritten, c, Zeroed(op)).Some?
    ensures A.AllZero(Step(AsWritten, c, Zeroed(op)).value.out.cells)
  {
    SameFormSameSoundness(c, c, op, Zeroed(op));
    SoundStepAdvances(c, Zeroed(op));
    if op.Send? { ZeroSend(c, Zeroed(op)); }
  }

  /** What the buffer holds cannot be made up for by what went to the socket. */
  lemma OnlyTheBufferDiffers(sent: Bytes, front: Bytes, held: Bytes, rest: Bytes, held': Bytes)
    requires front == [] || held == []
    requires sent + front + held' == sent + held + front + rest
    ensures held' == held + rest
  {
    var n := |sent + front|;
    assert (sent + front + held')[n..] == held';
    if front == [] {
      assert sent + front == sent && sent + held + front == sent + held;
      assert (sent + held + rest)[n..] == held + rest;
    } else {
      assert sent + held == sent && held + rest == rest;
      assert (sent + front + rest)[n..] == rest;
    }
  }

  /** Ones go wrong over zeros, wherever an append is not sound. */
  lemma OnesGoWrong(r: Ring, rest: Bytes)
    requires r.Shaped() && A.AllZero(r.cells) && !AppendIsSound(r, |rest|) && rest == Ones(|rest|)
    ensures !Appends(r, rest)
  {
    if A.IsStale(r) {
      StaleAppendFails(r, rest);
    } else {
      assert r.cells == Zeros(|r.cells|);
      WrappedAppendFails(r, rest);
    }
  }

  lemma UnsoundSendFails(c: Conn, op: Op)
    requires Kept(c) && A.AllZero(c.out.cells) && op.Send? && op.message == Ones(|op.message|)
    requires Possible(c, op) && !IsSound(c, op)
    ensures var res := Step(AsWritten, c, op); res.Some? ==> !Extends(c, res.value, op.message)
  {
    var message := op.message;
    var res := Step(AsWritten, c, op);
    if res.Some? && Extends(c, res.value, message) {
      AnswerIsWritten(c, message, op.kernel);
      var n := WrittenDirectly(c, message, op.kernel);
      var front, rest := message[..n], message[n..];
      A.HeldIsContent(c.out);
      assert rest == Ones(|rest|);
      OnesGoWrong(c.out, rest);
      assert front + rest == message;
      assert c.taken + message == c.sent + c.out.Content() + front + rest;
      OnlyTheBufferDiffers(c.sent, front, c.out.Content(), rest, res.value.out.Content());
    }
  }

  /** `writeFd` offers more than is held, and the kernel takes it. */
  lemma UnsoundWriteFails(c: Conn, accepted: nat)
    requires Kept(c) && MayAccept(c, accepted) && !IsSound(c, Writable(accepted))
    ensures var res := HandleWrite(AsWritten, c, accepted); res.Some? ==> !Extends(c, res.value, [])
  {
    var res := HandleWrite(AsWritten, c, accepted);
    if res.Some? {
      var drained := Drain(AsWritten, c, accepted).value;
      assert |drained.out.Content()| + accepted > |c.out.Content()|;
      assert |res.value.sent| + |res.value.out.Content()| > |c.taken|;
    }
  }

  lemma UnsoundStepFails(c: Conn, ops: seq<Op>)
    requires Kept(c) && A.AllZero(c.out.cells) && ops != [] && Possible(c, ops[0]) && !IsSound(c, ops[0])
    ensures !KeepsStream(c, Witness(c, ops))
  {
    SameFormSameSoundness(c, c, ops[0], WithOnes(ops[0]));
    match ops[0]
    case Send(_, _) => UnsoundSendFails(c, WithOnes(ops[0]));
    case Writable(accepted) => UnsoundWriteFails(c, accepted);
    case _ =>
  }

  lemma {:induction false} WitnessFails(c: Conn, ops: seq<Op>)
    requires Kept(c) && A.AllZero(c.out.cells) && !RunIsSound(c, ops)
    ensures !KeepsStream(c, Witness(c, ops))
    decreases |ops|
  {
    if !IsSound(c, ops[0]) {
      UnsoundStepFails(c, ops);
    } else {
      ZeroStep(c, ops[0]);
      SoundStepAdvances(c, ops[0]);
      SoundStepAdvances(c, Zeroed(ops[0]));
      SameFormSteps(c, c, ops[0], Zeroed(ops[0]));
      hide IsSound, Possible, Step, SameForm, Intact;
      var c' := Step(AsWritten, c, Zeroed(ops[0])).value;
      SameShapesItself(ops[1..]);
      SoundnessIsShape(Step(AsWritten, c, ops[0]).value, c', ops[1..], ops[1..]);
      WitnessFails(c', ops[1..]);
      assert Witness(c, ops)[1..] == Witness(c', ops[1..]);
    }
  }

  /**
   From its establishment on, a connection over the buffer as written never aborts, keeps its
   stream with what the kernel took on the socket, and asks for POLLOUT exactly while data waits, for all messages of these lengths and
   these answers of the kernel, exactly when every step on the way is sound.
  */
  lemma StreamIsKeptExactlyWhen(ops: seq<Op>)
    ensures var c := ConnectEstablished(NEW).value;
            RunIsSound(c, ops) <==> forall others: seq<Op> | SameShapes(others, ops) :: KeepsStream(c, others)
  {
    var c := ConnectEstablished(NEW).value;
    if RunIsSound(c, ops) {
      forall others: seq<Op> | SameShapes(others, ops) ensures KeepsStream(c, others) {
        SoundnessIsShape(c, c, others, ops);
        SoundRunsKeepStream(c, others);
      }
    } else {
      WitnessHasShape(c, ops);
      WitnessFails(c, ops);
    }
  }

  // ----- three short runs -----

  /** Eight bytes that must wait, five of them drained, then seven more: bytes are lost as written. */
  lemma StreamIsBrokenAsWritten(c: Conn, second: Bytes)
    requires c == ConnectEstablished(NEW).value && second == seq(7, i => 1)
    ensures var c1 := SendInLoop(AsWritten, c, Zeros(8), WouldBlock);
            c1.Some? && c1.value.out.Shaped() &&
            var c2 := HandleWrite(AsWritten, c1.value, 5);
            c2.Some? && c2.value.out.Shaped() &&
            var c3 := SendInLoop(AsWritten, c2.value, second, WouldBlock);
            c3.Some? && c3.value.out.Shaped() &&
            c3.value.sent + c3.value.out.Content() != c3.value.taken
  {
    G.MaskLaws(c.interest);
    assert Zeros(8)[0..] == Zeros(8) && second[0..] == second;
    var c1 := SendInLoop(AsWritten, c, Zeros(8), WouldBlock).value;
    assert c1.out == Ring(Zeros(8) + Zeros(2), 0, 8, false);
    G.MaskLaws(c1.interest);
    var c2 := HandleWrite(AsWritten, c1, 5).value;
    assert c2.out == c1.out.(start := 5);
    var c3 := SendInLoop(AsWritten, c2, second, WouldBlock).value;
    assert c3.out.cells == second[2..5] + Zeros(5) + second[..2];
    assert (c3.sent + c3.out.Content())[13] == 0;
    assert c3.taken[13] == 1;
  }

  /** Once a full buffer is drained in part, the next message that must wait fails the assertion on line 148. */
  lemma SendAbortsAsWritten(c: Conn, accepted: nat, message: Bytes)
    requires c.IsWriting() && c.out.Coherent() && c.out.full && c.out.start == 0 && message != []
    requires 0 < accepted < |c.out.cells|
    ensures var c1 := HandleWrite(AsWritten, c, accepted);
            c1.Some? && c1.value.out.Shaped() && SendInLoop(AsWritten, c1.value, message, WouldBlock).None?
  {
    var c1 := HandleWrite(AsWritten, c, accepted).value;
    assert message[0..] == message;
    StaleAppendAborts(c1.out, message);
  }

  /** Such a run from the start: ten bytes that must wait, five of them drained, and anything more that must wait. */
  lemma ElevenBytesAbortAsWritten(c: Conn, first: Bytes, second: Bytes)
    requires c == ConnectEstablished(NEW).value && |first| == 10 && second != []
    ensures var c1 := SendInLoop(AsWritten, c, first, WouldBlock);
            c1.Some? && c1.value.out.Shaped() &&
            var c2 := HandleWrite(AsWritten, c1.value, 5);
            c2.Some? && c2.value.out.Shaped() && SendInLoop(AsWritten, c2.value, second, WouldBlock).None?
  {
    TenBytesWait(c, first);
    SendAbortsAsWritten(SendInLoop(AsWritten, c, first, WouldBlock).value, 5, second);
  }

  lemma TenBytesWait(c: Conn, first: Bytes)
    requires c == ConnectEstablished(NEW).value && |first| == 10
    ensures var c1 := SendInLoop(AsWritten, c, first, WouldBlock);
            c1 == Some(c.(interest := c.interest + G.WRITE_EVENT, out := Ring(first, 0, 0, true), taken := first))
            && c1.value.IsWriting()
  {
    G.MaskLaws(c.interest);
    assert first[0..] == first && c.taken + [] + first == first;
    assert Append(AsWritten, c.out, first).value.cells == first;
  }

  /** Ten bytes that must wait, drained five at a time: sound, although the flag is stale on the way. */
  lemma StaleRunMayBeSound(c: Conn, first: Bytes)
    requires c == ConnectEstablished(NEW).value && |first| == 10
    ensures var ops := [Send(first, WouldBlock), Writable(5), Writable(5)];
            RunIsSound(c, ops) && A.IsStale(Retrieve(AsWritten, Ring(first, 0, 0, true), 5))
  {
    var ops := [Send(first, WouldBlock), Writable(5), Writable(5)];
    TenBytesWait(c, first);
    var c1 := Step(AsWritten, c, ops[0]).value;
    var c2 := Step(AsWritten, c1, ops[1]).value;
    assert ops[1..][0] == Writable(5) && ops[1..][1..][0] == Writable(5) && ops[1..][1..][1..] == [];
    assert c2.out == Ring(first, 5, 0, true);
    assert RunIsSound(c2, ops[1..][1..]);
    assert RunIsSound(c1, ops[1..]);
  }
}
