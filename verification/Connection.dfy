/**
 One connection of net/TcpConnection.cpp as a value: its state, its channel's interest, its
 output buffer and what has gone to the socket. `ConnectionObject` holds the same data in
 objects. `kernel` parameters say what the system call would answer; a result of `None`
 means that an assertion fails or the code aborts.
*/
module Connection {
  import opened Prelude
  import opened Ring
  import opened RingRuns
  import opened Registry

  datatype State = Connecting | Connected | Disconnecting | Disconnected

  datatype Conn = Conn(
    state: State,
    interest: Mask,      // the channel's events
    muted: bool,         // its slot no longer reaches the kernel
    out: Ring,           // _outputBuffer
    // history
    sent: Bytes,         // every byte the kernel accepted, in order
    taken: Bytes,        // every byte handed to sendInLoop, in order
    completes: nat,      // write-complete functors queued
    halfCloses: nat,     // SHUT_WR issued
    closes: nat)         // handleClose calls
  {
    predicate IsWriting() {
      Has(interest, WRITE_EVENT)
    }
  }

  const NEW: Conn := Conn(Connecting, NONE_EVENT, false, EMPTY_RING, [], [], 0, 0, 0)

  /** The answer of a non-blocking `write`: would block, the number of bytes taken, or EPIPE. */
  datatype Kernel = WouldBlock | Accepts(n: nat) | Broken

  // ----- the operations -----

  /** The kernel takes no more than it is given. */
  predicate Fits(kernel: Kernel, message: Bytes) {
    kernel.Accepts? ==> kernel.n <= |message|
  }

  /** Nothing waits, so `sendInLoop` tries the socket first. */
  predicate TriesSocket(c: Conn)
    requires c.out.Shaped()
  {
    !c.IsWriting() && c.out.Readable() == 0
  }

  /** With nothing waiting, the message goes straight to the socket as far as the kernel takes it. */
  function WrittenDirectly(c: Conn, message: Bytes, kernel: Kernel): (n: nat)
    requires c.out.Shaped() && Fits(kernel, message)
    ensures n <= |message|
  {
    if TriesSocket(c) && kernel.Accepts? then kernel.n else 0
  }

  function WriteDirectly(c: Conn, message: Bytes, kernel: Kernel): Conn
    requires c.out.Shaped() && Fits(kernel, message)
  {
    var n := WrittenDirectly(c, message, kernel);
    c.(taken := c.taken + message[..n], sent := c.sent + message[..n],
       completes := c.completes + if TriesSocket(c) && kernel == Accepts(|message|) then 1 else 0)
  }

  /** The part that was not written is buffered, and the channel waits for POLLOUT. */
  function KeepRest(code: Code, c: Conn, rest: Bytes): (res: Option<Conn>)
    requires c.out.Shaped()
    ensures res.Some? ==> res.value.out.Shaped()
  {
    if rest == [] then Some(c)
    else
      match Append(code, c.out, rest)
      case None => None
      case Some(out) =>
        Some(c.(out := out, taken := c.taken + rest,
                interest := if c.IsWriting() then c.interest else c.interest + WRITE_EVENT))
  }

  /** A broken pipe aborts on line 168. */
  function SendInLoop(code: Code, c: Conn, message: Bytes, kernel: Kernel): (res: Option<Conn>)
    requires c.out.Shaped() && Fits(kernel, message)
    ensures res.Some? ==> res.value.out.Shaped()
  {
    if TriesSocket(c) && kernel.Broken? then None
    else KeepRest(code, WriteDirectly(c, message, kernel), message[WrittenDirectly(c, message, kernel)..])
  }

  function ShutDownInLoop(c: Conn): Conn {
    if c.IsWriting() then c else c.(halfCloses := c.halfCloses + 1)
  }

  /**
   `writeFd` and `retrieve`: `accepted` is what `write` returns for the bytes offered. Zero stands
   for a failed write: its -1 is a huge unsigned number, more than `retrieve` allows.
  */
  function Drain(code: Code, c: Conn, accepted: nat): (res: Option<Conn>)
    requires c.out.Shaped()
    ensures res.Some? ==> res.value.out.Shaped()
  {
    if c.out.IsEmpty() || Offered(c.out).None? || accepted == 0 then None
    else if accepted > |Offered(c.out).value| || accepted > c.out.Readable() then None
    else Some(c.(out := Retrieve(code, c.out, accepted), sent := c.sent + Offered(c.out).value[..accepted]))
  }

  /** `disableWriting`; a channel left with no interest at all is muted. */
  function StopWriting(c: Conn): Conn {
    c.(interest := c.interest - WRITE_EVENT, muted := c.muted || c.interest - WRITE_EVENT == NONE_EVENT)
  }

  /** Once nothing is left, stop waiting for POLLOUT and carry out a half-close that was asked for. */
  function AfterDrain(c: Conn): Conn
    requires c.out.Shaped()
  {
    if c.out.Readable() == 0 then
      var drained := StopWriting(c).(completes := c.completes + 1);
      if c.state == Disconnecting then ShutDownInLoop(drained) else drained
    else c
  }

  function HandleWrite(code: Code, c: Conn, accepted: nat): (res: Option<Conn>)
    requires c.out.Shaped()
    ensures res.Some? ==> res.value.out.Shaped()
  {
    if !c.IsWriting() then Some(c)
    else
      match Drain(code, c, accepted)
      case None => None
      case Some(written) => Some(AfterDrain(written))
  }

  function ConnectEstablished(c: Conn): Option<Conn> {
    if c.state == Connecting then Some(c.(state := Connected, interest := c.interest + READ_EVENT)) else None
  }

  function HandleClose(c: Conn): Option<Conn> {
    if c.state == Connected || c.state == Disconnecting
    then Some(c.(interest := NONE_EVENT, muted := true, closes := c.closes + 1)) else None
  }

  function ConnectDestroyed(c: Conn): Option<Conn> {
    if c.state == Connected || c.state == Disconnecting
    then Some(c.(state := Disconnected, interest := NONE_EVENT, muted := true)) else None
  }

  /** The check-and-set of `shutdown`, without the action it then runs or queues. */
  function BeginShutdown(c: Conn): Conn {
    if c.state == Connected then c.(state := Disconnecting) else c
  }

  /** `read` on the socket: bytes, or end of file. (An error aborts.) */
  datatype ReadResult = Received(data: Bytes) | EndOfFile

  function HandleRead(c: Conn, read: ReadResult): Option<Conn> {
    match read
    case Received(_) => Some(c)
    case EndOfFile => HandleClose(c)
  }

  function RunCallback(code: Code, c: Conn, callback: Callback, read: ReadResult, accepted: nat): (res: Option<Conn>)
    requires c.out.Shaped()
    ensures res.Some? ==> res.value.out.Shaped()
  {
    match callback
    case CloseCallback => HandleClose(c)
    case ErrorCallback => None
    case ReadCallback => HandleRead(c, read)
    case WriteCallback => HandleWrite(code, c, accepted)
  }

  /** `handleEvent`: the callbacks the returned events ask for, one after the other. */
  function HandleEvent(code: Code, c: Conn, callbacks: seq<Callback>, read: ReadResult, accepted: nat): (res: Option<Conn>)
    requires c.out.Shaped()
    ensures res.Some? ==> res.value.out.Shaped()
    decreases |callbacks|
  {
    if callbacks == [] then Some(c)
    else
      match RunCallback(code, c, callbacks[0], read, accepted)
      case None => None
      case Some(c') => HandleEvent(code, c', callbacks[1..], read, accepted)
  }

  function Then(code: Code, res: Option<Conn>, callbacks: seq<Callback>, read: ReadResult, accepted: nat): Option<Conn>
    requires res.Some? ==> res.value.out.Shaped()
  {
    if res.Some? then HandleEvent(code, res.value, callbacks, read, accepted) else None
  }

  lemma {:induction false} HandleEventConcat(code: Code, c: Conn, a: seq<Callback>, b: seq<Callback>, read: ReadResult, accepted: nat)
    requires c.out.Shaped()
    ensures HandleEvent(code, c, a + b, read, accepted)
            == Then(code, HandleEvent(code, c, a, read, accepted), b, read, accepted)
    decreases |a|
  {
    if a == [] {
      assert a + b == b;
    } else {
      assert (a + b)[0] == a[0] && (a + b)[1..] == a[1..] + b;
      match RunCallback(code, c, a[0], read, accepted)
      case None =>
      case Some(c') => HandleEventConcat(code, c', a[1..], b, read, accepted);
    }
  }

  /** How often a callback ends in `handleClose`. */
  function ClosesOf(callbacks: seq<Callback>, read: ReadResult): nat {
    if callbacks == [] then 0
    else (if callbacks[0].CloseCallback? || (callbacks[0].ReadCallback? && read.EndOfFile?) then 1 else 0)
         + ClosesOf(callbacks[1..], read)
  }

  lemma {:induction false} EventCloses(code: Code, c: Conn, callbacks: seq<Callback>, read: ReadResult, accepted: nat)
    requires c.out.Shaped() && HandleEvent(code, c, callbacks, read, accepted).Some?
    ensures HandleEvent(code, c, callbacks, read, accepted).value.closes == c.closes + ClosesOf(callbacks, read)
    decreases |callbacks|
  {
    if callbacks != [] {
      EventCloses(code, RunCallback(code, c, callbacks[0], read, accepted).value, callbacks[1..], read, accepted);
    }
  }

  /**
   One event closes a connection at most once, unless the kernel reports a hang-up without input
   together with priority data or a half-close and the read then finds the end of the file;
   exactly then `handleClose` runs twice.
  */
  lemma EventClosesTwiceExactlyWhen(code: Code, c: Conn, revents: Mask, read: ReadResult, accepted: nat)
    requires c.out.Shaped() && HandleEvent(code, c, Callbacks(revents), read, accepted).Some?
    ensures var c' := HandleEvent(code, c, Callbacks(revents), read, accepted).value;
            && c'.closes <= c.closes + 2
            && (c'.closes == c.closes + 2 <==> DoubleClose(revents) && read.EndOfFile?)
  {
    EventCloses(code, c, Callbacks(revents), read, accepted);
    ClosesOfCallbacks(revents, read);
    DoubleCloseExactlyWhen(revents);
  }

  lemma ClosesOfCallbacks(revents: Mask, read: ReadResult)
    ensures ClosesOf(Callbacks(revents), read)
            == (if HangsUp(revents) then 1 else 0) + (if Readable(revents) && read.EndOfFile? then 1 else 0)
  {
    var close := OneIf(HangsUp(revents), CloseCallback);
    var error := OneIf(Has(revents, {POLLERR, POLLNVAL}), ErrorCallback);
    var readable := OneIf(Readable(revents), ReadCallback);
    var write := OneIf(Has(revents, {POLLOUT}), WriteCallback);
    ClosesOfConcat(close + error + readable, write, read);
    ClosesOfConcat(close + error, readable, read);
    ClosesOfConcat(close, error, read);
  }

  lemma {:induction false} ClosesOfConcat(a: seq<Callback>, b: seq<Callback>, read: ReadResult)
    ensures ClosesOf(a + b, read) == ClosesOf(a, read) + ClosesOf(b, read)
  {
    if a == [] {
      assert a + b == b;
    } else {
      ClosesOfConcat(a[1..], b, read);
      assert (a + b)[1..] == a[1..] + b;
    }
  }

  // ----- what every operation keeps, with the repaired buffer -----

  /** Nothing is lost on the way: what the socket got, then what the buffer holds, is what was handed in. */
  ghost predicate Conserved(c: Conn) {
    && c.out.Coherent()
    && c.sent + c.out.Content() == c.taken
    && (c.IsWriting() ==> c.out.Content() != [])
  }

  /** Between `connectEstablished` and `handleClose`: the channel asks for POLLOUT exactly while data waits. */
  ghost predicate WritesWhenPending(c: Conn)
    requires c.out.Shaped()
  {
    && !c.muted
    && (c.IsWriting() <==> c.out.Content() != [])
    && Has(c.interest, READ_EVENT)
  }

  /** `c'` differs from `c` in its buffer and stream only, and its stream is longer by `message`. */
  ghost predicate Sends(c: Conn, c': Conn, message: Bytes) {
    && Conserved(c') && c'.taken == c.taken + message && c.sent <= c'.sent
    && c'.state == c.state && c'.muted == c.muted
    && c'.halfCloses == c.halfCloses && c'.closes == c.closes
  }

  lemma KeepRestConserves(c: Conn, rest: Bytes)
    requires Conserved(c)
    ensures var res := KeepRest(Repaired, c, rest);
            && res.Some? && Sends(c, res.value, rest)
            && (WritesWhenPending(c) ==> WritesWhenPending(res.value))
  {
    if rest != [] {
      AppendAddsNewest(c.out, rest);
      MaskLaws(c.interest);
      assert c.sent + (c.out.Content() + rest) == c.sent + c.out.Content() + rest;
    } else {
      assert c.taken + rest == c.taken;
    }
  }

  lemma WriteDirectlyConserves(c: Conn, message: Bytes, kernel: Kernel)
    requires Conserved(c) && Fits(kernel, message)
    ensures Sends(c, WriteDirectly(c, message, kernel), message[..WrittenDirectly(c, message, kernel)])
    ensures WritesWhenPending(c) ==> WritesWhenPending(WriteDirectly(c, message, kernel))
  {
    QueriesAgree(c.out);
    var front := message[..WrittenDirectly(c, message, kernel)];
    if front != [] {
      assert c.out.Content() == [];
      assert c.sent + front + [] == c.sent + [] + front;
    }
  }

  lemma SendsCompose(c: Conn, c1: Conn, c2: Conn, front: Bytes, rest: Bytes)
    requires Sends(c, c1, front) && Sends(c1, c2, rest)
    ensures Sends(c, c2, front + rest)
  {
    assert c.taken + front + rest == c.taken + (front + rest);
  }

  /**
   What a message does. With nothing waiting, what the kernel takes of it is on the socket and the
   rest waits; else it waits behind the rest. POLLOUT is asked for when something is left to wait,
   and the write-complete functor queued when the kernel took all of the message at once.
  */
  ghost predicate SendDoes(c: Conn, message: Bytes, kernel: Kernel, c': Conn)
    requires c.out.Shaped() && Fits(kernel, message)
  {
    && c'.out.Shaped()
    && (if POLLOUT !in c.interest && c.out.Content() == [] && kernel.Accepts? then
          && c'.sent == c.sent + message[..kernel.n] && c'.out.Content() == message[kernel.n..]
          && (POLLOUT in c'.interest <==> kernel.n < |message|)
          && c'.completes == c.completes + if kernel.n == |message| then 1 else 0
        else
          && c'.sent == c.sent && c'.out.Content() == c.out.Content() + message
          && (POLLOUT in c'.interest <==> POLLOUT in c.interest || message != [])
          && c'.completes == c.completes)
    && forall flag :: flag != POLLOUT ==> (flag in c'.interest <==> flag in c.interest)
  }

  lemma RestDoes(c: Conn, rest: Bytes)
    requires Conserved(c)
    ensures KeepRest(Repaired, c, rest).Some?
    ensures var c' := KeepRest(Repaired, c, rest).value;
            && c'.sent == c.sent && c'.completes == c.completes && c'.out.Content() == c.out.Content() + rest
            && (forall flag :: flag in c'.interest <==> flag in c.interest || (rest != [] && flag == POLLOUT))
  {
    HasFlags(c.interest);
    if rest != [] { AppendAddsNewest(c.out, rest); }
  }

  lemma SendInLoopDoes(c: Conn, message: Bytes, kernel: Kernel)
    requires Conserved(c) && Fits(kernel, message) && !(TriesSocket(c) && kernel.Broken?)
    ensures SendInLoop(Repaired, c, message, kernel).Some?
    ensures SendDoes(c, message, kernel, SendInLoop(Repaired, c, message, kernel).value)
  {
    HasFlags(c.interest);
    QueriesAgree(c.out);
    WriteDirectlyConserves(c, message, kernel);
    RestDoes(WriteDirectly(c, message, kernel), message[WrittenDirectly(c, message, kernel)..]);
    assert c.out.Content() == [] ==> c.out.Content() + message == message;
  }

  lemma SendInLoopConserves(c: Conn, message: Bytes, kernel: Kernel)
    requires Conserved(c) && Fits(kernel, message)
    ensures var res := SendInLoop(Repaired, c, message, kernel);
            && (res.Some? <==> !(TriesSocket(c) && kernel.Broken?))
            && (TriesSocket(c) <==> POLLOUT !in c.interest && c.out.Content() == [])
            && (res.Some? ==> Sends(c, res.value, message) && SendDoes(c, message, kernel, res.value))
            && (res.Some? && WritesWhenPending(c) ==> WritesWhenPending(res.value))
  {
    var n := WrittenDirectly(c, message, kernel);
    var c1 := WriteDirectly(c, message, kernel);
    WriteDirectlyConserves(c, message, kernel);
    KeepRestConserves(c1, message[n..]);
    SendsCompose(c, c1, KeepRest(Repaired, c1, message[n..]).value, message[..n], message[n..]);
    assert message[..n] + message[n..] == message;
    HasFlags(c.interest);
    QueriesAgree(c.out);
    if !(TriesSocket(c) && kernel.Broken?) { SendInLoopDoes(c, message, kernel); }
    hide Conserved, SendDoes;
  }

  /** SHUT_WR goes out unless POLLOUT is asked for, and nothing else changes. */
  ghost predicate ShutDownDoes(c: Conn, c': Conn) {
    && c'.halfCloses == c.halfCloses + (if POLLOUT in c.interest then 0 else 1)
    && c'.state == c.state && c'.interest == c.interest && c'.muted == c.muted && c'.out == c.out
    && c'.sent == c.sent && c'.taken == c.taken && c'.completes == c.completes && c'.closes == c.closes
  }

  lemma ShutDownInLoopConserves(c: Conn)
    requires Conserved(c)
    ensures ShutDownDoes(c, ShutDownInLoop(c))
    ensures Conserved(ShutDownInLoop(c))
    ensures WritesWhenPending(c) ==> WritesWhenPending(ShutDownInLoop(c))
    ensures WritesWhenPending(c) && ShutDownInLoop(c).halfCloses > c.halfCloses ==> c.sent == c.taken
  {
    HasFlags(c.interest);
    if c.out.Content() == [] { assert c.sent + [] == c.sent; }
  }

  /**
   What `write` may answer for the bytes offered: at least one and no more than these, but a
   failure once SHUT_WR has gone out.
  */
  predicate MayAccept(c: Conn, kernel: nat)
    requires c.out.Shaped()
  {
    c.IsWriting() && Offered(c.out).Some? ==>
      if c.halfCloses > 0 then kernel == 0 else 0 < kernel <= |Offered(c.out).value|
  }

  /**
   What a report of room for output does, if POLLOUT was asked for: as many bytes as the kernel
   takes go from the front of the buffer to the socket; with the last one POLLOUT is no longer asked
   for, the write-complete functor is queued, and SHUT_WR goes out if the connection is shutting down.
  */
  ghost predicate WritableDoes(c: Conn, kernel: nat, c': Conn)
    requires c.out.Shaped() && kernel <= |c.out.Content()|
  {
    && c'.out.Shaped() && c'.state == c.state && c'.taken == c.taken && c'.closes == c.closes
    && c'.sent == c.sent + c.out.Content()[..kernel] && c'.out.Content() == c.out.Content()[kernel..]
    && if c'.out.Content() == [] then
         && c'.interest == c.interest - {POLLOUT} && (c'.muted <==> c.muted || c'.interest == {})
         && c'.completes == c.completes + 1
         && c'.halfCloses == c.halfCloses + if c.state == Disconnecting then 1 else 0
       else
         c'.interest == c.interest && c'.muted == c.muted && c'.completes == c.completes && c'.halfCloses == c.halfCloses
  }

  lemma HandleWriteDoes(c: Conn, kernel: nat)
    requires Conserved(c) && MayAccept(c, kernel) && (c.IsWriting() ==> c.halfCloses == 0)
    ensures HandleWrite(Repaired, c, kernel).Some?
    ensures var c' := HandleWrite(Repaired, c, kernel).value;
            if POLLOUT in c.interest then kernel <= |c.out.Content()| && WritableDoes(c, kernel, c') else c' == c
  {
    HasFlags(c.interest);
    QueriesAgree(c.out);
    if c.IsWriting() {
      HasFlags(c.interest - WRITE_EVENT);
      OffersPrefix(c.out);
      AcceptedBytesLeave(c.out, kernel);
      RetrieveDropsOldest(c.out, kernel);
      QueriesAgree(Retrieve(Repaired, c.out, kernel));
    }
  }

  lemma HandleWriteConserves(c: Conn, kernel: nat)
    requires Conserved(c) && MayAccept(c, kernel) && (c.IsWriting() ==> c.halfCloses == 0)
    ensures HandleWrite(Repaired, c, kernel).Some?
    ensures var c' := HandleWrite(Repaired, c, kernel).value;
            if POLLOUT in c.interest then kernel <= |c.out.Content()| && WritableDoes(c, kernel, c') else c' == c
    ensures var c' := HandleWrite(Repaired, c, kernel).value;
            && Conserved(c') && c'.taken == c.taken
            && c'.state == c.state && c'.closes == c.closes
            && c.sent <= c'.sent
            && (c.IsWriting() ==> c'.out.Readable() == c.out.Readable() - kernel)
            && (c'.halfCloses == c.halfCloses
                || (c'.halfCloses == c.halfCloses + 1 && c.state == Disconnecting && c'.out.Content() == [] && !c'.IsWriting()))
            && (c.IsWriting() && c.state == Disconnecting && c'.out.Content() == [] ==> c'.halfCloses == c.halfCloses + 1)
    ensures WritesWhenPending(c) ==> WritesWhenPending(HandleWrite(Repaired, c, kernel).value)
  {
    HandleWriteDoes(c, kernel);
    QueriesAgree(c.out);
    if c.IsWriting() {
      MaskLaws(c.interest);
      OffersPrefix(c.out);
      AcceptedBytesLeave(c.out, kernel);
      RetrieveDropsOldest(c.out, kernel);
      var out := Retrieve(Repaired, c.out, kernel);
      QueriesAgree(out);
      var front := Offered(c.out).value[..kernel];
      assert c.sent + front + out.Content() == c.sent + (front + out.Content());
    }
  }

  // ----- establishment, close, destruction -----

  /** `c'` differs from `c` in its state and in what its slot asks for only. */
  ghost predicate KeepsData(c: Conn, c': Conn) {
    && c'.out == c.out && c'.sent == c.sent && c'.taken == c.taken
    && c'.completes == c.completes && c'.halfCloses == c.halfCloses
  }

  /** No flag is asked for any more, and the slot no longer reaches the kernel. */
  ghost predicate StopsListening(c: Conn, c': Conn) {
    KeepsData(c, c') && c'.muted && forall flag :: flag !in c'.interest
  }

  /** From `connectEstablished` on the connection is connected and listens; from `handleClose` on it does not. */
  lemma LifeDoes(c: Conn)
    ensures ConnectEstablished(c).Some? <==> c.state == Connecting
    ensures ConnectEstablished(c).Some? ==>
              var c' := ConnectEstablished(c).value;
              && c'.state == Connected && KeepsData(c, c') && c'.muted == c.muted && c'.closes == c.closes
              && forall flag :: flag in c'.interest <==> flag in c.interest || flag == POLLIN || flag == POLLPRI
    ensures HandleClose(c).Some? <==> c.state == Connected || c.state == Disconnecting
    ensures HandleClose(c).Some? ==>
              var c' := HandleClose(c).value;
              StopsListening(c, c') && c'.state == c.state && c'.closes == c.closes + 1
    ensures ConnectDestroyed(c).Some? <==> c.state == Connected || c.state == Disconnecting
    ensures ConnectDestroyed(c).Some? ==>
              var c' := ConnectDestroyed(c).value;
              StopsListening(c, c') && c'.state == Disconnected && c'.closes == c.closes
  {
  }

  // ----- one event -----

  /** What the flags ask to close, and what a read that finds the end of the file does. */
  predicate Hangs(revents: Mask) {
    POLLHUP in revents && POLLIN !in revents
  }

  predicate FindsEnd(revents: Mask, read: ReadResult) {
    (POLLIN in revents || POLLPRI in revents || POLLRDHUP in revents) && read.EndOfFile?
  }

  /**
   What `handleEvent` does. An event that closes the connection, by a hang-up or the end of the file,
   does nothing else: whatever was waiting stays in the buffer, though there be room on the socket.
   Else room for output takes bytes out of the buffer, if POLLOUT was asked for.
  */
  ghost predicate EventDoes(c: Conn, revents: Mask, read: ReadResult, accepted: nat, c': Conn)
    requires Conserved(c)
  {
    var hangs, ends := Hangs(revents), FindsEnd(revents, read);
    if hangs || ends then
      && StopsListening(c, c') && c'.state == c.state
      && c'.closes == c.closes + (if hangs then 1 else 0) + (if ends then 1 else 0)
    else if POLLOUT in revents && POLLOUT in c.interest then
      accepted <= |c.out.Content()| && WritableDoes(c, accepted, c')
    else
      c' == c
  }

  lemma OneCallback(c: Conn, condition: bool, callback: Callback, read: ReadResult, accepted: nat)
    requires c.out.Shaped()
    ensures HandleEvent(Repaired, c, OneIf(condition, callback), read, accepted)
            == if condition then RunCallback(Repaired, c, callback, read, accepted) else Some(c)
  {
    assert [callback][1..] == [];
  }

  /** The event, callback by callback. */
  lemma EventInSteps(c: Conn, revents: Mask, read: ReadResult, accepted: nat)
    requires c.out.Shaped() && POLLERR !in revents && POLLNVAL !in revents
    ensures HandleEvent(Repaired, c, Callbacks(revents), read, accepted)
            == match (if Hangs(revents) then RunCallback(Repaired, c, CloseCallback, read, accepted) else Some(c))
               case None => None
               case Some(c1) =>
                 match (if POLLIN in revents || POLLPRI in revents || POLLRDHUP in revents
                        then RunCallback(Repaired, c1, ReadCallback, read, accepted) else Some(c1))
                 case None => None
                 case Some(c2) =>
                   if POLLOUT in revents then RunCallback(Repaired, c2, WriteCallback, read, accepted) else Some(c2)
  {
    HasFlags(revents);
    var hangs, readable, writable := Hangs(revents), Readable(revents), Has(revents, {POLLOUT});
    var close, input, write := OneIf(hangs, CloseCallback), OneIf(readable, ReadCallback), OneIf(writable, WriteCallback);
    assert Callbacks(revents) == close + input + write;
    hide Callbacks, Has, RunCallback, HandleEvent, OneIf;
    HandleEventConcat(Repaired, c, close + input, write, read, accepted);
    HandleEventConcat(Repaired, c, close, input, read, accepted);
    OneCallback(c, hangs, CloseCallback, read, accepted);
    var res := if hangs then RunCallback(Repaired, c, CloseCallback, read, accepted) else Some(c);
    if res.Some? {
      var c1 := res.value;
      OneCallback(c1, readable, ReadCallback, read, accepted);
      var res2 := if readable then RunCallback(Repaired, c1, ReadCallback, read, accepted) else Some(c1);
      if res2.Some? { OneCallback(res2.value, writable, WriteCallback, read, accepted); }
    }
  }

  /** One event, for every mask: it aborts on an error bit, and on a close in a state that has none. */
  lemma HandleEventDoes(c: Conn, revents: Mask, read: ReadResult, accepted: nat)
    requires Conserved(c) && MayAccept(c, accepted) && (c.IsWriting() ==> c.halfCloses == 0)
    ensures var res := HandleEvent(Repaired, c, Callbacks(revents), read, accepted);
            && (res.Some? <==> && POLLERR !in revents && POLLNVAL !in revents
                               && (Hangs(revents) || FindsEnd(revents, read) ==> c.state == Connected || c.state == Disconnecting))
            && (res.Some? ==> EventDoes(c, revents, read, accepted, res.value))
  {
    if POLLERR in revents || POLLNVAL in revents {
      CallbacksExactlyWhen(revents);
      ErrorsAbort(c, Callbacks(revents), read, accepted);
    } else {
      EventInSteps(c, revents, read, accepted);
      LifeDoes(c);
      HandleWriteDoes(c, accepted);
      HasFlags(NONE_EVENT);
      hide Callbacks, HandleEvent, WritableDoes, Conserved, MayAccept;
    }
  }

  lemma {:induction false} ErrorsAbort(c: Conn, callbacks: seq<Callback>, read: ReadResult, accepted: nat)
    requires c.out.Shaped() && ErrorCallback in callbacks
    ensures HandleEvent(Repaired, c, callbacks, read, accepted).None?
    decreases |callbacks|
  {
    match RunCallback(Repaired, c, callbacks[0], read, accepted)
    case None =>
    case Some(c') => ErrorsAbort(c', callbacks[1..], read, accepted);
  }

  // ----- whole runs of one connection -----

  datatype Op =
    | Send(message: Bytes, kernel: Kernel)   // sendInLoop
    | Writable(accepted: nat)                // POLLOUT reported, handleWrite
    | HalfClose                              // shutDownInLoop
    | Close                                  // handleClose

  /**
   What the kernel may answer: a `write` takes no more than it is offered, on a writable socket
   it takes something, and it fails exactly once SHUT_WR has gone out.
  */
  predicate Possible(c: Conn, op: Op)
    requires c.out.Shaped()
  {
    match op
    case Send(message, kernel) => MayAnswer(c, message, kernel)
    case Writable(accepted) => MayAccept(c, accepted)
    case HalfClose => true
    case Close => c.state == Connected || c.state == Disconnecting
  }

  predicate MayAnswer(c: Conn, message: Bytes, kernel: Kernel) {
    Fits(kernel, message) && (kernel.Broken? <==> c.halfCloses > 0)
  }

  /** The step writes to a socket that SHUT_WR has closed for writing. */
  predicate WritesTooLate(c: Conn, op: Op)
    requires c.out.Shaped()
  {
    && c.halfCloses > 0
    && match op
       case Send(_, _) => TriesSocket(c)
       case Writable(_) => c.IsWriting()
       case _ => false
  }

  function Step(code: Code, c: Conn, op: Op): (res: Option<Conn>)
    requires c.out.Shaped() && Possible(c, op)
    ensures res.Some? ==> res.value.out.Shaped()
  {
    match op
    case Send(message, kernel) => SendInLoop(code, c, message, kernel)
    case Writable(accepted) => HandleWrite(code, c, accepted)
    case HalfClose => Some(ShutDownInLoop(c))
    case Close => HandleClose(c)
  }

  /** A sequence of steps, each possible where it is taken, none of which aborts. */
  ghost predicate IsRun(code: Code, c: Conn, ops: seq<Op>)
    requires c.out.Shaped()
    decreases |ops|
  {
    ops == [] || (Possible(c, ops[0])
                  && Step(code, c, ops[0]).Some? && IsRun(code, Step(code, c, ops[0]).value, ops[1..]))
  }

  ghost function After(code: Code, c: Conn, ops: seq<Op>): (c': Conn)
    requires c.out.Shaped() && IsRun(code, c, ops)
    ensures c'.out.Shaped()
    decreases |ops|
  {
    if ops == [] then c else After(code, Step(code, c, ops[0]).value, ops[1..])
  }

  /** How much the kernel takes in a step, if the step tries to write. */
  function Answer(c: Conn, op: Op): nat
    requires c.out.Shaped()
  {
    match op
    case Send(_, kernel) => if POLLOUT !in c.interest && c.out.Readable() == 0 && kernel.Accepts? then kernel.n else 0
    case Writable(accepted) => if POLLOUT in c.interest then accepted else 0
    case _ => 0
  }

  ghost function Answers(code: Code, c: Conn, ops: seq<Op>): nat
    requires c.out.Shaped() && IsRun(code, c, ops)
    decreases |ops|
  {
    if ops == [] then 0 else Answer(c, ops[0]) + Answers(code, Step(code, c, ops[0]).value, ops[1..])
  }

  lemma StepIsAnswered(code: Code, c: Conn, op: Op)
    requires c.out.Shaped() && Possible(c, op) && Step(code, c, op).Some?
    ensures var c' := Step(code, c, op).value; c.sent <= c'.sent && |c'.sent| == |c.sent| + Answer(c, op)
  {
    HasFlags(c.interest);
    hide Append, Retrieve;
  }

  /** Whichever reading of the buffer: in every run the socket gets as many bytes as the kernel said it took. */
  lemma {:induction false} SocketGetsWhatIsTaken(code: Code, c: Conn, ops: seq<Op>)
    requires c.out.Shaped() && IsRun(code, c, ops)
    ensures var c' := After(code, c, ops); c.sent <= c'.sent && |c'.sent| == |c.sent| + Answers(code, c, ops)
    decreases |ops|
  {
    if ops != [] {
      StepIsAnswered(code, c, ops[0]);
      hide Step, Answer, Possible;
      SocketGetsWhatIsTaken(code, Step(code, c, ops[0]).value, ops[1..]);
    }
  }

  function MessageOf(op: Op): Bytes {
    if op.Send? then op.message else []
  }

  function Messages(ops: seq<Op>): Bytes {
    if ops == [] then [] else MessageOf(ops[0]) + Messages(ops[1..])
  }

  /** From `c` to `c'` the stream has grown by `messages`, and the socket has got no less than before. */
  ghost predicate Streams(c: Conn, c': Conn, messages: Bytes) {
    && Conserved(c') && c'.taken == c.taken + messages && c.sent <= c'.sent
  }

  lemma StreamsCompose(c: Conn, c1: Conn, c2: Conn, first: Bytes, rest: Bytes)
    requires Streams(c, c1, first) && Streams(c1, c2, rest)
    ensures Streams(c, c2, first + rest)
  {
    assert c.taken + first + rest == c.taken + (first + rest);
  }

  /** What each step does, by what can be seen of it. */
  ghost predicate StepDoes(c: Conn, op: Op, c': Conn)
    requires Conserved(c)
  {
    match op
    case Send(message, kernel) => Fits(kernel, message) && SendDoes(c, message, kernel, c')
    case Writable(accepted) =>
      if POLLOUT in c.interest then accepted <= |c.out.Content()| && WritableDoes(c, accepted, c') else c' == c
    case HalfClose => ShutDownDoes(c, c')
    case Close => StopsListening(c, c') && c'.state == c.state && c'.closes == c.closes + 1
  }

  lemma StepConserves(c: Conn, op: Op)
    requires Conserved(c) && Possible(c, op)
    ensures var res := Step(Repaired, c, op);
            && (res.Some? <==> !WritesTooLate(c, op))
            && (res.Some? ==> StepDoes(c, op, res.value))
            && (res.Some? ==> Streams(c, res.value, MessageOf(op)))
            && (res.Some? && WritesWhenPending(c) && !op.Close? ==> WritesWhenPending(res.value))
  {
    match op
    case Send(message, kernel) => SendInLoopConserves(c, message, kernel);
    case Writable(accepted) => if !WritesTooLate(c, op) { HandleWriteConserves(c, accepted); }
    case HalfClose => ShutDownInLoopConserves(c);
    case Close =>
  }

  /**
   End to end, for every partial-write behaviour of the kernel and through a close: the bytes on
   the socket followed by the buffer are all messages in the order they were handed in, and the
   socket has got exactly as many more as the kernel took. Until the close the channel waits for POLLOUT exactly while data waits.
  */
  lemma {:induction false} StreamIsConserved(c: Conn, ops: seq<Op>)
    requires Conserved(c) && IsRun(Repaired, c, ops)
    ensures var c' := After(Repaired, c, ops);
            && Streams(c, c', Messages(ops)) && c'.sent + c'.out.Content() == c.taken + Messages(ops)
            && |c'.sent| == |c.sent| + Answers(Repaired, c, ops)
            && (WritesWhenPending(c) && Close !in ops ==> WritesWhenPending(c'))
    decreases |ops|
  {
    SocketGetsWhatIsTaken(Repaired, c, ops);
    if ops != [] {
      var op := ops[0];
      StepConserves(c, op);
      var c1 := Step(Repaired, c, op).value;
      StreamIsConserved(c1, ops[1..]);
      StreamsCompose(c, c1, After(Repaired, c, ops), MessageOf(op), Messages(ops[1..]));
    }
  }

  /** A possible step aborts in one case only: it writes after SHUT_WR. No assertion on the way fails. */
  lemma AbortsExactlyWhen(c: Conn, ops: seq<Op>, op: Op)
    requires Conserved(c) && IsRun(Repaired, c, ops) && Possible(After(Repaired, c, ops), op)
    ensures IsRun(Repaired, c, ops + [op]) <==> !WritesTooLate(After(Repaired, c, ops), op)
    decreases |ops|
  {
    if ops == [] {
      StepConserves(c, op);
      assert [op][1..] == [] && [] + [op] == [op];
    } else {
      StepConserves(c, ops[0]);
      AbortsExactlyWhen(Step(Repaired, c, ops[0]).value, ops[1..], op);
      assert (ops + [op])[1..] == ops[1..] + [op];
    }
  }

  // ----- after a close -----

  predicate SendsNothing(ops: seq<Op>) {
    forall op :: op in ops && op.Send? ==> op.message == []
  }

  lemma {:induction false} SilentAfterClose(c: Conn, ops: seq<Op>)
    requires Conserved(c) && IsRun(Repaired, c, ops) && c.muted
    ensures var c' := After(Repaired, c, ops);
            && Conserved(c') && c'.muted
            && (c.interest == {} && SendsNothing(ops) ==> c'.interest == {} && c'.sent == c.sent && c'.out.Content() == c.out.Content())
    decreases |ops|
  {
    if ops != [] {
      StepConserves(c, ops[0]);
      MutedStep(c, ops[0]);
      assert ops[0] in ops && forall op :: op in ops[1..] ==> op in ops;
      hide Step, Possible, Conserved, StepDoes, WritesTooLate;
      SilentAfterClose(Step(Repaired, c, ops[0]).value, ops[1..]);
    }
  }

  lemma MutedStep(c: Conn, op: Op)
    requires Conserved(c) && Possible(c, op) && Step(Repaired, c, op).Some? && c.muted
    ensures var c' := Step(Repaired, c, op).value;
            && c'.muted
            && (c.interest == {} && (op.Send? ==> op.message == [])
                ==> c'.interest == {} && c'.sent == c.sent && c'.out.Content() == c.out.Content())
  {
    StepConserves(c, op);
    hide Step, HandleWrite;
    if op.Send? { assert op.message == [] ==> op.message[..0] == []; }
  }

  /** A report of room for output changes what the socket got exactly when POLLOUT is asked for. */
  lemma WritesExactlyWhenAsked(c: Conn, accepted: nat)
    requires Conserved(c) && Possible(c, Writable(accepted)) && Step(Repaired, c, Writable(accepted)).Some?
    ensures Step(Repaired, c, Writable(accepted)).value.sent != c.sent <==> POLLOUT in c.interest
  {
    StepConserves(c, Writable(accepted));
    HasFlags(c.interest);
    if POLLOUT in c.interest { OffersPrefix(c.out); }
  }

  function ClosesIn(ops: seq<Op>): nat {
    if ops == [] then 0 else (if ops[0].Close? then 1 else 0) + ClosesIn(ops[1..])
  }

  lemma {:induction false} ClosesAreCounted(c: Conn, ops: seq<Op>)
    requires Conserved(c) && IsRun(Repaired, c, ops)
    ensures After(Repaired, c, ops).closes == c.closes + ClosesIn(ops)
    decreases |ops|
  {
    if ops != [] {
      StepConserves(c, ops[0]);
      ClosesAreCounted(Step(Repaired, c, ops[0]).value, ops[1..]);
    }
  }

  /**
   From `handleClose` on the slot stays muted, so no event is reported again; and unless a message
   is sent after the close, nothing is asked for, and neither a report of room for output already
   under way nor anything else moves a byte.
  */
  lemma CloseIsFinal(c: Conn, ops: seq<Op>)
    requires Conserved(c) && IsRun(Repaired, c, [Close] + ops)
    ensures var c' := After(Repaired, c, [Close] + ops);
            && c'.muted && c'.closes == c.closes + 1 + ClosesIn(ops)
            && (SendsNothing(ops) ==> c'.interest == {} && c'.sent == c.sent && c'.out.Content() == c.out.Content())
  {
    assert ([Close] + ops)[1..] == ops;
    StepConserves(c, Close);
    var c1 := Step(Repaired, c, Close).value;
    hide Step, Conserved;
    SilentAfterClose(c1, ops);
    ClosesAreCounted(c1, ops);
  }

  /** A message sent after the close can ask for POLLOUT again, and a report already under way then moves it. */
  lemma MessageAfterCloseIsWritten(c: Conn, b: byte)
    requires c == HandleClose(ConnectEstablished(NEW).value).value
    ensures var ops := [Send([b], WouldBlock), Writable(1)];
            IsRun(Repaired, c, ops) && After(Repaired, c, ops).sent == [b] && After(Repaired, c, ops).muted
  {
    HasFlags(c.interest);
    var c1 := SendInLoop(Repaired, c, [b], WouldBlock).value;
    SendInLoopConserves(c, [b], WouldBlock);
    OffersPrefix(c1.out);
    HandleWriteConserves(c1, 1);
    var c2 := HandleWrite(Repaired, c1, 1).value;
    var ops := [Send([b], WouldBlock), Writable(1)];
    assert ops[1..] == [Writable(1)] && [Writable(1)][1..] == [];
    assert IsRun(Repaired, c2, []) && After(Repaired, c2, []) == c2;
    assert IsRun(Repaired, c1, [Writable(1)]) && After(Repaired, c1, [Writable(1)]) == c2;
  }

  // ----- draining -----

  /** `handleWrite` with a kernel that takes all it is offered. */
  function WriteAll(c: Conn): Option<Conn>
    requires c.out.Shaped()
  {
    HandleWrite(Repaired, c, if Offered(c.out).Some? then |Offered(c.out).value| else 0)
  }

  /** Two calls of `handleWrite` drain any content, and switch POLLOUT off. */
  lemma TwoCallsDrain(c: Conn)
    requires Conserved(c) && WritesWhenPending(c) && (c.IsWriting() ==> c.halfCloses == 0)
    ensures var res := WriteAll(c);
            && res.Some? && res.value.out.Shaped() && WriteAll(res.value).Some?
            && var c2 := WriteAll(res.value).value;
               !c2.IsWriting() && c2.out.Shaped() && c2.out.Content() == [] && c2.sent == c.taken
  {
    WriteAllConserves(c);
    var c1 := WriteAll(c).value;
    WriteAllConserves(c1);
    var c2 := WriteAll(c1).value;
    TwoWritesDrain(c.out);
    QueriesAgree(c2.out);
    assert c2.sent + [] == c2.sent;
  }

  lemma WriteAllConserves(c: Conn)
    requires Conserved(c) && WritesWhenPending(c) && (c.IsWriting() ==> c.halfCloses == 0)
    ensures WriteAll(c).Some?
    ensures var c' := WriteAll(c).value;
            && Conserved(c') && WritesWhenPending(c') && c'.taken == c.taken
            && c'.out == WriteOnce(c.out) && (c'.IsWriting() ==> c'.halfCloses == 0)
  {
    QueriesAgree(c.out);
    if c.IsWriting() {
      OffersPrefix(c.out);
      HandleWriteConserves(c, |Offered(c.out).value|);
    }
  }
}
