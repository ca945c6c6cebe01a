/**
 One established connection on its loop, used by any number of threads: `send` and
 `shutdown` of net/TcpConnection.cpp over the functor queue of net/EventLoop.cpp. A call from
 the loop's own thread acts at once; a call from another thread checks the state, then
 queues its action, and anything may happen in between.
*/
module Session {
  import opened Prelude
  import opened Ring
  import L = LoopMachine
  import C = Connection

  type ThreadId = L.ThreadId

  datatype Job = SendJob(t: ThreadId, message: Bytes) | ShutdownJob(t: ThreadId) | OtherJob

  datatype Entry = Entry(t: ThreadId, message: Bytes)

  datatype Session = Session(
    loop: L.Loop<Job>,
    conn: C.Conn,
    calls: map<ThreadId, Job>,  // calls past their state check, with their push still to come
    passed: seq<Entry>,         // history: messages whose `send` passed the check
    stream: seq<Entry>)         // history: messages in the order `sendInLoop` took them

  datatype Action =
    | Send(t: ThreadId, message: Bytes, kernel: C.Kernel)
    | Shutdown(t: ThreadId)
    | Push(t: ThreadId)
    | RunJob(kernel: C.Kernel)      // begin the next functor of the batch
    | Writable(accepted: nat)       // the loop handles POLLOUT of this connection
    | Close                         // the loop handles the end of this connection
    | Other(a: L.Action<Job>)       // any other step of a thread or of the loop

  /**
   The connection has just been established, on a loop in any state a loop can be in; the work
   the loop has to do is not about this connection yet.
  */
  ghost predicate IsInit(s: Session) {
    && L.Inv(s.loop) && (forall job :: job in s.loop.Todo() ==> job.OtherJob?)
    && s.conn == C.ConnectEstablished(C.NEW).value
    && s.calls == map[] && s.passed == [] && s.stream == []
  }

  /** The owner is inside a callback of an active channel. */
  predicate InCallback(s: Session) {
    s.loop.phase.Dispatch? && s.loop.busy && L.OwnerFree(s.loop)
  }

  /** The step can begin, whether or not it ends in an abort. */
  predicate Can(s: Session, a: Action)
    requires s.conn.out.Shaped()
  {
    match a
    case Send(t, message, kernel) =>
      t !in s.calls && L.MayCall(s.loop, t) && C.MayAnswer(s.conn, message, kernel)
    case Shutdown(t) => t !in s.calls && L.MayCall(s.loop, t)
    case Push(t) => t in s.calls && L.Enabled(s.loop, L.Queue(t, s.calls[t]))
    case RunJob(kernel) =>
      && L.Enabled(s.loop, L.BeginFunctor)
      && (NextJob(s.loop).SendJob? ==> C.MayAnswer(s.conn, NextJob(s.loop).message, kernel))
    case Writable(accepted) => InCallback(s) && C.MayAccept(s.conn, accepted)
    case Close => InCallback(s) && (s.conn.state == C.Connected || s.conn.state == C.Disconnecting)
    case Other(b) =>
      && L.Enabled(s.loop, b) && b != L.BeginFunctor
      && (b.Queue? ==> b.f == OtherJob && b.t !in s.calls)
      && (b.Quit? ==> b.t !in s.calls)
  }

  function NextJob(loop: L.Loop<Job>): Job
    requires loop.next < |loop.batch|
  {
    loop.batch[loop.next]
  }

  /** What a step makes of the connection; nothing when it aborts. */
  function ConnAfter(s: Session, a: Action): (res: Option<C.Conn>)
    requires s.conn.out.Shaped() && Can(s, a)
    ensures res.Some? ==> res.value.out.Shaped()
  {
    match a
    case Send(t, message, kernel) =>
      if s.conn.state == C.Connected && t == s.loop.owner
      then C.SendInLoop(Repaired, s.conn, message, kernel) else Some(s.conn)
    case Shutdown(t) =>
      if s.conn.state == C.Connected && t == s.loop.owner
      then Some(C.ShutDownInLoop(C.BeginShutdown(s.conn))) else Some(C.BeginShutdown(s.conn))
    case RunJob(kernel) =>
      (match NextJob(s.loop)
       case SendJob(_, message) => C.SendInLoop(Repaired, s.conn, message, kernel)
       case ShutdownJob(_) => Some(C.ShutDownInLoop(s.conn))
       case OtherJob => Some(s.conn))
    case Writable(accepted) => C.HandleWrite(Repaired, s.conn, accepted)
    case Close => C.HandleClose(s.conn)
    case _ => Some(s.conn)
  }

  predicate Enabled(s: Session, a: Action)
    requires s.conn.out.Shaped()
  {
    Can(s, a) && ConnAfter(s, a).Some?
  }

  /** The next functor of the batch, begun but without its effect yet. */
  function Begun(s: Session): Session
    requires L.Enabled(s.loop, L.BeginFunctor)
  {
    s.(loop := L.Next(s.loop, L.BeginFunctor))
  }

  /** `sendInLoop` takes a message. */
  function Take(s: Session, t: ThreadId, message: Bytes, kernel: C.Kernel): Session
    requires s.conn.out.Shaped() && C.Fits(kernel, message)
    requires C.SendInLoop(Repaired, s.conn, message, kernel).Some?
  {
    s.(conn := C.SendInLoop(Repaired, s.conn, message, kernel).value, stream := s.stream + [Entry(t, message)])
  }

  function Next(s: Session, a: Action): (s': Session)
    requires s.conn.out.Shaped() && Enabled(s, a)
    ensures s'.conn == ConnAfter(s, a).value && s'.conn.out.Shaped()
  {
    match a
    case Send(t, message, kernel) =>
      if s.conn.state != C.Connected then s
      else
        var noted := s.(passed := s.passed + [Entry(t, message)]);
        if t == s.loop.owner then Take(noted, t, message, kernel)
        else noted.(calls := noted.calls[t := SendJob(t, message)])
    case Shutdown(t) =>
      if s.conn.state != C.Connected then s
      else
        var begun := C.BeginShutdown(s.conn);
        if t == s.loop.owner then s.(conn := C.ShutDownInLoop(begun))
        else s.(conn := begun, calls := s.calls[t := ShutdownJob(t)])
    case Push(t) => s.(loop := L.Next(s.loop, L.Queue(t, s.calls[t])), calls := s.calls - {t})
    case RunJob(kernel) =>
      (match NextJob(s.loop)
       case SendJob(t, message) => Take(Begun(s), t, message, kernel)
       case ShutdownJob(_) => Begun(s).(conn := C.ShutDownInLoop(s.conn))
       case OtherJob => Begun(s))
    case Writable(accepted) => s.(conn := C.HandleWrite(Repaired, s.conn, accepted).value)
    case Close => s.(conn := C.HandleClose(s.conn).value)
    case Other(b) => s.(loop := L.Next(s.loop, b))
  }

  // ----- what every step keeps -----

  function Of(entries: seq<Entry>, t: ThreadId): seq<Bytes> {
    if entries == [] then []
    else
      var last := |entries| - 1;
      Of(entries[..last], t) + if entries[last].t == t then [entries[last].message] else []
  }

  function SendsOf(jobs: seq<Job>, t: ThreadId): seq<Bytes> {
    if jobs == [] then []
    else (if jobs[0].SendJob? && jobs[0].t == t then [jobs[0].message] else []) + SendsOf(jobs[1..], t)
  }

  function CallOf(calls: map<ThreadId, Job>, t: ThreadId): seq<Bytes> {
    if t in calls && calls[t].SendJob? then [calls[t].message] else []
  }

  function Concat(entries: seq<Entry>): Bytes {
    if entries == [] then [] else Concat(entries[..|entries| - 1]) + entries[|entries| - 1].message
  }

  lemma OfAppend(entries: seq<Entry>, e: Entry, t: ThreadId)
    ensures Of(entries + [e], t) == Of(entries, t) + if e.t == t then [e.message] else []
    ensures Concat(entries + [e]) == Concat(entries) + e.message
  {
    assert (entries + [e])[..|entries|] == entries;
  }

  lemma {:induction false} SendsOfAppend(jobs: seq<Job>, job: Job, t: ThreadId)
    ensures SendsOf(jobs + [job], t) == SendsOf(jobs, t) + if job.SendJob? && job.t == t then [job.message] else []
  {
    if jobs == [] {
      assert jobs + [job] == [job];
    } else {
      assert (jobs + [job])[1..] == jobs[1..] + [job];
      SendsOfAppend(jobs[1..], job, t);
    }
  }

  lemma SendsOfFront(job: Job, jobs: seq<Job>, t: ThreadId)
    ensures SendsOf([job] + jobs, t) == (if job.SendJob? && job.t == t then [job.message] else []) + SendsOf(jobs, t)
  {
    assert ([job] + jobs)[1..] == jobs;
  }

  /** A call in flight is one of the thread that makes it, and never the owner's. */
  ghost predicate CallsAreForeign(s: Session) {
    forall t :: t in s.calls ==> t != s.loop.owner && !s.calls[t].OtherJob? && s.calls[t].t == t
  }

  /** For one thread: taken, then queued, then in flight is what passed the check. */
  ghost predicate InOrder(s: Session, t: ThreadId)
    requires s.loop.next <= |s.loop.batch|
  {
    Of(s.stream, t) + SendsOf(s.loop.Todo(), t) + CallOf(s.calls, t) == Of(s.passed, t)
  }

  ghost predicate Inv(s: Session) {
    && L.Inv(s.loop)
    && C.Conserved(s.conn)
    && s.conn.taken == Concat(s.stream)
    && CallsAreForeign(s)
    && (forall job :: job in s.loop.Todo() && !job.OtherJob? ==> job.t != s.loop.owner)
    && (forall t :: InOrder(s, t))
  }

  lemma {:induction false} NoSends(jobs: seq<Job>, t: ThreadId)
    requires forall job :: job in jobs && !job.OtherJob? ==> job.t != t
    ensures SendsOf(jobs, t) == []
  {
    if jobs != [] {
      assert jobs[0] in jobs && forall job :: job in jobs[1..] ==> job in jobs;
      NoSends(jobs[1..], t);
    }
  }

  lemma TakeInv(s: Session, t: ThreadId, message: Bytes, kernel: C.Kernel)
    requires C.Conserved(s.conn) && s.conn.taken == Concat(s.stream) && C.Fits(kernel, message)
    requires C.SendInLoop(Repaired, s.conn, message, kernel).Some?
    ensures var s' := Take(s, t, message, kernel);
            && C.Conserved(s'.conn) && s'.conn.taken == Concat(s'.stream)
            && s'.conn.state == s.conn.state && s'.conn.halfCloses == s.conn.halfCloses && s'.conn.closes == s.conn.closes
            && (C.WritesWhenPending(s.conn) ==> C.WritesWhenPending(s'.conn))
            && (forall u :: Of(s'.stream, u) == Of(s.stream, u) + if u == t then [message] else [])
  {
    C.SendInLoopConserves(s.conn, message, kernel);
    forall u ensures Of(s.stream + [Entry(t, message)], u) == Of(s.stream, u) + if u == t then [message] else [] {
      OfAppend(s.stream, Entry(t, message), u);
    }
    OfAppend(s.stream, Entry(t, message), t);
  }

  // The five lemmas below are about the order of messages alone: they say which entries and
  // jobs move, and nothing of what the connection does with them.

  lemma OwnerSendKeepsOrder(s: Session, s': Session, e: Entry)
    requires Inv(s) && e.t == s.loop.owner && s'.loop == s.loop && s'.calls == s.calls
    requires s'.passed == s.passed + [e] && s'.stream == s.stream + [e]
    ensures forall u :: InOrder(s', u)
  {
    NoSends(s.loop.Todo(), e.t);
    forall u ensures InOrder(s', u) {
      assert InOrder(s, u);
      OfAppend(s.passed, e, u);
      OfAppend(s.stream, e, u);
    }
  }

  lemma ForeignCallKeepsOrder(s: Session, s': Session, job: Job)
    requires Inv(s) && !job.OtherJob? && job.t !in s.calls
    requires s'.loop == s.loop && s'.calls == s.calls[job.t := job] && s'.stream == s.stream
    requires s'.passed == s.passed + if job.SendJob? then [Entry(job.t, job.message)] else []
    ensures forall u :: InOrder(s', u)
  {
    forall u ensures InOrder(s', u) {
      assert InOrder(s, u);
      if job.SendJob? { OfAppend(s.passed, Entry(job.t, job.message), u); } else { assert s'.passed == s.passed; }
    }
  }

  lemma PushKeepsOrder(s: Session, s': Session, job: Job)
    requires Inv(s) && s'.loop.next <= |s'.loop.batch|
    requires s'.loop.Todo() == s.loop.Todo() + [job] && s'.passed == s.passed && s'.stream == s.stream
    requires if job.OtherJob? then s'.calls == s.calls
             else job.t in s.calls && s.calls[job.t] == job && s'.calls == s.calls - {job.t}
    ensures forall u :: InOrder(s', u)
  {
    forall u ensures InOrder(s', u) {
      assert InOrder(s, u);
      SendsOfAppend(s.loop.Todo(), job, u);
    }
  }

  lemma RunKeepsOrder(s: Session, s': Session, job: Job)
    requires Inv(s) && s'.loop.next <= |s'.loop.batch|
    requires s.loop.Todo() == [job] + s'.loop.Todo() && s'.passed == s.passed && s'.calls == s.calls
    requires s'.stream == s.stream + if job.SendJob? then [Entry(job.t, job.message)] else []
    ensures forall u :: InOrder(s', u)
  {
    forall u ensures InOrder(s', u) {
      assert InOrder(s, u);
      TakenFromFront(s.stream, s'.loop.Todo(), CallOf(s.calls, u), job, u);
    }
  }

  /** A message at the front of the queue may as well be at the end of the stream. */
  lemma TakenFromFront(stream: seq<Entry>, jobs: seq<Job>, call: seq<Bytes>, job: Job, u: ThreadId)
    ensures var stream' := stream + if job.SendJob? then [Entry(job.t, job.message)] else [];
            Of(stream', u) + SendsOf(jobs, u) + call == Of(stream, u) + SendsOf([job] + jobs, u) + call
  {
    SendsOfFront(job, jobs, u);
    var one := if job.SendJob? && job.t == u then [job.message] else [];
    if job.SendJob? {
      OfAppend(stream, Entry(job.t, job.message), u);
    } else {
      assert stream + [] == stream;
      assert Of(stream, u) == Of(stream, u) + one;
    }
    assert Of(stream, u) + (one + SendsOf(jobs, u)) == Of(stream, u) + one + SendsOf(jobs, u);
  }

  lemma IdleKeepsOrder(s: Session, s': Session)
    requires Inv(s) && s'.loop.next <= |s'.loop.batch|
    requires s'.loop.Todo() == s.loop.Todo() && s'.passed == s.passed && s'.calls == s.calls && s'.stream == s.stream
    ensures forall u :: InOrder(s', u)
  {
    forall u ensures InOrder(s', u) {
      assert InOrder(s, u);
    }
  }

  lemma SendKeepsInv(s: Session, t: ThreadId, message: Bytes, kernel: C.Kernel)
    requires Inv(s) && Enabled(s, Send(t, message, kernel))
    ensures Inv(Next(s, Send(t, message, kernel)))
  {
    if s.conn.state == C.Connected {
      var s' := Next(s, Send(t, message, kernel));
      if t == s.loop.owner {
        TakeInv(s.(passed := s.passed + [Entry(t, message)]), t, message, kernel);
        OwnerSendKeepsOrder(s, s', Entry(t, message));
      } else {
        ForeignCallKeepsOrder(s, s', SendJob(t, message));
      }
    }
  }

  lemma ShutdownKeepsInv(s: Session, t: ThreadId)
    requires Inv(s) && Enabled(s, Shutdown(t))
    ensures Inv(Next(s, Shutdown(t)))
  {
    if s.conn.state == C.Connected {
      var s' := Next(s, Shutdown(t));
      C.ShutDownInLoopConserves(C.BeginShutdown(s.conn));
      if t == s.loop.owner {
        IdleKeepsOrder(s, s');
      } else {
        assert s.passed + [] == s.passed;
        ForeignCallKeepsOrder(s, s', ShutdownJob(t));
      }
    }
  }

  lemma PushKeepsInv(s: Session, t: ThreadId)
    requires Inv(s) && Enabled(s, Push(t))
    ensures Inv(Next(s, Push(t)))
  {
    L.StepInv(s.loop, L.Queue(t, s.calls[t]));
    L.StepTodo(s.loop, L.Queue(t, s.calls[t]));
    PushKeepsOrder(s, Next(s, Push(t)), s.calls[t]);
  }

  lemma RunJobKeepsInv(s: Session, kernel: C.Kernel)
    requires Inv(s) && Enabled(s, RunJob(kernel))
    ensures Inv(Next(s, RunJob(kernel)))
  {
    var s' := Next(s, RunJob(kernel));
    var job := NextJob(s.loop);
    L.StepInv(s.loop, L.BeginFunctor);
    L.StepTodo(s.loop, L.BeginFunctor);
    assert s.loop.Todo() == [job] + s'.loop.Todo();
    if job.SendJob? {
      TakeInv(Begun(s), job.t, job.message, kernel);
    } else {
      C.ShutDownInLoopConserves(s.conn);
      assert s.stream + [] == s.stream;
    }
    RunKeepsOrder(s, s', job);
  }

  lemma OtherKeepsInv(s: Session, b: L.Action<Job>)
    requires Inv(s) && Enabled(s, Other(b))
    ensures Inv(Next(s, Other(b)))
  {
    var s' := Next(s, Other(b));
    L.StepInv(s.loop, b);
    L.StepTodo(s.loop, b);
    if b.Queue? {
      PushKeepsOrder(s, s', OtherJob);
    } else {
      IdleKeepsOrder(s, s');
    }
  }

  /** A write that does not abort comes before SHUT_WR. */
  lemma WritesInTime(s: Session, accepted: nat)
    requires s.conn.out.Shaped() && Enabled(s, Writable(accepted))
    ensures s.conn.IsWriting() ==> s.conn.halfCloses == 0
  {
  }

  lemma StepInv(s: Session, a: Action)
    requires Inv(s) && Enabled(s, a)
    ensures Inv(Next(s, a))
  {
    match a
    case Send(t, message, kernel) => SendKeepsInv(s, t, message, kernel);
    case Shutdown(t) => ShutdownKeepsInv(s, t);
    case Push(t) => PushKeepsInv(s, t);
    case RunJob(kernel) => RunJobKeepsInv(s, kernel);
    case Writable(accepted) =>
      WritesInTime(s, accepted);
      C.HandleWriteConserves(s.conn, accepted);
      IdleKeepsOrder(s, Next(s, a));
    case Close => IdleKeepsOrder(s, Next(s, a));
    case Other(b) => OtherKeepsInv(s, b);
  }

  // ----- runs -----

  ghost predicate IsRun(s: Session, run: seq<Action>)
    requires s.conn.out.Shaped()
    decreases |run|
  {
    run == [] || (Enabled(s, run[0]) && IsRun(Next(s, run[0]), run[1..]))
  }

  ghost function After(s: Session, run: seq<Action>): (s': Session)
    requires s.conn.out.Shaped() && IsRun(s, run)
    ensures s'.conn.out.Shaped()
    decreases |run|
  {
    if run == [] then s else After(Next(s, run[0]), run[1..])
  }

  lemma InitInv(s: Session)
    requires IsInit(s)
    ensures Inv(s) && C.WritesWhenPending(s.conn)
  {
    forall t ensures InOrder(s, t) {
      NoSendJobs(s.loop.Todo(), t);
    }
  }

  lemma {:induction false} RunInv(s: Session, run: seq<Action>)
    requires Inv(s) && IsRun(s, run)
    ensures Inv(After(s, run))
    decreases |run|
  {
    if run != [] {
      StepInv(s, run[0]);
      RunInv(Next(s, run[0]), run[1..]);
    }
  }

  /**
   The messages the program has accepted: those of all calls of `send`, in the order the calls were
   made, up to the first `shutdown`.
  */
  function Accepted(run: seq<Action>): seq<Entry> {
    if run == [] || run[0].Shutdown? then []
    else (if run[0].Send? then [Entry(run[0].t, run[0].message)] else []) + Accepted(run[1..])
  }

  /** What a call of `send` or `shutdown` does to the state, and to what has passed the check. */
  lemma StepPasses(s: Session, a: Action)
    requires s.conn.out.Shaped() && Enabled(s, a) && (s.conn.state == C.Connected || s.conn.state == C.Disconnecting)
    ensures var s' := Next(s, a);
            && s'.conn.state == (if a.Shutdown? then C.Disconnecting else s.conn.state)
            && s'.passed == s.passed + if a.Send? && s.conn.state == C.Connected then [Entry(a.t, a.message)] else []
  {
    hide Append, Retrieve;
  }

  predicate ShutsDown(run: seq<Action>) {
    exists k :: 0 <= k < |run| && run[k].Shutdown?
  }

  lemma ShutsDownFront(run: seq<Action>)
    requires run != []
    ensures ShutsDown(run) <==> run[0].Shutdown? || ShutsDown(run[1..])
  {
    if ShutsDown(run[1..]) {
      var k :| 0 <= k < |run[1..]| && run[1..][k].Shutdown?;
      assert run[k + 1].Shutdown?;
    }
    if ShutsDown(run) && !run[0].Shutdown? {
      var k :| 0 <= k < |run| && run[k].Shutdown?;
      assert run[1..][k - 1].Shutdown?;
    }
  }

  lemma {:induction false} StateFollows(s: Session, run: seq<Action>)
    requires s.conn.out.Shaped() && IsRun(s, run) && (s.conn.state == C.Connected || s.conn.state == C.Disconnecting)
    ensures After(s, run).conn.state == if s.conn.state == C.Connected && !ShutsDown(run) then C.Connected else C.Disconnecting
    decreases |run|
  {
    if run != [] {
      StepPasses(s, run[0]);
      ShutsDownFront(run);
      hide Next, Enabled, ShutsDown;
      StateFollows(Next(s, run[0]), run[1..]);
    }
  }

  lemma {:induction false} PassedIsAccepted(s: Session, run: seq<Action>)
    requires s.conn.out.Shaped() && IsRun(s, run) && (s.conn.state == C.Connected || s.conn.state == C.Disconnecting)
    ensures After(s, run).passed == s.passed + if s.conn.state == C.Connected then Accepted(run) else []
    decreases |run|
  {
    if run != [] {
      StepPasses(s, run[0]);
      hide Next, Enabled;
      PassedIsAccepted(Next(s, run[0]), run[1..]);
      var one := if run[0].Send? then [Entry(run[0].t, run[0].message)] else [];
      EntriesAssociate(s.passed, one, Accepted(run[1..]));
    }
  }

  lemma EntriesAssociate(a: seq<Entry>, b: seq<Entry>, c: seq<Entry>)
    ensures a + b + c == a + (b + c) && a + [] == a
  {
  }

  /** What has passed the check is what the calls of the run say, whichever thread made them. */
  lemma InitAccepts(s0: Session, run: seq<Action>)
    requires IsInit(s0) && IsRun(s0, run)
    ensures After(s0, run).passed == Accepted(run)
    ensures After(s0, run).conn.state == if ShutsDown(run) then C.Disconnecting else C.Connected
  {
    hide Next, Enabled, ShutsDown;
    PassedIsAccepted(s0, run);
    StateFollows(s0, run);
  }

  /**
   In every reachable state, for every interleaving and every answer of the kernel: the bytes on
   the socket followed by the output buffer are the messages taken so far in the order they were
   taken, and for each thread the messages taken, then queued, then about to be queued are
   exactly the messages it has called `send` with before the first `shutdown`, in that order.
  */
  lemma StreamKeepsEveryProducersOrder(s0: Session, run: seq<Action>, t: ThreadId)
    requires IsInit(s0) && IsRun(s0, run)
    ensures var s := After(s0, run);
            && s.conn.sent + s.conn.out.Content() == Concat(s.stream)
            && s.loop.next <= |s.loop.batch|
            && Of(s.stream, t) + SendsOf(s.loop.batch[s.loop.next..] + s.loop.pending, t) + CallOf(s.calls, t)
               == Of(Accepted(run), t)
            && (t == s0.loop.owner ==> Of(s.stream, t) == Of(Accepted(run), t))
  {
    InitInv(s0);
    RunInv(s0, run);
    InitAccepts(s0, run);
    var s := After(s0, run);
    assert InOrder(s, t);
    OwnerStays(s0, run);
    if t == s0.loop.owner { NoSends(s.loop.Todo(), t); }
  }

  lemma OwnerKept(s: Session, a: Action)
    requires s.conn.out.Shaped() && Enabled(s, a)
    ensures Next(s, a).loop.owner == s.loop.owner
  {
  }

  lemma {:induction false} OwnerStays(s: Session, run: seq<Action>)
    requires s.conn.out.Shaped() && IsRun(s, run)
    ensures After(s, run).loop.owner == s.loop.owner
    decreases |run|
  {
    if run != [] {
      OwnerKept(s, run[0]);
      OwnerStays(Next(s, run[0]), run[1..]);
    }
  }

  // ----- the half-close -----

  /** No send is on its way to the loop. */
  ghost predicate NoSendUnderway(s: Session)
    requires s.loop.next <= |s.loop.batch|
  {
    && (forall job :: job in s.loop.Todo() ==> !job.SendJob?)
    && (forall t :: t in s.calls ==> !s.calls[t].SendJob?)
  }

  lemma {:induction false} SomeSend(jobs: seq<Job>, t: ThreadId)
    requires exists job :: job in jobs && job.SendJob? && job.t == t
    ensures SendsOf(jobs, t) != []
  {
    var job :| job in jobs && job.SendJob? && job.t == t;
    if jobs[0] != job {
      assert job in jobs[1..];
      SomeSend(jobs[1..], t);
    }
  }

  lemma {:induction false} NoSendJobs(jobs: seq<Job>, t: ThreadId)
    requires forall job :: job in jobs ==> !job.SendJob?
    ensures SendsOf(jobs, t) == []
  {
    if jobs != [] {
      assert jobs[0] in jobs && forall job :: job in jobs[1..] ==> job in jobs;
      NoSendJobs(jobs[1..], t);
    }
  }

  lemma UnderwayIsNotTaken(s: Session) returns (t: ThreadId)
    requires Inv(s) && !NoSendUnderway(s)
    ensures Of(s.stream, t) != Of(s.passed, t)
  {
    if job :| job in s.loop.Todo() && job.SendJob? {
      t := job.t;
      assert InOrder(s, t);
      SomeSend(s.loop.Todo(), t);
    } else {
      t :| t in s.calls && s.calls[t].SendJob?;
      assert InOrder(s, t);
    }
    assert |Of(s.stream, t)| < |Of(s.passed, t)|;
  }

  lemma NothingUnderwayIsTaken(s: Session, t: ThreadId)
    requires Inv(s) && NoSendUnderway(s)
    ensures Of(s.stream, t) == Of(s.passed, t)
  {
    assert InOrder(s, t);
    NoSendJobs(s.loop.Todo(), t);
  }

  /** All that passed the check has been taken exactly when no send is queued or about to be. */
  lemma PassedAreTakenExactlyWhen(s: Session)
    requires Inv(s)
    ensures (forall t :: Of(s.stream, t) == Of(s.passed, t)) <==> NoSendUnderway(s)
  {
    hide InOrder;
    if NoSendUnderway(s) {
      forall t ensures Of(s.stream, t) == Of(s.passed, t) {
        NothingUnderwayIsTaken(s, t);
      }
    } else {
      var t := UnderwayIsNotTaken(s);
    }
  }

  /** Every message accepted in a run has been taken exactly when no send is queued or about to be. */
  lemma AllTakenExactlyWhen(s0: Session, run: seq<Action>)
    requires IsInit(s0) && IsRun(s0, run)
    ensures var s := After(s0, run);
            && s.loop.next <= |s.loop.batch|
            && ((forall t :: Of(s.stream, t) == Of(Accepted(run), t)) <==> NoSendUnderway(s))
  {
    hide Next, Enabled, NoSendUnderway, InOrder;
    InitInv(s0);
    RunInv(s0, run);
    InitAccepts(s0, run);
    PassedAreTakenExactlyWhen(After(s0, run));
  }

  lemma WritesKept(s: Session, a: Action)
    requires Inv(s) && C.WritesWhenPending(s.conn) && Enabled(s, a) && a != Close
    ensures C.Conserved(Next(s, a).conn) && C.WritesWhenPending(Next(s, a).conn)
  {
    match a
    case Send(t, message, kernel) =>
      if s.conn.state == C.Connected && t == s.loop.owner { TakeInv(s, t, message, kernel); }
    case Shutdown(t) => C.ShutDownInLoopConserves(C.BeginShutdown(s.conn));
    case RunJob(kernel) =>
      if NextJob(s.loop).SendJob? {
        TakeInv(s, NextJob(s.loop).t, NextJob(s.loop).message, kernel);
      } else {
        C.ShutDownInLoopConserves(s.conn);
      }
    case Writable(accepted) => WritesInTime(s, accepted); C.HandleWriteConserves(s.conn, accepted);
    case _ =>
  }

  lemma {:induction false} WritesInv(s: Session, run: seq<Action>)
    requires Inv(s) && C.WritesWhenPending(s.conn) && IsRun(s, run) && Close !in run
    ensures C.WritesWhenPending(After(s, run).conn)
    decreases |run|
  {
    if run != [] {
      assert run[0] in run && forall a :: a in run[1..] ==> a in run;
      WritesKept(s, run[0]);
      StepInv(s, run[0]);
      WritesInv(Next(s, run[0]), run[1..]);
    }
  }

  /** The write-interest invariant over whole runs: until the close, POLLOUT is asked for exactly while data waits. */
  lemma WritesExactlyWhilePending(s0: Session, run: seq<Action>)
    requires IsInit(s0) && IsRun(s0, run) && Close !in run
    ensures var c := After(s0, run).conn; c.IsWriting() <==> c.out.Content() != []
  {
    InitInv(s0);
    WritesInv(s0, run);
  }

  lemma HalfCloseFlushes(s: Session, a: Action)
    requires Inv(s) && C.WritesWhenPending(s.conn) && Enabled(s, a)
    requires Next(s, a).conn.halfCloses > s.conn.halfCloses
    ensures Inv(Next(s, a)) && Next(s, a).conn.sent == Concat(Next(s, a).stream)
  {
    hide InOrder, L.ReadsAreDue, L.WorkIsSignalled, L.QuitIsSignalled;
    var s' := Next(s, a);
    StepInv(s, a);
    match a
    case Writable(accepted) =>
      WritesInTime(s, accepted);
      C.HandleWriteConserves(s.conn, accepted);
      assert s'.conn.sent + [] == s'.conn.sent;
    case Shutdown(t) => C.ShutDownInLoopConserves(C.BeginShutdown(s.conn));
    case RunJob(kernel) =>
      if NextJob(s.loop).SendJob? {
        TakeInv(s, NextJob(s.loop).t, NextJob(s.loop).message, kernel);
      } else {
        C.ShutDownInLoopConserves(s.conn);
      }
    case Send(t, message, kernel) =>
      if s.conn.state == C.Connected && t == s.loop.owner { TakeInv(s, t, message, kernel); }
    case _ =>
  }

  /**
   Whenever SHUT_WR goes out before the connection closes, every byte taken so far is on the
   socket; every message accepted by any `send` is, exactly when none is queued or about to be
   queued by another thread at that moment.
  */
  lemma HalfCloseFlushesExactlyWhen(s0: Session, run: seq<Action>, a: Action)
    requires IsInit(s0) && IsRun(s0, run) && Close !in run
    requires Enabled(After(s0, run), a)
    requires Next(After(s0, run), a).conn.halfCloses > After(s0, run).conn.halfCloses
    ensures var s := Next(After(s0, run), a);
            && s.loop.next <= |s.loop.batch|
            && s.conn.sent == Concat(s.stream)
            && ((forall t :: Of(s.stream, t) == Of(Accepted(run + [a]), t)) <==> NoSendUnderway(s))
  {
    hide Next, Enabled, NoSendUnderway, InOrder, C.WritesWhenPending;
    InitInv(s0);
    RunInv(s0, run);
    WritesInv(s0, run);
    HalfCloseFlushes(After(s0, run), a);
    PassedAreTakenExactlyWhen(Next(After(s0, run), a));
    RunExtends(s0, run, a);
    InitAccepts(s0, run + [a]);
  }

  lemma {:induction false} RunExtends(s: Session, run: seq<Action>, a: Action)
    requires s.conn.out.Shaped() && IsRun(s, run) && Enabled(After(s, run), a)
    ensures IsRun(s, run + [a]) && After(s, run + [a]) == Next(After(s, run), a)
    decreases |run|
  {
    hide Next, Enabled;
    if run == [] {
      assert [] + [a] == [a] && [a][1..] == [];
      assert After(s, [a]) == After(Next(s, a), []);
    } else {
      RunExtends(Next(s, run[0]), run[1..], a);
      assert (run + [a])[1..] == run[1..] + [a];
    }
  }

  // ----- what the kernel took -----

  /** How much the kernel takes in a step, if the step tries to write. */
  function Answer(s: Session, a: Action): nat
    requires s.conn.out.Shaped() && Can(s, a)
  {
    match a
    case Send(t, message, kernel) =>
      if s.conn.state == C.Connected && t == s.loop.owner then C.Answer(s.conn, C.Op.Send(message, kernel)) else 0
    case RunJob(kernel) =>
      if NextJob(s.loop).SendJob? then C.Answer(s.conn, C.Op.Send(NextJob(s.loop).message, kernel)) else 0
    case Writable(accepted) => C.Answer(s.conn, C.Op.Writable(accepted))
    case _ => 0
  }

  ghost function Answers(s: Session, run: seq<Action>): nat
    requires s.conn.out.Shaped() && IsRun(s, run)
    decreases |run|
  {
    if run == [] then 0 else Answer(s, run[0]) + Answers(Next(s, run[0]), run[1..])
  }

  lemma StepIsAnswered(s: Session, a: Action)
    requires s.conn.out.Shaped() && Enabled(s, a)
    ensures |Next(s, a).conn.sent| == |s.conn.sent| + Answer(s, a)
    ensures Next(s, a).conn.closes == s.conn.closes + if a.Close? then 1 else 0
    ensures s.conn.muted || a.Close? ==> Next(s, a).conn.muted
  {
    match a
    case Send(t, message, kernel) =>
      if s.conn.state == C.Connected && t == s.loop.owner { C.StepIsAnswered(Repaired, s.conn, C.Op.Send(message, kernel)); }
    case RunJob(kernel) =>
      if NextJob(s.loop).SendJob? { C.StepIsAnswered(Repaired, s.conn, C.Op.Send(NextJob(s.loop).message, kernel)); }
    case Writable(accepted) => C.StepIsAnswered(Repaired, s.conn, C.Op.Writable(accepted));
    case _ =>
  }

  function ClosesIn(run: seq<Action>): nat {
    if run == [] then 0 else (if run[0].Close? then 1 else 0) + ClosesIn(run[1..])
  }

  /**
   Over the runs of any number of threads, through a close: the socket has got as many bytes as the
   kernel said it took, `handleClose` has run as often as an event asked for it, and after that the
   slot stays muted.
  */
  lemma {:induction false} SocketGetsWhatIsTaken(s: Session, run: seq<Action>)
    requires s.conn.out.Shaped() && IsRun(s, run)
    ensures |After(s, run).conn.sent| == |s.conn.sent| + Answers(s, run)
    ensures After(s, run).conn.closes == s.conn.closes + ClosesIn(run)
    ensures s.conn.muted || ClosesIn(run) > 0 ==> After(s, run).conn.muted
    decreases |run|
  {
    if run != [] {
      StepIsAnswered(s, run[0]);
      hide Next, Enabled, Answer;
      SocketGetsWhatIsTaken(Next(s, run[0]), run[1..]);
    }
  }

  // ----- calls from the loop's own thread -----

  ghost predicate OnlyOwnerCalls(owner: ThreadId, run: seq<Action>) {
    forall a :: a in run ==> a != Close && (a.Send? || a.Shutdown? ==> a.t == owner)
  }

  /** No call of another thread is anywhere on its way. */
  ghost predicate Quiet(s: Session)
    requires s.loop.next <= |s.loop.batch|
  {
    && s.calls == map[] && (forall job :: job in s.loop.Todo() ==> job.OtherJob?)
    && s.passed == s.stream
  }

  /** SHUT_WR has gone out once when a shutdown has found or left nothing to write, and not before. */
  ghost predicate HalfClosedWhenDrained(c: C.Conn) {
    && (c.state == C.Connected || c.state == C.Disconnecting)
    && c.halfCloses == (if c.state == C.Disconnecting && !c.IsWriting() then 1 else 0)
  }

  ghost predicate Graceful(s: Session)
    requires Inv(s)
  {
    C.WritesWhenPending(s.conn) && Quiet(s) && HalfClosedWhenDrained(s.conn)
  }

  predicate ByOwner(s: Session, a: Action) {
    a != Close && (a.Send? || a.Shutdown? ==> a.t == s.loop.owner)
  }

  lemma QuietRunJob(s: Session, kernel: C.Kernel)
    requires Inv(s) && Quiet(s) && Enabled(s, RunJob(kernel))
    ensures L.Conserved(Next(s, RunJob(kernel)).loop) && Quiet(Next(s, RunJob(kernel)))
  {
    hide InOrder, C.Conserved, L.ReadsAreDue, L.WorkIsSignalled, L.QuitIsSignalled;
    L.StepTodo(s.loop, L.BeginFunctor);
    L.StepConserves(s.loop, L.BeginFunctor);
    assert NextJob(s.loop) in s.loop.Todo();
  }

  lemma QuietOther(s: Session, b: L.Action<Job>)
    requires Inv(s) && Quiet(s) && Enabled(s, Other(b))
    ensures L.Conserved(Next(s, Other(b)).loop) && Quiet(Next(s, Other(b)))
  {
    hide InOrder, C.Conserved, L.ReadsAreDue, L.WorkIsSignalled, L.QuitIsSignalled;
    L.StepTodo(s.loop, b);
    L.StepConserves(s.loop, b);
  }

  lemma QuietOwnCall(s: Session, a: Action)
    requires Inv(s) && Quiet(s) && Enabled(s, a) && ByOwner(s, a) && !a.RunJob? && !a.Other?
    ensures Next(s, a).loop == s.loop && Quiet(Next(s, a))
  {
    hide L.Inv, InOrder, C.Conserved, C.SendInLoop, C.HandleWrite, C.ShutDownInLoop;
  }

  lemma QuietStep(s: Session, a: Action)
    requires Inv(s) && Quiet(s) && Enabled(s, a) && ByOwner(s, a)
    ensures L.Conserved(Next(s, a).loop) && Quiet(Next(s, a))
  {
    hide Next, Enabled, InOrder;
    match a
    case RunJob(kernel) => QuietRunJob(s, kernel);
    case Other(b) => QuietOther(s, b);
    case _ => QuietOwnCall(s, a);
  }

  lemma HalfClosedStep(s: Session, a: Action)
    requires Inv(s) && Graceful(s) && Enabled(s, a) && ByOwner(s, a)
    ensures HalfClosedWhenDrained(Next(s, a).conn)
  {
    match a
    case Send(t, message, kernel) =>
      if s.conn.state == C.Connected { TakeInv(s, t, message, kernel); }
    case RunJob(kernel) =>
      L.StepTodo(s.loop, L.BeginFunctor);
      assert NextJob(s.loop) in s.loop.Todo();
    case Writable(accepted) => WritesKept(s, a); WritesInTime(s, accepted); C.HandleWriteConserves(s.conn, accepted);
    case _ =>
  }

  lemma GracefulStep(s: Session, a: Action)
    requires Inv(s) && Graceful(s) && Enabled(s, a) && ByOwner(s, a)
    ensures Inv(Next(s, a)) && Graceful(Next(s, a))
  {
    WritesKept(s, a);
    StepInv(s, a);
    QuietStep(s, a);
    HalfClosedStep(s, a);
  }

  lemma {:induction false} GracefulInv(s: Session, run: seq<Action>)
    requires Inv(s) && Graceful(s) && IsRun(s, run) && OnlyOwnerCalls(s.loop.owner, run)
    ensures Inv(After(s, run)) && Graceful(After(s, run))
    decreases |run|
  {
    if run != [] {
      assert run[0] in run && forall a :: a in run[1..] ==> a in run;
      OwnerKept(s, run[0]);
      GracefulStep(s, run[0]);
      GracefulInv(Next(s, run[0]), run[1..]);
    }
  }

  /**
   With `send` and `shutdown` called on the loop's thread, SHUT_WR goes out at most once, and it
   has gone out exactly when a shutdown was asked for and everything accepted is on the socket.
  */
  lemma HalfCloseIsGraceful(s0: Session, run: seq<Action>)
    requires IsInit(s0) && IsRun(s0, run) && OnlyOwnerCalls(s0.loop.owner, run)
    ensures var s := After(s0, run);
            && s.conn.halfCloses <= 1
            && (s.conn.halfCloses == 1 <==> ShutsDown(run) && s.conn.sent == Concat(Accepted(run)))
  {
    hide ShutsDown;
    InitInv(s0);
    GracefulInv(s0, run);
    InitAccepts(s0, run);
    var s := After(s0, run);
    assert s.conn.sent + s.conn.out.Content() == Concat(s.passed);
    if s.conn.out.Content() == [] { assert s.conn.sent + [] == s.conn.sent; }
  }
}
