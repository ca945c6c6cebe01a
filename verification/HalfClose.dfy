/**
 How often SHUT_WR goes out, and what becomes of messages that come too late for it: `shutdown`
 of net/TcpConnection.cpp, called from any thread, over the runs of `Session`.
*/
module HalfClose {
  import opened Prelude
  import opened Ring
  import opened Session
  import L = LoopMachine
  import C = Connection
  import RR = RingRuns

  // ----- the action of a shutdown that is queued, or about to be -----

  function ShutdownsIn(jobs: seq<Job>): nat {
    if jobs == [] then 0 else (if jobs[0].ShutdownJob? then 1 else 0) + ShutdownsIn(jobs[1..])
  }

  lemma {:induction false} ShutdownsInAppend(jobs: seq<Job>, job: Job)
    ensures ShutdownsIn(jobs + [job]) == ShutdownsIn(jobs) + if job.ShutdownJob? then 1 else 0
  {
    if jobs == [] {
      assert jobs + [job] == [job];
    } else {
      assert (jobs + [job])[1..] == jobs[1..] + [job];
      ShutdownsInAppend(jobs[1..], job);
    }
  }

  lemma {:induction false} NoShutdownsIn(jobs: seq<Job>)
    requires forall job :: job in jobs ==> !job.ShutdownJob?
    ensures ShutdownsIn(jobs) == 0
  {
    if jobs != [] {
      assert jobs[0] in jobs && forall job :: job in jobs[1..] ==> job in jobs;
      NoShutdownsIn(jobs[1..]);
    }
  }

  function ShutdownCalls(calls: map<ThreadId, Job>): set<ThreadId> {
    set t | t in calls && calls[t].ShutdownJob?
  }

  /** Actions of shutdowns that have passed their check and have not begun. */
  function Outstanding(s: Session): nat
    requires s.loop.next <= |s.loop.batch|
  {
    ShutdownsIn(s.loop.Todo()) + |ShutdownCalls(s.calls)|
  }

  /** One shutdown passes its check; its action and the last byte to leave account for SHUT_WR, once each. */
  ghost predicate Accounted(s: Session)
    requires s.loop.next <= |s.loop.batch|
  {
    && (s.conn.state == C.Connected || s.conn.state == C.Disconnecting)
    && (s.conn.state == C.Connected ==> s.conn.halfCloses == 0 && Outstanding(s) == 0)
    && (s.conn.halfCloses > 0 ==> !s.conn.IsWriting())
    && Outstanding(s) <= 1 && s.conn.halfCloses + Outstanding(s) <= 2
    && (s.conn.state == C.Disconnecting && Outstanding(s) == 0 && s.conn.halfCloses == 0 ==> s.conn.IsWriting())
  }

  /** What holds on the way while the connection is not closed. */
  ghost predicate Open(s: Session) {
    Inv(s) && C.WritesWhenPending(s.conn) && Accounted(s)
  }

  lemma InitOpen(s: Session)
    requires IsInit(s)
    ensures Open(s)
  {
    InitInv(s);
    NoShutdownsIn(s.loop.Todo());
    assert ShutdownCalls(s.calls) == {};
  }

  // ----- which steps send SHUT_WR -----

  /** The action of another thread's shutdown begins. */
  predicate RunsShutdown(s: Session, a: Action) {
    a.RunJob? && s.loop.next < |s.loop.batch| && NextJob(s.loop).ShutdownJob?
  }

  /** The owner's shutdown passes its check. */
  predicate ShutsDownAtOnce(s: Session, a: Action) {
    a.Shutdown? && a.t == s.loop.owner && s.conn.state == C.Connected
  }

  /** The last byte that waited leaves a connection that is shutting down. */
  predicate Drains(s: Session, a: Action)
    requires s.conn.out.Shaped()
  {
    a.Writable? && s.conn.state == C.Disconnecting && s.conn.IsWriting() && a.accepted == s.conn.out.Readable()
  }

  lemma SendKeepsCount(c: C.Conn, message: Bytes, kernel: C.Kernel)
    requires c.out.Shaped() && C.Fits(kernel, message) && C.SendInLoop(Repaired, c, message, kernel).Some?
    ensures var c' := C.SendInLoop(Repaired, c, message, kernel).value;
            c'.halfCloses == c.halfCloses && c'.state == c.state && (c.IsWriting() ==> c'.IsWriting())
  {
  }

  lemma WriteCounts(s: Session, accepted: nat)
    requires Inv(s) && C.WritesWhenPending(s.conn) && Enabled(s, Writable(accepted))
    ensures var c, c' := s.conn, Next(s, Writable(accepted)).conn;
            && c'.state == c.state
            && c'.halfCloses == c.halfCloses + (if Drains(s, Writable(accepted)) then 1 else 0)
            && (Drains(s, Writable(accepted)) ==> !c'.IsWriting())
            && (c'.IsWriting() ==> c.IsWriting())
            && (c.state == C.Disconnecting && c.IsWriting() && !c'.IsWriting() ==> Drains(s, Writable(accepted)))
  {
    WritesInTime(s, accepted);
    C.HandleWriteConserves(s.conn, accepted);
    RR.QueriesAgree(s.conn.out);
    RR.QueriesAgree(Next(s, Writable(accepted)).conn.out);
  }

  /**
   SHUT_WR goes out exactly when a shutdown's action begins with nothing waiting (at once on the
   owner's thread, or as a functor), or the last byte that waited leaves while shutting down.
  */
  lemma StepHalfClosesExactlyWhen(s: Session, a: Action)
    requires Inv(s) && C.WritesWhenPending(s.conn) && Enabled(s, a) && a != Close
    ensures Next(s, a).conn.halfCloses
            == s.conn.halfCloses
               + if Drains(s, a) || ((RunsShutdown(s, a) || ShutsDownAtOnce(s, a)) && !s.conn.IsWriting()) then 1 else 0
  {
    match a
    case Send(t, message, kernel) =>
      if s.conn.state == C.Connected && t == s.loop.owner { SendKeepsCount(s.conn, message, kernel); }
    case RunJob(kernel) =>
      if NextJob(s.loop).SendJob? { SendKeepsCount(s.conn, NextJob(s.loop).message, kernel); }
    case Writable(accepted) => WriteCounts(s, accepted);
    case _ =>
  }

  // ----- every step keeps the account -----

  lemma CallsAfter(calls: map<ThreadId, Job>, t: ThreadId, job: Job)
    ensures t !in calls ==> |ShutdownCalls(calls[t := job])| == |ShutdownCalls(calls)| + if job.ShutdownJob? then 1 else 0
    ensures t in calls ==> |ShutdownCalls(calls - {t})| == |ShutdownCalls(calls)| - if calls[t].ShutdownJob? then 1 else 0
  {
    if t !in calls {
      assert ShutdownCalls(calls[t := job]) == ShutdownCalls(calls) + if job.ShutdownJob? then {t} else {};
    } else {
      assert ShutdownCalls(calls - {t}) == ShutdownCalls(calls) - if calls[t].ShutdownJob? then {t} else {};
    }
  }

  /** How a step changes the number of outstanding actions. */
  lemma StepOutstanding(s: Session, a: Action)
    requires Inv(s) && Enabled(s, a)
    ensures L.Conserved(Next(s, a).loop)
    ensures Outstanding(Next(s, a)) == Outstanding(s)
                                       + (if a.Shutdown? && s.conn.state == C.Connected && a.t != s.loop.owner then 1 else 0)
                                       - (if RunsShutdown(s, a) then 1 else 0)
  {
    hide InOrder, C.Conserved, C.SendInLoop, C.HandleWrite, L.ReadsAreDue, L.WorkIsSignalled, L.QuitIsSignalled;
    match a
    case Send(t, message, _) => CallsAfter(s.calls, t, SendJob(t, message));
    case Shutdown(t) => CallsAfter(s.calls, t, ShutdownJob(t));
    case Push(t) =>
      L.StepTodo(s.loop, L.Queue(t, s.calls[t]));
      L.StepConserves(s.loop, L.Queue(t, s.calls[t]));
      CallsAfter(s.calls, t, OtherJob);
      ShutdownsInAppend(s.loop.Todo(), s.calls[t]);
    case RunJob(_) =>
      L.StepTodo(s.loop, L.BeginFunctor);
      L.StepConserves(s.loop, L.BeginFunctor);
    case Other(b) =>
      L.StepTodo(s.loop, b);
      L.StepConserves(s.loop, b);
      if b.Queue? { ShutdownsInAppend(s.loop.Todo(), OtherJob); }
    case _ =>
  }

  /** A queued send that survives comes before SHUT_WR. */
  lemma SendsInTime(s: Session, kernel: C.Kernel)
    requires Open(s) && Enabled(s, RunJob(kernel)) && NextJob(s.loop).SendJob?
    ensures s.conn.halfCloses == 0
  {
    RR.QueriesAgree(s.conn.out);
  }

  /** Where the state and the interest of a connection go. */
  lemma StepState(s: Session, a: Action)
    requires Open(s) && Enabled(s, a) && a != Close
    ensures var c, c' := s.conn, Next(s, a).conn;
            && c'.state == (if a.Shutdown? then C.Disconnecting else c.state)
            && (c.IsWriting() && !c'.IsWriting() && c.state == C.Disconnecting ==> Drains(s, a))
            && (!c.IsWriting() && c'.IsWriting() ==> c.halfCloses == 0 && !a.Shutdown? && !RunsShutdown(s, a))
            && (Drains(s, a) ==> !c'.IsWriting())
            && (a.Shutdown? || RunsShutdown(s, a) ==> c'.IsWriting() == c.IsWriting())
  {
    match a
    case Send(t, message, kernel) =>
      if s.conn.state == C.Connected && t == s.loop.owner { SendKeepsCount(s.conn, message, kernel); }
    case RunJob(kernel) =>
      if NextJob(s.loop).SendJob? {
        SendsInTime(s, kernel);
        SendKeepsCount(s.conn, NextJob(s.loop).message, kernel);
      }
    case Writable(accepted) => WriteCounts(s, accepted);
    case _ =>
  }

  lemma StepAccounted(s: Session, a: Action)
    requires Open(s) && Enabled(s, a) && a != Close
    ensures L.Conserved(Next(s, a).loop) && Accounted(Next(s, a))
  {
    StepOutstanding(s, a);
    StepState(s, a);
    StepHalfClosesExactlyWhen(s, a);
    hide Next, Enabled, Outstanding, Inv, C.WritesWhenPending;
  }

  lemma StepOpen(s: Session, a: Action)
    requires Open(s) && Enabled(s, a) && a != Close
    ensures Open(Next(s, a))
  {
    hide Enabled, Next, C.WritesWhenPending, Accounted;
    StepInv(s, a);
    WritesKept(s, a);
    StepAccounted(s, a);
  }

  lemma {:induction false} RunOpen(s: Session, run: seq<Action>)
    requires Open(s) && IsRun(s, run) && Close !in run
    ensures Open(After(s, run))
    decreases |run|
  {
    if run != [] {
      hide Enabled, Next, C.WritesWhenPending, Accounted;
      assert run[0] in run && forall a :: a in run[1..] ==> a in run;
      StepOpen(s, run[0]);
      RunOpen(Next(s, run[0]), run[1..]);
    }
  }

  // ----- how often -----

  /** Somewhere in the run, the action of another thread's shutdown begins. */
  ghost predicate RunsShutdownIn(s: Session, run: seq<Action>)
    requires s.conn.out.Shaped() && IsRun(s, run)
    decreases |run|
  {
    run != [] && (RunsShutdown(s, run[0]) || RunsShutdownIn(Next(s, run[0]), run[1..]))
  }

  /** The last byte leaves while shutting down, and later in the run the shutdown's own action begins. */
  ghost predicate DrainsBeforeAction(s: Session, run: seq<Action>)
    requires s.conn.out.Shaped() && IsRun(s, run)
    decreases |run|
  {
    run != [] &&
    var s1 := Next(s, run[0]);
    (Drains(s, run[0]) && RunsShutdownIn(s1, run[1..])) || DrainsBeforeAction(s1, run[1..])
  }

  /** Once a shutdown's action has begun, there is no other. */
  lemma {:induction false} NoSecondAction(s: Session, run: seq<Action>)
    requires Open(s) && IsRun(s, run) && Close !in run
    requires s.conn.state == C.Disconnecting && Outstanding(s) == 0
    ensures !RunsShutdownIn(s, run) && !DrainsBeforeAction(s, run)
    decreases |run|
  {
    if run != [] {
      assert run[0] in run && forall a :: a in run[1..] ==> a in run;
      StepOpen(s, run[0]);
      StepOutstanding(s, run[0]);
      StepState(s, run[0]);
      hide Next, Enabled, Outstanding, Inv, C.WritesWhenPending, RunsShutdown, Drains;
      NoSecondAction(Next(s, run[0]), run[1..]);
    }
  }

  lemma {:induction false} CountsFrom(s: Session, run: seq<Action>)
    requires Open(s) && IsRun(s, run) && Close !in run
    ensures Open(After(s, run))
    ensures After(s, run).conn.halfCloses == 2
            <==> s.conn.halfCloses == 2 || (s.conn.halfCloses == 1 && RunsShutdownIn(s, run)) || DrainsBeforeAction(s, run)
    decreases |run|
  {
    if run != [] {
      assert run[0] in run && forall a :: a in run[1..] ==> a in run;
      var s1 := Next(s, run[0]);
      StepOpen(s, run[0]);
      StepOutstanding(s, run[0]);
      StepState(s, run[0]);
      StepHalfClosesExactlyWhen(s, run[0]);
      CountsFrom(s1, run[1..]);
      if s1.conn.state == C.Disconnecting && Outstanding(s1) == 0 { NoSecondAction(s1, run[1..]); }
      hide Next, Enabled, Outstanding, Inv, C.WritesWhenPending;
    }
  }

  /**
   In every run of any number of threads in which the connection is not closed, SHUT_WR goes out
   at most twice; and twice exactly when the last waiting byte leaves after the shutdown's state
   change and before its queued action begins. (The owner's action is not queued, so its own
   shutdown never repeats.)
  */
  lemma HalfClosesTwiceExactlyWhen(s0: Session, run: seq<Action>)
    requires IsInit(s0) && IsRun(s0, run) && Close !in run
    ensures After(s0, run).conn.halfCloses <= 2
    ensures After(s0, run).conn.halfCloses == 2 <==> DrainsBeforeAction(s0, run)
  {
    hide Next, Enabled, C.WritesWhenPending;
    InitOpen(s0);
    CountsFrom(s0, run);
    assert Accounted(After(s0, run));
  }

  /** No shutdown's action is queued or about to be. */
  ghost predicate NoShutdownUnderway(s: Session)
    requires s.loop.next <= |s.loop.batch|
  {
    && (forall job :: job in s.loop.Todo() ==> !job.ShutdownJob?)
    && (forall t :: t in s.calls ==> !s.calls[t].ShutdownJob?)
  }

  lemma NoneOutstanding(s: Session)
    requires s.loop.next <= |s.loop.batch| && NoShutdownUnderway(s)
    ensures Outstanding(s) == 0
  {
    NoShutdownsIn(s.loop.Todo());
    assert ShutdownCalls(s.calls) == {};
  }

  /**
   No shutdown is lost, whichever thread calls it: once its action is no longer underway, SHUT_WR has
   gone out exactly when nothing waits, and as long as something does it is still to come.
  */
  lemma ShutdownIsCarriedOut(s0: Session, run: seq<Action>)
    requires IsInit(s0) && IsRun(s0, run) && Close !in run
    ensures After(s0, run).loop.next <= |After(s0, run).loop.batch|
    ensures NoShutdownUnderway(After(s0, run)) ==>
              (After(s0, run).conn.halfCloses > 0 <==> ShutsDown(run) && After(s0, run).conn.out.Content() == [])
  {
    hide Next, Enabled, Outstanding, ShutsDown, InOrder;
    InitOpen(s0);
    RunOpen(s0, run);
    InitAccepts(s0, run);
    if NoShutdownUnderway(After(s0, run)) { NoneOutstanding(After(s0, run)); }
  }

  // ----- messages that come too late -----

  /** The next functor would send on a socket already closed for writing. */
  predicate SendsTooLate(s: Session, a: Action) {
    a.RunJob? && s.loop.next < |s.loop.batch| && NextJob(s.loop).SendJob? && s.conn.halfCloses > 0
  }

  lemma JobAbortsExactlyWhen(s: Session, kernel: C.Kernel)
    requires Open(s) && Can(s, RunJob(kernel))
    ensures !Enabled(s, RunJob(kernel)) <==> SendsTooLate(s, RunJob(kernel))
  {
    if NextJob(s.loop).SendJob? {
      RR.QueriesAgree(s.conn.out);
      C.SendInLoopConserves(s.conn, NextJob(s.loop).message, kernel);
      hide C.SendInLoop, C.Conserved, Inv, Outstanding;
    }
  }

  lemma StepAbortsExactlyWhen(s: Session, a: Action)
    requires Open(s) && Can(s, a) && a != Close
    ensures !Enabled(s, a) <==> SendsTooLate(s, a)
  {
    match a
    case Send(t, message, kernel) => C.SendInLoopConserves(s.conn, message, kernel);
    case RunJob(kernel) => JobAbortsExactlyWhen(s, kernel);
    case Writable(accepted) => C.HandleWriteConserves(s.conn, accepted);
    case _ =>
  }

  /** A program aborts exactly where a queued send begins after SHUT_WR: its `write` gets EPIPE. */
  lemma AbortsExactlyWhen(s0: Session, run: seq<Action>, a: Action)
    requires IsInit(s0) && IsRun(s0, run) && Close !in run
    requires Can(After(s0, run), a) && a != Close
    ensures !Enabled(After(s0, run), a) <==> SendsTooLate(After(s0, run), a)
  {
    hide Enabled, Can, Next, C.WritesWhenPending;
    InitOpen(s0);
    RunOpen(s0, run);
    StepAbortsExactlyWhen(After(s0, run), a);
  }

  lemma NothingIsTaken(s: Session, a: Action)
    requires Open(s) && Enabled(s, a) && a != Close && s.conn.halfCloses > 0
    ensures Next(s, a).stream == s.stream && Next(s, a).passed == s.passed
    ensures Next(s, a).conn.halfCloses > 0 && Next(s, a).conn.sent == s.conn.sent
  {
    StepHalfClosesExactlyWhen(s, a);
    if a.RunJob? && NextJob(s.loop).SendJob? { SendsInTime(s, a.kernel); }
  }

  lemma {:induction false} NothingIsTakenIn(s: Session, run: seq<Action>)
    requires Open(s) && IsRun(s, run) && Close !in run && s.conn.halfCloses > 0
    ensures var s' := After(s, run);
            && Open(s') && s'.stream == s.stream && s'.passed == s.passed
            && s'.conn.halfCloses > 0 && s'.conn.sent == s.conn.sent
    decreases |run|
  {
    if run != [] {
      assert run[0] in run && forall a :: a in run[1..] ==> a in run;
      StepOpen(s, run[0]);
      NothingIsTaken(s, run[0]);
      hide Next, Enabled, Inv, C.WritesWhenPending, Accounted;
      NothingIsTakenIn(Next(s, run[0]), run[1..]);
    }
  }

  lemma TooLateIsUnderway(s: Session, a: Action)
    requires Inv(s) && SendsTooLate(s, a)
    ensures !NoSendUnderway(s)
  {
    assert NextJob(s.loop) in s.loop.Todo();
  }

  /** After SHUT_WR nothing waits in the buffer. */
  lemma NothingIsLeft(s: Session)
    requires Open(s) && s.conn.halfCloses > 0
    ensures s.conn.sent == Concat(s.stream)
  {
    assert s.conn.out.Content() == [];
  }

  /**
   After SHUT_WR all that was taken is on the socket, and nothing more reaches it, in any
   continuation. Every accepted message is there, now and ever after, exactly when no send is
   underway at this moment; and then no step of any continuation aborts. A send that is underway is
   lost, or aborts the program when it begins.
  */
  lemma SentForeverExactlyWhen(s0: Session, run: seq<Action>, more: seq<Action>)
    requires IsInit(s0) && IsRun(s0, run) && Close !in run && After(s0, run).conn.halfCloses > 0
    requires IsRun(After(s0, run), more) && Close !in more
    ensures var s, s' := After(s0, run), After(After(s0, run), more);
            && s.loop.next <= |s.loop.batch|
            && s'.conn.sent == s.conn.sent == Concat(s'.stream)
            && ((forall t :: Of(s'.stream, t) == Of(Accepted(run), t)) <==> NoSendUnderway(s))
            && (NoSendUnderway(s) ==> forall a :: a != Close && Can(s', a) ==> Enabled(s', a))
  {
    hide Enabled, Can, Next, C.WritesWhenPending, Accounted, InOrder, NoSendUnderway, SendsTooLate;
    InitOpen(s0);
    RunOpen(s0, run);
    InitAccepts(s0, run);
    var s := After(s0, run);
    NothingIsTakenIn(s, more);
    var s' := After(s, more);
    NothingIsLeft(s');
    PassedAreTakenExactlyWhen(s);
    PassedAreTakenExactlyWhen(s');
    forall a | a != Close && Can(s', a) && NoSendUnderway(s) ensures Enabled(s', a) {
      StepAbortsExactlyWhen(s', a);
      if SendsTooLate(s', a) { TooLateIsUnderway(s', a); }
    }
  }

  // ----- two runs, from the establishment of a connection -----

  /** `run` leads from `s` to `s'`. */
  ghost predicate Leads(s: Session, run: seq<Action>, s': Session) {
    s.conn.out.Shaped() && IsRun(s, run) && After(s, run) == s'
  }

  lemma {:induction false} LeadsOn(s: Session, run: seq<Action>, s1: Session, more: seq<Action>, s2: Session)
    requires Leads(s, run, s1) && Leads(s1, more, s2)
    ensures Leads(s, run + more, s2)
    decreases |run|
  {
    hide Enabled, Next;
    if run == [] {
      assert run + more == more;
    } else {
      LeadsOn(Next(s, run[0]), run[1..], s1, more, s2);
      assert (run + more)[1..] == run[1..] + more;
    }
  }

  /** Some run in which the connection is not closed leads from `s` to `s'`. */
  ghost predicate Reaches(s: Session, s': Session) {
    exists run :: Leads(s, run, s') && Close !in run
  }

  lemma ReachesOn(s: Session, s1: Session, s2: Session)
    requires Reaches(s, s1) && Reaches(s1, s2)
    ensures Reaches(s, s2)
  {
    hide Leads;
    var run :| Leads(s, run, s1) && Close !in run;
    var more :| Leads(s1, more, s2) && Close !in more;
    LeadsOn(s, run, s1, more, s2);
    assert Close !in run + more;
  }

  lemma OneStep(s: Session, a: Action)
    requires s.conn.out.Shaped() && Enabled(s, a) && a != Close
    ensures Reaches(s, Next(s, a))
  {
    assert [a][1..] == [];
    assert After(s, [a]) == After(Next(s, a), []);
    assert Leads(s, [a], Next(s, a));
  }

  lemma StaysOpen(s: Session, s': Session)
    requires Open(s) && Reaches(s, s')
    ensures Open(s')
  {
    var run :| Leads(s, run, s') && Close !in run;
    RunOpen(s, run);
  }

  lemma {:induction false} LoopRuns(s: Session, run: seq<L.Action<Job>>)
    requires s.conn.out.Shaped() && L.IsRun(s.loop, run)
    requires forall a :: a in run ==> !a.BeginFunctor? && !a.Queue? && !a.Quit?
    ensures Reaches(s, s.(loop := L.After(s.loop, run)))
    decreases |run|
  {
    if run == [] {
      assert Leads(s, [], s);
    } else {
      OneStep(s, Other(run[0]));
      assert forall a :: a in run[1..] ==> a in run;
      LoopRuns(Next(s, Other(run[0])), run[1..]);
      ReachesOn(s, Next(s, Other(run[0])), s.(loop := L.After(s.loop, run)));
    }
  }

  /** A connection just established, on a loop in its first callback. */
  ghost function Fresh(owner: ThreadId, event: L.Event): (s: Session)
    requires event != L.WakeupEvent
    ensures IsInit(s) && L.InCallback(s.loop) && s.loop.owner == owner
  {
    L.OpeningRuns<Job>(owner, event);
    L.InitInv<Job>(owner);
    L.RunInv<Job>(L.Init(owner), L.Opening(event));
    Session(L.After(L.Init(owner), L.Opening(event)), C.ConnectEstablished(C.NEW).value, map[], [], [])
  }

  /** A call of another thread reaches the queue, and the loop is woken. */
  lemma CallArrives(s: Session, t: ThreadId)
    requires s.conn.out.Shaped() && L.InCallback(s.loop) && t != s.loop.owner && t in s.calls
    ensures Reaches(s, s.(calls := s.calls - {t}, loop := s.loop.(
                    pending := [s.calls[t]], pushed := s.loop.pushed + [s.calls[t]], counter := 1)))
  {
    var s1 := Next(s, Push(t));
    OneStep(s, Push(t));
    OneStep(s1, Other(L.Wake(t)));
    ReachesOn(s, s1, Next(s1, Other(L.Wake(t))));
  }

  /** From the callback to the batch. */
  function ToBatch(): seq<L.Action<Job>> {
    [L.EndEvent] + [L.EndDispatch] + [L.Swap]
  }

  lemma BatchComes(l: L.Loop<Job>)
    requires l.phase.Dispatch? && |l.phase.active| == 1 && l.busy && l.due == {}
    ensures L.IsRun(l, ToBatch())
    ensures L.After(l, ToBatch())
            == l.(phase := L.RunBatch, busy := false, calling := true, batch := l.pending, next := 0, pending := [])
  {
    L.RunOfOne(l, L.EndEvent);
    L.RunExtends(l, [L.EndEvent], L.EndDispatch);
    L.RunExtends(l, [L.EndEvent] + [L.EndDispatch], L.Swap);
  }

  /** `s'` is `s` with a loop that comes to `job` next, and no call on its way. */
  ghost predicate ComesTo(s: Session, s': Session, job: Job) {
    && Reaches(s, s') && s'.conn == s.conn && s'.passed == s.passed && s'.stream == s.stream
    && L.Enabled(s'.loop, L.BeginFunctor) && NextJob(s'.loop) == job
  }

  /** A call on its way to the queue becomes the next functor to begin. */
  lemma CallBecomesNext(s: Session, t: ThreadId)
    requires s.conn.out.Shaped() && L.InCallback(s.loop) && t != s.loop.owner && t in s.calls
    ensures exists s' :: ComesTo(s, s', s.calls[t])
  {
    CallArrives(s, t);
    var s1 := s.(calls := s.calls - {t}, loop := s.loop.(
               pending := [s.calls[t]], pushed := s.loop.pushed + [s.calls[t]], counter := 1));
    BatchComes(s1.loop);
    LoopRuns(s1, ToBatch());
    var s2 := s1.(loop := L.After(s1.loop, ToBatch()));
    ReachesOn(s, s1, s2);
    assert ComesTo(s, s2, s.calls[t]);
  }

  // A send passes its check on another thread, then the owner shuts down in a callback.

  ghost predicate Overtaken(s: Session, loop: L.Loop<Job>, other: ThreadId, message: Bytes) {
    && s.loop == loop && s.calls == map[other := SendJob(other, message)]
    && s.conn.out.Shaped() && s.conn.out.Readable() == 0 && !s.conn.IsWriting()
    && s.conn.halfCloses == 1 && s.conn.sent == [] && Of(s.passed, other) == [message]
  }

  lemma SendThenShutdown(s0: Session, other: ThreadId, message: Bytes)
    requires IsInit(s0) && L.InCallback(s0.loop) && other != s0.loop.owner
    ensures exists s :: Reaches(s0, s) && Overtaken(s, s0.loop, other, message)
  {
    var send, shutdown := Send(other, message, C.WouldBlock), Shutdown(s0.loop.owner);
    OneStep(s0, send);
    var s1 := Next(s0, send);
    OfAppend([], Entry(other, message), other);
    assert s1.passed == [] + [Entry(other, message)];
    OneStep(s1, shutdown);
    ReachesOn(s0, s1, Next(s1, shutdown));
    assert Overtaken(Next(s1, shutdown), s0.loop, other, message);
  }

  lemma BegunSendAborts(s: Session)
    requires s.conn.out.Shaped() && L.Enabled(s.loop, L.BeginFunctor) && NextJob(s.loop).SendJob?
    requires s.conn.halfCloses > 0 && !s.conn.IsWriting() && s.conn.out.Readable() == 0
    ensures Can(s, RunJob(C.Broken)) && !Enabled(s, RunJob(C.Broken))
  {
  }

  /**
   A message whose `send` passed its check on another thread, then a shutdown in a callback of
   the loop: SHUT_WR goes out at once, the accepted message is not on the socket, and when its
   functor begins the program aborts.
  */
  lemma ForeignSendIsOvertaken(owner: ThreadId, event: L.Event, other: ThreadId, message: Bytes)
    requires event != L.WakeupEvent && other != owner
    ensures exists s ::
              && Reaches(Fresh(owner, event), s)
              && s.conn.out.Shaped() && s.conn.halfCloses == 1 && Of(s.passed, other) == [message] && s.conn.sent == []
              && Can(s, RunJob(C.Broken)) && !Enabled(s, RunJob(C.Broken))
  {
    var s0 := Fresh(owner, event);
    hide Reaches, IsInit, L.InCallback, Can, Enabled, Fresh;
    SendThenShutdown(s0, other, message);
    var s1 :| Reaches(s0, s1) && Overtaken(s1, s0.loop, other, message);
    CallBecomesNext(s1, other);
    var s :| ComesTo(s1, s, s1.calls[other]);
    ReachesOn(s0, s1, s);
    BegunSendAborts(s);
  }

  // A shutdown of another thread arrives while data waits, in a callback that drains the data.

  /** In a callback, with data waiting from the first cell on. */
  ghost predicate Waits(s: Session, owner: ThreadId, state: C.State, calls: map<ThreadId, Job>) {
    && Open(s) && L.InCallback(s.loop) && s.loop.owner == owner && s.calls == calls
    && s.conn.state == state && s.conn.IsWriting() && s.conn.out.start == 0
  }

  lemma MessageWaits(s0: Session, message: Bytes)
    requires IsInit(s0) && L.InCallback(s0.loop) && 0 < |message| <= 10
    ensures exists s :: Reaches(s0, s) && Waits(s, s0.loop.owner, C.Connected, map[])
  {
    var send := Send(s0.loop.owner, message, C.WouldBlock);
    InitOpen(s0);
    assert message[0..] == message && C.MayAnswer(s0.conn, message, C.WouldBlock);
    AppendAddsNewest(EMPTY_RING, message);
    OneStep(s0, send);
    StepOpen(s0, send);
    assert EMPTY_RING.Content() + message == message;
    assert Waits(Next(s0, send), s0.loop.owner, C.Connected, map[]);
  }

  lemma ShutdownArrives(s: Session, event: L.Event, t: ThreadId)
    requires Waits(s, s.loop.owner, C.Connected, map[]) && t != s.loop.owner && event != L.WakeupEvent
    ensures exists s' :: Reaches(s, s') && Waits(s', s.loop.owner, C.Disconnecting, map[t := ShutdownJob(t)])
  {
    L.NextIterationRuns(s.loop, event);
    LoopRuns(s, L.NextIteration(event));
    var s1 := s.(loop := L.After(s.loop, L.NextIteration(event)));
    OneStep(s1, Shutdown(t));
    var s2 := Next(s1, Shutdown(t));
    ReachesOn(s, s1, s2);
    StaysOpen(s, s2);
    assert Waits(s2, s.loop.owner, C.Disconnecting, map[t := ShutdownJob(t)]);
  }

  lemma DataDrains(s: Session)
    requires Open(s) && L.InCallback(s.loop) && s.conn.state == C.Disconnecting && s.conn.IsWriting()
    requires s.conn.out.start == 0
    ensures exists s' :: Reaches(s, s') && Open(s') && s'.loop == s.loop && s'.calls == s.calls && s'.conn.halfCloses == 1
  {
    RR.QueriesAgree(s.conn.out);
    RR.OffersPrefix(s.conn.out);
    var drain := Writable(s.conn.out.Readable());
    C.HandleWriteConserves(s.conn, s.conn.out.Readable());
    OneStep(s, drain);
    StepHalfClosesExactlyWhen(s, drain);
    StepOpen(s, drain);
  }

  lemma BegunShutdownSends(s: Session)
    requires Open(s) && L.Enabled(s.loop, L.BeginFunctor) && NextJob(s.loop).ShutdownJob? && s.conn.halfCloses == 1
    ensures exists s' :: Reaches(s, s') && s'.conn.halfCloses == 2
  {
    OneStep(s, RunJob(C.Broken));
  }

  lemma DrainedShutdownRepeats(s: Session, other: ThreadId)
    requires Waits(s, s.loop.owner, C.Disconnecting, map[other := ShutdownJob(other)]) && other != s.loop.owner
    ensures exists s' :: Reaches(s, s') && s'.conn.halfCloses == 2
  {
    DataDrains(s);
    var s1 :| Reaches(s, s1) && Open(s1) && s1.loop == s.loop && s1.calls == s.calls && s1.conn.halfCloses == 1;
    assert s1.conn.out.Shaped();
    hide Reaches, L.InCallback, Open;
    CallBecomesNext(s1, other);
    var s2 :| ComesTo(s1, s2, s1.calls[other]);
    StaysOpen(s1, s2);
    BegunShutdownSends(s2);
    var s3 :| Reaches(s2, s3) && s3.conn.halfCloses == 2;
    ReachesOn(s, s1, s2);
    ReachesOn(s, s2, s3);
  }

  /**
   The owner sends, and the data waits; in a later callback another thread shuts down, the loop
   drains the data, and then comes to the queued action: SHUT_WR goes out twice.
  */
  lemma ForeignShutdownRepeats(owner: ThreadId, event: L.Event, other: ThreadId, message: Bytes)
    requires event != L.WakeupEvent && other != owner && 0 < |message| <= 10
    ensures exists s :: Reaches(Fresh(owner, event), s) && s.conn.halfCloses == 2
  {
    var s0 := Fresh(owner, event);
    MessageWaits(s0, message);
    var s1 :| Reaches(s0, s1) && Waits(s1, owner, C.Connected, map[]);
    assert s1.loop.owner == owner;
    ShutdownArrives(s1, event, other);
    var s2 :| Reaches(s1, s2) && Waits(s2, owner, C.Disconnecting, map[other := ShutdownJob(other)]);
    assert s2.loop.owner == owner;
    hide Reaches, Waits, Fresh;
    DrainedShutdownRepeats(s2, other);
    var s3 :| Reaches(s2, s3) && s3.conn.halfCloses == 2;
    ReachesOn(s0, s1, s2);
    ReachesOn(s0, s2, s3);
  }
}
