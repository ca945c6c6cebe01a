/**
 What fails when `handleClose` runs twice on a connection of a server: the erase of its map entry,
 at once on the base loop, else when the base loop comes to the second removal.
*/
module ServerDoubleClose {
  import L = LoopMachine
  import G = Registry
  import opened Server
  import opened ServerInvariant
  import opened ServerSteps
  import opened ServerTheorems
  import opened ServerCloses

  // ----- what then fails -----

  lemma HangUpMask()
    ensures G.DoubleClose({G.POLLHUP, G.POLLRDHUP})
    ensures G.Callbacks({G.POLLHUP, G.POLLRDHUP}) == [G.CloseCallback, G.ReadCallback]
  {
    var m: G.Mask := {G.POLLHUP, G.POLLRDHUP};
    assert G.POLLHUP in m * {G.POLLHUP} && G.POLLRDHUP in m * {G.POLLPRI, G.POLLRDHUP};
    assert G.POLLRDHUP in m * {G.POLLIN, G.POLLPRI, G.POLLRDHUP};
    assert m * {G.POLLIN} == {} && m * {G.POLLERR, G.POLLNVAL} == {} && m * {G.POLLOUT} == {};
  }

  /** Some run leads from `s` to `s'`. */
  ghost predicate Reaches(s: System, s': System) {
    exists run :: IsRun(s, run) && After(s, run) == s'
  }

  lemma {:induction false} RunsCompose(s: System, run: seq<Action>, more: seq<Action>)
    requires IsRun(s, run) && IsRun(After(s, run), more)
    ensures IsRun(s, run + more) && After(s, run + more) == After(After(s, run), more)
    decreases |run|
  {
    hide Enabled, Next;
    if run == [] {
      assert run + more == more;
    } else {
      RunsCompose(Next(s, run[0]), run[1..], more);
      assert (run + more)[1..] == run[1..] + more;
    }
  }

  lemma ReachesOn(s: System, s1: System, s2: System)
    requires Reaches(s, s1) && Reaches(s1, s2)
    ensures Reaches(s, s2)
  {
    hide IsRun, After;
    var run :| IsRun(s, run) && After(s, run) == s1;
    var more :| IsRun(s1, more) && After(s1, more) == s2;
    RunsCompose(s, run, more);
  }

  lemma OneStep(s: System, act: Action)
    requires Enabled(s, act)
    ensures Reaches(s, Next(s, act))
  {
    hide Enabled, Next;
    assert [act][1..] == [];
    assert After(s, [act]) == After(Next(s, act), []);
    assert IsRun(s, [act]);
  }

  /** The failing state: the thread is about to erase an entry that is not there. */
  ghost predicate FailsToErase(s: System, act: Action) {
    Enabled(s, act) && !AssertionsHold(s, act)
  }

  lemma MutedOnBaseIsErased(s: System, c: ConnId)
    requires FrameOK(s, s.base) && ConnOK(s, c) && s.frames[s.base].Handling? && s.frames[s.base].c == c
    requires s.conns[c].muted
    ensures c !in s.connMap
  {
  }

  lemma ErasesInVain(s: System, endOfFile: bool)
    requires CanRunCallback(s, s.base) && ClosesNow(s.frames[s.base].todo[0], endOfFile)
    requires s.frames[s.base].c !in s.connMap && s.loops[s.base].owner == s.base && s.loops[s.base].busy
    ensures CanRemove(Closed(s, s.base), s.base)
    ensures Closed(s, s.base).frames[s.base].c !in Closed(s, s.base).connMap
  {
    hide L.Enabled, L.Next;
  }

  /**
   On the base loop the erase that follows a second close does not find its entry: the assertion
   on line 102 fails at the thread's next step.
  */
  lemma SecondEraseFailsOnBase(s: System, act: Action)
    requires Inv(s) && Recloses(s, act) && act.l == s.base
    ensures Enabled(s, act) && Enabled(Next(s, act), Remove(s.base))
    ensures !AssertionsHold(Next(s, act), Remove(s.base))
  {
    hide TodoOK, ActiveOK, NoticesOK, L.Inv, FrameOK, ConnOK;
    var c := s.frames[s.base].c;
    assert LoopOK(s, s.base) && ConnOK(s, c);
    MutedOnBaseIsErased(s, c);
    ErasesInVain(s, act.endOfFile);
    hide CanRemove, Closed;
  }

  // ----- after a second close, under every schedule -----

  /**
   Where the second removal of connection `c` is: its thread is about to call `removeConnection`, or
   it is queued on the base loop, behind the first if the entry is still there, or the base loop is
   in the middle of it. On the base loop, and in the middle of it, the entry is gone.
  */
  ghost predicate RemovalIsAhead(s: System, c: ConnId) {
    && c in s.conns && s.conns[c].io in s.frames && s.base in s.frames && s.base in s.loops
    && var base, io := s.loops[s.base], s.frames[s.conns[c].io];
       && base.next <= |base.batch|
       && var queued := multiset(base.Todo())[RemoveConnectionInLoop(c)];
          || (io.Closing? && io.c == c && (s.conns[c].io == s.base ==> c !in s.connMap))
          || queued == (if c in s.connMap && s.frames[s.base] != Removing(c) then 2 else 1)
          || (s.frames[s.base] == Removing(c) && c !in s.connMap)
  }

  lemma StageIsAhead(s: System, c: ConnId)
    requires ConnOK(s, c) && TodoOK(s, s.base) && FrameOK(s, s.base) && s.conns[c].closes > 1
    ensures RemovalIsAhead(s, c)
  {
    hide NoticesOK;
    var f := RemoveConnectionInLoop(c);
    assert multiset(s.loops[s.base].Todo())[f] == Expected(s, s.base, f);
  }

  lemma RemovalIsAwake(s: System, c: ConnId)
    requires Inv(s) && LoopsAreMachines(s) && RemovalIsAhead(s, c)
    ensures !IsHandling(s, s.conns[c].io, c) && s.frames[s.base] != Removing(c) ==> !s.loops[s.base].Stuck()
  {
    hide Inv, LoopsAreMachines;
    if !IsHandling(s, s.conns[c].io, c) && s.frames[s.base] != Removing(c) {
      QueuedIsAwake(s, s.base, RemoveConnectionInLoop(c));
    }
  }

  /**
   In every run, whatever the schedule, the second removal of a connection that has been closed
   twice is never over: its thread is about to call `removeConnection`, or it is queued on the base
   loop, which is not asleep on it, or the base loop is in it and the entry is gone.
  */
  lemma SecondRemovalIsAhead(s0: System, run: seq<Action>, c: ConnId)
    requires IsInit(s0) && IsAsserted(s0, run) && c in After(s0, run).conns && After(s0, run).conns[c].closes > 1
    ensures var s := After(s0, run);
            && RemovalIsAhead(s, c)
            && (!IsHandling(s, s.conns[c].io, c) && s.frames[s.base] != Removing(c) ==> !s.loops[s.base].Stuck())
  {
    hide Enabled, Next, LoopsAreMachines, TodoOK, ConnOK, FrameOK, ActiveOK, L.Inv, RemovalIsAhead;
    ReachableLoops(s0, run);
    var s := After(s0, run);
    assert ConnOK(s, c) && LoopOK(s, s.base);
    StageIsAhead(s, c);
    RemovalIsAwake(s, c);
  }

  /** The base loop is in a removal that finds no entry. */
  ghost predicate InVain(s: System, c: ConnId) {
    s.base in s.frames && s.frames[s.base] == Removing(c) && c !in s.connMap
  }

  lemma VainStep(s: System, act: Action, c: ConnId)
    requires InVain(s, c) && Enabled(s, act) && AssertionsHold(s, act)
    ensures InVain(Next(s, act), c)
  {
    hide L.Enabled, L.Next, CanReport, IsDestructed, G.Callbacks;
  }

  lemma {:induction false} VainForever(s: System, run: seq<Action>, c: ConnId)
    requires InVain(s, c) && IsAsserted(s, run)
    ensures InVain(After(s, run), c)
    decreases |run|
  {
    if run != [] {
      hide Enabled, Next, AssertionsHold, InVain;
      VainStep(s, run[0], c);
      VainForever(Next(s, run[0]), run[1..], c);
    }
  }

  /** The next functor of the base loop is to remove a connection whose entry is gone. */
  ghost predicate BeginsInVain(s: System, c: ConnId) {
    && CanBeginFunctor(s, s.base) && s.loops[s.base].batch[s.loops[s.base].next] == RemoveConnectionInLoop(c)
    && c in s.conns && s.conns[c].erases > 0
  }

  /** The thread of the base loop fails the assertion, after the wakeup it may have to write. */
  ghost predicate EraseFails(s: System) {
    if ThreadFree(s, s.base) then FailsToErase(s, Erase)
    else exists x :: x in s.loops && Enabled(s, LoopStep(x, L.Wake(s.base)))
  }

  lemma RemovesInVain(s: System, c: ConnId)
    requires BeginsInVain(s, c) && ConnOK(s, c)
    ensures InVain(BegunFunctor(s, s.base), c)
  {
    hide NoticesOK, Carried, L.Enabled, L.Next;
  }

  lemma BegunInVain(s: System, c: ConnId)
    requires Inv(s) && BeginsInVain(s, c)
    ensures Enabled(s, BeginFunctor(s.base)) && AssertionsHold(s, BeginFunctor(s.base))
    ensures Inv(Next(s, BeginFunctor(s.base))) && InVain(Next(s, BeginFunctor(s.base)), c)
  {
    hide InVain, CanBeginFunctor, BegunFunctor, MachinesOK, LoopsOK, ConnOK;
    RemovesInVain(s, c);
    StepInv(s, BeginFunctor(s.base));
  }

  lemma VainEraseFails(s: System, c: ConnId)
    requires Inv(s) && InVain(s, c)
    ensures EraseFails(s)
  {
    hide FrameOK, TodoOK, ActiveOK, L.Inv, ConnOK, ThreadFree;
    if ThreadFree(s, s.base) { FreeFrameCanStep(s, s.base); } else { WakeCanStep(s, s.base); }
  }

  /**
   Once the base loop begins `removeConnectionInLoop` for a connection whose entry is gone, the
   removal never returns, under any schedule: the base loop stays in it, the erase can be taken
   unless a wakeup is to be written first, and the assertion on line 102 fails when it is.
  */
  lemma SecondRemovalFails(s0: System, run: seq<Action>, c: ConnId, more: seq<Action>)
    requires IsInit(s0) && IsAsserted(s0, run) && BeginsInVain(After(s0, run), c)
    requires IsAsserted(Next(After(s0, run), BeginFunctor(After(s0, run).base)), more)
    ensures var s := After(Next(After(s0, run), BeginFunctor(After(s0, run).base)), more);
            InVain(s, c) && EraseFails(s)
  {
    hide BeginsInVain, InVain, EraseFails, Inv, Enabled, AssertionsHold, Next;
    ReachableInv(s0, run);
    var s := After(s0, run);
    BegunInVain(s, c);
    var s1 := Next(s, BeginFunctor(s.base));
    VainForever(s1, more, c);
    RunInv(s1, more);
    VainEraseFails(After(s1, more), c);
  }

  // ----- the failing runs, from the start of the event -----

  /** The close callback of an event, and then the read callback, are still to come. */
  ghost predicate ClosesThenReads(s: System, l: LoopId, c: ConnId) {
    && InFrame(s, l) && s.frames[l] == Handling(c, [G.CloseCallback, G.ReadCallback])
    && s.loops[l].owner == l && s.loops[l].busy && !s.loops[l].calling && l !in s.loops[l].due
    && c in s.conns && s.conns[c].io == l
  }

  lemma HangUpIsHandled(s: System, l: LoopId)
    requires CanBeginEvent(s, l, {G.POLLHUP, G.POLLRDHUP}) && IsConnEvent(s.loops[l].phase.active[0])
    requires L.Inv(s.loops[l]) && s.loops[l].owner == l && ActiveOK(s, l)
    ensures ClosesThenReads(BegunEvent(s, l, {G.POLLHUP, G.POLLRDHUP}), l, s.loops[l].phase.active[0].channel)
  {
    HangUpMask();
    hide G.Callbacks, L.Conserved, L.ReadsAreDue, L.WorkIsSignalled, L.QuitIsSignalled;
  }

  lemma HangUpBegins(s: System, l: LoopId)
    requires MachinesOK(s) && LoopOK(s, l)
    requires CanBeginEvent(s, l, {G.POLLHUP, G.POLLRDHUP}) && IsConnEvent(s.loops[l].phase.active[0])
    ensures Reaches(s, BegunEvent(s, l, {G.POLLHUP, G.POLLRDHUP}))
    ensures ClosesThenReads(BegunEvent(s, l, {G.POLLHUP, G.POLLRDHUP}), l, s.loops[l].phase.active[0].channel)
  {
    hide Reaches, BegunEvent, ClosesThenReads, ActiveOK, TodoOK, FrameOK, L.Inv;
    OneStep(s, BeginEvent(l, {G.POLLHUP, G.POLLRDHUP}));
    HangUpIsHandled(s, l);
  }

  // On the base loop.

  lemma FirstClose(s: System, c: ConnId)
    requires ClosesThenReads(s, s.base, c)
    ensures Enabled(s, RunCallback(s.base, false, false))
    ensures var s1 := Next(s, RunCallback(s.base, false, false));
            && s1.base == s.base && s1.loops == s.loops && c in s1.conns && s1.conns[c].io == s.conns[c].io
            && s1.frames == s.frames[s.base := Closing(c, [G.ReadCallback])]
  {
    assert [G.CloseCallback, G.ReadCallback][1..] == [G.ReadCallback];
  }

  lemma InlineRemoval(s: System, c: ConnId)
    requires InFrame(s, s.base) && s.frames[s.base] == Closing(c, [G.ReadCallback]) && c in s.conns
    requires s.loops[s.base].owner == s.base && s.loops[s.base].busy && !s.loops[s.base].calling
    ensures Enabled(s, Remove(s.base))
    ensures var s2 := Next(s, Remove(s.base));
            && s2.base == s.base && s2.loops == s.loops && c in s2.conns && s2.conns[c].io == s.conns[c].io
            && s2.frames == s.frames[s.base := ErasedInline(c, [G.ReadCallback])] && c !in s2.connMap
  {
  }

  lemma InlinePost(s: System, c: ConnId)
    requires InFrame(s, s.base) && s.frames[s.base] == ErasedInline(c, [G.ReadCallback]) && c !in s.connMap
    requires s.loops[s.base].owner == s.base && s.loops[s.base].busy && !s.loops[s.base].calling
    requires c in s.conns && s.conns[c].io == s.base
    ensures Enabled(s, PostDestroy(s.base))
    ensures var s3 := Next(s, PostDestroy(s.base));
            && s3.base == s.base && c in s3.conns && s3.frames[s.base] == Handling(c, [G.ReadCallback])
            && CanRunCallback(s3, s.base) && c !in s3.connMap
            && s3.loops[s.base].owner == s.base && s3.loops[s.base].busy
  {
  }

  lemma SecondClose(s: System, c: ConnId)
    requires CanRunCallback(s, s.base) && s.frames[s.base] == Handling(c, [G.ReadCallback]) && c !in s.connMap
    requires s.loops[s.base].owner == s.base && s.loops[s.base].busy
    ensures Enabled(s, RunCallback(s.base, true, false))
    ensures FailsToErase(Next(s, RunCallback(s.base, true, false)), Remove(s.base))
  {
    ErasesInVain(s, true);
    hide CanRemove, Closed, L.Enabled, L.Next;
  }

  lemma DoubleCloseOnBase(s: System, c: ConnId)
    requires ClosesThenReads(s, s.base, c)
    ensures exists s' :: Reaches(s, s') && FailsToErase(s', Remove(s'.base))
  {
    var l := s.base;
    FirstClose(s, c);
    var s1 := Next(s, RunCallback(l, false, false));
    OneStep(s, RunCallback(l, false, false));
    hide Next, Reaches, FailsToErase, Enabled;
    InlineRemoval(s1, c);
    OneStep(s1, Remove(l));
    var s2 := Next(s1, Remove(l));
    InlinePost(s2, c);
    OneStep(s2, PostDestroy(l));
    var s3 := Next(s2, PostDestroy(l));
    SecondClose(s3, c);
    OneStep(s3, RunCallback(l, true, false));
    var s4 := Next(s3, RunCallback(l, true, false));
    ReachesOn(s, s1, s2);
    ReachesOn(s, s2, s3);
    ReachesOn(s, s3, s4);
    SecondCloseBase(s3, c);
  }

  lemma SecondCloseBase(s: System, c: ConnId)
    requires CanRunCallback(s, s.base) && s.frames[s.base] == Handling(c, [G.ReadCallback])
    ensures Enabled(s, RunCallback(s.base, true, false)) && Next(s, RunCallback(s.base, true, false)).base == s.base
  {
    hide L.Enabled, L.Next;
  }

  // On an I/O loop of its own. Both closes queue a removal on the base loop, and the second one fails there.

  /** The connection lives on loop `l`, apart from the base loop, and neither thread has a wakeup to write. */
  ghost predicate Apart(s: System, l: LoopId, c: ConnId) {
    && l != s.base && InFrame(s, l) && InFrame(s, s.base)
    && s.loops[l].owner == l && s.loops[s.base].owner == s.base
    && c in s.conns && s.conns[c].io == l
  }

  /** The base loop is about to swap its queue. */
  predicate AboutToSwap(loop: L.Loop<Functor>) {
    loop.phase == L.BeforeSwap && !loop.busy
  }

  ghost predicate RemoteStart(s: System, l: LoopId, c: ConnId, todo: seq<G.Callback>, pending: seq<Functor>) {
    && Apart(s, l, c) && s.loops[l].busy && s.frames[l] == Handling(c, todo)
    && AboutToSwap(s.loops[s.base]) && s.frames[s.base] == Idle && s.loops[s.base].pending == pending
  }

  lemma RemoteCallback(s: System, l: LoopId, c: ConnId, todo: seq<G.Callback>, pending: seq<Functor>, endOfFile: bool)
    requires RemoteStart(s, l, c, todo, pending) && todo != [] && ClosesNow(todo[0], endOfFile)
    ensures Enabled(s, RunCallback(l, endOfFile, false))
    ensures var s1 := Next(s, RunCallback(l, endOfFile, false));
            Apart(s1, l, c) && s1.base == s.base && s1.loops == s.loops && s1.frames == s.frames[l := Closing(c, todo[1..])]
  {
  }

  lemma RemoteRemove(s: System, l: LoopId, c: ConnId, todo: seq<G.Callback>)
    requires Apart(s, l, c) && s.frames[l] == Closing(c, todo) && AboutToSwap(s.loops[s.base])
    ensures Enabled(s, Remove(l))
    ensures var s1, loop := Next(s, Remove(l)), s.loops[s.base];
            && s1.base == s.base && c in s1.conns && s1.conns[c].io == l
            && s1.frames == s.frames[l := Handling(c, todo)]
            && s1.loops == s.loops[s.base := loop.(pending := loop.pending + [RemoveConnectionInLoop(c)],
                                                   pushed := loop.pushed + [RemoveConnectionInLoop(c)],
                                                   due := loop.due + {l})]
  {
  }

  lemma WakeRuns(s: System, x: LoopId, t: LoopId)
    requires x in s.loops && x in s.frames && t in s.loops[x].due
    ensures Enabled(s, LoopStep(x, L.Wake(t)))
    ensures Next(s, LoopStep(x, L.Wake(t)))
            == SetLoop(s, x, s.loops[x].(counter := s.loops[x].counter + 1, due := s.loops[x].due - {t}))
  {
  }

  lemma RemoteClose(s: System, l: LoopId, c: ConnId, todo: seq<G.Callback>, pending: seq<Functor>, endOfFile: bool)
    requires RemoteStart(s, l, c, todo, pending) && todo != [] && ClosesNow(todo[0], endOfFile)
    ensures exists s' :: Reaches(s, s') && RemoteStart(s', l, c, todo[1..], pending + [RemoveConnectionInLoop(c)])
                         && s'.base == s.base
  {
    RemoteCallback(s, l, c, todo, pending, endOfFile);
    OneStep(s, RunCallback(l, endOfFile, false));
    var s1 := Next(s, RunCallback(l, endOfFile, false));
    hide Next, Reaches, Enabled;
    RemoteRemove(s1, l, c, todo[1..]);
    OneStep(s1, Remove(l));
    var s2 := Next(s1, Remove(l));
    WakeRuns(s2, s.base, l);
    OneStep(s2, LoopStep(s.base, L.Wake(l)));
    var s3 := Next(s2, LoopStep(s.base, L.Wake(l)));
    assert s3.loops[s.base].due == s.loops[s.base].due;
    assert RemoteStart(s3, l, c, todo[1..], pending + [RemoveConnectionInLoop(c)]);
    ReachesOn(s, s1, s2);
    ReachesOn(s, s2, s3);
  }

  /** The base loop's batch, with `next` functors begun. */
  ghost predicate InBatch(s: System, l: LoopId, c: ConnId, next: nat, busy: bool, frame: Frame) {
    && Apart(s, l, c) && s.frames[s.base] == frame
    && var loop := s.loops[s.base];
       && loop.phase == L.RunBatch && loop.next == next && loop.busy == busy
       && loop.batch == [RemoveConnectionInLoop(c), RemoveConnectionInLoop(c)]
  }

  lemma BaseSwaps(s: System, l: LoopId, c: ConnId, todo: seq<G.Callback>)
    requires RemoteStart(s, l, c, todo, [RemoveConnectionInLoop(c), RemoveConnectionInLoop(c)])
    ensures Enabled(s, LoopStep(s.base, L.Swap))
    ensures InBatch(Next(s, LoopStep(s.base, L.Swap)), l, c, 0, false, Idle)
    ensures Next(s, LoopStep(s.base, L.Swap)).base == s.base
  {
  }

  lemma BaseBegins(s: System, l: LoopId, c: ConnId, next: nat)
    requires InBatch(s, l, c, next, false, Idle) && next < 2
    ensures Enabled(s, BeginFunctor(s.base))
    ensures InBatch(Next(s, BeginFunctor(s.base)), l, c, next + 1, true, Removing(c))
    ensures Next(s, BeginFunctor(s.base)).base == s.base && Next(s, BeginFunctor(s.base)).connMap == s.connMap
  {
  }

  lemma BaseErases(s: System, l: LoopId, c: ConnId)
    requires InBatch(s, l, c, 1, true, Removing(c))
    ensures Enabled(s, Erase)
    ensures InBatch(Next(s, Erase), l, c, 1, true, Erased(c)) && c !in Next(s, Erase).connMap && Next(s, Erase).base == s.base
  {
  }

  lemma BasePosts(s: System, l: LoopId, c: ConnId)
    requires InBatch(s, l, c, 1, true, Erased(c)) && c !in s.connMap
    ensures Enabled(s, PostDestroy(s.base))
    ensures var s1 := Next(s, PostDestroy(s.base));
            && s1.base == s.base && c in s1.conns && s1.conns[c].io == l && c !in s1.connMap
            && s1.frames == s.frames[s.base := Idle]
            && s1.loops == s.loops[l := s.loops[l].(pending := s.loops[l].pending + [ConnectDestroyed(c)],
                                                    pushed := s.loops[l].pushed + [ConnectDestroyed(c)],
                                                    due := s.loops[l].due + {s.base})]
  {
  }

  lemma BaseEnds(s: System, l: LoopId, c: ConnId)
    requires InBatch(s, l, c, 1, true, Idle)
    ensures Enabled(s, LoopStep(s.base, L.EndFunctor))
    ensures InBatch(Next(s, LoopStep(s.base, L.EndFunctor)), l, c, 1, false, Idle)
    ensures Next(s, LoopStep(s.base, L.EndFunctor)).base == s.base && Next(s, LoopStep(s.base, L.EndFunctor)).connMap == s.connMap
  {
  }

  /** The first of the two removals runs to its end. */
  lemma FirstRemovalRuns(s: System, l: LoopId, c: ConnId)
    requires InBatch(s, l, c, 1, true, Removing(c))
    ensures exists s' :: Reaches(s, s') && InBatch(s', l, c, 1, false, Idle) && c !in s'.connMap && s'.base == s.base
  {
    BaseErases(s, l, c);
    OneStep(s, Erase);
    var s1 := Next(s, Erase);
    hide Next, Reaches, Enabled;
    BasePosts(s1, l, c);
    OneStep(s1, PostDestroy(s.base));
    var s2 := Next(s1, PostDestroy(s.base));
    WakeRuns(s2, l, s.base);
    OneStep(s2, LoopStep(l, L.Wake(s.base)));
    var s3 := Next(s2, LoopStep(l, L.Wake(s.base)));
    assert s3.loops[l].due == s1.loops[l].due;
    assert InBatch(s3, l, c, 1, true, Idle);
    BaseEnds(s3, l, c);
    OneStep(s3, LoopStep(s.base, L.EndFunctor));
    ReachesOn(s, s1, s2);
    ReachesOn(s, s2, s3);
    ReachesOn(s, s3, Next(s3, LoopStep(s.base, L.EndFunctor)));
  }

  lemma SecondRemovalBegins(s: System, l: LoopId, c: ConnId)
    requires InBatch(s, l, c, 1, false, Idle) && c !in s.connMap
    ensures exists s' :: Reaches(s, s') && FailsToErase(s', Erase)
  {
    BaseBegins(s, l, c, 1);
    OneStep(s, BeginFunctor(s.base));
    hide BegunFunctor, Reaches;
  }

  lemma BothRemovalsRun(s: System, l: LoopId, c: ConnId, todo: seq<G.Callback>)
    requires RemoteStart(s, l, c, todo, [RemoveConnectionInLoop(c), RemoveConnectionInLoop(c)])
    ensures exists s' :: Reaches(s, s') && FailsToErase(s', Erase)
  {
    BaseSwaps(s, l, c, todo);
    OneStep(s, LoopStep(s.base, L.Swap));
    var s1 := Next(s, LoopStep(s.base, L.Swap));
    hide Next, Reaches, Enabled, InBatch, FailsToErase, RemoteStart;
    BaseBegins(s1, l, c, 0);
    OneStep(s1, BeginFunctor(s.base));
    var s2 := Next(s1, BeginFunctor(s.base));
    FirstRemovalRuns(s2, l, c);
    var s3 :| Reaches(s2, s3) && InBatch(s3, l, c, 1, false, Idle) && c !in s3.connMap && s3.base == s2.base;
    SecondRemovalBegins(s3, l, c);
    var s4 :| Reaches(s3, s4) && FailsToErase(s4, Erase);
    ReachesOn(s, s1, s2);
    ReachesOn(s, s2, s3);
    ReachesOn(s, s3, s4);
  }

  lemma DoubleCloseOnAnotherLoop(s: System, l: LoopId, c: ConnId)
    requires RemoteStart(s, l, c, [G.CloseCallback, G.ReadCallback], [])
    ensures exists s' :: Reaches(s, s') && FailsToErase(s', Erase)
  {
    hide Reaches, RemoteStart, FailsToErase;
    var one := RemoveConnectionInLoop(c);
    assert [G.CloseCallback, G.ReadCallback][1..] == [G.ReadCallback];
    RemoteClose(s, l, c, [G.CloseCallback, G.ReadCallback], [], false);
    var s1 :| Reaches(s, s1) && RemoteStart(s1, l, c, [G.ReadCallback], [] + [one]) && s1.base == s.base;
    RemoteClose(s1, l, c, [G.ReadCallback], [] + [one], true);
    assert [] + [one] + [one] == [one, one];
    var s2 :| Reaches(s1, s2) && RemoteStart(s2, l, c, [G.ReadCallback][1..], [one, one]) && s2.base == s1.base;
    BothRemovalsRun(s2, l, c, [G.ReadCallback][1..]);
    var s3 :| Reaches(s2, s3) && FailsToErase(s3, Erase);
    ReachesOn(s, s1, s2);
    ReachesOn(s, s2, s3);
  }

  /**
   From a state any run can lead to that passes its assertions, an event with POLLHUP and POLLRDHUP, and a read that
   finds the end of the file: the erase fails to find its entry, at once if the connection lives on
   the base loop, else when the base loop (about to swap its queue here) comes to the second removal.
  */
  lemma DoubleCloseFails(s0: System, run: seq<Action>, l: LoopId)
    requires IsInit(s0) && IsAsserted(s0, run)
    requires CanBeginEvent(After(s0, run), l, {G.POLLHUP, G.POLLRDHUP})
    requires IsConnEvent(After(s0, run).loops[l].phase.active[0])
    requires var s := After(s0, run);
             l != s.base ==> && s.base in s.loops && InFrame(s, s.base) && s.frames[s.base] == Idle
                             && AboutToSwap(s.loops[s.base]) && s.loops[s.base].pending == []
    ensures var s := After(s0, run);
            exists s' :: Reaches(s, s') && FailsToErase(s', if l == s.base then Remove(s'.base) else Erase)
  {
    hide Next, Enabled, Recloses;
    ReachableInv(s0, run);
    FailsFrom(After(s0, run), l);
  }

  lemma RemoteBegins(s: System, l: LoopId)
    requires MachinesOK(s) && CanBeginEvent(s, l, {G.POLLHUP, G.POLLRDHUP}) && IsConnEvent(s.loops[l].phase.active[0])
    requires l != s.base && InFrame(s, s.base) && s.frames[s.base] == Idle
    requires AboutToSwap(s.loops[s.base]) && s.loops[s.base].pending == []
    requires var s1 := BegunEvent(s, l, {G.POLLHUP, G.POLLRDHUP}); ClosesThenReads(s1, l, s.loops[l].phase.active[0].channel)
    ensures var s1 := BegunEvent(s, l, {G.POLLHUP, G.POLLRDHUP});
            RemoteStart(s1, l, s.loops[l].phase.active[0].channel, [G.CloseCallback, G.ReadCallback], [])
  {
    hide G.Callbacks, L.Inv;
    assert L.Inv(s.loops[l]);
  }

  lemma FailsFrom(s: System, l: LoopId)
    requires Inv(s)
    requires CanBeginEvent(s, l, {G.POLLHUP, G.POLLRDHUP}) && IsConnEvent(s.loops[l].phase.active[0])
    requires l != s.base ==> InFrame(s, s.base) && s.frames[s.base] == Idle
                             && AboutToSwap(s.loops[s.base]) && s.loops[s.base].pending == []
    ensures exists s' :: Reaches(s, s') && FailsToErase(s', if l == s.base then Remove(s'.base) else Erase)
  {
    var c := s.loops[l].phase.active[0].channel;
    var s1 := BegunEvent(s, l, {G.POLLHUP, G.POLLRDHUP});
    assert LoopOK(s, l);
    HangUpBegins(s, l);
    BeginKeepsBase(s, l);
    if l == s.base {
      hide Reaches, FailsToErase, ClosesThenReads, BegunEvent, LoopOK, ConnOK;
      DoubleCloseOnBase(s1, c);
      var s' :| Reaches(s1, s') && FailsToErase(s', Remove(s'.base));
      ReachesOn(s, s1, s');
    } else {
      RemoteBegins(s, l);
      hide Reaches, FailsToErase, ClosesThenReads, BegunEvent, LoopOK, ConnOK, RemoteStart;
      DoubleCloseOnAnotherLoop(s1, l, c);
      var s' :| Reaches(s1, s') && FailsToErase(s', Erase);
      ReachesOn(s, s1, s');
    }
  }

  lemma BeginKeepsBase(s: System, l: LoopId)
    requires CanBeginEvent(s, l, {G.POLLHUP, G.POLLRDHUP})
    ensures BegunEvent(s, l, {G.POLLHUP, G.POLLRDHUP}).base == s.base
  {
  }
}
