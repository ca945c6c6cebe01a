/**
 What holds of a server, for any number of loops, connections and user threads, in every run that
 gets past its assertions. `ServerCloses` says of which runs that is known from their events.
*/
module ServerTheorems {
  import L = LoopMachine
  import G = Registry
  import T = ThreadPool
  import opened Server
  import opened ServerInvariant
  import opened ServerSteps

  // ----- runs -----

  /** A server whose loops have not been started and that has accepted nothing. */
  ghost predicate IsInit(s: System) {
    && s.base in s.loops && s.frames.Keys == s.loops.Keys
    && (forall k :: 0 <= k < |s.pool| ==> s.pool[k] in s.loops)
    && (forall l :: l in s.loops ==> s.loops[l] == L.Init(l) && s.frames[l] == Idle)
    && s.conns == map[] && s.connMap == {} && s.nextId == 1 && s.nextLoop == 0
  }

  ghost predicate IsRun(s: System, run: seq<Action>)
    decreases |run|
  {
    run == [] || (Enabled(s, run[0]) && IsRun(Next(s, run[0]), run[1..]))
  }

  ghost function After(s: System, run: seq<Action>): System
    requires IsRun(s, run)
    decreases |run|
  {
    if run == [] then s else After(Next(s, run[0]), run[1..])
  }

  /** A run each of whose steps passes its assertions; another run ends where one fails. */
  ghost predicate IsAsserted(s: System, run: seq<Action>)
    ensures IsAsserted(s, run) ==> IsRun(s, run)
    decreases |run|
  {
    run == [] || (Enabled(s, run[0]) && AssertionsHold(s, run[0]) && IsAsserted(Next(s, run[0]), run[1..]))
  }

  lemma InitInv(s: System)
    requires IsInit(s)
    ensures Inv(s)
  {
    forall l | l in s.loops ensures LoopOK(s, l) && L.Inv(s.loops[l]) {
      L.InitInv<Functor>(l);
    }
  }

  lemma {:induction false} RunInv(s: System, run: seq<Action>)
    requires Inv(s) && IsAsserted(s, run)
    ensures Inv(After(s, run))
    decreases |run|
  {
    hide Inv, Enabled, Next, AssertionsHold;
    if run != [] {
      StepInv(s, run[0]);
      RunInv(Next(s, run[0]), run[1..]);
    }
  }

  lemma ReachableInv(s0: System, run: seq<Action>)
    requires IsInit(s0) && IsAsserted(s0, run)
    ensures Inv(After(s0, run))
  {
    hide Inv, Enabled, Next;
    InitInv(s0);
    RunInv(s0, run);
  }

  // ----- ownership -----

  lemma QueuedIsHeld(loop: L.Loop<Functor>, f: Functor, c: ConnId)
    requires loop.next <= |loop.batch| && multiset(loop.Todo())[f] > 0 && Binds(f, c)
    ensures LoopHolds(loop, c)
  {
    assert f in loop.Todo();
  }

  lemma RunningIsHeld(s: System, l: LoopId, c: ConnId)
    requires FrameOK(s, l) && (s.frames[l] == Erased(c) || s.frames[l] == Destroying(c))
    ensures LoopHolds(s.loops[l], c)
  {
    if s.frames[l] == Erased(c) {
      assert Binds(RemoveConnectionInLoop(c), c);
    } else {
      assert Binds(ConnectDestroyed(c), c);
    }
  }

  /** Whatever stage a connection is in before its last, something of the library holds it. */
  lemma StageIsOwned(s: System, c: ConnId)
    requires Globals(s) && ConnOK(s, c) && s.conns[c].stage != SDown
    requires LoopOK(s, s.base) && LoopOK(s, s.conns[c].io)
    ensures HasOwner(s, c)
  {
    var io := s.conns[c].io;
    match s.conns[c].stage
    case SMade => assert FrameHolds(s.frames[s.base], c);
    case SErased =>
      if s.frames[s.base] == Erased(c) {
        RunningIsHeld(s, s.base, c);
      } else {
        assert FrameHolds(s.frames[s.base], c);
      }
    case SDestroyPosted =>
      assert Expected(s, io, ConnectDestroyed(c)) == 1;
      QueuedIsHeld(s.loops[io], ConnectDestroyed(c), c);
    case SDestroying => RunningIsHeld(s, io, c);
    case _ =>
  }

  lemma OwnedInv(s: System, c: ConnId)
    requires Inv(s) && c in s.conns && s.conns[c].stage != SDown
    ensures HasOwner(s, c)
  {
    assert ConnOK(s, c);
    assert LoopOK(s, s.base) && LoopOK(s, s.conns[c].io);
    StageIsOwned(s, c);
  }

  /**
   From the moment it is made until `connectDestroyed` has run, a connection has an owner among
   the server's map, a queued or running functor and a pointer on a stack, in every interleaving
   of its loops; whether its I/O loop is the base loop or another makes no difference.
  */
  lemma OwnedUntilDestroyed(s0: System, run: seq<Action>, c: ConnId)
    requires IsInit(s0) && IsAsserted(s0, run)
    requires c in After(s0, run).conns && After(s0, run).conns[c].state != Disconnected
    ensures HasOwner(After(s0, run), c)
  {
    hide Enabled, Next;
    ReachableInv(s0, run);
    var s := After(s0, run);
    assert ConnOK(s, c);
    OwnedInv(s, c);
  }

  /** A thread is inside `handleEvent` of a connection. */
  predicate IsHandling(s: System, l: LoopId, c: ConnId) {
    l in s.frames && (s.frames[l].Handling? || s.frames[l].Closing? || s.frames[l].ErasedInline?) && s.frames[l].c == c
  }

  /**
   Whatever a thread is in the middle of, its connection's last call has not returned, or it is
   the base loop with a second removal, which still holds the connection.
  */
  lemma LivingFrame(s: System, l: LoopId)
    requires FrameOK(s, l) && s.frames[l] != Idle
    ensures s.frames[l].c in s.conns
    ensures s.conns[s.frames[l].c].stage == SDown ==> s.frames[l].Removing? && LoopHolds(s.loops[l], s.frames[l].c)
    ensures IsHandling(s, l, s.frames[l].c) ==> Rank(SLive) <= Rank(s.conns[s.frames[l].c].stage) < Rank(SDown)
  {
    if s.frames[l].Removing? { assert Binds(RemoveConnectionInLoop(s.frames[l].c), s.frames[l].c); }
  }

  lemma FrameIsOfTheLiving(s: System, l: LoopId)
    requires Inv(s) && l in s.loops && s.frames[l] != Idle
    ensures s.frames[l].c in s.conns
    ensures s.conns[s.frames[l].c].stage == SDown ==> LoopHolds(s.loops[l], s.frames[l].c)
    ensures IsHandling(s, l, s.frames[l].c)
            ==> s.conns[s.frames[l].c].registered && s.conns[s.frames[l].c].stage != SDown
  {
    hide FrameOK, ActiveOK, TodoOK, MachinesOK;
    assert LoopOK(s, l);
    LivingFrame(s, l);
    assert ConnOK(s, s.frames[l].c);
  }

  /** A connection is never destructed while its channel handles an event: `~Channel` finds its guard down. */
  lemma NeverDestructedWhileHandled(s0: System, run: seq<Action>, l: LoopId, c: ConnId)
    requires IsInit(s0) && IsAsserted(s0, run)
    requires l in After(s0, run).loops && IsHandling(After(s0, run), l, c)
    ensures !IsDestructed(After(s0, run), c)
  {
    hide Enabled, Next;
    ReachableInv(s0, run);
    FrameIsOfTheLiving(After(s0, run), l);
    OwnedInv(After(s0, run), c);
  }

  lemma ActiveIsAlive(s: System, l: LoopId, k: nat)
    requires Inv(s) && l in s.loops && s.loops[l].phase.Dispatch?
    requires k < |s.loops[l].phase.active| && IsConnEvent(s.loops[l].phase.active[k])
    ensures var c := s.loops[l].phase.active[k].channel;
            c in s.conns && s.conns[c].io == l && s.conns[c].registered && s.conns[c].stage != SDown
  {
    assert LoopOK(s, l) && ActiveOK(s, l);
    var c := s.loops[l].phase.active[k].channel;
    assert ConnOK(s, c);
  }

  /**
   While a loop dispatches, every connection in its active list, handled or not, is registered
   with its poller and alive: removal waits for the functor phase.
  */
  lemma ActiveListIsSafe(s0: System, run: seq<Action>, l: LoopId, k: nat)
    requires IsInit(s0) && IsAsserted(s0, run)
    requires var s := After(s0, run);
             && l in s.loops && s.loops[l].phase.Dispatch?
             && k < |s.loops[l].phase.active| && IsConnEvent(s.loops[l].phase.active[k])
    ensures var s := After(s0, run);
            var c := s.loops[l].phase.active[k].channel;
            c in s.conns && s.conns[c].io == l && s.conns[c].registered && !IsDestructed(s, c)
  {
    hide Enabled, Next;
    ReachableInv(s0, run);
    var s := After(s0, run);
    ActiveIsAlive(s, l, k);
    OwnedInv(s, s.loops[l].phase.active[k].channel);
  }

  // ----- destruction is final -----

  /** Nothing new holds `c`. */
  ghost predicate NoGain(s: System, s': System, c: ConnId) {
    && (c in s'.connMap ==> c in s.connMap)
    && s'.loops.Keys == s.loops.Keys && s'.frames.Keys == s.frames.Keys
    && (forall x :: x in s'.loops && LoopHolds(s'.loops[x], c) ==> LoopHolds(s.loops[x], c))
    && (forall x :: x in s'.frames && FrameHolds(s'.frames[x], c) ==> FrameHolds(s.frames[x], c))
  }

  lemma NoGainNoOwner(s: System, s': System, c: ConnId)
    requires NoGain(s, s', c) && HasOwner(s', c)
    ensures HasOwner(s, c)
  {
  }

  /** A loop comes to hold a connection only when a functor bound to it is pushed. */
  lemma LoopGains(loop: L.Loop<Functor>, a: L.Action<Functor>, c: ConnId)
    requires L.Enabled(loop, a) && (a.Queue? ==> !Binds(a.f, c))
    ensures LoopHolds(L.Next(loop, a), c) ==> LoopHolds(loop, c)
  {
  }

  lemma LoopsGain(s: System, s': System, l: LoopId, a: L.Action<Functor>, c: ConnId)
    requires l in s.loops && L.Enabled(s.loops[l], a) && (a.Queue? ==> !Binds(a.f, c))
    requires s'.loops == s.loops[l := L.Next(s.loops[l], a)]
    requires s'.frames.Keys == s.frames.Keys && (c in s'.connMap ==> c in s.connMap)
    requires forall x :: x in s'.frames && FrameHolds(s'.frames[x], c) ==> FrameHolds(s.frames[x], c)
    ensures NoGain(s, s', c)
  {
    LoopGains(s.loops[l], a, c);
  }

  /** The connection of the thread's frame, for steps taken in a frame. */
  predicate InFrameOf(s: System, act: Action, l: LoopId) {
    match act
    case Insert => l == s.base
    case Post => l == s.base
    case Erase => l == s.base
    case Establish(m) => l == m
    case RunCallback(m, _, _) => l == m
    case Remove(m) => l == m
    case PostDestroy(m) => l == m
    case Destroy(m) => l == m
    case _ => false
  }

  lemma InsertGains(s: System, c: ConnId)
    requires CanInsert(s) && s.frames[s.base].c != c
    ensures NoGain(s, Inserted(s), c)
  {
  }

  lemma PostGains(s: System, c: ConnId)
    requires CanPost(s) && s.frames[s.base].c != c
    ensures NoGain(s, Posted(s), c)
  {
    var d := s.frames[s.base].c;
    if IoOf(s, d) != s.base {
      LoopsGain(s, Posted(s), IoOf(s, d), L.Queue(s.base, ConnectEstablished(d)), c);
    }
  }

  lemma CallbackGains(s: System, l: LoopId, endOfFile: bool, drained: bool, c: ConnId)
    requires CanRunCallback(s, l) && s.frames[l].c != c
    ensures NoGain(s, AfterCallback(s, l, endOfFile, drained), c)
  {
    var d := s.frames[l].c;
    LoopGains(s.loops[l], L.Queue(l, WriteComplete(d)), c);
  }

  lemma RemoveGains(s: System, l: LoopId, c: ConnId)
    requires CanRemove(s, l) && s.frames[l].c != c
    ensures NoGain(s, Removed(s, l), c)
  {
    if l != s.base {
      LoopsGain(s, Removed(s, l), s.base, L.Queue(l, RemoveConnectionInLoop(s.frames[l].c)), c);
    }
  }

  lemma PostDestroyGains(s: System, l: LoopId, c: ConnId)
    requires CanPostDestroy(s, l) && s.frames[l].c != c
    ensures NoGain(s, DestroyPosted(s, l), c)
  {
    var d := s.frames[l].c;
    LoopsGain(s, DestroyPosted(s, l), IoOf(s, d), L.Queue(l, ConnectDestroyed(d)), c);
  }

  lemma FrameStepGains(s: System, act: Action, l: LoopId, c: ConnId)
    requires InFrameOf(s, act, l) && Enabled(s, act) && s.frames[l].c != c
    ensures NoGain(s, Next(s, act), c)
  {
    match act
    case Insert => InsertGains(s, c);
    case Post => PostGains(s, c);
    case RunCallback(_, endOfFile, drained) => CallbackGains(s, l, endOfFile, drained, c);
    case Remove(_) => RemoveGains(s, l, c);
    case PostDestroy(_) => PostDestroyGains(s, l, c);
    case _ =>
  }

  lemma BeginEventGains(s: System, l: LoopId, revents: G.Mask, c: ConnId)
    requires CanBeginEvent(s, l, revents)
    ensures NoGain(s, BegunEvent(s, l, revents), c)
  {
    hide L.Enabled, L.Next, G.Callbacks;
    LoopsGain(s, BegunEvent(s, l, revents), l, L.BeginEvent, c);
  }

  lemma EndEventGains(s: System, l: LoopId, c: ConnId)
    requires CanEndEvent(s, l)
    ensures NoGain(s, EndedEvent(s, l), c)
  {
    hide L.Enabled, L.Next;
    LoopsGain(s, EndedEvent(s, l), l, L.EndEvent, c);
  }

  lemma BeginFunctorGains(s: System, l: LoopId, c: ConnId)
    requires CanBeginFunctor(s, l) && s.loops[l].next < |s.loops[l].batch|
    ensures NoGain(s, BegunFunctor(s, l), c)
  {
    hide L.Enabled, L.Next, Begun;
    LoopsGain(s, BegunFunctor(s, l), l, L.BeginFunctor, c);
  }

  lemma LoopStepGains(s: System, l: LoopId, a: L.Action<Functor>, c: ConnId)
    requires CanLoopStep(s, l, a) && Globals(s)
    ensures NoGain(s, Stepped(s, l, a), c)
  {
    hide L.Enabled, L.Next, CanReport;
    LoopsGain(s, Stepped(s, l, a), l, a, c);
  }

  lemma LoopActionGains(s: System, act: Action, c: ConnId)
    requires IsLoopAction(act) && Enabled(s, act) && Globals(s)
    ensures NoGain(s, Next(s, act), c)
  {
    hide NoGain, CanLoopStep, CanBeginEvent, CanEndEvent, Stepped, BegunEvent, EndedEvent, BegunFunctor, Globals;
    match act
    case LoopStep(l, a) => LoopStepGains(s, l, a, c);
    case BeginEvent(l, revents) => BeginEventGains(s, l, revents, c);
    case EndEvent(l) => EndEventGains(s, l, c);
    case BeginFunctor(l) => BeginFunctorGains(s, l, c);
  }

  lemma AcceptGains(s: System, c: ConnId)
    requires CanAccept(s) && c != s.nextId
    ensures NoGain(s, Accepts(s), c)
  {
  }

  /** The thread that takes a step in its frame. */
  function ThreadOf(s: System, act: Action): LoopId {
    match act
    case Establish(m) => m
    case RunCallback(m, _, _) => m
    case Remove(m) => m
    case PostDestroy(m) => m
    case Destroy(m) => m
    case _ => s.base
  }

  lemma NothingGains(s: System, act: Action, c: ConnId)
    requires Inv(s) && Enabled(s, act) && c in s.conns && s.conns[c].stage == SDown && !HasOwner(s, c)
    ensures NoGain(s, Next(s, act), c)
  {
    hide MachinesOK, LoopsOK, ConnsOK, IsDestructed, LoopHolds, FrameHolds;
    if IsLoopAction(act) {
      LoopActionGains(s, act, c);
    } else if act.Accept? {
      FreshId(s);
      AcceptGains(s, c);
    } else if !IsUserAction(act) {
      var l := ThreadOf(s, act);
      FrameIsOfTheLiving(s, l);
      FrameStepGains(s, act, l, c);
    }
  }

  lemma PointersStay(s: System, act: Action, c: ConnId)
    requires Enabled(s, act) && c in s.conns && s.nextId !in s.conns && act != Copy(c)
    ensures c in Next(s, act).conns && Next(s, act).conns[c].users <= s.conns[c].users
  {
    hide L.Enabled, L.Next, IsDestructed, CanReport;
  }

  lemma DestructedStays(s: System, act: Action, c: ConnId)
    requires Inv(s) && Enabled(s, act) && IsDestructed(s, c)
    ensures IsDestructed(Next(s, act), c)
  {
    hide Next, NoGain, MachinesOK, LoopsOK, ConnsOK, HasOwner;
    DownWhenDestructed(s, c);
    FreshId(s);
    PointersStay(s, act, c);
    NothingGains(s, act, c);
    NoGainKeepsOwnerless(s, Next(s, act), c);
  }

  lemma {:induction false} DestructedForever(s: System, run: seq<Action>, c: ConnId)
    requires Inv(s) && IsAsserted(s, run) && IsDestructed(s, c)
    ensures Inv(After(s, run)) && IsDestructed(After(s, run), c)
    decreases |run|
  {
    hide Inv, Enabled, Next, IsDestructed;
    if run != [] {
      StepInv(s, run[0]);
      DestructedStays(s, run[0], c);
      DestructedForever(Next(s, run[0]), run[1..], c);
    }
  }

  /**
   Once the last pointer to a connection is gone, nothing ever holds it again, and its channel
   is out of the poller for good, so its descriptor is free to be used anew.
  */
  lemma DestructionIsFinal(s0: System, run: seq<Action>, more: seq<Action>, c: ConnId)
    requires IsInit(s0) && IsAsserted(s0, run) && IsDestructed(After(s0, run), c)
    requires IsAsserted(After(s0, run), more)
    ensures var s := After(After(s0, run), more);
            IsDestructed(s, c) && s.conns[c].state == Disconnected && !s.conns[c].registered
  {
    hide Enabled, Next, HasOwner;
    ReachableInv(s0, run);
    DestructedForever(After(s0, run), more, c);
    var s := After(After(s0, run), more);
    DownWhenDestructed(s, c);
    assert ConnOK(s, c);
  }

  lemma DownWhenDestructed(s: System, c: ConnId)
    requires Inv(s) && IsDestructed(s, c)
    ensures s.conns[c].stage == SDown
  {
    if s.conns[c].stage != SDown { OwnedInv(s, c); }
  }

  lemma NoGainKeepsOwnerless(s: System, s': System, c: ConnId)
    requires NoGain(s, s', c) && !HasOwner(s, c)
    ensures !HasOwner(s', c)
  {
    if HasOwner(s', c) { NoGainNoOwner(s, s', c); }
  }

  // ----- closing -----

  /** Up, messages, down: what the user's callbacks have seen of a connection so far. */
  ghost predicate NoticesInOrder(conn: Conn) {
    || conn.notices == []
    || (exists n: nat :: conn.notices == [Up] + Messages(n) + [])
    || (conn.state == Disconnected && conn.closes > 0 && conn.erases == 1
        && exists n: nat :: conn.notices == [Up] + Messages(n) + [Down])
  }

  lemma ConnNotices(s: System, c: ConnId)
    requires ConnOK(s, c)
    ensures s.conns[c].erases <= 1 && s.conns[c].erases <= s.conns[c].closes <= 2 && NoticesInOrder(s.conns[c])
  {
    var conn := s.conns[c];
    if Rank(conn.stage) >= Rank(SLive) {
      var n: nat :| conn.notices == [Up] + Messages(n) + if conn.stage == SDown then [Down] else [];
      if conn.stage == SDown { assert conn.notices == [Up] + Messages(n) + [Down]; }
    }
  }

  /**
   In every run the map entry is erased at most once and only after `handleClose`, which runs twice
   at most; what the user's callbacks see is up, messages, down.
  */
  lemma ErasesAtMostOnce(s0: System, run: seq<Action>, c: ConnId)
    requires IsInit(s0) && IsAsserted(s0, run) && c in After(s0, run).conns
    ensures var conn := After(s0, run).conns[c];
            conn.erases <= 1 && conn.erases <= conn.closes <= 2 && NoticesInOrder(conn)
  {
    hide Enabled, Next, NoticesInOrder;
    ReachableInv(s0, run);
    ConnNotices(After(s0, run), c);
  }

  /** A step that erases the map entry of a connection whose entry has been erased before. */
  predicate ErasesAgain(s: System, act: Action) {
    && (act == Remove(s.base) || act == Erase)
    && s.base in s.frames && s.frames[s.base] != Idle && s.frames[s.base].c in s.conns
    && s.conns[s.frames[s.base].c].erases > 0
  }

  lemma FrameAssertions(s: System, act: Action, l: LoopId)
    requires Enabled(s, act) && LoopOK(s, l) && s.frames[l] != Idle && ConnOK(s, s.frames[l].c)
    requires (act.Establish? || act.RunCallback? || act.Remove? || act.Destroy?) ==> act.l == l
    requires act.Erase? ==> l == s.base
    ensures !AssertionsHold(s, act) <==> ErasesAgain(s, act)
  {
    hide TodoOK, ActiveOK, NoticesOK, L.Enabled;
  }

  lemma StepAssertions(s: System, act: Action)
    requires Inv(s) && Enabled(s, act)
    ensures !AssertionsHold(s, act) <==> ErasesAgain(s, act)
  {
    hide FrameOK, TodoOK, ActiveOK, ConnOK, L.Inv;
    if act.Establish? || act.RunCallback? || act.Remove? || act.Destroy? {
      assert LoopOK(s, act.l);
      LivingFrame(s, act.l);
      FrameAssertions(s, act, act.l);
    } else if act.Erase? {
      assert LoopOK(s, s.base);
      LivingFrame(s, s.base);
      FrameAssertions(s, act, s.base);
    }
  }

  /**
   The assertions about states, threads, the map and the poller: in every run that has got this
   far, a step fails one exactly when it erases an entry for the second time.
  */
  lemma AssertionsFailExactlyWhen(s0: System, run: seq<Action>, act: Action)
    requires IsInit(s0) && IsAsserted(s0, run) && Enabled(After(s0, run), act)
    ensures !AssertionsHold(After(s0, run), act) <==> ErasesAgain(After(s0, run), act)
  {
    hide Next, Enabled, AssertionsHold, ErasesAgain;
    ReachableInv(s0, run);
    StepAssertions(After(s0, run), act);
  }

  // ----- which loop a connection lives on -----

  /** Connections are handed to the pool's loops in turn. */
  ghost predicate InTurn(s: System) {
    && s.nextId > ACCEPTOR
    && s.nextLoop == (if s.pool == [] then 0 else (s.nextId - 1) % |s.pool|)
    && forall c :: c in s.conns ==> ACCEPTOR < c && s.conns[c].io == T.TurnOf(s.base, s.pool, c - 1)
  }

  /** Nothing about the assignment of loops changes. */
  ghost predicate KeepsLoops(s: System, s': System) {
    && s'.base == s.base && s'.pool == s.pool && s'.nextLoop == s.nextLoop && s'.nextId == s.nextId
    && forall c :: c in s'.conns ==> c in s.conns && s'.conns[c].io == s.conns[c].io
  }

  lemma OthersKeepLoops(s: System, act: Action)
    requires Enabled(s, act) && act != Accept
    ensures KeepsLoops(s, Next(s, act))
  {
    hide L.Enabled, L.Next, IsDestructed, CanReport;
  }

  lemma AcceptTakesTurn(s: System)
    requires InTurn(s) && CanAccept(s)
    ensures InTurn(Accepts(s))
  {
    if s.pool != [] { T.NextTurn(|s.pool|, s.nextId - 1); }
  }

  lemma {:induction false} RunTakesTurns(s: System, run: seq<Action>)
    requires InTurn(s) && IsRun(s, run)
    ensures InTurn(After(s, run)) && After(s, run).pool == s.pool && After(s, run).base == s.base
    decreases |run|
  {
    hide Enabled;
    if run != [] {
      StepTakesTurn(s, run[0]);
      RunTakesTurns(Next(s, run[0]), run[1..]);
    }
  }

  lemma StepTakesTurn(s: System, act: Action)
    requires InTurn(s) && Enabled(s, act)
    ensures InTurn(Next(s, act)) && Next(s, act).pool == s.pool && Next(s, act).base == s.base
  {
    if act == Accept { AcceptTakesTurn(s); } else { OthersKeepLoops(s, act); hide Next; }
  }

  /** In every run, the k-th connection lives on loop k mod n of a pool of n, or on the base loop without a pool. */
  lemma ConnectionsTakeTurns(s0: System, run: seq<Action>, c: ConnId)
    requires IsInit(s0) && IsRun(s0, run) && c in After(s0, run).conns
    ensures c > 0 && After(s0, run).conns[c].io == T.TurnOf(s0.base, s0.pool, c - 1)
  {
    hide Enabled, Next;
    if s0.pool != [] { T.DivMod(0, |s0.pool|, 0, 0); }
    RunTakesTurns(s0, run);
  }

  // ----- nothing gets stuck -----

  /** The step a thread takes next in its frame, when the kernel has neither an end of file nor room to report. */
  function FrameStep(frame: Frame, l: LoopId): Action {
    match frame
    case Idle => LoopStep(l, L.EndFunctor)
    case Accepted(_) => Insert
    case Mapped(_) => Post
    case Establishing(_) => Establish(l)
    case Handling(_, todo) => if todo == [] then EndEvent(l) else RunCallback(l, false, false)
    case Closing(_, _) => Remove(l)
    case Removing(_) => Erase
    case ErasedInline(_, _) => PostDestroy(l)
    case Erased(_) => PostDestroy(l)
    case Destroying(_) => Destroy(l)
  }

  lemma FrameCanStep(s: System, l: LoopId)
    requires Globals(s) && LoopOK(s, l) && s.frames[l] != Idle && ConnOK(s, s.frames[l].c)
    requires s.loops[l].owner == l && ThreadFree(s, l)
    requires forall x :: x in s.loops ==> s.loops[x].owner == x
    ensures Enabled(s, FrameStep(s.frames[l], l))
  {
    hide TodoOK, ActiveOK, NoticesOK;
  }

  lemma WakeCanStep(s: System, l: LoopId)
    requires Globals(s) && !ThreadFree(s, l)
    ensures exists x :: x in s.loops && Enabled(s, LoopStep(x, L.Wake(l)))
  {
    var x :| x in s.loops && l in s.loops[x].due;
    assert Enabled(s, LoopStep(x, L.Wake(l)));
  }

  lemma FreeFrameCanStep(s: System, l: LoopId)
    requires Inv(s) && l in s.loops && s.frames[l] != Idle && ThreadFree(s, l)
    ensures Enabled(s, FrameStep(s.frames[l], l))
  {
    hide Enabled, FrameOK, ActiveOK, TodoOK, L.Inv, ThreadFree;
    FrameIsOfTheLiving(s, l);
    assert LoopOK(s, l) && ConnOK(s, s.frames[l].c);
    FrameCanStep(s, l);
  }

  /**
   No thread is ever stuck in the middle of a hand-off: it has a wakeup to write, or its next
   step can be taken, whatever the other threads are doing.
  */
  lemma HandoffsMoveOn(s0: System, run: seq<Action>, l: LoopId)
    requires IsInit(s0) && IsAsserted(s0, run)
    requires l in After(s0, run).loops && l in After(s0, run).frames && After(s0, run).frames[l] != Idle
    ensures var s := After(s0, run);
            if ThreadFree(s, l) then Enabled(s, FrameStep(s.frames[l], l))
            else exists x :: x in s.loops && Enabled(s, LoopStep(x, L.Wake(l)))
  {
    hide Next, Enabled, ThreadFree, MachinesOK, LoopsOK, ConnsOK;
    ReachableInv(s0, run);
    var s := After(s0, run);
    if ThreadFree(s, l) { FreeFrameCanStep(s, l); } else { WakeCanStep(s, l); }
  }

  // ----- what a step does to the loops -----

  /** A hand-off is pushed from outside, or by an owner inside a callback or a functor. */
  predicate PushesInTime(s: System, x: LoopId, a: L.Action<Functor>)
    requires x in s.loops
  {
    a.Queue? && IsHandoff(a.f) ==> a.t != x || s.loops[x].busy
  }

  /** Every step of a server is at most one step of one of its loops. */
  ghost predicate StepsOneLoop(s: System, s': System) {
    || s'.loops == s.loops
    || exists x, a :: x in s.loops && L.Enabled(s.loops[x], a) && PushesInTime(s, x, a)
                      && s'.loops == s.loops[x := L.Next(s.loops[x], a)]
  }

  lemma OneLoop(s: System, s': System, x: LoopId, a: L.Action<Functor>)
    requires x in s.loops && L.Enabled(s.loops[x], a) && PushesInTime(s, x, a)
    requires s'.loops == s.loops[x := L.Next(s.loops[x], a)]
    ensures StepsOneLoop(s, s')
  {
  }

  lemma LoopActionIsLoopStep(s: System, act: Action)
    requires IsLoopAction(act) && Enabled(s, act)
    ensures StepsOneLoop(s, Next(s, act))
  {
    hide L.Enabled, L.Next, CanReport, StepsOneLoop;
    match act
    case LoopStep(l, a) => OneLoop(s, Next(s, act), l, a);
    case BeginEvent(l, _) => OneLoop(s, Next(s, act), l, L.BeginEvent);
    case EndEvent(l) => OneLoop(s, Next(s, act), l, L.EndEvent);
    case BeginFunctor(l) => OneLoop(s, Next(s, act), l, L.BeginFunctor);
  }

  lemma PostIsLoopStep(s: System)
    requires CanPost(s)
    ensures StepsOneLoop(s, Posted(s))
  {
    var c := s.frames[s.base].c;
    if IoOf(s, c) != s.base {
      OneLoop(s, Posted(s), IoOf(s, c), L.Queue(s.base, ConnectEstablished(c)));
    }
  }

  lemma CallbackIsLoopStep(s: System, l: LoopId, endOfFile: bool, drained: bool)
    requires CanRunCallback(s, l)
    ensures StepsOneLoop(s, AfterCallback(s, l, endOfFile, drained))
  {
    var s' := AfterCallback(s, l, endOfFile, drained);
    if s'.loops != s.loops {
      OneLoop(s, s', l, L.Queue(l, WriteComplete(s.frames[l].c)));
    }
  }

  lemma RemoveIsLoopStep(s: System, l: LoopId)
    requires CanRemove(s, l)
    ensures StepsOneLoop(s, Removed(s, l))
  {
    if l != s.base {
      OneLoop(s, Removed(s, l), s.base, L.Queue(l, RemoveConnectionInLoop(s.frames[l].c)));
    }
  }

  lemma PostDestroyIsLoopStep(s: System, l: LoopId)
    requires CanPostDestroy(s, l) && s.loops[l].busy
    ensures StepsOneLoop(s, DestroyPosted(s, l))
  {
    var c := s.frames[l].c;
    OneLoop(s, DestroyPosted(s, l), IoOf(s, c), L.Queue(l, ConnectDestroyed(c)));
  }

  lemma StepIsLoopStep(s: System, act: Action)
    requires LoopsOK(s) && Enabled(s, act)
    ensures StepsOneLoop(s, Next(s, act))
  {
    hide L.Enabled, L.Next, FrameOK, ActiveOK, TodoOK, IsDestructed;
    if IsLoopAction(act) { LoopActionIsLoopStep(s, act); }
    else {
      match act
      case Post => PostIsLoopStep(s);
      case RunCallback(l, endOfFile, drained) => CallbackIsLoopStep(s, l, endOfFile, drained);
      case Remove(l) => RemoveIsLoopStep(s, l);
      case PostDestroy(l) =>
        assert LoopOK(s, l);
        PostDestroyIsLoopStep(s, l);
      case _ =>
    }
  }

  // ----- each loop is a run of the loop machine -----

  ghost predicate IsMachineState(l: LoopId, loop: L.Loop<Functor>) {
    exists run :: L.IsRun(L.Init<Functor>(l), run) && L.After(L.Init<Functor>(l), run) == loop
  }

  lemma MachineStateSteps(l: LoopId, loop: L.Loop<Functor>, a: L.Action<Functor>)
    requires IsMachineState(l, loop) && L.Enabled(loop, a)
    ensures IsMachineState(l, L.Next(loop, a))
  {
    var run :| L.IsRun(L.Init<Functor>(l), run) && L.After(L.Init<Functor>(l), run) == loop;
    L.RunExtends(L.Init<Functor>(l), run, a);
  }

  /** While a hand-off waits for the first poll of a loop, a wakeup is due or delivered. */
  ghost predicate HandoffIsSignalled(loop: L.Loop<Functor>) {
    L.Early(loop) && (exists f :: f in loop.pending && IsHandoff(f)) ==> L.Signalled(loop)
  }

  lemma SignalStays(loop: L.Loop<Functor>, a: L.Action<Functor>)
    requires L.Inv(loop) && L.Enabled(loop, a) && HandoffIsSignalled(loop)
    requires a.Queue? && IsHandoff(a.f) ==> a.t != loop.owner || loop.busy
    ensures HandoffIsSignalled(L.Next(loop, a))
  {
  }

  ghost predicate LoopsAreMachines(s: System) {
    forall l :: l in s.loops ==> IsMachineState(l, s.loops[l]) && HandoffIsSignalled(s.loops[l])
  }

  lemma LoopsStayMachines(s: System, s': System)
    requires MachinesOK(s) && LoopsAreMachines(s) && StepsOneLoop(s, s')
    ensures LoopsAreMachines(s')
  {
    hide L.Inv, L.Enabled, L.Next, IsMachineState, HandoffIsSignalled;
    if s'.loops != s.loops {
      var x, a :| x in s.loops && L.Enabled(s.loops[x], a) && PushesInTime(s, x, a)
                  && s'.loops == s.loops[x := L.Next(s.loops[x], a)];
      MachineStateSteps(x, s.loops[x], a);
      SignalStays(s.loops[x], a);
    }
  }

  lemma InitLoopsAreMachines(s: System)
    requires IsInit(s)
    ensures LoopsAreMachines(s)
  {
    forall l | l in s.loops ensures IsMachineState(l, s.loops[l]) {
      assert L.IsRun(L.Init<Functor>(l), []) && L.After(L.Init<Functor>(l), []) == s.loops[l];
    }
  }

  lemma {:induction false} RunLoopsAreMachines(s: System, run: seq<Action>)
    requires Inv(s) && LoopsAreMachines(s) && IsAsserted(s, run)
    ensures Inv(After(s, run)) && LoopsAreMachines(After(s, run))
    decreases |run|
  {
    if run != [] {
      hide Enabled, Next, AssertionsHold, LoopsAreMachines, StepsOneLoop;
      StepIsLoopStep(s, run[0]);
      LoopsStayMachines(s, Next(s, run[0]));
      StepInv(s, run[0]);
      RunLoopsAreMachines(Next(s, run[0]), run[1..]);
    }
  }

  lemma ReachableLoops(s0: System, run: seq<Action>)
    requires IsInit(s0) && IsAsserted(s0, run)
    ensures Inv(After(s0, run)) && LoopsAreMachines(After(s0, run))
  {
    hide Inv, LoopsAreMachines, Enabled, Next;
    InitInv(s0);
    InitLoopsAreMachines(s0);
    RunLoopsAreMachines(s0, run);
  }

  /** A loop never sleeps on a hand-off. */
  lemma HandoffIsNotSleptOn(loop: L.Loop<Functor>, f: Functor)
    requires L.Inv(loop) && HandoffIsSignalled(loop) && IsHandoff(f) && f in loop.Todo()
    ensures !loop.Stuck()
  {
  }

  // ----- hand-offs under way -----

  /** A thread is carrying a closed connection on. */
  predicate HandsOn(frame: Frame, c: ConnId) {
    (frame.Closing? || frame.Removing? || frame.ErasedInline? || frame.Erased? || frame.Destroying?) && frame.c == c
  }

  /** The functor that carries a closed connection on is queued on loop `l`, once; a second close may add another. */
  ghost predicate QueuedToClose(s: System, l: LoopId, c: ConnId) {
    && l in s.loops && s.loops[l].next <= |s.loops[l].batch|
    && multiset(s.loops[l].Todo())[RemoveConnectionInLoop(c)] + multiset(s.loops[l].Todo())[ConnectDestroyed(c)]
       == 1 + if l == s.base && AtAgain(s, c, AgainPosted) then 1 else 0
  }

  lemma StageHandsOn(s: System, c: ConnId)
    requires Globals(s) && ConnOK(s, c) && LoopsOK(s)
    requires Rank(SLive) < Rank(s.conns[c].stage) < Rank(SDown)
    ensures (exists l :: l in s.frames && HandsOn(s.frames[l], c)) || (exists l :: QueuedToClose(s, l, c))
  {
    hide NoticesOK, FrameOK, ActiveOK;
    var io := s.conns[c].io;
    var l := if s.conns[c].stage == SDestroyPosted then io else s.base;
    if IsQueued(s.conns[c].stage) {
      assert LoopOK(s, l);
      assert Expected(s, l, RemoveConnectionInLoop(c)) + Expected(s, l, ConnectDestroyed(c))
             == 1 + if l == s.base && AtAgain(s, c, AgainPosted) then 1 else 0;
      assert QueuedToClose(s, l, c);
    } else {
      assert HandsOn(s.frames[io], c) || HandsOn(s.frames[s.base], c);
    }
  }

  /** The functor that opens a connection is queued on loop `l`, once. */
  ghost predicate QueuedToOpen(s: System, l: LoopId, c: ConnId) {
    && l in s.loops && s.loops[l].next <= |s.loops[l].batch|
    && multiset(s.loops[l].Todo())[ConnectEstablished(c)] == 1
  }

  /** A thread is carrying a new connection on. */
  predicate Opens(frame: Frame, c: ConnId) {
    (frame.Accepted? || frame.Mapped? || frame.Establishing?) && frame.c == c
  }

  lemma StageOpens(s: System, c: ConnId)
    requires Globals(s) && ConnOK(s, c) && LoopsOK(s)
    requires Rank(s.conns[c].stage) < Rank(SLive)
    ensures (exists l :: l in s.frames && Opens(s.frames[l], c)) || (exists l :: QueuedToOpen(s, l, c))
  {
    hide NoticesOK, FrameOK, ActiveOK;
    var io := s.conns[c].io;
    if s.conns[c].stage == SPosted {
      assert LoopOK(s, io);
      assert Expected(s, io, ConnectEstablished(c)) == 1;
      assert QueuedToOpen(s, io, c);
    } else {
      assert Opens(s.frames[io], c) || Opens(s.frames[s.base], c);
    }
  }

  lemma QueuedIsAwake(s: System, l: LoopId, f: Functor)
    requires Inv(s) && LoopsAreMachines(s) && l in s.loops && IsHandoff(f)
    requires s.loops[l].next <= |s.loops[l].batch| && multiset(s.loops[l].Todo())[f] > 0
    ensures !s.loops[l].Stuck()
  {
    hide L.Inv, LoopsOK, ConnsOK, HandoffIsSignalled, IsMachineState;
    HandoffIsNotSleptOn(s.loops[l], f);
  }

  lemma QueuedToCloseIsAwake(s: System, l: LoopId, c: ConnId)
    requires Inv(s) && LoopsAreMachines(s) && QueuedToClose(s, l, c)
    ensures !s.loops[l].Stuck()
  {
    hide Inv, LoopsAreMachines;
    var f := if multiset(s.loops[l].Todo())[RemoveConnectionInLoop(c)] > 0
    then RemoveConnectionInLoop(c) else ConnectDestroyed(c);
    QueuedIsAwake(s, l, f);
  }

  lemma ClosingStage(s: System, c: ConnId)
    requires Inv(s) && c in s.conns && s.conns[c].closes > 0 && s.conns[c].state != Disconnected
    ensures (exists l :: l in s.frames && HandsOn(s.frames[l], c)) || (exists l :: QueuedToClose(s, l, c))
  {
    hide LoopOK, L.Inv, NoticesOK;
    assert ConnOK(s, c);
    StageHandsOn(s, c);
  }

  lemma OpeningStage(s: System, c: ConnId)
    requires Inv(s) && c in s.conns && s.conns[c].state == Connecting
    ensures (exists l :: l in s.frames && Opens(s.frames[l], c)) || (exists l :: QueuedToOpen(s, l, c))
  {
    hide LoopOK, L.Inv, NoticesOK;
    assert ConnOK(s, c);
    StageOpens(s, c);
  }

  /**
   A close is never dropped half way: until `connectDestroyed` has run, a thread is carrying it
   on (and `HandoffsMoveOn` says it can), or its functor is queued, once, on a loop that is not
   asleep on it.
  */
  lemma ClosingIsUnderway(s0: System, run: seq<Action>, c: ConnId)
    requires IsInit(s0) && IsAsserted(s0, run) && c in After(s0, run).conns
    requires After(s0, run).conns[c].closes > 0 && After(s0, run).conns[c].state != Disconnected
    ensures var s := After(s0, run);
            || (exists l :: l in s.frames && HandsOn(s.frames[l], c))
            || (exists l :: QueuedToClose(s, l, c) && !s.loops[l].Stuck())
  {
    hide Enabled, Next, Inv, LoopsAreMachines, HandsOn;
    ReachableLoops(s0, run);
    var s := After(s0, run);
    ClosingStage(s, c);
    if l :| QueuedToClose(s, l, c) { QueuedToCloseIsAwake(s, l, c); }
  }

  /** Neither is the opening: until `connectEstablished` runs, a thread has it, or a loop that is not asleep on it. */
  lemma OpeningIsUnderway(s0: System, run: seq<Action>, c: ConnId)
    requires IsInit(s0) && IsAsserted(s0, run) && c in After(s0, run).conns
    requires After(s0, run).conns[c].state == Connecting
    ensures var s := After(s0, run);
            || (exists l :: l in s.frames && Opens(s.frames[l], c))
            || (exists l :: QueuedToOpen(s, l, c) && !s.loops[l].Stuck())
  {
    hide Enabled, Next, Inv, LoopsAreMachines, Opens;
    ReachableLoops(s0, run);
    var s := After(s0, run);
    OpeningStage(s, c);
    if l :| QueuedToOpen(s, l, c) { QueuedIsAwake(s, l, ConnectEstablished(c)); }
  }

  // ----- the loops of a server -----

  /**
   Each loop of the server is in a state of a run of the loop machine, so all that is proved of
   those holds of it: when it sleeps on work, that it never sleeps on a quit, that no functor is lost.
  */
  lemma LoopsKeepTheirPromises(s0: System, run: seq<Action>, l: LoopId)
    requires IsInit(s0) && IsAsserted(s0, run) && l in After(s0, run).loops
    ensures var loop := After(s0, run).loops[l];
            exists steps: seq<L.Action<Functor>> ::
              && L.IsRun(L.Init<Functor>(l), steps) && L.After(L.Init<Functor>(l), steps) == loop
              && (loop.Stuck() <==> loop.phase == L.AtPoll && loop.iterations == 1
                                    && L.QueuesWork(steps) && !L.CalledFromOutside(l, steps))
    ensures var loop := After(s0, run).loops[l];
            && (loop.quit && loop.phase == L.AtPoll ==> L.Signalled(loop))
            && loop.next <= |loop.batch| && loop.executed + loop.Todo() == loop.pushed
  {
    hide Enabled, Next, LoopsOK, ConnsOK, HandoffIsSignalled;
    ReachableLoops(s0, run);
    var loop := After(s0, run).loops[l];
    assert IsMachineState(l, loop);
    var steps: seq<L.Action<Functor>> :| L.IsRun(L.Init<Functor>(l), steps) && L.After(L.Init<Functor>(l), steps) == loop;
    L.StuckExactlyWhen(l, steps);
  }
}
