/**
 What the steps of a run of the server amount to: every reported channel is handled and every callback
 of its events is made, and what the user sees of a connection is what the steps have done.
*/
module ServerHistory {
  import L = LoopMachine
  import G = Registry
  import opened Server
  import opened ServerInvariant
  import opened ServerSteps
  import opened ServerTheorems
  import opened ServerCloses

  // ----- every reported channel is handled -----

  /** The events that loop `l` begins to handle in a run, in order. */
  ghost function HandledOn(s: System, l: LoopId, run: seq<Action>): seq<L.Event>
    requires IsRun(s, run)
    decreases |run|
  {
    if run == [] then []
    else
      (if run[0].BeginEvent? && run[0].l == l then [s.loops[l].phase.active[0]] else [])
      + HandledOn(Next(s, run[0]), l, run[1..])
  }

  predicate AtSwap(s: System, l: LoopId) {
    l in s.loops && s.loops[l].phase == L.BeforeSwap
  }

  /** The run ends where loop `l` is about to swap its queue, for the first time. */
  ghost predicate EndsAtSwap(s: System, l: LoopId, run: seq<Action>)
    requires IsRun(s, run)
    decreases |run|
  {
    run != [] &&
    var s' := Next(s, run[0]);
    if AtSwap(s', l) then |run| == 1 else EndsAtSwap(s', l, run[1..])
  }

  predicate Dispatches(s: System, l: LoopId) {
    l in s.loops && s.loops[l].phase.Dispatch? && (s.loops[l].busy ==> s.loops[l].phase.active != [])
  }

  /** What a step leaves of the dispatch on loop `l`. */
  ghost predicate DispatchGoesOn(s: System, act: Action, s': System, l: LoopId)
    requires Dispatches(s, l) && (act.BeginEvent? && act.l == l ==> s.loops[l].phase.active != [])
  {
    if AtSwap(s', l) then L.Unhandled(s.loops[l]) == [] && !act.BeginEvent?
    else
      && Dispatches(s', l)
      && L.Unhandled(s.loops[l]) == (if act.BeginEvent? && act.l == l then [s.loops[l].phase.active[0]] else [])
                                    + L.Unhandled(s'.loops[l])
  }

  /** A step that leaves the loop in its phase leaves the dispatch as it is. */
  lemma SamePhaseGoesOn(s: System, act: Action, s': System, l: LoopId)
    requires Dispatches(s, l) && !(act.BeginEvent? && act.l == l)
    requires l in s'.loops && s'.loops[l].phase == s.loops[l].phase && s'.loops[l].busy == s.loops[l].busy
    ensures DispatchGoesOn(s, act, s', l)
  {
  }

  lemma LoopStepGoesOn(s: System, x: LoopId, a: L.Action<Functor>, l: LoopId)
    requires Dispatches(s, l) && CanLoopStep(s, x, a)
    ensures DispatchGoesOn(s, LoopStep(x, a), Stepped(s, x, a), l)
  {
    if x == l { hide CanReport; } else { hide L.Enabled, L.Next; }
  }

  lemma OwnEventGoesOn(s: System, act: Action, l: LoopId)
    requires Dispatches(s, l) && Enabled(s, act) && (act == EndEvent(l) || act == BeginFunctor(l) || (act.BeginEvent? && act.l == l))
    ensures act != BeginFunctor(l) && DispatchGoesOn(s, act, Next(s, act), l)
  {
    hide G.Callbacks;
  }

  lemma OtherEventGoesOn(s: System, act: Action, l: LoopId)
    requires Dispatches(s, l) && Enabled(s, act) && (act.BeginEvent? || act.EndEvent? || act.BeginFunctor?) && act.l != l
    ensures DispatchGoesOn(s, act, Next(s, act), l)
  {
    hide G.Callbacks, L.Enabled, L.Next;
  }

  lemma EventStepGoesOn(s: System, act: Action, l: LoopId)
    requires Dispatches(s, l) && Enabled(s, act) && (act.BeginEvent? || act.EndEvent? || act.BeginFunctor?)
    ensures act != BeginFunctor(l) && DispatchGoesOn(s, act, Next(s, act), l)
  {
    hide DispatchGoesOn, Enabled, Next;
    if act.l == l { OwnEventGoesOn(s, act, l); } else { OtherEventGoesOn(s, act, l); }
  }

  lemma OthersKeepPhase(s: System, act: Action, l: LoopId)
    requires l in s.loops && Enabled(s, act) && !IsLoopAction(act)
    ensures var s' := Next(s, act);
            l in s'.loops && s'.loops[l].phase == s.loops[l].phase && s'.loops[l].busy == s.loops[l].busy
  {
    hide IsDestructed, L.Enabled;
  }

  lemma DispatchStep(s: System, act: Action, l: LoopId)
    requires Dispatches(s, l) && Enabled(s, act)
    ensures act != BeginFunctor(l) && DispatchGoesOn(s, act, Next(s, act), l)
  {
    hide DispatchGoesOn;
    match act
    case LoopStep(x, a) => LoopStepGoesOn(s, x, a, l);
    case BeginEvent(_, _) => EventStepGoesOn(s, act, l);
    case EndEvent(_) => EventStepGoesOn(s, act, l);
    case BeginFunctor(_) => EventStepGoesOn(s, act, l);
    case _ =>
      OthersKeepPhase(s, act, l);
      SamePhaseGoesOn(s, act, Next(s, act), l);
  }

  lemma {:induction false} DispatchHandles(s: System, l: LoopId, run: seq<Action>)
    requires Dispatches(s, l) && IsRun(s, run) && EndsAtSwap(s, l, run)
    ensures HandledOn(s, l, run) == L.Unhandled(s.loops[l]) && BeginFunctor(l) !in run
    decreases |run|
  {
    hide Enabled, Next, L.Unhandled, Dispatches, AtSwap;
    DispatchStep(s, run[0], l);
    assert run[0] in run && forall act :: act in run ==> act == run[0] || act in run[1..];
    if !AtSwap(Next(s, run[0]), l) { DispatchHandles(Next(s, run[0]), l, run[1..]); }
  }

  /**
   Whatever `poll` reports on a loop of a server is handled, with all other threads at work: between
   its return and the next batch of functors, the handling of exactly the active channels begins,
   each once and in their order.
  */
  lemma ReportedChannelsAreHandled(s0: System, run: seq<Action>, l: LoopId, active: seq<L.Event>, more: seq<Action>)
    requires IsInit(s0) && IsAsserted(s0, run) && Enabled(After(s0, run), LoopStep(l, L.PollReturn(active)))
    requires var s := Next(After(s0, run), LoopStep(l, L.PollReturn(active))); IsRun(s, more) && EndsAtSwap(s, l, more)
    ensures var s := Next(After(s0, run), LoopStep(l, L.PollReturn(active)));
            HandledOn(s, l, more) == active && BeginFunctor(l) !in more
  {
    ReachableInv(s0, run);
    PollBegins(After(s0, run), l, active);
    hide Enabled, Next, Inv, Dispatches, AtSwap, L.Unhandled;
    DispatchHandles(Next(After(s0, run), LoopStep(l, L.PollReturn(active))), l, more);
  }

  lemma PollBegins(s: System, l: LoopId, active: seq<L.Event>)
    requires MachinesOK(s) && Enabled(s, LoopStep(l, L.PollReturn(active)))
    ensures var s' := Next(s, LoopStep(l, L.PollReturn(active)));
            Dispatches(s', l) && L.Unhandled(s'.loops[l]) == active
  {
    hide CanReport;
    assert L.Inv(s.loops[l]);
  }

  // ----- every callback of an event is made -----

  /** The callback that loop `l` runs in a step, if it does. */
  ghost function CallbackOf(s: System, act: Action, l: LoopId): seq<G.Callback>
    requires Enabled(s, act)
  {
    if act.RunCallback? && act.l == l then [s.frames[l].todo[0]] else []
  }

  /** The callbacks that loop `l` runs in a run, in order. */
  ghost function CallbacksOn(s: System, l: LoopId, run: seq<Action>): seq<G.Callback>
    requires IsRun(s, run)
    decreases |run|
  {
    if run == [] then [] else CallbackOf(s, run[0], l) + CallbacksOn(Next(s, run[0]), l, run[1..])
  }

  lemma CallbackIsNext(s: System, act: Action, s': System, l: LoopId, c: ConnId)
    requires IsHandling(s, l, c) && c in s.conns && Enabled(s, act) && EventGoesOn(s, act, s', l, c)
    ensures ToCome(s, l, c) == CallbackOf(s, act, l) + ToCome(s', l, c)
  {
  }

  lemma {:induction false} EventMakesCallbacks(s: System, l: LoopId, c: ConnId, run: seq<Action>)
    requires Inv(s) && l in s.loops && IsHandling(s, l, c) && IsAsserted(s, run) && EndEvent(l) !in run
    ensures var s' := After(s, run);
            IsHandling(s', l, c) && ToCome(s, l, c) == CallbacksOn(s, l, run) + ToCome(s', l, c)
    decreases |run|
  {
    if run != [] {
      hide Inv, Enabled, Next, IsHandling, ToCome, CallbackOf, AssertionsHold;
      assert run[0] in run && forall act :: act in run[1..] ==> act in run;
      HandlingStep(s, run[0], l, c);
      EventMakesCallbacks(Next(s, run[0]), l, c, run[1..]);
      Associates(CallbackOf(s, run[0], l), CallbacksOn(Next(s, run[0]), l, run[1..]), ToCome(After(s, run), l, c));
    }
  }

  lemma HandlingStep(s: System, act: Action, l: LoopId, c: ConnId)
    requires Inv(s) && l in s.loops && IsHandling(s, l, c)
    requires Enabled(s, act) && AssertionsHold(s, act) && act != EndEvent(l)
    ensures var s' := Next(s, act);
            && Inv(s') && l in s'.loops && IsHandling(s', l, c)
            && ToCome(s, l, c) == CallbackOf(s, act, l) + ToCome(s', l, c)
  {
    hide Inv, Enabled, Next, EventGoesOn, IsHandling, ToCome, CallbackOf, AssertionsHold;
    StepGoesOn(s, act, l, c);
    GoesOnHandling(s, act, Next(s, act), l, c);
    CallbackIsNext(s, act, Next(s, act), l, c);
    StepInv(s, act);
    StaysHandling(s, act, l, c);
  }

  lemma Associates(a: seq<G.Callback>, b: seq<G.Callback>, c: seq<G.Callback>)
    ensures a + b + c == a + (b + c)
  {
  }

  lemma GoesOnHandling(s: System, act: Action, s': System, l: LoopId, c: ConnId)
    requires IsHandling(s, l, c) && c in s.conns && EventGoesOn(s, act, s', l, c)
    ensures IsHandling(s', l, c)
  {
  }

  /**
   An event of a connection makes the callbacks its flags ask for, all of them and in order, before its
   handling ends, whatever the other threads do.
  */
  lemma EventsMakeTheirCallbacks(s0: System, run: seq<Action>, l: LoopId, revents: G.Mask, more: seq<Action>)
    requires IsInit(s0) && IsAsserted(s0, run) && Enabled(After(s0, run), BeginEvent(l, revents))
    requires IsConnEvent(After(s0, run).loops[l].phase.active[0])
    requires var s := Next(After(s0, run), BeginEvent(l, revents));
             IsAsserted(s, more) && EndEvent(l) !in more && Enabled(After(s, more), EndEvent(l))
    ensures CallbacksOn(Next(After(s0, run), BeginEvent(l, revents)), l, more) == G.Callbacks(revents)
  {
    hide Next, Inv, Progress;
    var c := After(s0, run).loops[l].phase.active[0].channel;
    hide Enabled;
    EventIsReached(s0, run, l, revents);
    var s := Next(After(s0, run), BeginEvent(l, revents));
    AllToCome(s, l, c, revents);
    EventMakesCallbacks(s, l, c, more);
    NothingToCome(After(s, more), l, c);
  }

  lemma AllToCome(s: System, l: LoopId, c: ConnId, revents: G.Mask)
    requires Progress(s, l, c, revents, 0)
    ensures IsHandling(s, l, c) && ToCome(s, l, c) == G.Callbacks(revents)
  {
    hide G.Callbacks;
    assert G.Callbacks(revents)[0..] == G.Callbacks(revents);
  }

  lemma NothingToCome(s: System, l: LoopId, c: ConnId)
    requires Enabled(s, EndEvent(l)) && IsHandling(s, l, c)
    ensures ToCome(s, l, c) == []
  {
    hide L.Enabled;
  }

  // ----- what a connection has been through -----

  /** The next step of thread `l` is about connection `c`. */
  predicate IsAbout(s: System, l: LoopId, c: ConnId) {
    l in s.frames && s.frames[l] != Idle && s.frames[l].c == c
  }

  /** A read callback of the connection finds data. */
  predicate FindsData(s: System, act: Action, c: ConnId) {
    && act.RunCallback? && !act.endOfFile && IsAbout(s, act.l, c)
    && s.frames[act.l].Handling? && s.frames[act.l].todo != [] && s.frames[act.l].todo[0] == G.ReadCallback
  }

  predicate Establishes(s: System, act: Action, c: ConnId) {
    act.Establish? && IsAbout(s, act.l, c)
  }

  predicate Destroys(s: System, act: Action, c: ConnId) {
    act.Destroy? && IsAbout(s, act.l, c)
  }

  /** What a step tells the user of the connection. */
  function NoticesOf(s: System, act: Action, c: ConnId): seq<Notice> {
    if FindsData(s, act, c) then [Message] else if Establishes(s, act, c) then [Up]
    else if Destroys(s, act, c) then [Down] else []
  }

  /** How a step changes what is known of one connection. */
  ghost predicate ConnGoesOn(s: System, act: Action, conn: Conn, conn': Conn, c: ConnId) {
    && conn'.notices == conn.notices + NoticesOf(s, act, c)
    && conn'.users + (if act == Drop(c) then 1 else 0) == conn.users + (if act == Copy(c) then 1 else 0)
    && conn'.state == (if act == Shutdown(c) then Disconnecting else if Establishes(s, act, c) then Connected
                       else if Destroys(s, act, c) then Disconnected else conn.state)
    && (Establishes(s, act, c) ==> conn.state == Connecting)
    && (act == Shutdown(c) ==> conn.state == Connected)
  }

  lemma CallbackStep(s: System, act: Action, c: ConnId)
    requires Enabled(s, act) && c in s.conns && act.RunCallback?
    ensures c in Next(s, act).conns && ConnGoesOn(s, act, s.conns[c], Next(s, act).conns[c], c)
  {
    hide L.Enabled, L.Next;
  }

  lemma LifeStep(s: System, act: Action, c: ConnId)
    requires Enabled(s, act) && AssertionsHold(s, act) && c in s.conns && (act.Establish? || act.Destroy?)
    ensures c in Next(s, act).conns && ConnGoesOn(s, act, s.conns[c], Next(s, act).conns[c], c)
  {
    hide L.Enabled, L.Next;
  }

  predicate LeavesUserAlone(act: Action) {
    !act.RunCallback? && !act.Establish? && !act.Destroy? && !act.Copy? && !act.Drop? && !act.Shutdown?
  }

  lemma UserStep(s: System, act: Action, c: ConnId)
    requires Enabled(s, act) && c in s.conns && (act.Copy? || act.Drop? || act.Shutdown?)
    ensures c in Next(s, act).conns && ConnGoesOn(s, act, s.conns[c], Next(s, act).conns[c], c)
  {
    hide IsDestructed;
  }

  lemma OtherStep(s: System, act: Action, c: ConnId)
    requires Enabled(s, act) && c in s.conns && s.nextId !in s.conns && LeavesUserAlone(act)
    ensures c in Next(s, act).conns
    ensures var conn, conn' := s.conns[c], Next(s, act).conns[c];
            conn'.notices == conn.notices && conn'.users == conn.users && conn'.state == conn.state
  {
    hide L.Enabled, L.Next, CanReport, IsDestructed, G.Callbacks;
  }

  lemma NothingHappened(s: System, act: Action, conn: Conn, conn': Conn, c: ConnId)
    requires LeavesUserAlone(act)
    requires conn'.notices == conn.notices && conn'.users == conn.users && conn'.state == conn.state
    ensures ConnGoesOn(s, act, conn, conn', c)
  {
  }

  lemma ConnStep(s: System, act: Action, c: ConnId)
    requires Enabled(s, act) && AssertionsHold(s, act) && c in s.conns && s.nextId !in s.conns
    ensures c in Next(s, act).conns && ConnGoesOn(s, act, s.conns[c], Next(s, act).conns[c], c)
  {
    hide Enabled, AssertionsHold, Next, ConnGoesOn;
    if act.RunCallback? { CallbackStep(s, act, c); }
    else if act.Establish? || act.Destroy? { LifeStep(s, act, c); }
    else if act.Copy? || act.Drop? || act.Shutdown? { UserStep(s, act, c); }
    else {
      OtherStep(s, act, c);
      NothingHappened(s, act, s.conns[c], Next(s, act).conns[c], c);
    }
  }

  /** A connection that a step makes is a new one. */
  lemma StepMakes(s: System, act: Action, c: ConnId)
    requires Enabled(s, act) && c !in s.conns
    ensures c in Next(s, act).conns ==> Next(s, act).conns[c] == NewConn(Next(s, act).conns[c].io)
    ensures !FindsData(s, act, c) && !Establishes(s, act, c) && !Destroys(s, act, c)
            && act != Drop(c) && act != Copy(c) && act != Shutdown(c)
  {
    hide L.Enabled, L.Next, CanReport, IsDestructed, G.Callbacks;
  }

  /** How often things have happened to a connection. */
  datatype Tally = Tally(data: nat, ups: nat, downs: nat, copies: nat, drops: nat, shutdowns: nat)

  function Counted(s: System, act: Action, c: ConnId, tally: Tally): Tally {
    if FindsData(s, act, c) then tally.(data := tally.data + 1)
    else if Establishes(s, act, c) then tally.(ups := tally.ups + 1)
    else if Destroys(s, act, c) then tally.(downs := tally.downs + 1)
    else if act == Copy(c) then tally.(copies := tally.copies + 1)
    else if act == Drop(c) then tally.(drops := tally.drops + 1)
    else if act == Shutdown(c) then tally.(shutdowns := tally.shutdowns + 1)
    else tally
  }

  ghost function TallyOf(s: System, run: seq<Action>, c: ConnId, tally: Tally): Tally
    requires IsRun(s, run)
    decreases |run|
  {
    if run == [] then tally else TallyOf(Next(s, run[0]), run[1..], c, Counted(s, run[0], c, tally))
  }

  const NOTHING: Tally := Tally(0, 0, 0, 0, 0, 0)

  /** What is known of a connection, against what has happened to it. */
  ghost predicate Tells(conn: Conn, tally: Tally) {
    && multiset(conn.notices)[Message] == tally.data
    && multiset(conn.notices)[Up] == tally.ups && multiset(conn.notices)[Down] == tally.downs
    && conn.users + tally.drops == tally.copies
    && (conn.state == Disconnecting ==> tally.shutdowns > 0)
    && (tally.shutdowns > 0 ==> conn.state == Disconnecting || conn.state == Disconnected)
  }

  ghost predicate Told(s: System, c: ConnId, tally: Tally) {
    if c in s.conns then Tells(s.conns[c], tally) else tally == NOTHING
  }

  lemma GoesOnTelling(s: System, act: Action, conn: Conn, conn': Conn, c: ConnId, tally: Tally)
    requires ConnGoesOn(s, act, conn, conn', c) && Tells(conn, tally)
    ensures Tells(conn', Counted(s, act, c, tally))
  {
    assert FindsData(s, act, c) ==> act.RunCallback?;
    assert Establishes(s, act, c) ==> act.Establish?;
    assert Destroys(s, act, c) ==> act.Destroy?;
    hide FindsData, Establishes, Destroys;
    NoticesAreCounted(s, act, conn.notices, c, tally);
    hide NoticesOf;
  }

  lemma NoticesAreCounted(s: System, act: Action, notices: seq<Notice>, c: ConnId, tally: Tally)
    ensures var more, counted := multiset(notices + NoticesOf(s, act, c)), Counted(s, act, c, tally);
            && more[Message] + tally.data == multiset(notices)[Message] + counted.data
            && more[Up] + tally.ups == multiset(notices)[Up] + counted.ups
            && more[Down] + tally.downs == multiset(notices)[Down] + counted.downs
  {
    hide FindsData, Establishes, Destroys;
    assert multiset([Message])[Message] == 1 && multiset([Up])[Up] == 1 && multiset([Down])[Down] == 1;
  }

  lemma TellsStep(s: System, act: Action, c: ConnId, tally: Tally)
    requires Enabled(s, act) && AssertionsHold(s, act) && s.nextId !in s.conns && Told(s, c, tally)
    ensures Told(Next(s, act), c, Counted(s, act, c, tally))
  {
    hide Enabled, AssertionsHold, Next, ConnGoesOn;
    if c in s.conns {
      ConnStep(s, act, c);
      GoesOnTelling(s, act, s.conns[c], Next(s, act).conns[c], c, tally);
    } else {
      StepMakes(s, act, c);
    }
  }

  lemma {:induction false} RunTells(s: System, run: seq<Action>, c: ConnId, tally: Tally)
    requires Inv(s) && IsAsserted(s, run) && Told(s, c, tally)
    ensures Told(After(s, run), c, TallyOf(s, run, c, tally))
    decreases |run|
  {
    if run != [] {
      FreshId(s);
      hide Inv, Enabled, AssertionsHold, Next, Told, Counted;
      TellsStep(s, run[0], c, tally);
      StepInv(s, run[0]);
      RunTells(Next(s, run[0]), run[1..], c, Counted(s, run[0], c, tally));
    }
  }

  /**
   In every run the user has been told of as many messages as read callbacks of the connection have
   found data, and that it is up and down as often as it was established and destroyed. The pointers
   to it in user code are those copied and not dropped, and it is shutting down, until it is
   destroyed, exactly if `shutdown` was called on it while it was connected.
  */
  lemma UserIsTold(s0: System, run: seq<Action>, c: ConnId)
    requires IsInit(s0) && IsAsserted(s0, run) && c in After(s0, run).conns
    ensures Tells(After(s0, run).conns[c], TallyOf(s0, run, c, NOTHING))
  {
    InitInv(s0);
    hide Inv, Enabled, AssertionsHold, Next, Tells;
    RunTells(s0, run, c, NOTHING);
  }

  // ----- what is queued where -----

  /** The last bytes of a connection that was not closed have left its buffer. */
  predicate Drains(s: System, act: Action) {
    && act.RunCallback? && act.drained && act.l in s.frames && s.frames[act.l].Handling?
    && s.frames[act.l].todo != [] && s.frames[act.l].todo[0] == G.WriteCallback
    && s.frames[act.l].c in s.conns && !s.conns[s.frames[act.l].c].muted
  }

  /** What a step queues on loop `l`: each hand-off goes to the loop whose thread is to carry it on. */
  ghost function PushesOn(s: System, act: Action, l: LoopId): seq<Functor>
    requires Enabled(s, act)
  {
    match act
    case LoopStep(x, a) => if x == l && a.Queue? then [a.f] else []
    case Post =>
      var c := s.frames[s.base].c;
      if IoOf(s, c) == l && l != s.base then [ConnectEstablished(c)] else []
    case RunCallback(x, _, _) => if x == l && Drains(s, act) then [WriteComplete(s.frames[l].c)] else []
    case Remove(x) => if l == s.base && x != l then [RemoveConnectionInLoop(s.frames[x].c)] else []
    case PostDestroy(x) => if IoOf(s, s.frames[x].c) == l then [ConnectDestroyed(s.frames[x].c)] else []
    case _ => []
  }

  lemma LoopStepPushes(s: System, x: LoopId, a: L.Action<Functor>, l: LoopId)
    requires l in s.loops && Enabled(s, LoopStep(x, a))
    ensures l in Next(s, LoopStep(x, a)).loops
    ensures Next(s, LoopStep(x, a)).loops[l].pushed == s.loops[l].pushed + PushesOn(s, LoopStep(x, a), l)
  {
    hide CanReport, L.Enabled;
  }

  lemma CallPushes(s: System, act: Action, l: LoopId)
    requires l in s.loops && Enabled(s, act) && (act.Post? || act.RunCallback?)
    ensures l in Next(s, act).loops && Next(s, act).loops[l].pushed == s.loops[l].pushed + PushesOn(s, act, l)
  {
    hide L.Enabled;
  }

  lemma RemovalPushes(s: System, act: Action, l: LoopId)
    requires l in s.loops && Enabled(s, act) && (act.Remove? || act.PostDestroy?)
    ensures l in Next(s, act).loops && Next(s, act).loops[l].pushed == s.loops[l].pushed + PushesOn(s, act, l)
  {
    hide L.Enabled;
  }

  lemma OthersPushNothing(s: System, act: Action, l: LoopId)
    requires l in s.loops && Enabled(s, act) && !act.LoopStep? && !act.Post? && !act.RunCallback? && !act.Remove? && !act.PostDestroy?
    ensures l in Next(s, act).loops && Next(s, act).loops[l].pushed == s.loops[l].pushed
  {
    hide IsDestructed, L.Enabled, G.Callbacks;
  }

  lemma StepPushes(s: System, act: Action, l: LoopId)
    requires l in s.loops && Enabled(s, act)
    ensures l in Next(s, act).loops && Next(s, act).loops[l].pushed == s.loops[l].pushed + PushesOn(s, act, l)
  {
    if act.LoopStep? { LoopStepPushes(s, act.l, act.a, l); }
    else if act.Post? || act.RunCallback? { CallPushes(s, act, l); }
    else if act.Remove? || act.PostDestroy? { RemovalPushes(s, act, l); }
    else { OthersPushNothing(s, act, l); hide Next, Enabled; }
  }

  ghost function AllPushedOn(s: System, run: seq<Action>, l: LoopId): seq<Functor>
    requires IsRun(s, run)
    decreases |run|
  {
    if run == [] then [] else PushesOn(s, run[0], l) + AllPushedOn(Next(s, run[0]), run[1..], l)
  }

  /** In every run, what a loop has been handed is what the steps of the run queue on it, in order. */
  lemma {:induction false} QueuesHoldWhatStepsPush(s: System, run: seq<Action>, l: LoopId)
    requires l in s.loops && IsRun(s, run)
    ensures l in After(s, run).loops && After(s, run).loops[l].pushed == s.loops[l].pushed + AllPushedOn(s, run, l)
    decreases |run|
  {
    if run != [] {
      hide Enabled, Next, PushesOn;
      StepPushes(s, run[0], l);
      var s1 := Next(s, run[0]);
      QueuesHoldWhatStepsPush(s1, run[1..], l);
      PushesAssociate(s.loops[l].pushed, PushesOn(s, run[0], l), AllPushedOn(s1, run[1..], l));
    }
  }

  lemma PushesAssociate(a: seq<Functor>, b: seq<Functor>, c: seq<Functor>)
    ensures a + b + c == a + (b + c)
  {
  }
}
