/**
 The failure of `ServerDoubleClose` is in reach of every server: from the state it is made in, a run
 accepts a connection, opens it and closes it twice.
*/
module ServerLife {
  import L = LoopMachine
  import G = Registry
  import T = ThreadPool
  import opened Server
  import opened ServerInvariant
  import opened ServerTheorems
  import opened ServerCloses
  import opened ServerDoubleClose

  /** Some run without double-close masks leads from `s` to `s'`. */
  ghost predicate Leads(s: System, s': System) {
    exists run :: IsRun(s, run) && SingleMasks(run) && After(s, run) == s'
  }

  lemma LeadsOn(s: System, s1: System, s2: System)
    requires Leads(s, s1) && Leads(s1, s2)
    ensures Leads(s, s2)
  {
    hide IsRun, After;
    var run :| IsRun(s, run) && SingleMasks(run) && After(s, run) == s1;
    var more :| IsRun(s1, more) && SingleMasks(more) && After(s1, more) == s2;
    RunsCompose(s, run, more);
    assert SingleMasks(run + more);
  }

  lemma StaysThere(s: System)
    ensures Leads(s, s)
  {
    assert IsRun(s, []) && SingleMasks([]) && After(s, []) == s;
  }

  lemma OneLead(s: System, act: Action)
    requires Enabled(s, act) && (act.BeginEvent? ==> act.revents == {})
    ensures Leads(s, Next(s, act))
  {
    hide Enabled, Next;
    assert [act][1..] == [];
    assert After(s, [act]) == After(Next(s, act), []);
    assert IsRun(s, [act]) && SingleMasks([act]);
  }

  // ----- moves of a loop by itself -----

  predicate IsMove(s: System, l: LoopId, a: L.Action<Functor>) {
    && (a.Start? || a.TestQuit? || a.PollReturn? || a.EndDispatch? || a.Swap? || a.EndFunctor? || a.EndBatch? || a.Wake?)
    && (a.PollReturn? ==> CanReport(s, l, a.active))
  }

  /** From `s`, loop `l` gets to `loop` by itself. */
  ghost predicate MovesTo(s: System, l: LoopId, loop: L.Loop<Functor>) {
    l in s.loops && l in s.frames && s.frames[l] == Idle && Leads(s, SetLoop(s, l, loop))
  }

  lemma MoveStays(s: System, s': System, l: LoopId, a: L.Action<Functor>)
    requires s'.base == s.base && s'.conns == s.conns && IsMove(s, l, a)
    ensures IsMove(s', l, a)
  {
  }

  lemma MovesOn(s: System, l: LoopId, loop: L.Loop<Functor>, a: L.Action<Functor>)
    requires MovesTo(s, l, loop) && L.Enabled(loop, a) && IsMove(s, l, a)
    ensures MovesTo(s, l, L.Next(loop, a))
  {
    hide L.Enabled, L.Next, Leads;
    var s1 := SetLoop(s, l, loop);
    MoveStays(s, s1, l, a);
    hide IsMove;
    MoveLeads(s1, l, a);
    assert SetLoop(s1, l, L.Next(loop, a)) == SetLoop(s, l, L.Next(loop, a));
    LeadsOn(s, s1, SetLoop(s1, l, L.Next(loop, a)));
  }

  lemma MoveLeads(s: System, l: LoopId, a: L.Action<Functor>)
    requires l in s.loops && l in s.frames && s.frames[l] == Idle && L.Enabled(s.loops[l], a) && IsMove(s, l, a)
    ensures Leads(s, SetLoop(s, l, L.Next(s.loops[l], a)))
  {
    hide L.Enabled, L.Next, CanReport, Leads;
    OneLead(s, LoopStep(l, a));
  }

  lemma StartsMoving(s: System, l: LoopId)
    requires l in s.loops && l in s.frames && s.frames[l] == Idle
    ensures MovesTo(s, l, s.loops[l])
  {
    assert SetLoop(s, l, s.loops[l]) == s;
    StaysThere(s);
  }

  /** A loop goes through `poll`. */
  lemma Polls(s: System, l: LoopId, loop: L.Loop<Functor>, active: seq<L.Event>)
    requires MovesTo(s, l, loop) && CanReport(s, l, active)
    requires loop.phase == L.CheckQuit && !loop.quit && loop.owner !in loop.due
    requires multiset(active)[L.WakeupEvent] == if loop.counter > 0 then 1 else 0
    ensures MovesTo(s, l, loop.(phase := L.Dispatch(active), iterations := loop.iterations + 1))
  {
    hide MovesTo, CanReport;
    MovesOn(s, l, loop, L.TestQuit);
    MovesOn(s, l, L.Next(loop, L.TestQuit), L.PollReturn(active));
  }

  lemma Starts(s: System, l: LoopId, loop: L.Loop<Functor>, active: seq<L.Event>)
    requires MovesTo(s, l, loop) && CanReport(s, l, active)
    requires loop.phase == L.NotStarted && loop.owner !in loop.due
    requires multiset(active)[L.WakeupEvent] == if loop.counter > 0 then 1 else 0
    ensures MovesTo(s, l, loop.(phase := L.Dispatch(active), quit := false, iterations := loop.iterations + 1))
  {
    hide MovesTo, CanReport;
    MovesOn(s, l, loop, L.Start);
    Polls(s, l, L.Next(loop, L.Start), active);
  }

  // ----- the base loop accepts a connection -----

  const FIRST: ConnId := 1

  /** Nobody has a wakeup to write, and connection 1 lives on loop `io`. */
  ghost predicate Scene(s: System, io: LoopId) {
    && s.base in s.loops && io in s.loops && s.frames.Keys == s.loops.Keys
    && (forall l :: l in s.loops ==> s.loops[l].due == {} && s.loops[l].owner == l)
    && FIRST in s.conns && s.conns[FIRST].io == io && !s.conns[FIRST].muted
  }

  predicate InDispatch(loop: L.Loop<Functor>, active: seq<L.Event>, busy: bool, pending: seq<Functor>) {
    loop.phase == L.Dispatch(active) && loop.busy == busy && loop.pending == pending && loop.counter == 0 && !loop.quit
  }

  /** The base loop listens, and has a connection to accept. */
  ghost predicate Listens(s: System, io: LoopId) {
    && s.base in s.loops && io in s.loops && s.frames.Keys == s.loops.Keys
    && (forall l :: l in s.loops ==> s.loops[l].due == {} && s.loops[l].owner == l)
    && io == T.Picked(s.base, s.pool, s.nextLoop) && s.conns == map[] && s.nextId == FIRST
    && InDispatch(s.loops[s.base], [L.ChannelEvent(ACCEPTOR)], false, []) && s.frames[s.base] == Idle
    && (io != s.base ==> s.loops[io] == L.Init(io) && s.frames[io] == Idle)
  }

  lemma NowListens(s: System)
    requires IsInit(s)
    ensures var loop := L.Init(s.base).(phase := L.Dispatch([L.ChannelEvent(ACCEPTOR)]), iterations := 1);
            Listens(SetLoop(s, s.base, loop), T.Picked(s.base, s.pool, s.nextLoop))
  {
  }

  lemma ServerListens(s: System)
    requires IsInit(s)
    ensures exists s' :: Leads(s, s') && Listens(s', T.Picked(s.base, s.pool, s.nextLoop)) && s'.base == s.base
  {
    var active := [L.ChannelEvent(ACCEPTOR)];
    NowListens(s);
    hide Leads, Listens;
    StartsMoving(s, s.base);
    Starts(s, s.base, L.Init(s.base), active);
    var loop := L.Init(s.base).(phase := L.Dispatch(active), iterations := 1);
    assert MovesTo(s, s.base, loop);
  }

  lemma AcceptorBegins(s: System, io: LoopId)
    requires Listens(s, io)
    ensures Enabled(s, BeginEvent(s.base, {}))
    ensures var s1 := Next(s, BeginEvent(s.base, {}));
            && CanAccept(s1) && s1 == SetLoop(s, s.base, s.loops[s.base].(busy := true))
  {
  }

  lemma AcceptsFirst(s: System, io: LoopId)
    requires Listens(s, io)
    ensures var s1 := SetLoop(s, s.base, s.loops[s.base].(busy := true));
            && CanAccept(s1) && CanInsert(Accepts(s1))
            && var s3 := Inserted(Accepts(s1));
               Mapping(s3, io) && s3.base == s.base
  {
  }

  /** The thread of the base loop is about to hand the connection over. */
  ghost predicate Mapping(s: System, io: LoopId) {
    && Scene(s, io) && s.frames[s.base] == Mapped(FIRST)
    && InDispatch(s.loops[s.base], [L.ChannelEvent(ACCEPTOR)], true, [])
    && (io != s.base ==> s.loops[io] == L.Init(io) && s.frames[io] == Idle)
  }

  lemma ServerAccepts(s: System, io: LoopId)
    requires Listens(s, io)
    ensures exists s' :: Leads(s, s') && Mapping(s', io) && s'.base == s.base
  {
    AcceptorBegins(s, io);
    AcceptsFirst(s, io);
    hide Listens, Mapping, Leads, BegunEvent, CanAccept, CanBeginEvent, CanInsert, Accepts, Inserted;
    OneLead(s, BeginEvent(s.base, {}));
    var s1 := Next(s, BeginEvent(s.base, {}));
    OneLead(s1, Accept);
    OneLead(Accepts(s1), Insert);
    LeadsOn(s, s1, Accepts(s1));
    LeadsOn(s, Accepts(s1), Inserted(Accepts(s1)));
  }

  // ----- the connection is opened -----

  /** The loop of the connection has an event of it to handle. */
  ghost predicate Ready(s: System, l: LoopId) {
    && Scene(s, l) && s.frames[l] == Idle
    && s.loops[l].phase == L.Dispatch([L.ChannelEvent(FIRST)]) && !s.loops[l].busy
  }

  /** The loop of the connection is about to poll, and the connection is registered. */
  ghost predicate Opened(s: System, l: LoopId) {
    && Scene(s, l) && s.conns[FIRST].registered && s.frames[l] == Idle
    && s.loops[l].counter == 0 && !s.loops[l].quit
  }

  lemma Reports(s: System, l: LoopId)
    requires Opened(s, l) && MovesTo(s, l, s.loops[l])
    ensures CanReport(s, l, [L.ChannelEvent(FIRST)])
  {
  }

  lemma NowReady(s: System, l: LoopId, loop: L.Loop<Functor>)
    requires Opened(s, l) && loop.owner == l && loop.due == {}
    requires loop.phase == L.Dispatch([L.ChannelEvent(FIRST)]) && !loop.busy
    ensures Ready(SetLoop(s, l, loop), l)
  {
  }

  // On the base loop.

  lemma OpensAtOnce(s: System)
    requires Mapping(s, s.base)
    ensures CanPost(s) && CanEstablish(Posted(s), s.base)
    ensures var s2 := Established(Posted(s), s.base);
            && s2.base == s.base && Opened(s2, s.base) && CanEndEvent(s2, s.base)
            && InDispatch(s2.loops[s.base], [L.ChannelEvent(ACCEPTOR)], true, [])
  {
  }

  lemma EventEnds(s: System, l: LoopId)
    requires Opened(s, l) && CanEndEvent(s, l) && l == s.base
    requires InDispatch(s.loops[l], [L.ChannelEvent(ACCEPTOR)], true, [])
    ensures var s1 := EndedEvent(s, l);
            && s1.base == s.base && Opened(s1, l) && InDispatch(s1.loops[l], [], false, [])
  {
  }

  lemma PollsAgain(s: System, l: LoopId)
    requires Opened(s, l) && InDispatch(s.loops[l], [], false, [])
    ensures exists s' :: Leads(s, s') && Ready(s', l) && s'.base == s.base
  {
    StartsMoving(s, l);
    Reports(s, l);
    var active, loop := [L.ChannelEvent(FIRST)], s.loops[l];
    hide MovesTo, CanReport, Ready;
    MovesOn(s, l, loop, L.EndDispatch);
    var one := L.Next(loop, L.EndDispatch);
    MovesOn(s, l, one, L.Swap);
    var two := L.Next(one, L.Swap);
    MovesOn(s, l, two, L.EndBatch);
    var three := L.Next(two, L.EndBatch);
    Polls(s, l, three, active);
    NowReady(s, l, three.(phase := L.Dispatch(active), iterations := three.iterations + 1));
    MovedThere(s, l, three.(phase := L.Dispatch(active), iterations := three.iterations + 1));
  }

  lemma MovedThere(s: System, l: LoopId, loop: L.Loop<Functor>)
    requires MovesTo(s, l, loop)
    ensures Leads(s, SetLoop(s, l, loop))
  {
  }

  lemma OpensOnBase(s: System)
    requires Mapping(s, s.base)
    ensures exists s' :: Leads(s, s') && Ready(s', s.base) && s'.base == s.base
  {
    OpensAtOnce(s);
    hide Mapping, Leads, Posted, Established, Opened, Ready, CanPost, CanEstablish, CanEndEvent, EndedEvent, InDispatch;
    var l := s.base;
    OneLead(s, Post);
    OneLead(Posted(s), Establish(l));
    var s2 := Established(Posted(s), l);
    OneLead(s2, EndEvent(l));
    EventEnds(s2, l);
    PollsAgain(EndedEvent(s2, l), l);
    var s' :| Leads(EndedEvent(s2, l), s') && Ready(s', l) && s'.base == l;
    LeadsOn(s, Posted(s), s2);
    LeadsOn(s, s2, EndedEvent(s2, l));
    LeadsOn(s, EndedEvent(s2, l), s');
  }

  // On a loop of its own.

  /** The base loop is about to swap an empty queue. */
  ghost predicate Waits(s: System) {
    s.base in s.loops && s.base in s.frames && s.frames[s.base] == Idle
    && AboutToSwap(s.loops[s.base]) && s.loops[s.base].pending == []
  }

  /** The connection is handed over, and its loop, not started yet, has been woken up. */
  ghost predicate Handed(s: System, io: LoopId) {
    && io != s.base && Scene(s, io) && s.frames[s.base] == Idle && s.frames[io] == Idle
    && s.loops[io] == L.Init(io).(counter := 1, pending := [ConnectEstablished(FIRST)], pushed := [ConnectEstablished(FIRST)])
  }

  lemma HandsOver(s: System, io: LoopId)
    requires Mapping(s, io) && io != s.base
    ensures CanPost(s)
    ensures var s1 := Posted(s);
            && s1.base == s.base && io in s1.loops && io in s1.frames && s.base in s1.loops[io].due
            && s1.frames == s.frames[s.base := Idle]
            && Handed(SetLoop(s1, io, s1.loops[io].(counter := s1.loops[io].counter + 1, due := s1.loops[io].due - {s.base})), io)
            && s1.loops[s.base] == s.loops[s.base]
  {
  }

  lemma AcceptorEnds(s: System, io: LoopId)
    requires Handed(s, io) && InDispatch(s.loops[s.base], [L.ChannelEvent(ACCEPTOR)], true, [])
    ensures CanEndEvent(s, s.base)
    ensures var s1 := EndedEvent(s, s.base);
            && s1.base == s.base && Handed(s1, io) && InDispatch(s1.loops[s.base], [], false, [])
  {
  }

  lemma BaseWaits(s: System, io: LoopId)
    requires Handed(s, io) && InDispatch(s.loops[s.base], [], false, [])
    ensures exists s' :: Leads(s, s') && Handed(s', io) && Waits(s') && s'.base == s.base
  {
    hide Leads;
    StartsMoving(s, s.base);
    MovesOn(s, s.base, s.loops[s.base], L.EndDispatch);
    assert Waits(SetLoop(s, s.base, L.Next(s.loops[s.base], L.EndDispatch)));
  }

  lemma ServerHandsOver(s: System, io: LoopId)
    requires Mapping(s, io) && io != s.base
    ensures exists s' :: Leads(s, s') && Handed(s', io) && Waits(s') && s'.base == s.base
  {
    HandsOver(s, io);
    assert InDispatch(s.loops[s.base], [L.ChannelEvent(ACCEPTOR)], true, []);
    hide Mapping, Leads, Posted, CanPost, Handed, Waits, CanEndEvent, EndedEvent, InDispatch;
    OneLead(s, Post);
    var s1 := Posted(s);
    WakeRuns(s1, io, s.base);
    OneLead(s1, LoopStep(io, L.Wake(s.base)));
    var s2 := Next(s1, LoopStep(io, L.Wake(s.base)));
    hide Next;
    LeadsOn(s, s1, s2);
    assert s2.loops[s.base] == s.loops[s.base];
    BaseComes(s2, io);
    var s' :| Leads(s2, s') && Handed(s', io) && Waits(s') && s'.base == s.base;
    LeadsOn(s, s2, s');
  }

  lemma BaseComes(s: System, io: LoopId)
    requires Handed(s, io) && s.base in s.loops && InDispatch(s.loops[s.base], [L.ChannelEvent(ACCEPTOR)], true, [])
    ensures exists s' :: Leads(s, s') && Handed(s', io) && Waits(s') && s'.base == s.base
  {
    AcceptorEnds(s, io);
    hide Leads, Handed, Waits, CanEndEvent, EndedEvent, InDispatch;
    OneLead(s, EndEvent(s.base));
    BaseWaits(EndedEvent(s, s.base), io);
    var s' :| Leads(EndedEvent(s, s.base), s') && Handed(s', io) && Waits(s') && s'.base == s.base;
    LeadsOn(s, EndedEvent(s, s.base), s');
  }

  /** The loop of the connection has its wakeup to read. */
  ghost predicate Wakes(s: System, io: LoopId) {
    && io != s.base && Scene(s, io) && s.frames[io] == Idle && Waits(s)
    && s.loops[io].phase == L.Dispatch([L.WakeupEvent]) && !s.loops[io].busy && !s.loops[io].quit
    && s.loops[io].pending == [ConnectEstablished(FIRST)]
  }

  lemma LoopWakes(s: System, io: LoopId)
    requires Handed(s, io) && Waits(s)
    ensures exists s' :: Leads(s, s') && Wakes(s', io) && s'.base == s.base
  {
    var active, loop := [L.WakeupEvent], s.loops[io];
    StartsMoving(s, io);
    hide MovesTo, Leads;
    Starts(s, io, loop, active);
    MovedThere(s, io, loop.(phase := L.Dispatch(active), iterations := loop.iterations + 1));
    assert Wakes(SetLoop(s, io, loop.(phase := L.Dispatch(active), iterations := loop.iterations + 1)), io);
  }

  lemma ReadsWakeup(s: System, io: LoopId)
    requires Wakes(s, io)
    ensures CanBeginEvent(s, io, {}) && CanEndEvent(BegunEvent(s, io, {}), io)
    ensures var s2 := EndedEvent(BegunEvent(s, io, {}), io);
            && s2.base == s.base && Scene(s2, io) && s2.frames[io] == Idle && Waits(s2)
            && InDispatch(s2.loops[io], [], false, [ConnectEstablished(FIRST)])
  {
  }

  /** The loop of the connection is about to begin its opening. */
  ghost predicate Begins(s: System, io: LoopId) {
    && io != s.base && Scene(s, io) && s.frames[io] == Idle && Waits(s)
    && var loop := s.loops[io];
       && loop.phase == L.RunBatch && loop.next == 0 && loop.batch == [ConnectEstablished(FIRST)] && loop.pending == []
       && !loop.busy && !loop.quit && loop.counter == 0
  }

  lemma LoopSwaps(s: System, io: LoopId)
    requires io != s.base && Scene(s, io) && s.frames[io] == Idle && Waits(s)
    requires InDispatch(s.loops[io], [], false, [ConnectEstablished(FIRST)])
    ensures exists s' :: Leads(s, s') && Begins(s', io) && s'.base == s.base
  {
    var loop := s.loops[io];
    StartsMoving(s, io);
    hide MovesTo, Leads;
    MovesOn(s, io, loop, L.EndDispatch);
    var one := L.Next(loop, L.EndDispatch);
    MovesOn(s, io, one, L.Swap);
    MovedThere(s, io, L.Next(one, L.Swap));
    assert Begins(SetLoop(s, io, L.Next(one, L.Swap)), io);
  }

  lemma OpensInBatch(s: System, io: LoopId)
    requires Begins(s, io)
    ensures CanBeginFunctor(s, io) && CanEstablish(BegunFunctor(s, io), io)
    ensures var s2 := Established(BegunFunctor(s, io), io);
            && s2.base == s.base && Opened(s2, io) && Waits(s2)
            && var loop := s2.loops[io];
               && loop.phase == L.RunBatch && loop.next == 1 == |loop.batch| && loop.busy
  {
  }

  lemma PollsNext(s: System, io: LoopId)
    requires Opened(s, io) && Waits(s) && io != s.base
    requires s.loops[io].phase == L.RunBatch && s.loops[io].next == |s.loops[io].batch| && s.loops[io].busy
    ensures exists s' :: Leads(s, s') && Ready(s', io) && Waits(s') && s'.base == s.base
  {
    StartsMoving(s, io);
    Reports(s, io);
    var active, loop := [L.ChannelEvent(FIRST)], s.loops[io];
    hide MovesTo, CanReport, Ready, Leads;
    MovesOn(s, io, loop, L.EndFunctor);
    var one := L.Next(loop, L.EndFunctor);
    MovesOn(s, io, one, L.EndBatch);
    var two := L.Next(one, L.EndBatch);
    Polls(s, io, two, active);
    NowReady(s, io, two.(phase := L.Dispatch(active), iterations := two.iterations + 1));
    MovedThere(s, io, two.(phase := L.Dispatch(active), iterations := two.iterations + 1));
  }

  lemma LoopReads(s: System, io: LoopId)
    requires Wakes(s, io)
    ensures exists s' :: Leads(s, s') && Begins(s', io) && s'.base == s.base
  {
    ReadsWakeup(s, io);
    hide Leads, CanBeginEvent, CanEndEvent, BegunEvent, EndedEvent, Begins, Scene, Waits, InDispatch;
    var s1 := BegunEvent(s, io, {});
    OneLead(s, BeginEvent(io, {}));
    OneLead(s1, EndEvent(io));
    var s2 := EndedEvent(s1, io);
    LeadsOn(s, s1, s2);
    LoopSwaps(s2, io);
    var s' :| Leads(s2, s') && Begins(s', io) && s'.base == s2.base;
    LeadsOn(s, s2, s');
  }

  lemma LoopOpens(s: System, io: LoopId)
    requires Begins(s, io)
    ensures exists s' :: Leads(s, s') && Ready(s', io) && Waits(s') && s'.base == s.base
  {
    OpensInBatch(s, io);
    assert io != s.base;
    hide Leads, Begins, CanBeginFunctor, CanEstablish, BegunFunctor, Established, Opened, Waits, Ready;
    var s1 := BegunFunctor(s, io);
    OneLead(s, BeginFunctor(io));
    OneLead(s1, Establish(io));
    var s2 := Established(s1, io);
    LeadsOn(s, s1, s2);
    PollsNext(s2, io);
    var s' :| Leads(s2, s') && Ready(s', io) && Waits(s') && s'.base == s2.base;
    LeadsOn(s, s2, s');
  }

  lemma OpensApart(s: System, io: LoopId)
    requires Mapping(s, io) && io != s.base
    ensures exists s' :: Leads(s, s') && Ready(s', io) && Waits(s') && s'.base == s.base
  {
    hide Mapping, Leads, Handed, Waits, Wakes, Begins, Ready;
    ServerHandsOver(s, io);
    var s1 :| Leads(s, s1) && Handed(s1, io) && Waits(s1) && s1.base == s.base;
    LoopWakes(s1, io);
    var s2 :| Leads(s1, s2) && Wakes(s2, io) && s2.base == s.base;
    LoopReads(s2, io);
    var s3 :| Leads(s2, s3) && Begins(s3, io) && s3.base == s.base;
    LoopOpens(s3, io);
    var s4 :| Leads(s3, s4) && Ready(s4, io) && Waits(s4) && s4.base == s.base;
    LeadsOn(s, s1, s2);
    LeadsOn(s, s2, s3);
    LeadsOn(s, s3, s4);
  }

  // ----- and closed twice -----

  /** In every server the first connection can be opened, and its loop can have an event of it to handle. */
  lemma FirstIsReady(s0: System)
    requires IsInit(s0)
    ensures var io := T.Picked(s0.base, s0.pool, s0.nextLoop);
            exists s :: Leads(s0, s) && Ready(s, io) && s.base == s0.base && (io != s.base ==> Waits(s))
  {
    hide IsInit, Leads, Listens, Mapping, Ready, Waits;
    var io := T.Picked(s0.base, s0.pool, s0.nextLoop);
    ServerListens(s0);
    var s1 :| Leads(s0, s1) && Listens(s1, io) && s1.base == s0.base;
    ServerAccepts(s1, io);
    var s2 :| Leads(s1, s2) && Mapping(s2, io) && s2.base == s1.base;
    LeadsOn(s0, s1, s2);
    if io == s0.base {
      OpensOnBase(s2);
      var s3 :| Leads(s2, s3) && Ready(s3, io) && s3.base == s0.base;
      LeadsOn(s0, s2, s3);
    } else {
      OpensApart(s2, io);
      var s3 :| Leads(s2, s3) && Ready(s3, io) && Waits(s3) && s3.base == s0.base;
      LeadsOn(s0, s2, s3);
    }
  }

  lemma ReadyToHangUp(s: System, l: LoopId)
    requires Ready(s, l)
    ensures CanBeginEvent(s, l, {G.POLLHUP, G.POLLRDHUP}) && IsConnEvent(s.loops[l].phase.active[0])
    ensures l != s.base && Waits(s) ==> InFrame(s, s.base)
  {
    HangUpMask();
  }

  /** Of a run with a failing step at its end, take the first failing step. */
  lemma {:induction false} FirstFailure(s: System, run: seq<Action>, act: Action)
    requires IsRun(s, run) && FailsToErase(After(s, run), act)
    ensures exists run', act' :: IsAsserted(s, run') && FailsToErase(After(s, run'), act')
    decreases |run|
  {
    if run == [] {
      assert IsAsserted(s, []) && FailsToErase(After(s, []), act);
    } else if !AssertionsHold(s, run[0]) {
      assert IsAsserted(s, []) && FailsToErase(After(s, []), run[0]);
    } else {
      hide Enabled, Next, AssertionsHold, FailsToErase;
      FirstFailure(Next(s, run[0]), run[1..], act);
      var run', act' :| IsAsserted(Next(s, run[0]), run') && FailsToErase(After(Next(s, run[0]), run'), act');
      assert ([run[0]] + run')[1..] == run';
      assert IsAsserted(s, [run[0]] + run') && FailsToErase(After(s, [run[0]] + run'), act');
    }
  }

  /**
   Every server has a run, each of whose steps passes its assertions, after which the next one
   fails: it erases the entry of a connection for the second time.
  */
  lemma EveryServerCanFail(s0: System)
    requires IsInit(s0)
    ensures exists run, act ::
              && IsAsserted(s0, run) && Enabled(After(s0, run), act)
              && ErasesAgain(After(s0, run), act) && !AssertionsHold(After(s0, run), act)
  {
    hide IsInit, Leads, Ready, Waits, Reaches, FailsToErase, Enabled, Next, AssertionsHold, ErasesAgain;
    hide CanBeginEvent;
    var io := T.Picked(s0.base, s0.pool, s0.nextLoop);
    FirstIsReady(s0);
    var s :| Leads(s0, s) && Ready(s, io) && s.base == s0.base && (io != s.base ==> Waits(s));
    FailsWhenReady(s0, s, io);
    var run, act :| IsRun(s0, run) && FailsToErase(After(s0, run), act);
    FirstFailure(s0, run, act);
    var run', act' :| IsAsserted(s0, run') && FailsToErase(After(s0, run'), act');
    FailureIsErase(s0, run', act');
  }

  lemma FailureIsErase(s0: System, run: seq<Action>, act: Action)
    requires IsInit(s0) && IsAsserted(s0, run) && FailsToErase(After(s0, run), act)
    ensures Enabled(After(s0, run), act) && !AssertionsHold(After(s0, run), act) && ErasesAgain(After(s0, run), act)
  {
    hide Enabled, Next, AssertionsHold, ErasesAgain;
    AssertionsFailExactlyWhen(s0, run, act);
  }

  lemma LeadsAsserted(s0: System, s: System)
    requires IsInit(s0) && Leads(s0, s)
    ensures exists run :: IsAsserted(s0, run) && After(s0, run) == s
  {
    hide Enabled, Next, AssertionsHold, Inv, MasksOK, AllOnce;
    var run :| IsRun(s0, run) && SingleMasks(run) && After(s0, run) == s;
    SingleMasksAreCalm(s0, map[], run);
    InitIsCalm(s0);
    CalmRunsAreAsserted(s0, map[], run);
  }

  lemma FailsWhenReady(s0: System, s: System, io: LoopId)
    requires IsInit(s0) && Leads(s0, s) && Ready(s, io) && (io != s.base ==> Waits(s))
    ensures exists run, act :: IsRun(s0, run) && FailsToErase(After(s0, run), act)
  {
    LeadsAsserted(s0, s);
    ReadyToHangUp(s, io);
    hide Leads, Ready, IsInit, FailsToErase, Enabled, Next, AssertionsHold, CanBeginEvent, InFrame;
    var run :| IsAsserted(s0, run) && After(s0, run) == s;
    DoubleCloseFails(s0, run, io);
    var s' :| Reaches(s, s') && FailsToErase(s', if io == s.base then Remove(s'.base) else Erase);
    var more :| IsRun(s, more) && After(s, more) == s';
    RunsCompose(s0, run, more);
    assert FailsToErase(After(s0, run + more), if io == s.base then Remove(s'.base) else Erase);
  }
}
