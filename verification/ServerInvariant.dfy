/** What every step of the server keeps. */
module ServerInvariant {
  import L = LoopMachine
  import G = Registry
  import opened Server

  function Rank(stage: Stage): nat {
    match stage
    case SMade => 0
    case SMapped => 1
    case SPosted => 2
    case SEstablishing => 3
    case SLive => 4
    case SClosing => 5
    case SRemovePosted => 6
    case SRemoving => 7
    case SErased => 8
    case SDestroyPosted => 9
    case SDestroying => 10
    case SDown => 11
  }

  predicate At(s: System, c: ConnId, stage: Stage) {
    c in s.conns && s.conns[c].stage == stage
  }

  predicate AtAgain(s: System, c: ConnId, again: Again) {
    c in s.conns && s.conns[c].again == again
  }

  // ----- work to do -----

  predicate IsHandoff(f: Functor) {
    f.ConnectEstablished? || f.RemoveConnectionInLoop? || f.ConnectDestroyed?
  }

  /** A connection's stage says which functor of its is queued, and where: once, or not at all. */
  function Expected(s: System, l: LoopId, f: Functor): nat
    requires IsHandoff(f)
  {
    match f
    case ConnectEstablished(c) => if At(s, c, SPosted) && s.conns[c].io == l then 1 else 0
    case RemoveConnectionInLoop(c) =>
      if l == s.base then (if At(s, c, SRemovePosted) then 1 else 0) + (if AtAgain(s, c, AgainPosted) then 1 else 0) else 0
    case ConnectDestroyed(c) => if At(s, c, SDestroyPosted) && s.conns[c].io == l then 1 else 0
  }

  ghost predicate TodoOK(s: System, l: LoopId) {
    && l in s.loops && s.loops[l].next <= |s.loops[l].batch|
    && forall f :: IsHandoff(f) ==> multiset(s.loops[l].Todo())[f] == Expected(s, l, f)
  }

  // ----- frames -----

  /** The loop is inside `handleEvent` of a channel. */
  predicate HandlesEvent(loop: L.Loop<Functor>, channel: nat) {
    loop.phase.Dispatch? && loop.phase.active != [] && loop.phase.active[0] == L.ChannelEvent(channel)
  }

  predicate RunsFunctor(loop: L.Loop<Functor>, f: Functor) {
    loop.phase == L.RunBatch && f in loop.batch
  }

  /** How many of the callbacks to come can close the connection. */
  function Closers(todo: seq<G.Callback>): nat {
    if todo == [] then 0
    else (if todo[0].CloseCallback? || todo[0].ReadCallback? then 1 else 0) + Closers(todo[1..])
  }

  /** Closed or being closed by an earlier callback of the event. */
  predicate WasClosed(stage: Stage) {
    CanBeHandled(stage) && stage != SLive
  }

  predicate CanBeHandled(stage: Stage) {
    stage == SLive || SRemovePosted == stage || stage == SRemoving || stage == SErased || stage == SDestroyPosted
  }

  predicate FrameOK(s: System, l: LoopId) {
    l in s.loops && l in s.frames &&
    match s.frames[l]
    case Idle => true
    case Accepted(c) => l == s.base && At(s, c, SMade) && HandlesEvent(s.loops[l], ACCEPTOR)
    case Mapped(c) => l == s.base && At(s, c, SMapped) && HandlesEvent(s.loops[l], ACCEPTOR)
    case Establishing(c) => At(s, c, SEstablishing) && s.conns[c].io == l
    case Handling(c, todo) =>
      && c in s.conns && s.conns[c].io == l && HandlesEvent(s.loops[l], c)
      && CanBeHandled(s.conns[c].stage) && s.conns[c].again != AgainClosing
      && s.conns[c].closes + Closers(todo) <= 2
    case Closing(c, todo) =>
      && c in s.conns && s.conns[c].io == l && HandlesEvent(s.loops[l], c)
      && (if s.conns[c].again == AgainClosing then WasClosed(s.conns[c].stage) else s.conns[c].stage == SClosing)
      && s.conns[c].closes + Closers(todo) <= 2
    case Removing(c) =>
      && c in s.conns && l == s.base && RunsFunctor(s.loops[l], RemoveConnectionInLoop(c))
      && (s.conns[c].again == AgainRemoving || s.conns[c].stage == SRemoving)
    case ErasedInline(c, todo) =>
      && At(s, c, SErased) && s.conns[c].io == l == s.base && HandlesEvent(s.loops[l], c)
      && s.conns[c].again == Never && s.conns[c].closes + Closers(todo) <= 2
    case Erased(c) => At(s, c, SErased) && l == s.base && RunsFunctor(s.loops[l], RemoveConnectionInLoop(c))
    case Destroying(c) => At(s, c, SDestroying) && s.conns[c].io == l && RunsFunctor(s.loops[l], ConnectDestroyed(c))
  }

  /** Where the thread is that carries a connection through its present stage. */
  predicate Carried(s: System, c: ConnId) {
    c in s.conns && s.conns[c].io in s.frames && s.base in s.frames &&
    var io := s.frames[s.conns[c].io];
    var base := s.frames[s.base];
    && (s.conns[c].again == AgainClosing ==> io.Closing? && io.c == c)
    && (s.conns[c].again == AgainRemoving ==> base == Removing(c))
    && match s.conns[c].stage
    case SMade => base == Accepted(c)
    case SMapped => base == Mapped(c)
    case SEstablishing => io == Establishing(c)
    case SClosing => io.Closing? && io.c == c
    case SRemoving => base == Removing(c)
    case SErased => base == Erased(c) || (base.ErasedInline? && base.c == c)
    case SDestroying => io == Destroying(c)
    case _ => true
  }

  // ----- connections -----

  function Messages(n: nat): (m: seq<Notice>)
    ensures |m| == n
  {
    seq(n, i => Message)
  }

  /** The user sees: up, then messages, then down. */
  ghost predicate NoticesOK(conn: Conn) {
    if Rank(conn.stage) < Rank(SLive) then conn.notices == []
    else exists n: nat :: conn.notices == [Up] + Messages(n) + if conn.stage == SDown then [Down] else []
  }

  ghost predicate ConnOK(s: System, c: ConnId) {
    c in s.conns &&
    var conn := s.conns[c];
    var rank := Rank(conn.stage);
    && ACCEPTOR < c < s.nextId
    && (conn.state == Connecting <==> rank < Rank(SLive))
    && (conn.state == Disconnected <==> conn.stage == SDown)
    && (conn.registered <==> Rank(SLive) <= rank < Rank(SDown))
    && (conn.muted <==> rank > Rank(SLive))
    && conn.closes == (if rank > Rank(SLive) then 1 else 0) + (if conn.again != Never then 1 else 0)
    && (conn.again != Never ==> rank > Rank(SClosing))
    && (conn.again == AgainRemoving ==> rank >= Rank(SDestroyPosted))
    && conn.erases == (if rank >= Rank(SErased) then 1 else 0)
    && (c in s.connMap <==> Rank(SMapped) <= rank < Rank(SErased))
    && (conn.io == s.base ==> conn.stage != SRemovePosted && conn.stage != SRemoving
                              && (conn.again == Never || conn.again == AgainClosing))
    && NoticesOK(conn)
    && Carried(s, c)
  }

  // ----- active lists -----

  /** Every channel in an active list is registered; those still to be handled are live. */
  ghost predicate ActiveOK(s: System, l: LoopId) {
    l in s.loops &&
    (s.loops[l].phase.Dispatch? ==>
      var active := s.loops[l].phase.active;
      && (forall j, k :: 0 <= j < k < |active| ==> active[j] != active[k])
      && (forall k :: 0 <= k < |active| && IsConnEvent(active[k]) ==>
            var c := active[k].channel;
            && c in s.conns && s.conns[c].io == l && s.conns[c].registered
            && (k > 0 || !s.loops[l].busy ==> s.conns[c].stage == SLive))
      && (s.loops[l].busy && active != [] && IsConnEvent(active[0]) ==>
            var c := active[0].channel;
            && l in s.frames && s.frames[l] != Idle && !s.frames[l].Establishing?
            && s.frames[l].c == c))
  }

  /** Each loop keeps the invariant of the loop machine, and so its guarantees. */
  ghost predicate MachinesOK(s: System) {
    forall l :: l in s.loops ==> L.Inv(s.loops[l]) && s.loops[l].owner == l
  }

  /** What holds of one loop and its thread besides. */
  ghost predicate LoopOK(s: System, l: LoopId) {
    && l in s.loops && l in s.frames
    && (s.frames[l] != Idle ==> s.loops[l].busy)
    && TodoOK(s, l) && FrameOK(s, l) && ActiveOK(s, l)
  }

  ghost predicate Globals(s: System) {
    && s.base in s.loops && s.frames.Keys == s.loops.Keys
    && (forall k :: 0 <= k < |s.pool| ==> s.pool[k] in s.loops)
    && s.nextId > ACCEPTOR && s.connMap <= s.conns.Keys
  }

  ghost predicate LoopsOK(s: System) {
    forall l :: l in s.loops ==> LoopOK(s, l)
  }

  ghost predicate ConnsOK(s: System) {
    forall c :: c in s.conns ==> ConnOK(s, c)
  }

  ghost predicate Inv(s: System) {
    Globals(s) && MachinesOK(s) && LoopsOK(s) && ConnsOK(s)
  }

  // ----- single-loop facts -----

  /** How a step of one loop changes the work it has to do, counted. */
  lemma TodoCounts(loop: L.Loop<Functor>, a: L.Action<Functor>)
    requires L.Conserved(loop) && L.Enabled(loop, a)
    ensures multiset(L.Next(loop, a).Todo()) ==
            match a
            case Queue(_, f) => multiset(loop.Todo()) + multiset{f}
            case BeginFunctor => multiset(loop.Todo()) - multiset{loop.batch[loop.next]}
            case _ => multiset(loop.Todo())
    ensures a.BeginFunctor? ==> loop.batch[loop.next] in multiset(loop.Todo())
  {
    L.StepTodo(loop, a);
    if a.BeginFunctor? {
      assert loop.Todo() == [loop.Todo()[0]] + loop.Todo()[1..];
    }
  }

  /** While the owner is inside a callback, no other step changes what it is doing. */
  lemma BusyStays(loop: L.Loop<Functor>, a: L.Action<Functor>)
    requires L.Inv(loop) && L.Enabled(loop, a) && loop.busy && !a.EndEvent? && !a.EndFunctor?
    ensures var loop' := L.Next(loop, a);
            loop'.busy && loop'.phase == loop.phase && loop'.batch == loop.batch
  {
  }

  // ----- steps of a loop that concern no connection -----

  /** Neither a functor nor a channel event begins, nor does an event end. */
  predicate NothingBegins(a: L.Action<Functor>) {
    !a.BeginEvent? && !a.EndEvent? && !a.BeginFunctor?
  }

  predicate IsPlain(a: L.Action<Functor>) {
    NothingBegins(a) && (a.Queue? ==> !IsHandoff(a.f))
  }

  /** The same connections and as much work of each hand-off: nothing is owed or missing. */
  lemma TodoStays(s: System, s': System, l: LoopId)
    requires TodoOK(s, l) && l in s'.loops && s'.loops[l].next <= |s'.loops[l].batch|
    requires forall f :: IsHandoff(f) ==> multiset(s'.loops[l].Todo())[f] == multiset(s.loops[l].Todo())[f]
    requires s'.conns == s.conns && s'.base == s.base
    ensures TodoOK(s', l)
  {
    forall f | IsHandoff(f) ensures multiset(s'.loops[l].Todo())[f] == Expected(s', l, f) {
      assert Expected(s', l, f) == Expected(s, l, f);
    }
  }

  lemma PlainTodo(s: System, l: LoopId, a: L.Action<Functor>)
    requires l in s.loops && L.Inv(s.loops[l]) && TodoOK(s, l)
    requires L.Enabled(s.loops[l], a) && IsPlain(a)
    ensures TodoOK(SetLoop(s, l, L.Next(s.loops[l], a)), l)
  {
    TodoCounts(s.loops[l], a);
    hide TodoOK, L.Enabled;
    L.StepTodo(s.loops[l], a);
    TodoStays(s, SetLoop(s, l, L.Next(s.loops[l], a)), l);
  }

  lemma PlainFrame(s: System, l: LoopId, a: L.Action<Functor>)
    requires l in s.loops && L.Inv(s.loops[l]) && FrameOK(s, l)
    requires s.frames[l] != Idle ==> s.loops[l].busy
    requires L.Enabled(s.loops[l], a) && NothingBegins(a) && (a.EndFunctor? ==> s.frames[l] == Idle)
    ensures var s' := SetLoop(s, l, L.Next(s.loops[l], a));
            FrameOK(s', l) && (s'.frames[l] != Idle ==> s'.loops[l].busy)
  {
    if s.frames[l] != Idle {
      BusyStays(s.loops[l], a);
    }
  }

  lemma PlainActive(s: System, l: LoopId, a: L.Action<Functor>)
    requires l in s.loops && L.Inv(s.loops[l]) && ActiveOK(s, l) && ConnsOK(s)
    requires L.Enabled(s.loops[l], a) && NothingBegins(a) && (a.PollReturn? ==> CanReport(s, l, a.active))
    ensures ActiveOK(SetLoop(s, l, L.Next(s.loops[l], a)), l)
  {
    var s' := SetLoop(s, l, L.Next(s.loops[l], a));
    if a.PollReturn? {
      assert !s.loops[l].busy;
      forall k | 0 <= k < |a.active| && IsConnEvent(a.active[k])
        ensures s.conns[a.active[k].channel].stage == SLive
      {
        assert ConnOK(s, a.active[k].channel);
      }
    } else if s'.loops[l].phase.Dispatch? {
      assert s'.loops[l].phase == s.loops[l].phase && s'.loops[l].busy == s.loops[l].busy;
    }
  }

  lemma PlainLoop(s: System, l: LoopId, a: L.Action<Functor>)
    requires LoopOK(s, l) && L.Inv(s.loops[l]) && ConnsOK(s)
    requires L.Enabled(s.loops[l], a) && IsPlain(a)
    requires a.PollReturn? ==> CanReport(s, l, a.active)
    requires a.EndFunctor? ==> s.frames[l] == Idle
    ensures LoopOK(SetLoop(s, l, L.Next(s.loops[l], a)), l)
  {
    PlainTodo(s, l, a);
    PlainFrame(s, l, a);
    PlainActive(s, l, a);
  }

  /** A loop, its frame and all connections unchanged: so is all that is said of the loop. */
  lemma UntouchedLoop(s: System, s': System, x: LoopId)
    requires LoopOK(s, x) && x in s'.loops && x in s'.frames
    requires s'.loops[x] == s.loops[x] && s'.frames[x] == s.frames[x]
    requires s'.conns == s.conns && s'.base == s.base
    ensures LoopOK(s', x)
  {
    assert forall f :: IsHandoff(f) ==> Expected(s', x, f) == Expected(s, x, f);
  }

  lemma UntouchedConns(s: System, s': System)
    requires ConnsOK(s)
    requires s'.conns == s.conns && s'.frames == s.frames && s'.connMap == s.connMap
    requires s'.base == s.base && s'.nextId == s.nextId
    ensures ConnsOK(s')
  {
    forall c | c in s'.conns ensures ConnOK(s', c) {
      assert ConnOK(s, c);
    }
  }

  /** Whatever a loop's step is, its machine goes on keeping its invariant. */
  lemma MachineSteps(s: System, s': System, l: LoopId, a: L.Action<Functor>)
    requires MachinesOK(s) && l in s.loops && L.Enabled(s.loops[l], a)
    requires s'.loops == s.loops[l := L.Next(s.loops[l], a)]
    ensures MachinesOK(s') && s'.loops.Keys == s.loops.Keys
  {
    L.StepInv(s.loops[l], a);
  }

  lemma PlainLoops(s: System, l: LoopId, a: L.Action<Functor>)
    requires LoopsOK(s) && ConnsOK(s) && l in s.loops && L.Inv(s.loops[l]) && L.Enabled(s.loops[l], a) && IsPlain(a)
    requires a.PollReturn? ==> CanReport(s, l, a.active)
    requires a.EndFunctor? && l in s.frames ==> s.frames[l] == Idle
    ensures LoopsOK(SetLoop(s, l, L.Next(s.loops[l], a)))
  {
    var s' := SetLoop(s, l, L.Next(s.loops[l], a));
    assert LoopOK(s, l);
    PlainLoop(s, l, a);
    forall x | x in s.loops && x != l ensures LoopOK(s', x) {
      UntouchedLoop(s, s', x);
    }
  }

  lemma PlainStepKeepsInv(s: System, l: LoopId, a: L.Action<Functor>)
    requires Inv(s) && l in s.loops && L.Enabled(s.loops[l], a) && IsPlain(a)
    requires a.PollReturn? ==> CanReport(s, l, a.active)
    requires a.EndFunctor? ==> s.frames[l] == Idle
    ensures Inv(SetLoop(s, l, L.Next(s.loops[l], a)))
  {
    var s' := SetLoop(s, l, L.Next(s.loops[l], a));
    PlainLoops(s, l, a);
    MachineSteps(s, s', l, a);
    UntouchedConns(s, s');
  }

  // ----- steps that move one connection on -----

  predicate Mentions(frame: Frame, c: ConnId) {
    frame != Idle && frame.c == c
  }

  /** Connection `c` is not queued on loop `x` that was not before, nor the other way round. */
  predicate SameWork(s: System, s': System, x: LoopId, c: ConnId) {
    c in s'.conns &&
    if c in s.conns then
      var conn, conn' := s.conns[c], s'.conns[c];
      && conn'.io == conn.io
      && (conn.io == x ==> (conn.stage == SPosted <==> conn'.stage == SPosted)
                           && (conn.stage == SDestroyPosted <==> conn'.stage == SDestroyPosted))
      && (x == s.base ==> (conn.stage == SRemovePosted <==> conn'.stage == SRemovePosted)
                          && (conn.again == AgainPosted <==> conn'.again == AgainPosted))
    else s'.conns[c].stage == SMade && s'.conns[c].again == Never
  }

  /** The change of connection `c` leaves the frame and the active list of loop `x` in order. */
  predicate SameShape(s: System, s': System, x: LoopId, c: ConnId) {
    && x in s.loops && x in s'.loops && x in s.frames && x in s'.frames && c in s'.conns
    && s'.loops[x] == s.loops[x] && s'.frames[x] == s.frames[x]
    && (c in s.conns ==>
          var conn, conn' := s.conns[c], s'.conns[c];
          && conn'.io == conn.io
          && (conn.io == x ==> (conn.registered ==> conn'.registered) && (conn.stage == SLive ==> conn'.stage == SLive)))
    && (c in s.conns && Mentions(s.frames[x], c) ==> FrameOK(s', x))
  }

  /** Only connection `c` is different, or new. */
  predicate OnlyConn(s: System, s': System, c: ConnId) {
    && c in s'.conns && s'.conns == s.conns[c := s'.conns[c]]
    && s'.base == s.base
  }

  lemma SameExpected(s: System, s': System, x: LoopId, c: ConnId, f: Functor)
    requires OnlyConn(s, s', c) && SameWork(s, s', x, c) && IsHandoff(f)
    ensures Expected(s', x, f) == Expected(s, x, f)
  {
    if f.c == c && c in s.conns {
      assert s'.conns[c].io == s.conns[c].io;
    }
  }

  lemma SameTodo(s: System, s': System, x: LoopId, c: ConnId)
    requires TodoOK(s, x) && OnlyConn(s, s', c) && SameWork(s, s', x, c)
    requires x in s'.loops && s'.loops[x] == s.loops[x]
    ensures TodoOK(s', x)
  {
    forall f | IsHandoff(f) ensures multiset(s'.loops[x].Todo())[f] == Expected(s', x, f) {
      SameExpected(s, s', x, c, f);
    }
  }

  lemma CompatibleFrame(s: System, s': System, x: LoopId, c: ConnId)
    requires FrameOK(s, x) && OnlyConn(s, s', c) && SameShape(s, s', x, c)
    ensures FrameOK(s', x)
  {
  }

  lemma CompatibleLoop(s: System, s': System, x: LoopId, c: ConnId)
    requires LoopOK(s, x) && OnlyConn(s, s', c) && SameWork(s, s', x, c) && SameShape(s, s', x, c)
    ensures LoopOK(s', x)
  {
    SameTodo(s, s', x, c);
    CompatibleFrame(s, s', x, c);
    CompatibleActive(s, s', x, c);
  }

  lemma CompatibleActive(s: System, s': System, x: LoopId, c: ConnId)
    requires ActiveOK(s, x) && OnlyConn(s, s', c) && SameShape(s, s', x, c)
    ensures ActiveOK(s', x)
  {
  }

  /** The frame of `l` carried no connection but `c`, so the others are where they were. */
  lemma OtherConns(s: System, s': System, l: LoopId, c: ConnId)
    requires Globals(s) && ConnsOK(s) && OnlyConn(s, s', c)
    requires l in s.frames && l in s'.frames && s'.frames == s.frames[l := s'.frames[l]]
    requires s.frames[l] == Idle || s.frames[l].c == c
    requires s.nextId <= s'.nextId
    requires forall d :: d != c ==> (d in s'.connMap <==> d in s.connMap)
    ensures forall d :: d in s'.conns && d != c ==> ConnOK(s', d)
  {
    forall d | d in s'.conns && d != c ensures ConnOK(s', d) {
      assert ConnOK(s, d);
    }
  }

  /** The stage changes there are, and which thread makes each. */
  predicate Moves(before: Stage, after: Stage, byIo: bool, byBase: bool) {
    match before
    case SMade => after == SMapped && byBase
    case SMapped => byBase && (if byIo then after == SEstablishing else after == SPosted)
    case SPosted => after == SEstablishing && byIo
    case SEstablishing => after == SLive && byIo
    case SLive => after == SClosing && byIo
    case SClosing => byIo && (if byBase then after == SErased else after == SRemovePosted)
    case SRemovePosted => after == SRemoving && byBase
    case SRemoving => after == SErased && byBase
    case SErased => after == SDestroyPosted && byBase
    case SDestroyPosted => after == SDestroying && byIo
    case SDestroying => after == SDown && byIo
    case SDown => false
  }

  /** And those of a second close. */
  predicate MovesAgain(before: Again, after: Again, byIo: bool, byBase: bool) {
    match before
    case Never => after == AgainClosing && byIo
    case AgainClosing => after == AgainPosted && byIo && !byBase
    case AgainPosted => after == AgainRemoving && byBase
    case AgainRemoving => false
  }

  /** The loop a connection is queued on in a stage, if any. */
  predicate QueuedOn(stage: Stage, x: LoopId, io: LoopId, base: LoopId) {
    || (stage == SPosted && x == io)
    || (stage == SRemovePosted && x == base)
    || (stage == SDestroyPosted && x == io)
  }

  /** What a step by thread `l` may do to connection `c`. */
  predicate MovesConn(s: System, s': System, l: LoopId, c: ConnId) {
    && c in s.conns && OnlyConn(s, s', c)
    && var conn, conn' := s.conns[c], s'.conns[c];
       && conn'.io == conn.io && ((conn'.registered == conn.registered && conn'.closes == conn.closes) || l == conn.io)
       && (conn'.stage == conn.stage || Moves(conn.stage, conn'.stage, l == conn.io, l == s.base))
       && (conn'.again == conn.again || MovesAgain(conn.again, conn'.again, l == conn.io, l == s.base))
  }

  /** A move by thread `l` is compatible with the frames and active lists of all other loops. */
  lemma MoveKeepsShape(s: System, s': System, l: LoopId, x: LoopId, c: ConnId)
    requires FrameOK(s, x) && x != l && MovesConn(s, s', l, c)
    requires x in s'.loops && x in s'.frames && s'.loops[x] == s.loops[x] && s'.frames[x] == s.frames[x]
    ensures SameShape(s, s', x, c)
  {
  }

  /** It changes the work of those loops only that it puts the connection's functor on, or takes it from. */
  lemma MoveKeepsWork(s: System, s': System, x: LoopId, c: ConnId)
    requires c in s.conns && c in s'.conns && s'.conns[c].io == s.conns[c].io
    requires s'.conns[c].stage != s.conns[c].stage
             ==> !QueuedOn(s.conns[c].stage, x, s.conns[c].io, s.base) && !QueuedOn(s'.conns[c].stage, x, s.conns[c].io, s.base)
    requires s'.conns[c].again != s.conns[c].again
             ==> x != s.base || (s.conns[c].again != AgainPosted && s'.conns[c].again != AgainPosted)
    ensures SameWork(s, s', x, c)
  {
  }

  /** Thread `l` moves connection `c` on, changing its own frame and no loop. */
  predicate InPlace(s: System, s': System, l: LoopId, c: ConnId) {
    && MovesConn(s, s', l, c) && s'.loops == s.loops && OwnFrame(s, s', l, c)
    && (s'.frames[l] != Idle ==> s.loops[l].busy)
    && var conn, conn' := s.conns[c], s'.conns[c];
       && (conn'.stage != conn.stage ==> !IsQueued(conn.stage) && !IsQueued(conn'.stage))
       && (conn'.again != conn.again ==> conn.again != AgainPosted && conn'.again != AgainPosted)
  }

  predicate IsQueued(stage: Stage) {
    stage == SPosted || stage == SRemovePosted || stage == SDestroyPosted
  }

  /** Thread `l` changes its frame, which is about connection `c`, and at most the map entry of `c`. */
  predicate OwnFrame(s: System, s': System, l: LoopId, c: ConnId) {
    && l in s.loops && l in s.frames && l in s'.frames
    && s'.pool == s.pool && s'.nextId == s.nextId
    && s'.frames == s.frames[l := s'.frames[l]]
    && (s.frames[l] == Idle || s.frames[l].c == c)
    && (s'.connMap == s.connMap || s'.connMap == s.connMap + {c} || s'.connMap == s.connMap - {c})
  }

  lemma InPlaceOwnLoop(s: System, s': System, l: LoopId, c: ConnId)
    requires LoopOK(s, l) && InPlace(s, s', l, c)
    requires FrameOK(s', l) && ActiveOK(s', l)
    ensures LoopOK(s', l)
  {
    MoveKeepsWork(s, s', l, c);
    SameTodo(s, s', l, c);
  }

  lemma InPlaceOtherLoop(s: System, s': System, l: LoopId, c: ConnId, x: LoopId)
    requires LoopOK(s, x) && InPlace(s, s', l, c) && x != l
    ensures LoopOK(s', x)
  {
    MoveKeepsWork(s, s', x, c);
    MoveKeepsShape(s, s', l, x, c);
    CompatibleLoop(s, s', x, c);
  }

  lemma InPlaceLoops(s: System, s': System, l: LoopId, c: ConnId)
    requires LoopsOK(s) && InPlace(s, s', l, c)
    requires FrameOK(s', l) && ActiveOK(s', l)
    ensures LoopsOK(s')
  {
    forall x | x in s'.loops ensures LoopOK(s', x) {
      if x == l { InPlaceOwnLoop(s, s', l, c); } else { InPlaceOtherLoop(s, s', l, c, x); }
    }
  }

  lemma MovedConns(s: System, s': System, l: LoopId, c: ConnId)
    requires Globals(s) && ConnsOK(s) && MovesConn(s, s', l, c) && OwnFrame(s, s', l, c) && ConnOK(s', c)
    requires s'.loops.Keys == s.loops.Keys
    ensures Globals(s') && ConnsOK(s')
  {
    OtherConns(s, s', l, c);
  }

  lemma InPlaceKeepsInv(s: System, s': System, l: LoopId, c: ConnId)
    requires Inv(s) && InPlace(s, s', l, c)
    requires FrameOK(s', l) && ActiveOK(s', l) && ConnOK(s', c)
    ensures Inv(s')
  {
    InPlaceLoops(s, s', l, c);
    assert MachinesOK(s');
    MovedConns(s, s', l, c);
  }

  // ----- pushing a connection's functor -----

  /** Thread `l` pushes `f`, about connection `c`, onto loop `m`, and changes its frame. */
  predicate Pushes(s: System, s': System, l: LoopId, m: LoopId, c: ConnId, f: Functor) {
    && MovesConn(s, s', l, c) && OwnFrame(s, s', l, c)
    && CanQueue(s, m, l) && IsHandoff(f) && f.c == c
    && s'.loops == s.loops[m := L.Next(s.loops[m], L.Queue(l, f))]
    && (s'.frames[l] != Idle ==> s.loops[l].busy)
    && var conn, conn' := s.conns[c], s'.conns[c];
       && (if conn'.stage != conn.stage
           then conn'.again == conn.again && !IsQueued(conn.stage) && QueuedOn(conn'.stage, m, conn.io, s.base)
           else conn.again == AgainClosing && conn'.again == AgainPosted && m == s.base)
       && Expected(s', m, f) == Expected(s, m, f) + 1
  }

  lemma PushedExpected(s: System, s': System, l: LoopId, m: LoopId, c: ConnId, f: Functor, g: Functor)
    requires Pushes(s, s', l, m, c, f) && IsHandoff(g)
    ensures Expected(s', m, g) == Expected(s, m, g) + if g == f then 1 else 0
  {
    hide L.Enabled, L.Next, CanQueue;
  }

  lemma PushedTodo(s: System, s': System, l: LoopId, m: LoopId, c: ConnId, f: Functor)
    requires LoopOK(s, m) && L.Conserved(s.loops[m]) && Pushes(s, s', l, m, c, f)
    ensures TodoOK(s', m)
  {
    hide FrameOK, ActiveOK, MovesConn, Expected;
    TodoCounts(s.loops[m], L.Queue(l, f));
    forall g | IsHandoff(g) ensures multiset(s'.loops[m].Todo())[g] == Expected(s', m, g) {
      PushedExpected(s, s', l, m, c, f, g);
    }
  }

  /** The loop that is pushed to, when it is another thread's. */
  lemma PushedLoop(s: System, s': System, l: LoopId, m: LoopId, c: ConnId, f: Functor)
    requires LoopOK(s, m) && L.Inv(s.loops[m]) && ConnsOK(s) && Pushes(s, s', l, m, c, f) && m != l
    ensures LoopOK(s', m)
  {
    PushedTodo(s, s', l, m, c, f);
    var s1 := SetLoop(s, m, L.Next(s.loops[m], L.Queue(l, f)));
    PlainFrame(s, m, L.Queue(l, f));
    PlainActive(s, m, L.Queue(l, f));
    MoveKeepsShape(s1, s', l, m, c);
    CompatibleFrame(s1, s', m, c);
    CompatibleActive(s1, s', m, c);
  }

  lemma PushOwnLoop(s: System, s': System, l: LoopId, m: LoopId, c: ConnId, f: Functor)
    requires LoopOK(s, l) && (l == m ==> L.Conserved(s.loops[l])) && Pushes(s, s', l, m, c, f)
    requires FrameOK(s', l) && ActiveOK(s', l)
    ensures LoopOK(s', l)
  {
    if l == m {
      PushedTodo(s, s', l, m, c, f);
    } else {
      MoveKeepsWork(s, s', l, c);
      SameTodo(s, s', l, c);
    }
  }

  lemma PushOtherLoop(s: System, s': System, l: LoopId, m: LoopId, c: ConnId, f: Functor, x: LoopId)
    requires LoopOK(s, x) && Pushes(s, s', l, m, c, f) && x != l && x != m
    ensures LoopOK(s', x)
  {
    MoveKeepsWork(s, s', x, c);
    MoveKeepsShape(s, s', l, x, c);
    CompatibleLoop(s, s', x, c);
  }

  lemma PushLoops(s: System, s': System, l: LoopId, m: LoopId, c: ConnId, f: Functor)
    requires LoopsOK(s) && ConnsOK(s) && Pushes(s, s', l, m, c, f) && L.Inv(s.loops[m])
    requires FrameOK(s', l) && ActiveOK(s', l)
    ensures LoopsOK(s')
  {
    forall x | x in s'.loops ensures LoopOK(s', x) {
      assert LoopOK(s, x);
      if x == l { PushOwnLoop(s, s', l, m, c, f); }
      else if x == m { PushedLoop(s, s', l, m, c, f); }
      else { PushOtherLoop(s, s', l, m, c, f, x); }
    }
  }

  lemma PushKeepsInv(s: System, s': System, l: LoopId, m: LoopId, c: ConnId, f: Functor)
    requires Inv(s) && Pushes(s, s', l, m, c, f)
    requires FrameOK(s', l) && ActiveOK(s', l) && ConnOK(s', c)
    ensures Inv(s')
  {
    PushLoops(s, s', l, m, c, f);
    MachineSteps(s, s', m, L.Queue(l, f));
    MovedConns(s, s', l, c);
  }

  // ----- a step of a thread's own loop -----

  /** Loop `l` takes step `a`, with no connection and no frame involved. */
  predicate StepsIdly(s: System, s': System, l: LoopId, a: L.Action<Functor>) {
    && l in s.loops && L.Enabled(s.loops[l], a) && s' == SetLoop(s, l, L.Next(s.loops[l], a))
  }

  lemma IdleStepKeepsInv(s: System, s': System, l: LoopId, a: L.Action<Functor>)
    requires Inv(s) && StepsIdly(s, s', l, a) && LoopOK(s', l)
    ensures Inv(s')
  {
    IdleLoops(s, s', l, a);
    MachineSteps(s, s', l, a);
    UntouchedConns(s, s');
  }

  lemma IdleLoops(s: System, s': System, l: LoopId, a: L.Action<Functor>)
    requires LoopsOK(s) && StepsIdly(s, s', l, a) && LoopOK(s', l)
    ensures LoopsOK(s')
  {
    forall x | x in s'.loops ensures LoopOK(s', x) {
      if x != l { UntouchedLoop(s, s', x); }
    }
  }

  /** Loop `l` takes step `a`, and its thread moves connection `c` on. */
  predicate StepsWith(s: System, s': System, l: LoopId, a: L.Action<Functor>, c: ConnId) {
    && MovesConn(s, s', l, c) && OwnFrame(s, s', l, c)
    && L.Enabled(s.loops[l], a) && s'.loops == s.loops[l := L.Next(s.loops[l], a)]
    && var conn, conn' := s.conns[c], s'.conns[c];
       && (conn'.stage != conn.stage ==>
             (IsQueued(conn.stage) ==> QueuedOn(conn.stage, l, conn.io, s.base)) && !IsQueued(conn'.stage))
       && (conn'.again != conn.again ==>
             (conn.again == AgainPosted ==> l == s.base) && conn'.again != AgainPosted)
  }

  lemma StepOtherLoop(s: System, s': System, l: LoopId, a: L.Action<Functor>, c: ConnId, x: LoopId)
    requires LoopOK(s, x) && StepsWith(s, s', l, a, c) && x != l
    ensures LoopOK(s', x)
  {
    MoveKeepsWork(s, s', x, c);
    MoveKeepsShape(s, s', l, x, c);
    CompatibleLoop(s, s', x, c);
  }

  lemma StepLoops(s: System, s': System, l: LoopId, a: L.Action<Functor>, c: ConnId)
    requires LoopsOK(s) && StepsWith(s, s', l, a, c) && LoopOK(s', l)
    ensures LoopsOK(s')
  {
    forall x | x in s'.loops ensures LoopOK(s', x) {
      if x != l { StepOtherLoop(s, s', l, a, c, x); }
    }
  }

  lemma StepKeepsInv(s: System, s': System, l: LoopId, a: L.Action<Functor>, c: ConnId)
    requires Inv(s) && StepsWith(s, s', l, a, c) && LoopOK(s', l) && ConnOK(s', c)
    ensures Inv(s')
  {
    StepLoops(s, s', l, a, c);
    MachineSteps(s, s', l, a);
    MovedConns(s, s', l, c);
  }

  /** A functor about a connection that a batch comes to is one its stage has sent there. */
  lemma NextIsExpected(s: System, l: LoopId)
    requires TodoOK(s, l) && L.Conserved(s.loops[l]) && L.Enabled(s.loops[l], L.BeginFunctor)
    ensures var f := s.loops[l].batch[s.loops[l].next];
            IsHandoff(f) ==> Expected(s, l, f) > 0
  {
    TodoCounts(s.loops[l], L.BeginFunctor);
  }

  lemma TakenTodo(s: System, s': System, l: LoopId)
    requires TodoOK(s, l) && L.Conserved(s.loops[l]) && L.Enabled(s.loops[l], L.BeginFunctor)
    requires l in s'.loops && s'.loops[l] == L.Next(s.loops[l], L.BeginFunctor)
    requires var f := s.loops[l].batch[s.loops[l].next];
             if IsHandoff(f) then
               && Expected(s', l, f) == Expected(s, l, f) - 1
               && forall g :: IsHandoff(g) && g != f ==> Expected(s', l, g) == Expected(s, l, g)
             else forall g :: IsHandoff(g) ==> Expected(s', l, g) == Expected(s, l, g)
    ensures TodoOK(s', l)
  {
    TodoCounts(s.loops[l], L.BeginFunctor);
    NextIsExpected(s, l);
  }

  // ----- users -----

  /** Only the state flag or the user's pointers of a connection change. */
  predicate TouchesOnly(s: System, s': System, c: ConnId) {
    && c in s.conns && c in s'.conns && s' == SetConn(s, c, s'.conns[c])
    && var conn, conn' := s.conns[c], s'.conns[c];
       conn' == conn.(users := conn'.users) || (conn' == conn.(state := Disconnecting) && conn.state == Connected)
  }

  lemma TouchKeepsInv(s: System, s': System, c: ConnId)
    requires Inv(s) && TouchesOnly(s, s', c)
    ensures Inv(s')
  {
    TouchLoops(s, s', c);
    TouchConns(s, s', c);
  }

  lemma TouchLoops(s: System, s': System, c: ConnId)
    requires LoopsOK(s) && TouchesOnly(s, s', c)
    ensures LoopsOK(s')
  {
    forall x | x in s'.loops ensures LoopOK(s', x) {
      assert LoopOK(s, x);
      CompatibleLoop(s, s', x, c);
    }
  }

  lemma TouchConns(s: System, s': System, c: ConnId)
    requires Globals(s) && ConnsOK(s) && TouchesOnly(s, s', c)
    ensures Globals(s') && ConnsOK(s')
  {
    forall d | d in s'.conns ensures ConnOK(s', d) {
      assert ConnOK(s, d);
    }
  }

  // ----- a new connection -----

  /** Thread `l` makes connection `c`, which no one has heard of. */
  predicate Makes(s: System, s': System, l: LoopId, c: ConnId) {
    && c !in s.conns && c == s.nextId && l == s.base
    && OnlyConn(s, s', c) && s'.conns[c].stage == SMade && s'.conns[c].again == Never
    && s'.loops == s.loops && s'.pool == s.pool && s'.nextId == c + 1 && s'.connMap == s.connMap
    && l in s.frames && s.frames[l] == Idle && s'.frames == s.frames[l := Accepted(c)]
  }

  lemma NewLoops(s: System, s': System, l: LoopId, c: ConnId)
    requires LoopsOK(s) && Makes(s, s', l, c) && LoopOK(s', l)
    ensures LoopsOK(s')
  {
    forall x | x in s'.loops ensures LoopOK(s', x) {
      assert LoopOK(s, x);
      if x != l { CompatibleLoop(s, s', x, c); }
    }
  }

  lemma NewConns(s: System, s': System, l: LoopId, c: ConnId)
    requires Globals(s) && ConnsOK(s) && Makes(s, s', l, c) && ConnOK(s', c)
    ensures Globals(s') && ConnsOK(s')
  {
    OtherConns(s, s', l, c);
  }

  lemma NewKeepsInv(s: System, s': System, l: LoopId, c: ConnId)
    requires Inv(s) && Makes(s, s', l, c) && LoopOK(s', l) && ConnOK(s', c)
    ensures Inv(s')
  {
    NewLoops(s, s', l, c);
    NewConns(s, s', l, c);
    assert MachinesOK(s');
  }
}
