/**
 The life of connections across the loops of a server: `TcpServer` accepts on the base loop,
 connections live on their I/O loops (which may be the base loop), and closing one hands it
 back and forth between the two. The loops are those of `LoopMachine`; what a loop's thread
 is in the middle of is its frame. All threads interleave between steps.

 A connection is held by shared pointers: the server's map, functors bound to it (a batch
 keeps its functors until it ends), and pointers on the stack of a thread.
*/
module Server {
  import L = LoopMachine
  import G = Registry
  import T = ThreadPool

  type LoopId = L.ThreadId  // a loop is named by its thread
  type ConnId = nat

  const ACCEPTOR: nat := 0  // the acceptor's channel; connections are numbered from 1

  datatype Functor =
    | ConnectEstablished(c: ConnId)
    | RemoveConnectionInLoop(c: ConnId)
    | ConnectDestroyed(c: ConnId)
    | WriteComplete(c: ConnId)
    | User(n: nat)

  /** The functors that hold a connection. */
  predicate Binds(f: Functor, c: ConnId) {
    !f.User? && f.c == c
  }

  datatype Frame =
    | Idle                                          // in the loop itself, or in user code
    | Accepted(c: ConnId)                           // newConnection, before the map entry
    | Mapped(c: ConnId)                             // newConnection, after it
    | Establishing(c: ConnId)                       // connectEstablished
    | Handling(c: ConnId, todo: seq<G.Callback>)    // handleEvent, with these callbacks to come
    | Closing(c: ConnId, todo: seq<G.Callback>)     // handleClose, inside that
    | Removing(c: ConnId)                           // removeConnectionInLoop, run as a functor
    | ErasedInline(c: ConnId, todo: seq<G.Callback>) // removeConnectionInLoop inside handleClose, entry erased
    | Erased(c: ConnId)                             // removeConnectionInLoop as a functor, entry erased
    | Destroying(c: ConnId)                         // connectDestroyed

  datatype ConnState = Connecting | Connected | Disconnecting | Disconnected

  datatype Notice = Up | Message | Down  // calls of the user's callbacks

  /** How far a connection has come; history, the code keeps no such field. */
  datatype Stage =
    | SMade | SMapped | SPosted | SEstablishing | SLive | SClosing
    | SRemovePosted | SRemoving | SErased | SDestroyPosted | SDestroying | SDown

  /** How far a second run of `handleClose` has come, if there was one. */
  datatype Again = Never | AgainClosing | AgainPosted | AgainRemoving

  datatype Conn = Conn(
    io: LoopId,
    state: ConnState,
    registered: bool,    // its channel is in the poller of its loop
    muted: bool,         // with a muted slot
    users: nat,          // shared pointers held by user code
    // history
    stage: Stage,
    again: Again,
    closes: nat,
    erases: nat,
    notices: seq<Notice>)

  datatype System = System(
    base: LoopId,
    pool: seq<LoopId>,
    nextLoop: nat,
    loops: map<LoopId, L.Loop<Functor>>,
    frames: map<LoopId, Frame>,
    conns: map<ConnId, Conn>,   // every connection ever made
    connMap: set<ConnId>,       // _connMap
    nextId: nat)

  datatype Action =
    | LoopStep(l: LoopId, a: L.Action<Functor>)
    | BeginEvent(l: LoopId, revents: G.Mask)
    | EndEvent(l: LoopId)
    | BeginFunctor(l: LoopId)
    | Accept
    | Insert
    | Post
    | Establish(l: LoopId)
    | RunCallback(l: LoopId, endOfFile: bool, drained: bool)
    | Remove(l: LoopId)
    | Erase
    | PostDestroy(l: LoopId)
    | Destroy(l: LoopId)
    | Shutdown(c: ConnId)
    | Copy(c: ConnId)
    | Drop(c: ConnId)

  // ----- who holds a connection -----

  predicate FrameHolds(frame: Frame, c: ConnId) {
    (frame.Accepted? || frame.Mapped? || frame.Closing? || frame.ErasedInline?) && frame.c == c
  }

  predicate LoopHolds(loop: L.Loop<Functor>, c: ConnId) {
    (exists f :: f in loop.batch && Binds(f, c)) || (exists f :: f in loop.pending && Binds(f, c))
  }

  /** The map, a pending or running functor, or a pointer on some thread's stack. */
  ghost predicate HasOwner(s: System, c: ConnId) {
    || c in s.connMap
    || (exists l :: l in s.loops && LoopHolds(s.loops[l], c))
    || (exists l :: l in s.frames && FrameHolds(s.frames[l], c))
  }

  /** The last shared pointer is gone, so the destructors of the connection and its channel have run. */
  ghost predicate IsDestructed(s: System, c: ConnId) {
    c in s.conns && !HasOwner(s, c) && s.conns[c].users == 0
  }

  // ----- steps -----

  function SetLoop(s: System, l: LoopId, loop: L.Loop<Functor>): System {
    s.(loops := s.loops[l := loop])
  }

  function SetFrame(s: System, l: LoopId, frame: Frame): System {
    s.(frames := s.frames[l := frame])
  }

  function SetConn(s: System, c: ConnId, conn: Conn): System {
    s.(conns := s.conns[c := conn])
  }

  predicate ThreadFree(s: System, t: LoopId) {
    forall l :: l in s.loops ==> t !in s.loops[l].due
  }

  /** Thread `t` is inside a call and can take its next step. */
  predicate InFrame(s: System, t: LoopId) {
    t in s.loops && t in s.frames && ThreadFree(s, t)
  }

  predicate IsConnEvent(e: L.Event) {
    e.ChannelEvent? && e.channel != ACCEPTOR
  }

  /** What `poll` can report on a loop: its registered, unmuted channels, each once. */
  predicate CanReport(s: System, l: LoopId, active: seq<L.Event>) {
    && (forall j, k :: 0 <= j < k < |active| ==> active[j] != active[k])
    && (forall e :: e in active && e.ChannelEvent? ==>
          if e.channel == ACCEPTOR then l == s.base
          else e.channel in s.conns && s.conns[e.channel].io == l
               && s.conns[e.channel].registered && !s.conns[e.channel].muted)
  }

  /** Thread `t` can push a functor onto loop `l`. */
  predicate CanQueue(s: System, l: LoopId, t: LoopId) {
    l in s.loops && L.MayCall(s.loops[l], t)
  }

  /** The I/O loop of the connection a frame is about. */
  function IoOf(s: System, c: ConnId): LoopId
    requires c in s.conns
  {
    s.conns[c].io
  }

  // When each step can be taken.

  predicate CanBeginEvent(s: System, l: LoopId, revents: G.Mask) {
    && InFrame(s, l) && L.Enabled(s.loops[l], L.BeginEvent) && s.frames[l] == Idle
    && G.ErrorCallback !in G.Callbacks(revents)
  }

  predicate CanEndEvent(s: System, l: LoopId) {
    && InFrame(s, l) && L.Enabled(s.loops[l], L.EndEvent)
    && (s.frames[l] == Idle || (s.frames[l].Handling? && s.frames[l].todo == []))
  }

  predicate CanBeginFunctor(s: System, l: LoopId) {
    InFrame(s, l) && L.Enabled(s.loops[l], L.BeginFunctor) && s.frames[l] == Idle
  }

  /** The base loop handles an event of the acceptor. */
  predicate CanAccept(s: System) {
    && InFrame(s, s.base) && s.frames[s.base] == Idle && s.loops[s.base].busy
    && s.loops[s.base].phase.Dispatch? && s.loops[s.base].phase.active != []
    && s.loops[s.base].phase.active[0] == L.ChannelEvent(ACCEPTOR)
  }

  predicate CanInsert(s: System) {
    InFrame(s, s.base) && s.frames[s.base].Accepted? && s.frames[s.base].c in s.conns
  }

  predicate CanPost(s: System) {
    && InFrame(s, s.base) && s.frames[s.base].Mapped? && s.frames[s.base].c in s.conns
    && CanQueue(s, IoOf(s, s.frames[s.base].c), s.base)
  }

  predicate CanEstablish(s: System, l: LoopId) {
    InFrame(s, l) && s.frames[l].Establishing? && s.frames[l].c in s.conns
  }

  predicate CanRunCallback(s: System, l: LoopId) {
    && InFrame(s, l) && s.frames[l].Handling? && s.frames[l].todo != [] && s.frames[l].c in s.conns
    && CanQueue(s, l, l)
  }

  predicate CanRemove(s: System, l: LoopId) {
    InFrame(s, l) && s.frames[l].Closing? && s.frames[l].c in s.conns && CanQueue(s, s.base, l)
  }

  predicate CanErase(s: System) {
    InFrame(s, s.base) && s.frames[s.base].Removing? && s.frames[s.base].c in s.conns
  }

  predicate CanPostDestroy(s: System, l: LoopId) {
    && InFrame(s, l) && (s.frames[l].Erased? || s.frames[l].ErasedInline?) && s.frames[l].c in s.conns
    && CanQueue(s, IoOf(s, s.frames[l].c), l)
  }

  predicate CanDestroy(s: System, l: LoopId) {
    InFrame(s, l) && s.frames[l].Destroying? && s.frames[l].c in s.conns
  }

  predicate CanLoopStep(s: System, l: LoopId, a: L.Action<Functor>) {
    && l in s.loops && l in s.frames && L.Enabled(s.loops[l], a)
    && !a.BeginEvent? && !a.EndEvent? && !a.BeginFunctor?
    && (a.Queue? ==> a.f.User?)
    && (a.PollReturn? ==> CanReport(s, l, a.active))
    && (a.EndFunctor? ==> s.frames[l] == Idle)
  }

  predicate CanShutdown(s: System, c: ConnId) {
    c in s.conns && s.conns[c].state == Connected
  }

  predicate CanDrop(s: System, c: ConnId) {
    c in s.conns && s.conns[c].users > 0
  }

  ghost predicate Enabled(s: System, act: Action) {
    match act
    case LoopStep(l, a) => CanLoopStep(s, l, a)
    case BeginEvent(l, revents) => CanBeginEvent(s, l, revents)
    case EndEvent(l) => CanEndEvent(s, l)
    case BeginFunctor(l) => CanBeginFunctor(s, l)
    case Accept => CanAccept(s)
    case Insert => CanInsert(s)
    case Post => CanPost(s)
    case Establish(l) => CanEstablish(s, l)
    case RunCallback(l, _, _) => CanRunCallback(s, l)
    case Remove(l) => CanRemove(s, l)
    case Erase => CanErase(s)
    case PostDestroy(l) => CanPostDestroy(s, l)
    case Destroy(l) => CanDestroy(s, l)
    case Shutdown(c) => CanShutdown(s, c)
    case Copy(c) => c in s.conns && !IsDestructed(s, c)
    case Drop(c) => CanDrop(s, c)
  }

  /** `queueInLoop` by thread `t`. */
  function Queued(s: System, l: LoopId, t: LoopId, f: Functor): System
    requires CanQueue(s, l, t)
  {
    SetLoop(s, l, L.Next(s.loops[l], L.Queue(t, f)))
  }

  function NewConn(io: LoopId): Conn {
    Conn(io, Connecting, false, false, 0, SMade, Never, 0, 0, [])
  }

  /** What a thread does with the functor it has begun; for a user functor nothing that matters here. */
  function FrameOf(f: Functor): Frame {
    match f
    case ConnectEstablished(c) => Establishing(c)
    case RemoveConnectionInLoop(c) => Removing(c)
    case ConnectDestroyed(c) => Destroying(c)
    case _ => Idle
  }

  /** The functor of a connection moves it on; a second removal leaves its stage alone. */
  function Begun(f: Functor, conn: Conn): Conn {
    match f
    case ConnectEstablished(_) => conn.(stage := SEstablishing)
    case RemoveConnectionInLoop(_) =>
      if conn.stage == SRemovePosted then conn.(stage := SRemoving) else conn.(again := AgainRemoving)
    case ConnectDestroyed(_) => conn.(stage := SDestroying)
    case _ => conn
  }

  function WithStage(s: System, c: ConnId, stage: Stage): System {
    if c in s.conns then SetConn(s, c, s.conns[c].(stage := stage)) else s
  }

  // What each step does.

  function BegunEvent(s: System, l: LoopId, revents: G.Mask): System
    requires CanBeginEvent(s, l, revents)
  {
    var begun := SetLoop(s, l, L.Next(s.loops[l], L.BeginEvent));
    var event := s.loops[l].phase.active[0];
    if IsConnEvent(event) then SetFrame(begun, l, Handling(event.channel, G.Callbacks(revents))) else begun
  }

  function EndedEvent(s: System, l: LoopId): System
    requires CanEndEvent(s, l)
  {
    SetFrame(SetLoop(s, l, L.Next(s.loops[l], L.EndEvent)), l, Idle)
  }

  function BegunFunctor(s: System, l: LoopId): System
    requires CanBeginFunctor(s, l)
  {
    var f := s.loops[l].batch[s.loops[l].next];
    var begun := SetLoop(s, l, L.Next(s.loops[l], L.BeginFunctor));
    if FrameOf(f) == Idle then begun
    else SetFrame(if f.c in s.conns then SetConn(begun, f.c, Begun(f, s.conns[f.c])) else begun, l, FrameOf(f))
  }

  /** newConnection: the I/O loop is chosen and the connection made. */
  function Accepts(s: System): System
    requires CanAccept(s)
  {
    var c := s.nextId;
    SetFrame(SetConn(s, c, NewConn(T.Picked(s.base, s.pool, s.nextLoop))), s.base, Accepted(c)).(nextId := c + 1, nextLoop := T.Advanced(|s.pool|, s.nextLoop))
  }

  function Inserted(s: System): System
    requires CanInsert(s)
  {
    var c := s.frames[s.base].c;
    SetFrame(WithStage(s, c, SMapped), s.base, Mapped(c)).(connMap := s.connMap + {c})
  }

  /** runInLoop(connectEstablished): at once on the base loop, else queued on the I/O loop. */
  function Posted(s: System): System
    requires CanPost(s)
  {
    var c := s.frames[s.base].c;
    if IoOf(s, c) == s.base then SetFrame(WithStage(s, c, SEstablishing), s.base, Establishing(c))
    else SetFrame(WithStage(Queued(s, IoOf(s, c), s.base, ConnectEstablished(c)), c, SPosted), s.base, Idle)
  }

  function Established(s: System, l: LoopId): System
    requires CanEstablish(s, l)
  {
    var c := s.frames[l].c;
    var conn := s.conns[c];
    SetFrame(SetConn(s, c, conn.(state := Connected, registered := true, notices := conn.notices + [Up], stage := SLive)), l, Idle)
  }

  predicate ClosesNow(callback: G.Callback, endOfFile: bool) {
    callback.CloseCallback? || (callback.ReadCallback? && endOfFile)
  }

  /** A callback that ends in handleClose, for a connection that handleClose has run for before. */
  predicate Recloses(s: System, act: Action) {
    && act.RunCallback? && CanRunCallback(s, act.l)
    && ClosesNow(s.frames[act.l].todo[0], act.endOfFile) && s.conns[s.frames[act.l].c].muted
  }

  /** A callback that ends in handleClose, up to the call of removeConnection. */
  function Closed(s: System, l: LoopId): System
    requires CanRunCallback(s, l)
  {
    var c := s.frames[l].c;
    var conn := s.conns[c];
    var closed := conn.(muted := true, closes := conn.closes + 1);
    SetFrame(SetConn(s, c, if conn.muted then closed.(again := AgainClosing) else closed.(stage := SClosing)),
             l, Closing(c, s.frames[l].todo[1..]))
  }

  function Received(s: System, l: LoopId): System
    requires CanRunCallback(s, l)
  {
    var c := s.frames[l].c;
    var conn := s.conns[c];
    SetFrame(SetConn(s, c, conn.(notices := conn.notices + [Message])), l, Handling(c, s.frames[l].todo[1..]))
  }

  function Passed(s: System, l: LoopId): System
    requires CanRunCallback(s, l)
  {
    SetFrame(s, l, Handling(s.frames[l].c, s.frames[l].todo[1..]))
  }

  function AfterCallback(s: System, l: LoopId, endOfFile: bool, drained: bool): System
    requires CanRunCallback(s, l)
  {
    var c, callback := s.frames[l].c, s.frames[l].todo[0];
    if ClosesNow(callback, endOfFile) then Closed(s, l)
    else if callback.ReadCallback? then Received(s, l)
    else if callback.WriteCallback? && drained && !s.conns[c].muted then
      SetFrame(Queued(s, l, l, WriteComplete(c)), l, Handling(c, s.frames[l].todo[1..]))
    else Passed(s, l)
  }

  function EraseEntry(s: System, c: ConnId): System
    requires c in s.conns
  {
    SetConn(s, c, s.conns[c].(erases := s.conns[c].erases + 1, stage := SErased)).(connMap := s.connMap - {c})
  }

  /** removeConnection: at once on the base loop, else queued there. */
  function Removed(s: System, l: LoopId): System
    requires CanRemove(s, l)
  {
    var c, todo := s.frames[l].c, s.frames[l].todo;
    if l == s.base then SetFrame(EraseEntry(s, c), l, ErasedInline(c, todo))
    else
      var posted := Queued(s, s.base, l, RemoveConnectionInLoop(c));
      SetFrame(SetConn(posted, c, RemovalPosted(s.conns[c])), l, Handling(c, todo))
  }

  function RemovalPosted(conn: Conn): Conn {
    if conn.again == AgainClosing then conn.(again := AgainPosted) else conn.(stage := SRemovePosted)
  }

  function ErasedByFunctor(s: System): System
    requires CanErase(s)
  {
    SetFrame(EraseEntry(s, s.frames[s.base].c), s.base, Erased(s.frames[s.base].c))
  }

  /** queueInLoop(connectDestroyed) on the I/O loop. */
  function DestroyPosted(s: System, l: LoopId): System
    requires CanPostDestroy(s, l)
  {
    var c := s.frames[l].c;
    SetFrame(WithStage(Queued(s, IoOf(s, c), l, ConnectDestroyed(c)), c, SDestroyPosted), l,
             if s.frames[l].ErasedInline? then Handling(c, s.frames[l].todo) else Idle)
  }

  function Destroyed(s: System, l: LoopId): System
    requires CanDestroy(s, l)
  {
    var c := s.frames[l].c;
    var conn := s.conns[c];
    SetFrame(SetConn(s, c, conn.(state := Disconnected, muted := true, registered := false,
                                 notices := conn.notices + [Down], stage := SDown)), l, Idle)
  }

  function Stepped(s: System, l: LoopId, a: L.Action<Functor>): System
    requires CanLoopStep(s, l, a)
  {
    SetLoop(s, l, L.Next(s.loops[l], a))
  }

  /** The check-and-set of `shutdown`; the action it queues holds no pointer and is not modelled here. */
  function ShutDown(s: System, c: ConnId): System
    requires CanShutdown(s, c)
  {
    SetConn(s, c, s.conns[c].(state := Disconnecting))
  }

  function WithUsers(s: System, c: ConnId, users: nat): System
    requires c in s.conns
  {
    SetConn(s, c, s.conns[c].(users := users))
  }

  ghost function Next(s: System, act: Action): System
    requires Enabled(s, act)
  {
    match act
    case LoopStep(l, a) => Stepped(s, l, a)
    case BeginEvent(l, revents) => BegunEvent(s, l, revents)
    case EndEvent(l) => EndedEvent(s, l)
    case BeginFunctor(l) => BegunFunctor(s, l)
    case Accept => Accepts(s)
    case Insert => Inserted(s)
    case Post => Posted(s)
    case Establish(l) => Established(s, l)
    case RunCallback(l, endOfFile, drained) => AfterCallback(s, l, endOfFile, drained)
    case Remove(l) => Removed(s, l)
    case Erase => ErasedByFunctor(s)
    case PostDestroy(l) => DestroyPosted(s, l)
    case Destroy(l) => Destroyed(s, l)
    case Shutdown(c) => ShutDown(s, c)
    case Copy(c) => WithUsers(s, c, s.conns[c].users + 1)
    case Drop(c) => WithUsers(s, c, s.conns[c].users - 1)
  }

  /** The assertions of the source that a step passes. */
  ghost predicate AssertionsHold(s: System, act: Action)
    requires Enabled(s, act)
  {
    match act
    case Establish(l) => l == IoOf(s, s.frames[l].c) && s.conns[s.frames[l].c].state == Connecting
    case RunCallback(l, endOfFile, _) =>
      var conn := s.conns[s.frames[l].c];
      && l == conn.io
      && (s.frames[l].todo[0].CloseCallback? || (s.frames[l].todo[0].ReadCallback? && endOfFile)
          ==> conn.state == Connected || conn.state == Disconnecting)
    case Remove(l) => l == s.base ==> s.frames[l].c in s.connMap
    case Erase => s.frames[s.base].c in s.connMap
    case Destroy(l) =>
      var conn := s.conns[s.frames[l].c];
      && l == conn.io && conn.registered
      && (conn.state == Connected || conn.state == Disconnecting)
    case _ => true
  }
}
