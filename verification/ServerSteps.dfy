/** Every step of the server keeps its invariant. */
module ServerSteps {
  import L = LoopMachine
  import G = Registry
  import opened Server
  import opened ServerInvariant

  // For each step: first what it does to its own loop and connection, from what is known of
  // these two alone; then the whole invariant.

  /** What the step of a thread in its frame finds: its own loop and its connection in order. */
  ghost predicate LocalOK(s: System, l: LoopId, c: ConnId) {
    LoopOK(s, l) && ConnOK(s, c)
  }

  /** What an in-place step leaves. */
  ghost predicate LeavesInPlace(s: System, s': System, l: LoopId, c: ConnId) {
    InPlace(s, s', l, c) && FrameOK(s', l) && ActiveOK(s', l) && ConnOK(s', c)
  }

  /** What a push leaves. */
  ghost predicate LeavesPushed(s: System, s': System, l: LoopId, m: LoopId, c: ConnId, f: Functor) {
    Pushes(s, s', l, m, c, f) && FrameOK(s', l) && ActiveOK(s', l) && ConnOK(s', c)
  }

  // ----- accepting -----

  lemma AcceptLocal(s: System)
    requires CanAccept(s) && LoopOK(s, s.base) && Globals(s) && s.nextId !in s.conns
    ensures var s' := Accepts(s);
            Makes(s, s', s.base, s.nextId) && FrameOK(s', s.base) && ActiveOK(s', s.base) && ConnOK(s', s.nextId)
  {
  }

  lemma FreshId(s: System)
    requires ConnsOK(s)
    ensures s.nextId !in s.conns
  {
  }

  lemma AcceptKeepsInv(s: System)
    requires Inv(s) && CanAccept(s)
    ensures Inv(Accepts(s))
  {
    var c := s.nextId;
    FreshId(s);
    var s' := Accepts(s);
    AcceptLocal(s);
    SameTodo(s, s', s.base, c);
    NewKeepsInv(s, s', s.base, c);
  }

  lemma InsertLocal(s: System)
    requires CanInsert(s) && LocalOK(s, s.base, s.frames[s.base].c)
    ensures LeavesInPlace(s, Inserted(s), s.base, s.frames[s.base].c)
  {
  }

  lemma InsertKeepsInv(s: System)
    requires Inv(s) && CanInsert(s)
    ensures Inv(Inserted(s))
  {
    InsertLocal(s);
    InPlaceKeepsInv(s, Inserted(s), s.base, s.frames[s.base].c);
  }

  lemma PostInlineLocal(s: System)
    requires CanPost(s) && LocalOK(s, s.base, s.frames[s.base].c)
    requires IoOf(s, s.frames[s.base].c) == s.base
    ensures LeavesInPlace(s, Posted(s), s.base, s.frames[s.base].c)
  {
  }

  lemma PostQueuedPushes(s: System)
    requires CanPost(s) && LocalOK(s, s.base, s.frames[s.base].c)
    requires IoOf(s, s.frames[s.base].c) != s.base
    ensures var c := s.frames[s.base].c;
            Pushes(s, Posted(s), s.base, IoOf(s, c), c, ConnectEstablished(c)) && ConnOK(Posted(s), c)
  {
    hide TodoOK, ActiveOK;
  }

  lemma PostQueuedShape(s: System)
    requires CanPost(s) && LocalOK(s, s.base, s.frames[s.base].c)
    requires IoOf(s, s.frames[s.base].c) != s.base
    ensures FrameOK(Posted(s), s.base) && ActiveOK(Posted(s), s.base)
  {
    hide TodoOK, NoticesOK;
  }

  lemma PostQueuedLocal(s: System)
    requires CanPost(s) && LocalOK(s, s.base, s.frames[s.base].c)
    requires IoOf(s, s.frames[s.base].c) != s.base
    ensures var c := s.frames[s.base].c;
            LeavesPushed(s, Posted(s), s.base, IoOf(s, c), c, ConnectEstablished(c))
  {
    PostQueuedPushes(s);
    PostQueuedShape(s);
    hide Posted, Pushes, FrameOK, ActiveOK, ConnOK;
  }

  lemma PostKeepsInv(s: System)
    requires Inv(s) && CanPost(s)
    ensures Inv(Posted(s))
  {
    var c := s.frames[s.base].c;
    if IoOf(s, c) == s.base {
      PostInlineLocal(s);
      InPlaceKeepsInv(s, Posted(s), s.base, c);
    } else {
      PostQueuedLocal(s);
      PushKeepsInv(s, Posted(s), s.base, IoOf(s, c), c, ConnectEstablished(c));
    }
  }

  lemma EstablishLocal(s: System, l: LoopId)
    requires CanEstablish(s, l) && LocalOK(s, l, s.frames[l].c)
    ensures LeavesInPlace(s, Established(s, l), l, s.frames[l].c)
  {
    assert [] + [Up] == [Up] + Messages(0) + [];
  }

  lemma EstablishKeepsInv(s: System, l: LoopId)
    requires Inv(s) && CanEstablish(s, l)
    ensures Inv(Established(s, l))
  {
    EstablishLocal(s, l);
    InPlaceKeepsInv(s, Established(s, l), l, s.frames[l].c);
  }

  // ----- handling events -----

  /** Two callbacks of an event at most can close the connection: close and read. */
  lemma TwoClosers(revents: G.Mask)
    ensures Closers(G.Callbacks(revents))
            == (if G.HangsUp(revents) then 1 else 0) + (if G.Readable(revents) then 1 else 0)
  {
    hide G.HangsUp, G.Readable, G.Has;
    var close := G.OneIf(G.HangsUp(revents), G.CloseCallback);
    var error := G.OneIf(G.Has(revents, {G.POLLERR, G.POLLNVAL}), G.ErrorCallback);
    var read := G.OneIf(G.Readable(revents), G.ReadCallback);
    var write := G.OneIf(G.Has(revents, {G.POLLOUT}), G.WriteCallback);
    ClosersConcat(close + error + read, write);
    ClosersConcat(close + error, read);
    ClosersConcat(close, error);
  }

  lemma {:induction false} ClosersConcat(a: seq<G.Callback>, b: seq<G.Callback>)
    ensures Closers(a + b) == Closers(a) + Closers(b)
  {
    if a == [] {
      assert a + b == b;
    } else {
      ClosersConcat(a[1..], b);
      assert (a + b)[1..] == a[1..] + b;
    }
  }

  lemma BeginEventTodo(s: System, l: LoopId, revents: G.Mask)
    requires CanBeginEvent(s, l, revents) && TodoOK(s, l) && L.Conserved(s.loops[l])
    ensures TodoOK(BegunEvent(s, l, revents), l)
  {
    hide TodoOK, G.Callbacks;
    TodoCounts(s.loops[l], L.BeginEvent);
    TodoStays(s, BegunEvent(s, l, revents), l);
  }

  /** The connection an event is for is live, and has never been closed. */
  lemma EventIsLive(s: System, l: LoopId, revents: G.Mask)
    requires CanBeginEvent(s, l, revents) && ActiveOK(s, l) && ConnsOK(s)
    requires IsConnEvent(s.loops[l].phase.active[0])
    ensures var c := s.loops[l].phase.active[0].channel;
            && c in s.conns && s.conns[c].io == l && s.conns[c].stage == SLive
            && s.conns[c].again == Never && s.conns[c].closes == 0 && !s.conns[c].muted
  {
    assert ConnOK(s, s.loops[l].phase.active[0].channel);
  }

  lemma BeginEventShape(s: System, l: LoopId, revents: G.Mask)
    requires CanBeginEvent(s, l, revents) && FrameOK(s, l) && ActiveOK(s, l) && ConnsOK(s)
    ensures FrameOK(BegunEvent(s, l, revents), l) && ActiveOK(BegunEvent(s, l, revents), l)
  {
    TwoClosers(revents);
    if IsConnEvent(s.loops[l].phase.active[0]) { EventIsLive(s, l, revents); }
    hide ConnsOK, G.Callbacks;
  }

  lemma BeginEventLocal(s: System, l: LoopId, revents: G.Mask)
    requires CanBeginEvent(s, l, revents) && LoopOK(s, l) && L.Conserved(s.loops[l]) && ConnsOK(s)
    ensures LoopOK(BegunEvent(s, l, revents), l)
  {
    BeginEventTodo(s, l, revents);
    BeginEventShape(s, l, revents);
    hide TodoOK, FrameOK, ActiveOK, ConnsOK, G.Callbacks;
  }

  lemma BeginEventKeepsInv(s: System, l: LoopId, revents: G.Mask)
    requires Inv(s) && CanBeginEvent(s, l, revents)
    ensures Inv(BegunEvent(s, l, revents))
  {
    var s', event := BegunEvent(s, l, revents), s.loops[l].phase.active[0];
    assert LoopOK(s, l);
    BeginEventLocal(s, l, revents);
    if IsConnEvent(event) {
      EventIsLive(s, l, revents);
      BeginEventConn(s, l, revents);
      hide LoopOK, ConnOK, BegunEvent, L.Inv, CanBeginEvent;
      StepKeepsInv(s, s', l, L.BeginEvent, event.channel);
    } else {
      IdleStepKeepsInv(s, s', l, L.BeginEvent);
    }
  }

  lemma BeginEventConn(s: System, l: LoopId, revents: G.Mask)
    requires CanBeginEvent(s, l, revents) && IsConnEvent(s.loops[l].phase.active[0])
    requires LocalOK(s, l, s.loops[l].phase.active[0].channel)
    ensures var s', c := BegunEvent(s, l, revents), s.loops[l].phase.active[0].channel;
            StepsWith(s, s', l, L.BeginEvent, c) && ConnOK(s', c)
  {
    var s', c := BegunEvent(s, l, revents), s.loops[l].phase.active[0].channel;
    assert s.conns[c := s.conns[c]] == s.conns;
  }

  lemma EndEventTodo(s: System, l: LoopId)
    requires CanEndEvent(s, l) && TodoOK(s, l) && L.Conserved(s.loops[l])
    ensures TodoOK(EndedEvent(s, l), l)
  {
    hide TodoOK;
    TodoCounts(s.loops[l], L.EndEvent);
    TodoStays(s, EndedEvent(s, l), l);
  }

  lemma EndEventLocal(s: System, l: LoopId)
    requires CanEndEvent(s, l) && LoopOK(s, l) && L.Conserved(s.loops[l])
    ensures LoopOK(EndedEvent(s, l), l)
  {
    EndEventTodo(s, l);
    hide TodoOK;
    var active := s.loops[l].phase.active;
    assert forall k :: 0 <= k < |active[1..]| ==> active[1..][k] == active[k + 1];
  }

  lemma EndEventConn(s: System, l: LoopId)
    requires CanEndEvent(s, l) && s.frames[l].Handling? && LocalOK(s, l, s.frames[l].c)
    ensures var s', c := EndedEvent(s, l), s.frames[l].c;
            StepsWith(s, s', l, L.EndEvent, c) && ConnOK(s', c)
  {
    var c := s.frames[l].c;
    assert s.conns[c := s.conns[c]] == s.conns;
  }

  lemma EndEventKeepsInv(s: System, l: LoopId)
    requires Inv(s) && CanEndEvent(s, l)
    ensures Inv(EndedEvent(s, l))
  {
    var s' := EndedEvent(s, l);
    EndEventLocal(s, l);
    hide TodoOK, ActiveOK, L.Inv;
    if s.frames[l] == Idle {
      assert s.frames[l := Idle] == s.frames;
      IdleStepKeepsInv(s, s', l, L.EndEvent);
    } else {
      var c := s.frames[l].c;
      assert LoopOK(s, l) && ConnOK(s, c);
      EndEventConn(s, l);
      StepKeepsInv(s, s', l, L.EndEvent, c);
    }
  }

  lemma CloseMoves(s: System, l: LoopId, endOfFile: bool)
    requires CanRunCallback(s, l) && LocalOK(s, l, s.frames[l].c) && ClosesNow(s.frames[l].todo[0], endOfFile)
    ensures InPlace(s, Closed(s, l), l, s.frames[l].c)
  {
    hide TodoOK, ActiveOK, NoticesOK;
  }

  lemma CloseRecord(s: System, l: LoopId, endOfFile: bool)
    requires CanRunCallback(s, l) && LocalOK(s, l, s.frames[l].c) && ClosesNow(s.frames[l].todo[0], endOfFile)
    ensures ConnOK(Closed(s, l), s.frames[l].c)
  {
    hide TodoOK, ActiveOK;
  }

  lemma CloseShape(s: System, l: LoopId, endOfFile: bool)
    requires CanRunCallback(s, l) && LocalOK(s, l, s.frames[l].c) && ClosesNow(s.frames[l].todo[0], endOfFile)
    ensures FrameOK(Closed(s, l), l) && ActiveOK(Closed(s, l), l)
  {
    hide TodoOK, NoticesOK;
  }

  lemma CloseLocal(s: System, l: LoopId, endOfFile: bool)
    requires CanRunCallback(s, l) && LocalOK(s, l, s.frames[l].c) && ClosesNow(s.frames[l].todo[0], endOfFile)
    ensures LeavesInPlace(s, Closed(s, l), l, s.frames[l].c)
  {
    CloseMoves(s, l, endOfFile);
    CloseRecord(s, l, endOfFile);
    CloseShape(s, l, endOfFile);
    hide Closed, InPlace, FrameOK, ActiveOK, ConnOK;
  }

  lemma MessageLocal(s: System, l: LoopId)
    requires CanRunCallback(s, l) && LocalOK(s, l, s.frames[l].c)
    ensures LeavesInPlace(s, Received(s, l), l, s.frames[l].c)
  {
    var conn := s.conns[s.frames[l].c];
    var n: nat :| conn.notices == [Up] + Messages(n) + [];
    assert conn.notices + [Message] == [Up] + Messages(n + 1) + [];
  }

  lemma PassLocal(s: System, l: LoopId)
    requires CanRunCallback(s, l) && LocalOK(s, l, s.frames[l].c)
    ensures LeavesInPlace(s, Passed(s, l), l, s.frames[l].c)
  {
    var c := s.frames[l].c;
    assert s.conns[c := s.conns[c]] == s.conns;
  }

  /** Draining the output queues a write-complete functor first. */
  lemma DrainedKeepsInv(s: System, l: LoopId)
    requires Inv(s) && CanRunCallback(s, l) && s.frames[l].todo[0].WriteCallback?
    ensures var c := s.frames[l].c;
            Inv(SetFrame(Queued(s, l, l, WriteComplete(c)), l, Handling(c, s.frames[l].todo[1..])))
  {
    hide Inv;
    var c := s.frames[l].c;
    QueueWriteComplete(s, l, c);
    DrainedFrame(Queued(s, l, l, WriteComplete(c)), l, c);
  }

  lemma QueueWriteComplete(s: System, l: LoopId, c: ConnId)
    requires Inv(s) && CanQueue(s, l, l)
    ensures Inv(Queued(s, l, l, WriteComplete(c)))
  {
    hide Inv;
    PlainStepKeepsInv(s, l, L.Queue(l, WriteComplete(c)));
  }

  lemma DrainedFrame(s: System, l: LoopId, c: ConnId)
    requires Inv(s) && l in s.loops && s.frames[l].Handling? && s.frames[l].c == c
    requires s.frames[l].todo != []
    ensures Inv(SetFrame(s, l, Handling(c, s.frames[l].todo[1..])))
  {
    assert LoopOK(s, l) && ConnOK(s, c);
    DrainedLocal(s, l, c);
    InPlaceKeepsInv(s, SetFrame(s, l, Handling(c, s.frames[l].todo[1..])), l, c);
  }

  lemma DrainedLocal(s: System, l: LoopId, c: ConnId)
    requires LocalOK(s, l, c) && s.frames[l].Handling? && s.frames[l].c == c
    requires s.frames[l].todo != []
    ensures LeavesInPlace(s, SetFrame(s, l, Handling(c, s.frames[l].todo[1..])), l, c)
  {
    assert s.conns[c := s.conns[c]] == s.conns;
  }

  lemma RunCallbackKeepsInv(s: System, l: LoopId, endOfFile: bool, drained: bool)
    requires Inv(s) && CanRunCallback(s, l)
    ensures Inv(AfterCallback(s, l, endOfFile, drained))
  {
    var c, callback := s.frames[l].c, s.frames[l].todo[0];
    var s' := AfterCallback(s, l, endOfFile, drained);
    assert LocalOK(s, l, c);
    if ClosesNow(callback, endOfFile) {
      CloseLocal(s, l, endOfFile);
      InPlaceKeepsInv(s, s', l, c);
    } else if callback.ReadCallback? {
      MessageLocal(s, l);
      InPlaceKeepsInv(s, s', l, c);
    } else if callback.WriteCallback? && drained && !s.conns[c].muted {
      DrainedKeepsInv(s, l);
    } else {
      PassLocal(s, l);
      InPlaceKeepsInv(s, s', l, c);
    }
  }

  // ----- removing -----

  lemma RemoveInlineLocal(s: System, l: LoopId)
    requires CanRemove(s, l) && LocalOK(s, l, s.frames[l].c) && l == s.base && s.frames[l].c in s.connMap
    ensures LeavesInPlace(s, Removed(s, l), l, s.frames[l].c)
  {
  }

  lemma RemoveQueuedPushes(s: System, l: LoopId)
    requires CanRemove(s, l) && LocalOK(s, l, s.frames[l].c) && l != s.base
    ensures var c := s.frames[l].c;
            Pushes(s, Removed(s, l), l, s.base, c, RemoveConnectionInLoop(c)) && ConnOK(Removed(s, l), c)
  {
    hide TodoOK, ActiveOK;
  }

  lemma RemoveQueuedShape(s: System, l: LoopId)
    requires CanRemove(s, l) && LocalOK(s, l, s.frames[l].c) && l != s.base
    ensures FrameOK(Removed(s, l), l) && ActiveOK(Removed(s, l), l)
  {
    hide TodoOK, NoticesOK;
  }

  lemma RemoveQueuedLocal(s: System, l: LoopId)
    requires CanRemove(s, l) && LocalOK(s, l, s.frames[l].c) && l != s.base
    ensures var c := s.frames[l].c;
            LeavesPushed(s, Removed(s, l), l, s.base, c, RemoveConnectionInLoop(c))
  {
    RemoveQueuedPushes(s, l);
    RemoveQueuedShape(s, l);
    hide Removed, Pushes, FrameOK, ActiveOK, ConnOK;
  }

  lemma RemoveKeepsInv(s: System, l: LoopId)
    requires Inv(s) && CanRemove(s, l) && (l == s.base ==> s.frames[l].c in s.connMap)
    ensures Inv(Removed(s, l))
  {
    var c := s.frames[l].c;
    if l == s.base {
      RemoveInlineLocal(s, l);
      InPlaceKeepsInv(s, Removed(s, l), l, c);
    } else {
      RemoveQueuedLocal(s, l);
      PushKeepsInv(s, Removed(s, l), l, s.base, c, RemoveConnectionInLoop(c));
    }
  }

  lemma EraseLocal(s: System)
    requires CanErase(s) && LocalOK(s, s.base, s.frames[s.base].c) && s.frames[s.base].c in s.connMap
    ensures LeavesInPlace(s, ErasedByFunctor(s), s.base, s.frames[s.base].c)
  {
  }

  lemma EraseKeepsInv(s: System)
    requires Inv(s) && CanErase(s) && s.frames[s.base].c in s.connMap
    ensures Inv(ErasedByFunctor(s))
  {
    EraseLocal(s);
    InPlaceKeepsInv(s, ErasedByFunctor(s), s.base, s.frames[s.base].c);
  }

  lemma PostDestroyInlinePushes(s: System, l: LoopId)
    requires CanPostDestroy(s, l) && LocalOK(s, l, s.frames[l].c) && s.frames[l].ErasedInline?
    ensures var c := s.frames[l].c;
            Pushes(s, DestroyPosted(s, l), l, IoOf(s, c), c, ConnectDestroyed(c)) && ConnOK(DestroyPosted(s, l), c)
  {
    hide TodoOK, ActiveOK;
  }

  lemma PostDestroyInlineShape(s: System, l: LoopId)
    requires CanPostDestroy(s, l) && LocalOK(s, l, s.frames[l].c) && s.frames[l].ErasedInline?
    ensures FrameOK(DestroyPosted(s, l), l) && ActiveOK(DestroyPosted(s, l), l)
  {
    hide TodoOK, NoticesOK;
  }

  lemma PostDestroyInlineLocal(s: System, l: LoopId)
    requires CanPostDestroy(s, l) && LocalOK(s, l, s.frames[l].c) && s.frames[l].ErasedInline?
    ensures var c := s.frames[l].c;
            LeavesPushed(s, DestroyPosted(s, l), l, IoOf(s, c), c, ConnectDestroyed(c))
  {
    PostDestroyInlinePushes(s, l);
    PostDestroyInlineShape(s, l);
    hide DestroyPosted, Pushes, FrameOK, ActiveOK, ConnOK;
  }

  lemma PostDestroyFunctorPushes(s: System, l: LoopId)
    requires CanPostDestroy(s, l) && LocalOK(s, l, s.frames[l].c) && s.frames[l].Erased?
    ensures var c := s.frames[l].c;
            Pushes(s, DestroyPosted(s, l), l, IoOf(s, c), c, ConnectDestroyed(c)) && ConnOK(DestroyPosted(s, l), c)
  {
    hide TodoOK, ActiveOK;
  }

  lemma PostDestroyFunctorShape(s: System, l: LoopId)
    requires CanPostDestroy(s, l) && LocalOK(s, l, s.frames[l].c) && s.frames[l].Erased?
    ensures FrameOK(DestroyPosted(s, l), l) && ActiveOK(DestroyPosted(s, l), l)
  {
    hide TodoOK, NoticesOK;
  }

  lemma PostDestroyFunctorLocal(s: System, l: LoopId)
    requires CanPostDestroy(s, l) && LocalOK(s, l, s.frames[l].c) && s.frames[l].Erased?
    ensures var c := s.frames[l].c;
            LeavesPushed(s, DestroyPosted(s, l), l, IoOf(s, c), c, ConnectDestroyed(c))
  {
    PostDestroyFunctorPushes(s, l);
    PostDestroyFunctorShape(s, l);
    hide DestroyPosted, Pushes, FrameOK, ActiveOK, ConnOK;
  }

  lemma PostDestroyKeepsInv(s: System, l: LoopId)
    requires Inv(s) && CanPostDestroy(s, l)
    ensures Inv(DestroyPosted(s, l))
  {
    var c := s.frames[l].c;
    assert LocalOK(s, l, c);
    if s.frames[l].ErasedInline? { PostDestroyInlineLocal(s, l); } else { PostDestroyFunctorLocal(s, l); }
    PushKeepsInv(s, DestroyPosted(s, l), l, IoOf(s, c), c, ConnectDestroyed(c));
  }

  lemma DestroyMoves(s: System, l: LoopId)
    requires CanDestroy(s, l) && LocalOK(s, l, s.frames[l].c)
    ensures InPlace(s, Destroyed(s, l), l, s.frames[l].c)
  {
    hide TodoOK, ActiveOK, NoticesOK;
  }

  lemma DestroyShape(s: System, l: LoopId)
    requires CanDestroy(s, l) && LocalOK(s, l, s.frames[l].c)
    ensures FrameOK(Destroyed(s, l), l) && ActiveOK(Destroyed(s, l), l)
  {
    hide TodoOK, NoticesOK;
  }

  lemma DestroyRecord(s: System, l: LoopId)
    requires CanDestroy(s, l) && FrameOK(s, l) && ConnOK(s, s.frames[l].c)
    ensures ConnOK(Destroyed(s, l), s.frames[l].c)
  {
    var conn := s.conns[s.frames[l].c];
    var n: nat :| conn.notices == [Up] + Messages(n) + [];
    assert conn.notices + [Down] == [Up] + Messages(n) + [Down];
  }

  lemma DestroyLocal(s: System, l: LoopId)
    requires CanDestroy(s, l) && LocalOK(s, l, s.frames[l].c)
    ensures LeavesInPlace(s, Destroyed(s, l), l, s.frames[l].c)
  {
    DestroyMoves(s, l);
    DestroyShape(s, l);
    DestroyRecord(s, l);
    hide Destroyed, InPlace, FrameOK, ActiveOK, ConnOK;
  }

  lemma DestroyKeepsInv(s: System, l: LoopId)
    requires Inv(s) && CanDestroy(s, l)
    ensures Inv(Destroyed(s, l))
  {
    DestroyLocal(s, l);
    InPlaceKeepsInv(s, Destroyed(s, l), l, s.frames[l].c);
  }

  // ----- beginning a functor -----

  /** Taking a functor leaves one less of it queued. */
  lemma BegunExpected(s: System, l: LoopId, g: Functor)
    requires CanBeginFunctor(s, l) && IsHandoff(g)
    requires var f := s.loops[l].batch[s.loops[l].next]; IsHandoff(f) ==> Expected(s, l, f) > 0
    ensures var f := s.loops[l].batch[s.loops[l].next];
            Expected(BegunFunctor(s, l), l, g) == Expected(s, l, g) - if g == f then 1 else 0
  {
  }

  lemma BeginFunctorTodo(s: System, l: LoopId)
    requires CanBeginFunctor(s, l) && TodoOK(s, l) && L.Conserved(s.loops[l])
    ensures TodoOK(BegunFunctor(s, l), l)
    ensures var f := s.loops[l].batch[s.loops[l].next]; IsHandoff(f) ==> Expected(s, l, f) > 0
  {
    NextIsExpected(s, l);
    forall g | IsHandoff(g)
      ensures var f := s.loops[l].batch[s.loops[l].next];
              Expected(BegunFunctor(s, l), l, g) == Expected(s, l, g) - if g == f then 1 else 0
    {
      BegunExpected(s, l, g);
    }
    TakenTodo(s, BegunFunctor(s, l), l);
  }

  lemma BeginFunctorMoves(s: System, l: LoopId)
    requires CanBeginFunctor(s, l)
    requires var f := s.loops[l].batch[s.loops[l].next];
             IsHandoff(f) && LocalOK(s, l, f.c) && Expected(s, l, f) > 0
    ensures StepsWith(s, BegunFunctor(s, l), l, L.BeginFunctor, s.loops[l].batch[s.loops[l].next].c)
  {
    hide TodoOK, ActiveOK, FrameOK, NoticesOK;
  }

  lemma BeginFunctorFrame(s: System, l: LoopId)
    requires CanBeginFunctor(s, l)
    requires var f := s.loops[l].batch[s.loops[l].next];
             IsHandoff(f) && LocalOK(s, l, f.c) && Expected(s, l, f) > 0
    ensures var s' := BegunFunctor(s, l);
            FrameOK(s', l) && ActiveOK(s', l) && s'.loops[l].busy
  {
    hide TodoOK, NoticesOK;
  }

  /** A connection moved on by a functor that begins keeps its record in order, if the thread now carries it. */
  lemma RecordMovesOn(s: System, s': System, c: ConnId)
    requires ConnOK(s, c) && c in s'.conns
    requires s'.base == s.base && s'.nextId == s.nextId && s'.connMap == s.connMap && Carried(s', c)
    requires var conn, conn' := s.conns[c], s'.conns[c];
             if conn.stage == conn'.stage then
               && conn.again == AgainPosted && conn' == conn.(again := AgainRemoving)
               && Rank(conn.stage) >= Rank(SDestroyPosted)
             else
               && conn' == conn.(stage := conn'.stage)
               && match conn.stage
                  case SPosted => conn'.stage == SEstablishing
                  case SRemovePosted => conn'.stage == SRemoving
                  case SDestroyPosted => conn'.stage == SDestroying
                  case _ => false
    ensures ConnOK(s', c)
  {
    hide Carried;
  }

  lemma BeginFunctorCarries(s: System, l: LoopId)
    requires CanBeginFunctor(s, l)
    requires var f := s.loops[l].batch[s.loops[l].next];
             IsHandoff(f) && f.c in s.conns && Carried(s, f.c) && Expected(s, l, f) > 0
    ensures Carried(BegunFunctor(s, l), s.loops[l].batch[s.loops[l].next].c)
  {
  }

  /** The base loop comes to a second removal only when it is done with the first. */
  lemma SecondRemovalIsLate(s: System, c: ConnId)
    requires ConnOK(s, c) && s.frames[s.base] == Idle
    requires s.conns[c].stage != SRemovePosted && s.conns[c].again == AgainPosted
    ensures Rank(s.conns[c].stage) >= Rank(SDestroyPosted)
  {
  }

  lemma BegunRecord(s: System, l: LoopId)
    requires CanBeginFunctor(s, l)
    requires var f := s.loops[l].batch[s.loops[l].next];
             IsHandoff(f) && f.c in s.conns && Expected(s, l, f) > 0
    ensures var f, s' := s.loops[l].batch[s.loops[l].next], BegunFunctor(s, l);
            && s'.conns == s.conns[f.c := Begun(f, s.conns[f.c])]
            && s'.base == s.base && s'.nextId == s.nextId && s'.connMap == s.connMap
            && (f.RemoveConnectionInLoop? ==> l == s.base)
            && (f.RemoveConnectionInLoop? && s.conns[f.c].stage != SRemovePosted ==> s.conns[f.c].again == AgainPosted)
            && (f.ConnectEstablished? ==> s.conns[f.c].stage == SPosted)
            && (f.ConnectDestroyed? ==> s.conns[f.c].stage == SDestroyPosted)
  {
    hide L.Enabled, L.Next;
  }

  lemma BeginFunctorConn(s: System, l: LoopId)
    requires CanBeginFunctor(s, l)
    requires var f := s.loops[l].batch[s.loops[l].next];
             IsHandoff(f) && ConnOK(s, f.c) && Expected(s, l, f) > 0
    ensures ConnOK(BegunFunctor(s, l), s.loops[l].batch[s.loops[l].next].c)
  {
    var f := s.loops[l].batch[s.loops[l].next];
    BeginFunctorCarries(s, l);
    BegunRecord(s, l);
    hide BegunFunctor, L.Enabled, L.Next, Carried, NoticesOK;
    if f.RemoveConnectionInLoop? && s.conns[f.c].stage != SRemovePosted { SecondRemovalIsLate(s, f.c); }
    hide ConnOK;
    RecordMovesOn(s, BegunFunctor(s, l), f.c);
  }

  /** What beginning a hand-off leaves of its loop and its connection. */
  ghost predicate LeavesBegun(s: System, s': System, l: LoopId, c: ConnId) {
    StepsWith(s, s', l, L.BeginFunctor, c) && LoopOK(s', l) && ConnOK(s', c)
  }

  lemma BeginHandoffLocal(s: System, l: LoopId)
    requires CanBeginFunctor(s, l) && L.Conserved(s.loops[l]) && IsHandoff(s.loops[l].batch[s.loops[l].next])
    requires LocalOK(s, l, s.loops[l].batch[s.loops[l].next].c)
    ensures LeavesBegun(s, BegunFunctor(s, l), l, s.loops[l].batch[s.loops[l].next].c)
  {
    BeginFunctorTodo(s, l);
    BeginFunctorMoves(s, l);
    BeginFunctorFrame(s, l);
    BeginFunctorConn(s, l);
    hide TodoOK, FrameOK, ActiveOK, ConnOK, StepsWith, Expected;
  }

  lemma BeginOtherLocal(s: System, l: LoopId)
    requires CanBeginFunctor(s, l) && L.Conserved(s.loops[l]) && LoopOK(s, l)
    requires !IsHandoff(s.loops[l].batch[s.loops[l].next])
    ensures StepsIdly(s, BegunFunctor(s, l), l, L.BeginFunctor) && LoopOK(BegunFunctor(s, l), l)
  {
    BeginFunctorTodo(s, l);
    hide TodoOK;
  }

  lemma NextIsKnown(s: System, l: LoopId)
    requires TodoOK(s, l) && L.Conserved(s.loops[l]) && L.Enabled(s.loops[l], L.BeginFunctor)
    requires IsHandoff(s.loops[l].batch[s.loops[l].next])
    ensures s.loops[l].batch[s.loops[l].next].c in s.conns
  {
    NextIsExpected(s, l);
  }

  lemma BeginFunctorKeepsInv(s: System, l: LoopId)
    requires Inv(s) && CanBeginFunctor(s, l)
    ensures Inv(BegunFunctor(s, l))
  {
    assert LoopOK(s, l) && L.Inv(s.loops[l]);
    hide FrameOK, ActiveOK, TodoOK, ConnOK, BegunFunctor, Expected;
    if IsHandoff(s.loops[l].batch[s.loops[l].next]) {
      NextIsKnown(s, l);
      BeginHandoffLocal(s, l);
      hide LoopOK, L.Inv, StepsWith, Inv;
      StepKeepsInv(s, BegunFunctor(s, l), l, L.BeginFunctor, s.loops[l].batch[s.loops[l].next].c);
    } else {
      BeginOtherLocal(s, l);
      hide LoopOK, L.Inv, StepsIdly, Inv;
      IdleStepKeepsInv(s, BegunFunctor(s, l), l, L.BeginFunctor);
    }
  }

  // ----- any step -----

  lemma LoopStepKeepsInv(s: System, l: LoopId, a: L.Action<Functor>)
    requires Inv(s) && CanLoopStep(s, l, a)
    ensures Inv(Stepped(s, l, a))
  {
    hide MachinesOK, LoopsOK, ConnsOK, L.Enabled, L.Next, CanReport;
    PlainStepKeepsInv(s, l, a);
  }

  predicate IsLoopAction(act: Action) {
    act.LoopStep? || act.BeginEvent? || act.EndEvent? || act.BeginFunctor?
  }

  predicate IsUserAction(act: Action) {
    act.Shutdown? || act.Copy? || act.Drop?
  }

  predicate IsOpening(act: Action) {
    act.Accept? || act.Insert? || act.Post? || act.Establish?
  }

  lemma LoopActionInv(s: System, act: Action)
    requires Inv(s) && IsLoopAction(act) && Enabled(s, act)
    ensures Inv(Next(s, act))
  {
    hide Inv, CanLoopStep, CanBeginEvent, CanEndEvent, CanBeginFunctor, Stepped, BegunEvent, EndedEvent, BegunFunctor;
    match act
    case LoopStep(l, a) => LoopStepKeepsInv(s, l, a);
    case BeginEvent(l, revents) => BeginEventKeepsInv(s, l, revents);
    case EndEvent(l) => EndEventKeepsInv(s, l);
    case BeginFunctor(l) => BeginFunctorKeepsInv(s, l);
  }

  lemma OpeningInv(s: System, act: Action)
    requires Inv(s) && IsOpening(act) && Enabled(s, act)
    ensures Inv(Next(s, act))
  {
    hide Inv, CanAccept, CanInsert, CanPost, CanEstablish, Accepts, Inserted, Posted, Established;
    match act
    case Accept => AcceptKeepsInv(s);
    case Insert => InsertKeepsInv(s);
    case Post => PostKeepsInv(s);
    case Establish(l) => EstablishKeepsInv(s, l);
  }

  lemma UserActionInv(s: System, act: Action)
    requires Inv(s) && IsUserAction(act) && Enabled(s, act)
    ensures Inv(Next(s, act))
  {
    hide Inv, IsDestructed;
    match act
    case Shutdown(c) => ShutdownKeepsInv(s, c);
    case Copy(c) => UsersKeepInv(s, c, s.conns[c].users + 1);
    case Drop(c) => UsersKeepInv(s, c, s.conns[c].users - 1);
  }

  lemma ClosingInv(s: System, act: Action)
    requires Inv(s) && !IsLoopAction(act) && !IsUserAction(act) && !IsOpening(act) && Enabled(s, act) && AssertionsHold(s, act)
    ensures Inv(Next(s, act))
  {
    hide Inv, CanRunCallback, CanRemove, CanErase, CanPostDestroy, CanDestroy;
    hide AfterCallback, Removed, ErasedByFunctor, DestroyPosted, Destroyed;
    match act
    case RunCallback(l, endOfFile, drained) => RunCallbackKeepsInv(s, l, endOfFile, drained);
    case Remove(l) => RemoveKeepsInv(s, l);
    case Erase => EraseKeepsInv(s);
    case PostDestroy(l) => PostDestroyKeepsInv(s, l);
    case Destroy(l) => DestroyKeepsInv(s, l);
  }

  lemma StepInv(s: System, act: Action)
    requires Inv(s) && Enabled(s, act) && AssertionsHold(s, act)
    ensures Inv(Next(s, act))
  {
    hide Inv, Enabled, Next;
    if IsLoopAction(act) { LoopActionInv(s, act); }
    else if IsOpening(act) { OpeningInv(s, act); }
    else if IsUserAction(act) { UserActionInv(s, act); }
    else { ClosingInv(s, act); }
  }

  lemma ShutdownKeepsInv(s: System, c: ConnId)
    requires Inv(s) && CanShutdown(s, c)
    ensures Inv(ShutDown(s, c))
  {
    TouchKeepsInv(s, ShutDown(s, c), c);
  }

  lemma UsersKeepInv(s: System, c: ConnId, users: nat)
    requires Inv(s) && c in s.conns
    ensures Inv(WithUsers(s, c, users))
  {
    TouchKeepsInv(s, WithUsers(s, c, users), c);
  }
}
