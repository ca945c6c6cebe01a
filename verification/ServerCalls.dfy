/** Whole calls of the server's methods, each a run of the machine in which no other thread steps. */
module ServerCalls {
  import opened Server
  import opened ServerTheorems
  import L = LoopMachine
  import T = ThreadPool

  /** The wakeup a push owes, if any. */
  function WakeOf(s: System, l: LoopId, t: LoopId): seq<Action>
    requires l in s.loops
  {
    if L.NeedsWakeup(s.loops[l], t) then [LoopStep(l, L.Wake(t))] else []
  }

  /** A push and its wakeup are a call of `queueInLoop`. */
  lemma PushAndWake(s: System, s1: System, l: LoopId, t: LoopId, f: Functor)
    requires CanQueue(s, l, t) && l in s1.frames
    requires s1.loops == s.loops[l := L.Next(s.loops[l], L.Queue(t, f))]
    ensures IsRun(s1, WakeOf(s, l, t))
    ensures After(s1, WakeOf(s, l, t)) == s1.(loops := s.loops[l := L.QueueCall(s.loops[l], t, f)])
  {
    if L.NeedsWakeup(s.loops[l], t) {
      var act := LoopStep(l, L.Wake(t));
      assert Enabled(s1, act);
      assert [act][1..] == [];
      assert After(Next(s1, act), []) == Next(s1, act);
      assert IsRun(s1, [act]);
    }
  }

  /** How the loops look after a whole call of `queueInLoop`. */
  function LoopsAfter(s: System, l: LoopId, t: LoopId, f: Functor): map<LoopId, L.Loop<Functor>>
    requires CanQueue(s, l, t)
  {
    s.loops[l := L.QueueCall(s.loops[l], t, f)]
  }

  /** What the server's object and its loops hold of a state; the base loop comes first. */
  datatype Look = Look(ids: seq<LoopId>, states: seq<L.Loop<Functor>>, io: map<ConnId, LoopId>, nextLoop: nat, nextId: nat)
  {
    predicate Proper() {
      |ids| == |states| > 0
    }

    ghost predicate Matches(s: System) {
      && Proper() && s.base == ids[0] && s.pool == ids[1..] && s.nextLoop == nextLoop && s.nextId == nextId
      && (forall i :: 0 <= i < |ids| ==> ids[i] in s.frames && ids[i] in s.loops && s.loops[ids[i]] == states[i])
      && s.connMap == io.Keys
      && forall c :: c in io ==> io[c] in ids && c in s.conns && s.conns[c].io == io[c]
    }
  }

  // ----- newConnection -----

  predicate CanMakeConnection(s: System) {
    && CanAccept(s)
    && var io := T.Picked(s.base, s.pool, s.nextLoop);
       io in s.frames && CanQueue(s, io, s.base)
  }

  function NewConnectionRun(s: System): seq<Action>
    requires CanMakeConnection(s)
  {
    var io := T.Picked(s.base, s.pool, s.nextLoop);
    [Accept, Insert, Post] + if io == s.base then [] else WakeOf(s, io, s.base)
  }

  /** What `newConnection` does to the server. */
  ghost predicate IsNewConnection(s: System, s': System)
    requires CanMakeConnection(s)
  {
    var io, c := T.Picked(s.base, s.pool, s.nextLoop), s.nextId;
    && s'.base == s.base && s'.pool == s.pool && s'.nextLoop == T.Advanced(|s.pool|, s.nextLoop) && s'.nextId == c + 1
    && s'.connMap == s.connMap + {c} && c in s'.conns && s'.conns[c].io == io
    && (forall d :: d in s.conns && d != c ==> d in s'.conns && s'.conns[d] == s.conns[d])
    && s'.frames == s.frames[s.base := if io == s.base then Establishing(c) else Idle]
    && s'.loops == if io == s.base then s.loops else LoopsAfter(s, io, s.base, ConnectEstablished(c))
  }

  lemma MapsNew(s: System)
    requires CanMakeConnection(s)
    ensures var s2 := Inserted(Accepts(s));
            && CanInsert(Accepts(s)) && CanPost(s2)
            && s2.base == s.base && s2.pool == s.pool && s2.nextLoop == T.Advanced(|s.pool|, s.nextLoop)
            && s2.nextId == s.nextId + 1 && s2.connMap == s.connMap + {s.nextId}
            && s.nextId in s2.conns && s2.conns[s.nextId].io == T.Picked(s.base, s.pool, s.nextLoop)
            && (forall d :: d in s.conns && d != s.nextId ==> d in s2.conns && s2.conns[d] == s.conns[d])
            && s2.frames == s.frames[s.base := Mapped(s.nextId)] && s2.loops == s.loops
  {
  }

  lemma PostsNew(s: System, c: ConnId)
    requires CanPost(s) && s.frames[s.base] == Mapped(c)
    ensures var s1, io := Posted(s), s.conns[c].io;
            && s1.base == s.base && s1.pool == s.pool && s1.nextLoop == s.nextLoop && s1.nextId == s.nextId
            && s1.connMap == s.connMap && c in s1.conns && s1.conns[c].io == io
            && (forall d :: d in s.conns && d != c ==> d in s1.conns && s1.conns[d] == s.conns[d])
            && s1.frames == s.frames[s.base := if io == s.base then Establishing(c) else Idle]
            && s1.loops == if io == s.base then s.loops
                           else s.loops[io := L.Next(s.loops[io], L.Queue(s.base, ConnectEstablished(c)))]
  {
  }

  lemma NewSteps(s: System)
    requires CanAccept(s) && CanInsert(Accepts(s)) && CanPost(Inserted(Accepts(s)))
    ensures Enabled(s, Accept) && Next(s, Accept) == Accepts(s)
    ensures Enabled(Accepts(s), Insert) && Next(Accepts(s), Insert) == Inserted(Accepts(s))
    ensures Enabled(Inserted(Accepts(s)), Post) && Next(Inserted(Accepts(s)), Post) == Posted(Inserted(Accepts(s)))
  {
    hide Accepts, Inserted, Posted, CanAccept, CanInsert, CanPost;
  }

  /** `newConnection` is a run of the machine: the connection is made, entered, handed over, and its loop woken up. */
  lemma NewConnectionIsRun(s: System)
    requires CanMakeConnection(s)
    ensures IsRun(s, NewConnectionRun(s)) && IsNewConnection(s, After(s, NewConnectionRun(s)))
  {
    MapsNew(s);
    NewSteps(s);
    PostsNew(Inserted(Accepts(s)), s.nextId);
    hide CanInsert, CanPost, Accepts, Inserted, Posted, Enabled, Next, T.Picked, T.Advanced;
    var s3 := Posted(Inserted(Accepts(s)));
    var io := T.Picked(s.base, s.pool, s.nextLoop);
    var wake := if io == s.base then [] else WakeOf(s, io, s.base);
    hide CanAccept;
    if io != s.base { PushAndWake(s, s3, io, s.base, ConnectEstablished(s.nextId)); }
    ThreeThenRest(s, Accept, Insert, Post, wake);
  }

  lemma ThreeThenRest(s: System, a: Action, b: Action, c: Action, rest: seq<Action>)
    requires Enabled(s, a) && Enabled(Next(s, a), b) && Enabled(Next(Next(s, a), b), c)
    requires IsRun(Next(Next(Next(s, a), b), c), rest)
    ensures IsRun(s, [a, b, c] + rest)
    ensures After(s, [a, b, c] + rest) == After(Next(Next(Next(s, a), b), c), rest)
  {
    hide Enabled, Next;
    TwoThenRest(Next(s, a), b, c, rest);
    assert ([a, b, c] + rest)[1..] == [b, c] + rest;
  }

  lemma TwoThenRest(s: System, a: Action, b: Action, rest: seq<Action>)
    requires Enabled(s, a) && Enabled(Next(s, a), b) && IsRun(Next(Next(s, a), b), rest)
    ensures IsRun(s, [a, b] + rest) && After(s, [a, b] + rest) == After(Next(Next(s, a), b), rest)
  {
    hide Enabled, Next;
    assert ([a, b] + rest)[1..] == [b] + rest;
    assert ([b] + rest)[1..] == rest;
  }

  /** How `newConnection` changes what the object and its loops hold. */
  ghost predicate LooksNew(look: Look, look': Look)
    requires look.Proper()
  {
    var base, io := look.ids[0], T.Picked(look.ids[0], look.ids[1..], look.nextLoop);
    && look'.ids == look.ids && |look'.states| == |look.states| && look'.io == look.io[look.nextId := io]
    && look'.nextLoop == T.Advanced(|look.ids| - 1, look.nextLoop) && look'.nextId == look.nextId + 1
    && forall i :: 0 <= i < |look.ids| ==>
         if look.ids[i] == io then
           && L.MayCall(look.states[i], base)
           && look'.states[i] == if io == base then look.states[i] else L.QueueCall(look.states[i], base, ConnectEstablished(look.nextId))
         else look'.states[i] == look.states[i]
  }

  lemma NewConnectionLooks(look: Look, s: System, look': Look)
    requires look.Matches(s) && CanAccept(s) && LooksNew(look, look')
    ensures CanMakeConnection(s) && IsRun(s, NewConnectionRun(s)) && look'.Matches(After(s, NewConnectionRun(s)))
  {
    PickedIsOne(look);
    hide CanAccept, L.QueueCall, L.MayCall, T.Picked, T.Advanced;
    NewConnectionIsRun(s);
    hide IsRun, After, NewConnectionRun, IsNewConnection, LooksNew;
    NewMatches(look, s, look', After(s, NewConnectionRun(s)));
  }

  lemma NewMatches(look: Look, s: System, look': Look, s': System)
    requires look.Matches(s) && CanMakeConnection(s) && LooksNew(look, look') && IsNewConnection(s, s')
    ensures look'.Matches(s')
  {
    PickedIsOne(look);
    hide CanAccept, L.QueueCall, L.MayCall, T.Picked;
  }

  lemma PickedIsOne(look: Look)
    requires look.Proper()
    ensures T.Picked(look.ids[0], look.ids[1..], look.nextLoop) in look.ids
  {
  }

  // ----- removeConnection and removeConnectionInLoop -----

  /** What the removal of an entry does: gone from the map, and the last call queued on the connection's loop. */
  ghost predicate IsRemoval(s: System, s': System, c: ConnId)
    requires c in s.conns && CanQueue(s, s.conns[c].io, s.base)
  {
    && s'.base == s.base && s'.pool == s.pool && s'.nextLoop == s.nextLoop && s'.nextId == s.nextId
    && s'.connMap == s.connMap - {c} && c in s'.conns && s'.conns[c].io == s.conns[c].io
    && (forall d :: d in s.conns && d != c ==> d in s'.conns && s'.conns[d] == s.conns[d])
    && s'.frames.Keys == s.frames.Keys
    && s'.loops == LoopsAfter(s, s.conns[c].io, s.base, ConnectDestroyed(c))
  }

  function RemovalRun(s: System, c: ConnId): seq<Action>
    requires c in s.conns && s.conns[c].io in s.loops && s.base in s.frames
  {
    [if s.frames[s.base].Removing? then Erase else Remove(s.base), PostDestroy(s.base)] + WakeOf(s, s.conns[c].io, s.base)
  }

  /** The base loop is about to erase the entry, in a functor or inside `handleClose`. */
  predicate CanRemoveEntry(s: System, c: ConnId) {
    && (CanErase(s) || CanRemove(s, s.base)) && s.frames[s.base].c == c && s.conns[c].io in s.frames
    && CanQueue(s, s.conns[c].io, s.base)
  }

  lemma ErasesAndPosts(s: System, c: ConnId)
    requires CanRemoveEntry(s, c)
    ensures var s1 := if s.frames[s.base].Removing? then ErasedByFunctor(s) else Removed(s, s.base);
            && CanPostDestroy(s1, s.base)
            && var s2, io := DestroyPosted(s1, s.base), s.conns[c].io;
               && s2.base == s.base && s2.pool == s.pool && s2.nextLoop == s.nextLoop && s2.nextId == s.nextId
               && s2.connMap == s.connMap - {c} && c in s2.conns && s2.conns[c].io == io
               && (forall d :: d in s.conns && d != c ==> d in s2.conns && s2.conns[d] == s.conns[d])
               && s2.frames.Keys == s.frames.Keys
               && s2.loops == s.loops[io := L.Next(s.loops[io], L.Queue(s.base, ConnectDestroyed(c)))]
  {
  }

  lemma RemovalSteps(s: System, c: ConnId)
    requires CanRemoveEntry(s, c)
    ensures var act := if s.frames[s.base].Removing? then Erase else Remove(s.base);
            Enabled(s, act) && Next(s, act) == if s.frames[s.base].Removing? then ErasedByFunctor(s) else Removed(s, s.base)
  {
    hide ErasedByFunctor, Removed;
  }

  /** `removeConnectionInLoop` is a run of the machine, as a functor and inside `handleClose`. */
  lemma RemovalIsRun(s: System, c: ConnId)
    requires CanRemoveEntry(s, c)
    ensures IsRun(s, RemovalRun(s, c)) && IsRemoval(s, After(s, RemovalRun(s, c)), c)
  {
    ErasesAndPosts(s, c);
    RemovalSteps(s, c);
    var act := if s.frames[s.base].Removing? then Erase else Remove(s.base);
    var s1 := if s.frames[s.base].Removing? then ErasedByFunctor(s) else Removed(s, s.base);
    var s2 := DestroyPosted(s1, s.base);
    assert Enabled(s1, PostDestroy(s.base)) && Next(s1, PostDestroy(s.base)) == s2;
    hide CanErase, CanRemove, CanPostDestroy, ErasedByFunctor, Removed, DestroyPosted, Enabled, Next;
    PushAndWake(s, s2, s.conns[c].io, s.base, ConnectDestroyed(c));
    TwoThenRest(s, act, PostDestroy(s.base), WakeOf(s, s.conns[c].io, s.base));
  }

  function HandBackRun(s: System, l: LoopId): seq<Action>
    requires s.base in s.loops
  {
    [Remove(l)] + WakeOf(s, s.base, l)
  }

  lemma HandsBack(s: System, l: LoopId)
    requires CanRemove(s, l) && l != s.base
    ensures Enabled(s, Remove(l)) && Next(s, Remove(l)) == Removed(s, l)
    ensures var s', c := Removed(s, l), s.frames[l].c;
            && CanQueue(s, s.base, l) && SameBut(s, s') && s'.connMap == s.connMap
            && s'.loops == s.loops[s.base := L.Next(s.loops[s.base], L.Queue(l, RemoveConnectionInLoop(c)))]
  {
  }

  /** `removeConnection` on a loop other than the base loop is one too: the removal is queued and the base loop woken up. */
  lemma HandBackIsRun(s: System, l: LoopId)
    requires CanRemove(s, l) && l != s.base && s.base in s.frames
    ensures IsRun(s, HandBackRun(s, l))
    ensures var s', c := After(s, HandBackRun(s, l)), s.frames[l].c;
            && SameBut(s, s') && s'.connMap == s.connMap && s'.loops == LoopsAfter(s, s.base, l, RemoveConnectionInLoop(c))
  {
    HandsBack(s, l);
    hide Enabled, Next, CanRemove, Removed;
    PushAndWake(s, Next(s, Remove(l)), s.base, l, RemoveConnectionInLoop(s.frames[l].c));
    assert ([Remove(l)] + WakeOf(s, s.base, l))[1..] == WakeOf(s, s.base, l);
  }

  /** Nothing but the loops, the map and what connections have been through. */
  ghost predicate SameBut(s: System, s': System) {
    && s'.base == s.base && s'.pool == s.pool && s'.nextLoop == s.nextLoop && s'.nextId == s.nextId
    && s'.conns.Keys == s.conns.Keys && (forall d :: d in s.conns ==> s'.conns[d].io == s.conns[d].io)
    && s'.frames.Keys == s.frames.Keys
  }

  /** How a call of `queueInLoop` by thread `t` changes what the object and its loops hold. */
  ghost predicate LooksCalled(look: Look, look': Look, l: LoopId, t: LoopId, f: Functor) {
    && look.Proper() && look'.ids == look.ids && |look'.states| == |look.states|
    && look'.nextLoop == look.nextLoop && look'.nextId == look.nextId
    && forall i :: 0 <= i < |look.ids| ==>
         if look.ids[i] == l then L.MayCall(look.states[i], t) && look'.states[i] == L.QueueCall(look.states[i], t, f)
         else look'.states[i] == look.states[i]
  }

  /** How a removal changes it: one entry less, and the last call queued on the connection's loop. */
  ghost predicate LooksRemoved(look: Look, look': Look, c: ConnId) {
    c in look.io && look'.io == look.io - {c}
    && look.Proper() && LooksCalled(look, look', look.io[c], look.ids[0], ConnectDestroyed(c))
  }

  lemma CalledMatches(look: Look, s: System, look': Look, s': System, l: LoopId, t: LoopId, f: Functor)
    requires look.Matches(s) && l in s.loops && LooksCalled(look, look', l, t, f)
    requires CanQueue(s, l, t) && s'.loops == LoopsAfter(s, l, t, f) && s'.frames.Keys == s.frames.Keys
    requires s'.base == s.base && s'.pool == s.pool && s'.nextLoop == s.nextLoop && s'.nextId == s.nextId
    requires s'.connMap == look'.io.Keys && look'.io.Keys <= look.io.Keys
    requires forall c :: c in look'.io ==> look'.io[c] == look.io[c] && c in s'.conns && s'.conns[c].io == s.conns[c].io
    ensures look'.Matches(s')
  {
    hide L.QueueCall, L.MayCall;
  }

  lemma RemovalLooks(look: Look, s: System, look': Look, c: ConnId)
    requires look.Matches(s) && (CanErase(s) || CanRemove(s, s.base)) && s.frames[s.base].c == c
    requires LooksRemoved(look, look', c)
    ensures CanRemoveEntry(s, c) && IsRun(s, RemovalRun(s, c)) && look'.Matches(After(s, RemovalRun(s, c)))
  {
    assert look.io[c] in look.ids;
    RemovalIsRun(s, c);
    hide IsRun, After, RemovalRun, CanErase, CanRemove, L.QueueCall, L.MayCall, LooksCalled, LoopsAfter;
    CalledMatches(look, s, look', After(s, RemovalRun(s, c)), look.io[c], s.base, ConnectDestroyed(c));
  }

  /** How `removeConnection` of a connection on another loop changes it: the removal is queued on the base loop. */
  ghost predicate LooksHandedBack(look: Look, look': Look, c: ConnId, l: LoopId) {
    look'.io == look.io && look.Proper() && LooksCalled(look, look', look.ids[0], l, RemoveConnectionInLoop(c))
  }

  lemma HandBackLooks(look: Look, s: System, look': Look, l: LoopId)
    requires look.Matches(s) && CanRemove(s, l) && l != s.base
    requires LooksHandedBack(look, look', s.frames[l].c, l)
    ensures IsRun(s, HandBackRun(s, l)) && look'.Matches(After(s, HandBackRun(s, l)))
  {
    HandBackIsRun(s, l);
    hide IsRun, After, HandBackRun, L.QueueCall, L.MayCall, LooksCalled, LoopsAfter;
    CalledMatches(look, s, look', After(s, HandBackRun(s, l)), s.base, l, RemoveConnectionInLoop(s.frames[l].c));
  }
}
