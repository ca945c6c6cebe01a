/**
 The object of net/TcpServer.cpp, on top of its loops and its thread pool. Each method is one
 whole call by one thread, and by `ServerCalls` a run of the machine of `Server`, in which the
 steps of other threads may come in between.
*/
module ServerObject {
  import opened EventLoopObject
  import opened Server
  import opened ServerTheorems
  import opened ServerCalls
  import opened ThreadPool
  import L = LoopMachine

  type Loop = EventLoop<Functor>

  /** A shared pointer to a connection: its name, which is its number here, and its loop. */
  datatype ConnectionPtr = ConnectionPtr(name: ConnId, io: Loop)

  class TcpServer {
    const loop: Loop
    const threadPool: EventLoopThreadPool<Loop>
    var nextConnId: nat
    var connMap: map<ConnId, ConnectionPtr>

    ghost predicate Valid()
      reads this, threadPool
    {
      && threadPool.Valid() && threadPool.baseLoop == loop
      && nextConnId > ACCEPTOR
      && forall name :: name in connMap ==> ACCEPTOR < name < nextConnId && connMap[name].name == name
    }

    /** Thread `t` may make a call on loop `l`. */
    ghost predicate MayCall(l: Loop, t: L.ThreadId)
      reads l
    {
      l.Valid() && L.MayCall(l.state, t)
    }

    function Loops(): seq<Loop>
      reads this, threadPool
    {
      [loop] + threadPool.loops
    }

    /** No two loops share a thread. */
    ghost predicate OwnThreads()
      reads this, threadPool
    {
      forall i, k :: 0 <= i < k < |Loops()| ==> Loops()[i].threadId != Loops()[k].threadId
    }

    /** What of the machine's state this object and its loops hold. */
    ghost function View(): (look: Look)
      reads this, threadPool, loop, threadPool.loops
      ensures |look.ids| == |look.states| == |Loops()|
    {
      Look(seq(|Loops()|, i requires 0 <= i < |Loops()| reads this, threadPool, threadPool.loops => Loops()[i].threadId),
           seq(|Loops()|, i requires 0 <= i < |Loops()| reads this, threadPool, loop, threadPool.loops => Loops()[i].state),
           map name | name in connMap :: connMap[name].io.threadId,
           threadPool.next, nextConnId)
    }

    lemma IsPicked(next: nat)
      ensures Picked(View().ids[0], View().ids[1..], next) == Picked(loop, threadPool.loops, next).threadId
    {
    }

    /** After `conn` was entered and handed over, seen from what there was before. */
    lemma HandsOver(conn: ConnectionPtr, was: Look, now: bool)
      requires OwnThreads() && was.ids == View().ids && |was.states| == |was.ids|
      requires conn.io.threadId == Picked(was.ids[0], was.ids[1..], was.nextLoop)
      requires View().io == was.io[was.nextId := conn.io.threadId] && conn.name == was.nextId
      requires nextConnId == was.nextId + 1 && threadPool.next == Advanced(|threadPool.loops|, was.nextLoop)
      requires conn.io in Loops() && (now <==> conn.io.threadId == loop.threadId)
      requires forall i :: 0 <= i < |was.ids| && Loops()[i] == conn.io ==> L.MayCall(was.states[i], loop.threadId)
      requires forall i :: 0 <= i < |was.ids| && Loops()[i] == conn.io ==>
                 conn.io.state == if now then was.states[i] else L.QueueCall(was.states[i], loop.threadId, ConnectEstablished(conn.name))
      requires forall i :: 0 <= i < |was.ids| && Loops()[i] != conn.io ==> Loops()[i].state == was.states[i]
      ensures LooksNew(was, View())
    {
      hide L.MayCall, L.QueueCall, Picked, Advanced;
      var look := View();
      forall i | 0 <= i < |was.ids| ensures was.ids[i] == conn.io.threadId <==> Loops()[i] == conn.io {
      }
    }

    /** After a call of `queueInLoop` on loop `l`, seen from what there was before. */
    lemma Calls(l: Loop, was: Look, t: L.ThreadId, f: Functor)
      requires OwnThreads() && l in Loops() && was.ids == View().ids && |was.states| == |was.ids|
      requires was.nextLoop == View().nextLoop && was.nextId == View().nextId
      requires forall i :: 0 <= i < |was.ids| && Loops()[i] == l ==>
                 L.MayCall(was.states[i], t) && l.state == L.QueueCall(was.states[i], t, f)
      requires forall i :: 0 <= i < |was.ids| && Loops()[i] != l ==> Loops()[i].state == was.states[i]
      ensures LooksCalled(was, View(), l.threadId, t, f)
    {
      hide L.MayCall, L.QueueCall;
      var look := View();
      forall i | 0 <= i < |was.ids| ensures was.ids[i] == l.threadId <==> Loops()[i] == l {
      }
    }

    lemma Removes(conn: ConnectionPtr, was: Look)
      requires OwnThreads() && conn.io in Loops() && was.ids == View().ids && |was.states| == |was.ids|
      requires was.nextLoop == View().nextLoop && was.nextId == View().nextId
      requires conn.name in was.io && was.io[conn.name] == conn.io.threadId && View().io == was.io - {conn.name}
      requires forall i :: 0 <= i < |was.ids| && Loops()[i] == conn.io ==>
                 L.MayCall(was.states[i], loop.threadId)
                 && conn.io.state == L.QueueCall(was.states[i], loop.threadId, ConnectDestroyed(conn.name))
      requires forall i :: 0 <= i < |was.ids| && Loops()[i] != conn.io ==> Loops()[i].state == was.states[i]
      ensures LooksRemoved(was, View(), conn.name)
    {
      hide L.MayCall, L.QueueCall, LooksCalled;
      Calls(conn.io, was, loop.threadId, ConnectDestroyed(conn.name));
    }

    constructor (loop: Loop)
      ensures Valid() && this.loop == loop && connMap == map[] && nextConnId == 1
      ensures fresh(threadPool) && threadPool.loops == []
    {
      this.loop := loop;
      threadPool := new EventLoopThreadPool(loop);
      nextConnId, connMap := 1, map[];
    }

    /**
     A connection is made, named as no other is, put on the loop whose turn it is and entered in
     the map; `now` says that `connectEstablished` runs at once, else it is queued on that loop.
    */
    method NewConnection() returns (conn: ConnectionPtr, now: bool)
      requires Valid()
      requires MayCall(loop, loop.threadId) && forall l :: l in threadPool.loops ==> MayCall(l, loop.threadId)
      modifies this, threadPool, loop, threadPool.loops
      ensures Valid() && threadPool.loops == old(threadPool.loops)
      ensures conn.name == old(nextConnId) && conn.name !in old(connMap)
      ensures conn.io == TurnOf(loop, threadPool.loops, |old(threadPool.returned)|)
      ensures threadPool.returned == old(threadPool.returned) + [conn.io]
      ensures connMap == old(connMap)[conn.name := conn] && nextConnId == old(nextConnId) + 1
      ensures now <==> conn.io.threadId == loop.threadId
      ensures conn.io.Valid()
      ensures conn.io.pendingFunctors
              == old(conn.io.pendingFunctors) + if now then [] else [ConnectEstablished(conn.name)]
      ensures !now ==> conn.io.eventfd == old(conn.io.eventfd) + 1
      ensures forall l :: l == loop || l in threadPool.loops ==> l == conn.io || unchanged(l)
      ensures OwnThreads() ==> LooksNew(old(View()), View())
    {
      hide EventLoop.Valid, L.MayCall, TurnOf, Turns, Picked, Advanced;
      conn := EnterConnection();
      now := conn.io.RunInLoop(loop.threadId, ConnectEstablished(conn.name));
      if OwnThreads() {
        IsPicked(old(threadPool.next));
        HandsOver(conn, old(View()), now);
      }
    }

    /** The part of `newConnection` up to the map entry. */
    method EnterConnection() returns (conn: ConnectionPtr)
      requires Valid()
      modifies this, threadPool
      ensures Valid() && threadPool.loops == old(threadPool.loops) && conn.io in Loops()
      ensures conn.name == old(nextConnId) && conn.name !in old(connMap)
      ensures conn.io == TurnOf(loop, threadPool.loops, |old(threadPool.returned)|)
      ensures threadPool.returned == old(threadPool.returned) + [conn.io]
      ensures connMap == old(connMap)[conn.name := conn] && nextConnId == old(nextConnId) + 1
      ensures conn.io == Picked(loop, threadPool.loops, old(threadPool.next))
      ensures threadPool.next == Advanced(|threadPool.loops|, old(threadPool.next))
    {
      var name := nextConnId;
      nextConnId := nextConnId + 1;
      var io := threadPool.GetNextLoop();
      conn := ConnectionPtr(name, io);
      connMap := connMap[name := conn];
    }

    /** The close callback of a connection, run by its loop's thread: on the base loop the entry goes at once. */
    method RemoveConnection(conn: ConnectionPtr) returns (now: bool)
      requires Valid() && MayCall(loop, conn.io.threadId)
      requires conn.io.threadId == loop.threadId
               ==> MayCall(conn.io, loop.threadId) && conn.name in connMap && connMap[conn.name] == conn
      modifies this`connMap, loop, conn.io
      ensures Valid() && (now <==> conn.io.threadId == loop.threadId)
      ensures now ==> connMap == old(connMap) - {conn.name}
                      && conn.io.pendingFunctors == old(conn.io.pendingFunctors) + [ConnectDestroyed(conn.name)]
                      && conn.io.eventfd == old(conn.io.eventfd) + if old(conn.io.callingPendingFunctors) then 1 else 0
      ensures !now ==> connMap == old(connMap)
                       && loop.pendingFunctors == old(loop.pendingFunctors) + [Functor.RemoveConnectionInLoop(conn.name)]
                       && loop.eventfd == old(loop.eventfd) + 1
      ensures OwnThreads() && conn.io in Loops() && (conn.name in old(connMap) ==> old(connMap)[conn.name] == conn) ==>
                if now then LooksRemoved(old(View()), View(), conn.name)
                else LooksHandedBack(old(View()), View(), conn.name, conn.io.threadId)
    {
      hide L.MayCall, L.QueueCall, LooksCalled;
      now := loop.RunInLoop(conn.io.threadId, Functor.RemoveConnectionInLoop(conn.name));
      if now {
        assert View() == old(View());
        RemoveConnectionInLoop(conn);
        assert OwnThreads() && conn.io in Loops() ==> LooksRemoved(old(View()), View(), conn.name);
      } else if OwnThreads() {
        Calls(loop, old(View()), conn.io.threadId, Functor.RemoveConnectionInLoop(conn.name));
        assert LooksHandedBack(old(View()), View(), conn.name, conn.io.threadId);
      }
    }

    /** The entry is erased, and the last call on the connection is queued on its own loop, never run at once. */
    method RemoveConnectionInLoop(conn: ConnectionPtr)
      requires Valid() && MayCall(conn.io, loop.threadId)
      requires conn.name in connMap && connMap[conn.name] == conn
      modifies this`connMap, conn.io
      ensures Valid() && connMap == old(connMap) - {conn.name} && |connMap| == |old(connMap)| - 1
      ensures conn.io.Valid()
      ensures conn.io.pendingFunctors == old(conn.io.pendingFunctors) + [ConnectDestroyed(conn.name)]
      ensures conn.io.eventfd == old(conn.io.eventfd)
              + if conn.io.threadId != loop.threadId || old(conn.io.callingPendingFunctors) then 1 else 0
      ensures OwnThreads() && conn.io in Loops() ==> LooksRemoved(old(View()), View(), conn.name)
    {
      hide EventLoop.Valid, L.MayCall, L.QueueCall, LooksRemoved;
      EraseEntry(conn);
      conn.io.QueueInLoop(loop.threadId, ConnectDestroyed(conn.name));
      if OwnThreads() && conn.io in Loops() {
        Removes(conn, old(View()));
      }
    }

    method EraseEntry(conn: ConnectionPtr)
      requires Valid() && conn.name in connMap && connMap[conn.name] == conn
      modifies this`connMap
      ensures Valid() && connMap == old(connMap) - {conn.name} && |connMap| == |old(connMap)| - 1
    {
      assert connMap.Keys == (connMap - {conn.name}).Keys + {conn.name};
      connMap := connMap - {conn.name};
    }
  }
}
