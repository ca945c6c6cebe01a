/**
 The object of net/EventLoop.cpp. Its methods are whole calls made by one thread; each is
 proved to be a run of `LoopMachine` on the state the object stands for.
*/
module EventLoopObject {
  import opened LoopMachine

  /** A call of `queueInLoop` by another thread. */
  datatype Call<F> = Call(t: ThreadId, f: F)

  function FunctorsOf<F>(calls: seq<Call<F>>): (fs: seq<F>)
    ensures |fs| == |calls|
  {
    if calls == [] then [] else FunctorsOf(calls[..|calls| - 1]) + [calls[|calls| - 1].f]
  }

  /**
   What is pushed while the first `n` functors of a batch run, or the first `n` active channels are
   handled: before each, what other threads push, and then what it queues itself.
  */
  function Arrivals<E, F>(batch: seq<E>, body: E -> seq<F>, others: nat -> seq<Call<F>>, n: nat): seq<F>
    requires n <= |batch|
  {
    if n == 0 then [] else Arrivals(batch, body, others, n - 1) + FunctorsOf(others(n - 1)) + body(batch[n - 1])
  }

  class EventLoop<F(!new)> {
    const threadId: ThreadId
    var quit: bool
    var callingPendingFunctors: bool
    var eventfd: nat
    var pendingFunctors: seq<F>

    /** The machine state this object stands for, and the run that led there. */
    ghost var state: Loop<F>
    ghost var run: seq<Action<F>>

    ghost predicate Valid()
      reads this
    {
      && IsRun(Init(threadId), run) && After(Init(threadId), run) == state
      && state.owner == threadId
      && state.quit == quit && state.calling == callingPendingFunctors
      && state.counter == eventfd && state.pending == pendingFunctors
    }

    constructor (threadId: ThreadId)
      ensures Valid() && state == Init(threadId) && this.threadId == threadId
    {
      this.threadId := threadId;
      quit, callingPendingFunctors, eventfd, pendingFunctors := false, false, 0, [];
      state, run := Init(threadId), [];
    }

    /** Record a step of the machine. */
    ghost method Advance(a: Action<F>)
      requires IsRun(Init(threadId), run) && After(Init(threadId), run) == state
      requires Enabled(state, a)
      modifies this`state, this`run
      ensures IsRun(Init(threadId), run) && After(Init(threadId), run) == state
      ensures run == old(run) + [a] && state == Next(old(state), a)
    {
      RunExtends(Init(threadId), run, a);
      run := run + [a];
      state := Next(state, a);
    }

    method Wakeup(t: ThreadId)
      requires Valid() && t in state.due
      modifies this
      ensures Valid() && state == Next(old(state), Wake(t)) && run == old(run) + [Wake(t)]
    {
      eventfd := eventfd + 1;
      Advance(Wake(t));
    }

    /** `read` on the eventfd, for the wakeup channel at the head of the active list. */
    method HandleRead()
      requires Valid() && Enabled(state, BeginEvent) && state.phase.active[0] == WakeupEvent
      modifies this
      ensures Valid() && state == Next(old(state), BeginEvent)
      ensures old(eventfd) > 0 && eventfd == 0
    {
      HandleReadNeverBlocks(threadId, run);
      eventfd := 0;
      Advance(BeginEvent);
    }

    /** The whole call: the push, and the wakeup unless the owner calls outside `doPendingFunctors`. */
    method QueueInLoop(t: ThreadId, cb: F)
      requires Valid() && MayCall(state, t)
      modifies this
      ensures Valid()
      ensures pendingFunctors == old(pendingFunctors) + [cb]
      ensures run == old(run) + if t != threadId || old(callingPendingFunctors) then [Queue(t, cb), Wake(t)] else [Queue(t, cb)]
      ensures eventfd == old(eventfd) + if t != threadId || old(callingPendingFunctors) then 1 else 0
      ensures state == QueueCall(old(state), t, cb)
      ensures quit == old(quit) && callingPendingFunctors == old(callingPendingFunctors)
      ensures state.phase == old(state.phase) && state.busy == old(state.busy) && state.due == old(state.due)
      ensures state.batch == old(state.batch) && state.next == old(state.next)
      ensures state.executed == old(state.executed)
    {
      pendingFunctors := pendingFunctors + [cb];
      Advance(Queue(t, cb));
      if t != threadId || callingPendingFunctors {
        Wakeup(t);
        assert old(run) + [Queue(t, cb), Wake(t)] == old(run) + [Queue(t, cb)] + [Wake(t)];
      }
    }

    /** `now` says that the functor is run at once, by the caller, instead of being queued. */
    method RunInLoop(t: ThreadId, cb: F) returns (now: bool)
      requires Valid() && MayCall(state, t)
      modifies this
      ensures Valid() && (now <==> t == threadId)
      ensures now ==> state == old(state) && pendingFunctors == old(pendingFunctors)
      ensures !now ==> pendingFunctors == old(pendingFunctors) + [cb] && eventfd == old(eventfd) + 1
                       && state == QueueCall(old(state), t, cb)
    {
      if t == threadId {
        return true;
      }
      QueueInLoop(t, cb);
      now := false;
    }

    method QuitLoop(t: ThreadId)
      requires Valid() && MayCall(state, t)
      modifies this
      ensures Valid() && quit
      ensures run == old(run) + if t != threadId then [Quit(t), Wake(t)] else [Quit(t)]
    {
      quit := true;
      Advance(Quit(t));
      if t != threadId {
        Wakeup(t);
        assert old(run) + [Quit(t), Wake(t)] == old(run) + [Quit(t)] + [Wake(t)];
      }
    }

    /** The next functor of the batch runs; all that matters here is what it queues on its own loop. */
    method RunFunctor(cb: F, body: F -> seq<F>)
      requires Valid() && Enabled(state, BeginFunctor) && callingPendingFunctors && state.batch[state.next] == cb
      modifies this
      ensures Valid() && quit == old(quit) && callingPendingFunctors
      ensures pendingFunctors == old(pendingFunctors) + body(cb)
      ensures eventfd == old(eventfd) + |body(cb)|
      ensures state.executed == old(state.executed) + [cb]
      ensures state.phase == RunBatch && !state.busy && OwnerFree(state) && state.due == old(state.due)
      ensures state.batch == old(state.batch) && state.next == old(state.next) + 1
    {
      Advance(BeginFunctor);
      var queued := body(cb);
      var i := 0;
      while i < |queued|
        invariant 0 <= i <= |queued|
        invariant Valid() && quit == old(quit) && callingPendingFunctors
        invariant pendingFunctors == old(pendingFunctors) + queued[..i]
        invariant eventfd == old(eventfd) + i
        invariant state.phase == RunBatch && state.busy && OwnerFree(state) && state.due == old(state.due)
        invariant state.batch == old(state.batch) && state.next == old(state.next) + 1
        invariant state.executed == old(state.executed) + [cb]
      {
        QueueInLoop(threadId, queued[i]);
        assert queued[..i + 1] == queued[..i] + [queued[i]];
        i := i + 1;
      }
      assert queued[..i] == queued;
      Advance(EndFunctor);
    }

    /** The first active channel is handled; all that matters here is what its callbacks queue on this loop. */
    method HandleEvent(event: Event, body: Event -> seq<F>)
      requires Valid() && Enabled(state, BeginEvent) && !callingPendingFunctors && state.phase.active[0] == event
      modifies this
      ensures Valid() && quit == old(quit) && !callingPendingFunctors
      ensures pendingFunctors == old(pendingFunctors) + body(event)
      ensures eventfd == if event == WakeupEvent then 0 else old(eventfd)
      ensures state.phase == Dispatch(old(state.phase.active)[1..]) && !state.busy && state.due == old(state.due)
      ensures state.executed == old(state.executed)
    {
      if event == WakeupEvent {
        HandleRead();
      } else {
        Advance(BeginEvent);
      }
      ghost var active := state.phase.active;
      var queued := body(event);
      var i := 0;
      while i < |queued|
        invariant 0 <= i <= |queued|
        invariant Valid() && quit == old(quit) && !callingPendingFunctors
        invariant pendingFunctors == old(pendingFunctors) + queued[..i]
        invariant eventfd == if event == WakeupEvent then 0 else old(eventfd)
        invariant state.phase == Dispatch(active) && state.busy && state.due == old(state.due)
        invariant state.executed == old(state.executed)
      {
        QueueInLoop(threadId, queued[i]);
        assert queued[..i + 1] == queued[..i] + [queued[i]];
        i := i + 1;
      }
      assert queued[..i] == queued;
      Advance(EndEvent);
    }

    /** The loop over the active channels: each is handled once, in order, and none is left. */
    method HandleActive(active: seq<Event>, body: Event -> seq<F>, others: nat -> seq<Call<F>>)
      requires Valid() && state.phase == Dispatch(active) && !state.busy && !callingPendingFunctors && AreForeign(others)
      modifies this
      ensures Valid() && state.phase == Dispatch([]) && !state.busy && state.due == {}
      ensures quit == old(quit) && !callingPendingFunctors && state.executed == old(state.executed)
      ensures pendingFunctors == old(pendingFunctors) + Arrivals(active, body, others, |active|)
    {
      hide EventLoop.Valid, FunctorsOf;
      var i := 0;
      while i < |active|
        invariant 0 <= i <= |active|
        invariant Valid() && quit == old(quit) && !callingPendingFunctors && AreForeign(others)
        invariant state.phase == Dispatch(active[i..]) && !state.busy && state.executed == old(state.executed)
        invariant pendingFunctors == old(pendingFunctors) + Arrivals(active, body, others, i)
      {
        Receive(others(i));
        HandleEvent(active[i], body);
        i := i + 1;
      }
    }

    /** Take the queue, leaving an empty one; from here to the end of the batch the owner's own pushes wake it. */
    method TakeFunctors() returns (functors: seq<F>)
      requires Valid() && Enabled(state, EndDispatch)
      modifies this
      ensures Valid() && quit == old(quit) && callingPendingFunctors && eventfd == old(eventfd)
      ensures functors == old(pendingFunctors) && pendingFunctors == []
      ensures state.phase == RunBatch && !state.busy && OwnerFree(state)
      ensures state.batch == functors && state.next == 0 && state.executed == old(state.executed)
      ensures state.due == old(state.due)
    {
      InitInv<F>(threadId);
      RunInv(Init(threadId), run);
      callingPendingFunctors := true;
      Advance(EndDispatch);
      functors := pendingFunctors;
      pendingFunctors := [];
      Advance(Swap);
    }

    /** Other threads push, one whole call after another. */
    method Receive(calls: seq<Call<F>>)
      requires Valid() && forall k :: 0 <= k < |calls| ==> calls[k].t != threadId && calls[k].t !in state.due
      modifies this
      ensures Valid() && quit == old(quit) && callingPendingFunctors == old(callingPendingFunctors)
      ensures pendingFunctors == old(pendingFunctors) + FunctorsOf(calls) && eventfd == old(eventfd) + |calls|
      ensures state.phase == old(state.phase) && state.busy == old(state.busy) && state.due == old(state.due)
      ensures state.batch == old(state.batch) && state.next == old(state.next) && state.executed == old(state.executed)
    {
      var i := 0;
      while i < |calls|
        invariant 0 <= i <= |calls|
        invariant Valid() && quit == old(quit) && callingPendingFunctors == old(callingPendingFunctors)
        invariant pendingFunctors == old(pendingFunctors) + FunctorsOf(calls[..i]) && eventfd == old(eventfd) + i
        invariant state.phase == old(state.phase) && state.busy == old(state.busy) && state.due == old(state.due)
        invariant state.batch == old(state.batch) && state.next == old(state.next) && state.executed == old(state.executed)
      {
        QueueInLoop(calls[i].t, calls[i].f);
        assert calls[..i + 1][..i] == calls[..i];
        i := i + 1;
      }
      assert calls[..i] == calls;
    }

    /** No call of another thread is half done, and those to come are not the owner's. */
    ghost predicate AreForeign(others: nat -> seq<Call<F>>)
      reads this
    {
      state.due == {} && forall i, k :: 0 <= k < |others(i)| ==> others(i)[k].t != threadId
    }

    /** Run the functors of the batch in order. */
    method RunFunctors(functors: seq<F>, body: F -> seq<F>, others: nat -> seq<Call<F>>)
      requires Valid() && callingPendingFunctors && AreForeign(others)
      requires state.phase == RunBatch && !state.busy
      requires state.batch == functors && state.next == 0 && pendingFunctors == []
      modifies this
      ensures Valid() && quit == old(quit) && callingPendingFunctors && state.due == {}
      ensures Enabled(state, EndBatch) && state.executed == old(state.executed) + functors
      ensures pendingFunctors == Arrivals(functors, body, others, |functors|) && eventfd == old(eventfd) + |pendingFunctors|
    {
      hide EventLoop.Valid, FunctorsOf;
      var i := 0;
      while i < |functors|
        invariant 0 <= i <= |functors|
        invariant Valid() && callingPendingFunctors && quit == old(quit) && AreForeign(others)
        invariant state.phase == RunBatch && !state.busy
        invariant state.batch == functors && state.next == i
        invariant state.executed == old(state.executed) + functors[..i]
        invariant pendingFunctors == Arrivals(functors, body, others, i)
        invariant eventfd == old(eventfd) + |pendingFunctors|
      {
        Receive(others(i));
        RunFunctor(functors[i], body);
        assert functors[..i + 1] == functors[..i] + [functors[i]];
        i := i + 1;
      }
      assert functors[..i] == functors;
    }

    /**
     One batch: exactly the functors that were queued are executed, in order; what they queue in
     turn, and what other threads push meanwhile, waits for the next batch and leaves one wakeup each.
    */
    method DoPendingFunctors(body: F -> seq<F>, others: nat -> seq<Call<F>>)
      requires Valid() && Enabled(state, EndDispatch) && AreForeign(others)
      modifies this
      ensures Valid() && state.phase == CheckQuit && !callingPendingFunctors && quit == old(quit)
      ensures state.executed == old(state.executed) + old(pendingFunctors)
      ensures pendingFunctors == Arrivals(old(pendingFunctors), body, others, |old(pendingFunctors)|)
      ensures eventfd == old(eventfd) + |pendingFunctors|
    {
      var functors := TakeFunctors();
      RunFunctors(functors, body, others);
      callingPendingFunctors := false;
      Advance(EndBatch);
    }
  }
}
