/**
 The event loop of net/EventLoop.cpp as an interleaving state machine. Every step is one
 action of one thread: the loop's own thread (the owner), or any other (foreign) thread
 calling `queueInLoop`, `runInLoop` or `quitLoop`. Threads interleave arbitrarily between
 steps; the queue's lock makes each push and the swap one step.
*/
module LoopMachine {

  type ThreadId = nat

  /** A channel in the active list: the wakeup channel, or some other one. */
  datatype Event = WakeupEvent | ChannelEvent(channel: nat)

  datatype Phase =
    | NotStarted
    | CheckQuit                       // at the `while(!_quit)` test
    | AtPoll                          // inside `poll`
    | Dispatch(active: seq<Event>)    // handling the active channels
    | BeforeSwap                      // `_callingPendingFunctors` is set, the swap is next
    | RunBatch                        // running the swapped functors
    | Exited

  datatype Loop<F> = Loop(
    owner: ThreadId,
    phase: Phase,
    busy: bool,              // the owner is inside a callback or a functor
    quit: bool,
    calling: bool,           // _callingPendingFunctors
    counter: nat,            // the eventfd
    pending: seq<F>,
    batch: seq<F>,           // the local vector of doPendingFunctors
    next: nat,               // its loop index
    due: set<ThreadId>,      // threads that have still to write the eventfd
    // history
    pushed: seq<F>,          // every functor ever pushed, in order
    executed: seq<F>,        // every functor ever begun, in order
    iterations: nat)         // how many times `poll` was entered
  {
    /** The functors that are pushed but not begun. */
    function Todo(): seq<F>
      requires next <= |batch|
    {
      batch[next..] + pending
    }

    /** The owner sleeps in `poll` and nothing tells it of the work in its queue. */
    predicate Stuck() {
      phase == AtPoll && pending != [] && counter == 0 && due == {}
    }
  }

  function Init<F>(owner: ThreadId): Loop<F> {
    Loop(owner, NotStarted, false, false, false, 0, [], [], 0, {}, [], [], 0)
  }

  datatype Action<F> =
    // any thread
    | Queue(t: ThreadId, f: F)        // the push of queueInLoop
    | Quit(t: ThreadId)               // the store of quitLoop
    | Wake(t: ThreadId)               // wakeup, ending the call
    // the owner
    | Start
    | TestQuit
    | PollReturn(active: seq<Event>)
    | BeginEvent
    | EndEvent
    | EndDispatch
    | Swap
    | BeginFunctor
    | EndFunctor
    | EndBatch

  /** The owner runs code of its own only before the loop starts and inside callbacks and functors. */
  predicate MayCall<F>(l: Loop<F>, t: ThreadId) {
    t !in l.due && (t == l.owner ==> l.busy || l.phase == NotStarted || l.phase == Exited)
  }

  /** The owner has no wakeup of its own left to write. */
  predicate OwnerFree<F>(l: Loop<F>) {
    l.owner !in l.due
  }

  predicate Enabled<F>(l: Loop<F>, a: Action<F>) {
    match a
    case Queue(t, _) => MayCall(l, t)
    case Quit(t) => MayCall(l, t)
    case Wake(t) => t in l.due
    case Start => OwnerFree(l) && l.phase == NotStarted
    case TestQuit => OwnerFree(l) && l.phase == CheckQuit
    case PollReturn(active) =>
      // the wakeup channel is reported, once, exactly when the eventfd is readable
      OwnerFree(l) && l.phase == AtPoll && multiset(active)[WakeupEvent] == (if l.counter > 0 then 1 else 0)
    case BeginEvent => OwnerFree(l) && l.phase.Dispatch? && l.phase.active != [] && !l.busy
    case EndEvent => OwnerFree(l) && l.phase.Dispatch? && l.phase.active != [] && l.busy
    case EndDispatch => OwnerFree(l) && l.phase == Dispatch([])
    case Swap => OwnerFree(l) && l.phase == BeforeSwap
    case BeginFunctor => OwnerFree(l) && l.phase == RunBatch && l.next < |l.batch| && !l.busy
    case EndFunctor => OwnerFree(l) && l.phase == RunBatch && l.busy
    case EndBatch => OwnerFree(l) && l.phase == RunBatch && l.next == |l.batch| && !l.busy
  }

  /** `queueInLoop` wakes the loop up unless the owner calls it outside `doPendingFunctors`. */
  predicate NeedsWakeup<F>(l: Loop<F>, t: ThreadId) {
    t != l.owner || l.calling
  }

  function Next<F>(l: Loop<F>, a: Action<F>): (l': Loop<F>)
    requires Enabled(l, a)
  {
    match a
    case Queue(t, f) =>
      l.(pending := l.pending + [f], pushed := l.pushed + [f],
         due := if NeedsWakeup(l, t) then l.due + {t} else l.due)
    case Quit(t) => l.(quit := true, due := if t != l.owner then l.due + {t} else l.due)
    case Wake(t) => l.(counter := l.counter + 1, due := l.due - {t})
    case Start => l.(phase := CheckQuit, quit := false)
    case TestQuit => if l.quit then l.(phase := Exited) else l.(phase := AtPoll, iterations := l.iterations + 1)
    case PollReturn(active) => l.(phase := Dispatch(active))
    case BeginEvent =>
      // the wakeup channel's callback is handleRead, which empties the eventfd
      if l.phase.active[0] == WakeupEvent then l.(busy := true, counter := 0) else l.(busy := true)
    case EndEvent => l.(busy := false, phase := Dispatch(l.phase.active[1..]))
    case EndDispatch => l.(phase := BeforeSwap, calling := true)
    case Swap => l.(phase := RunBatch, batch := l.pending, next := 0, pending := [])
    case BeginFunctor =>
      l.(busy := true, executed := l.executed + [l.batch[l.next]], next := l.next + 1)
    case EndFunctor => l.(busy := false)
    case EndBatch => l.(phase := CheckQuit, calling := false, batch := [], next := 0)
  }

  /** A whole call of `queueInLoop`: the push, and the wakeup it may owe. */
  function QueueCall<F>(l: Loop<F>, t: ThreadId, f: F): Loop<F>
    requires MayCall(l, t)
  {
    var queued := Next(l, Queue(t, f));
    if NeedsWakeup(l, t) then Next(queued, Wake(t)) else queued
  }

  // ----- runs -----

  ghost predicate IsRun<F>(l: Loop<F>, run: seq<Action<F>>)
    decreases |run|
  {
    run == [] || (Enabled(l, run[0]) && IsRun(Next(l, run[0]), run[1..]))
  }

  ghost function After<F>(l: Loop<F>, run: seq<Action<F>>): Loop<F>
    requires IsRun(l, run)
    decreases |run|
  {
    if run == [] then l else After(Next(l, run[0]), run[1..])
  }

  lemma {:induction false} RunsCompose<F>(l: Loop<F>, run: seq<Action<F>>, more: seq<Action<F>>)
    requires IsRun(l, run) && IsRun(After(l, run), more)
    ensures IsRun(l, run + more) && After(l, run + more) == After(After(l, run), more)
    decreases |run|
  {
    if run == [] {
      assert run + more == more;
    } else {
      RunsCompose(Next(l, run[0]), run[1..], more);
      assert (run + more)[1..] == run[1..] + more;
    }
  }

  /** One more step at the end of a run. */
  lemma RunExtends<F>(l: Loop<F>, run: seq<Action<F>>, a: Action<F>)
    requires IsRun(l, run) && Enabled(After(l, run), a)
    ensures IsRun(l, run + [a]) && After(l, run + [a]) == Next(After(l, run), a)
  {
    assert [a][1..] == [];
    RunsCompose(l, run, [a]);
  }

  // ----- what every step keeps -----

  /** Nothing is lost, duplicated or reordered between the push and the execution of a functor. */
  ghost predicate Conserved<F>(l: Loop<F>) {
    && l.next <= |l.batch|
    && l.executed + l.Todo() == l.pushed
    && (l.phase != RunBatch ==> l.batch == [])
  }

  ghost predicate Shape<F>(l: Loop<F>) {
    && (l.calling <==> l.phase == BeforeSwap || l.phase == RunBatch)
    && (l.busy ==> l.phase == RunBatch || (l.phase.Dispatch? && l.phase.active != []))
    && (l.owner in l.due ==> l.phase == RunBatch && l.busy)
    && (l.phase == NotStarted ==> l.iterations == 0)
    && (l.iterations == 0 ==> l.phase == NotStarted || l.phase == CheckQuit || l.phase == Exited)
  }

  /** `handleRead` is yet to run for the wakeup channel only while the eventfd is readable. */
  ghost predicate ReadsAreDue<F>(l: Loop<F>) {
    l.phase.Dispatch? ==>
      var active := l.phase.active;
      && multiset(active)[WakeupEvent] <= 1
      && (WakeupEvent in active && !(l.busy && active[0] == WakeupEvent) ==> l.counter > 0)
  }

  predicate Signalled<F>(l: Loop<F>) {
    l.counter > 0 || l.due != {}
  }

  /** After the swap of any iteration, queued work always comes with a signal. */
  ghost predicate WorkIsSignalled<F>(l: Loop<F>) {
    l.pending != [] && (l.phase == RunBatch || (l.iterations >= 1 && (l.phase == CheckQuit || (l.phase == AtPoll && l.iterations >= 2))))
    ==> Signalled(l)
  }

  ghost predicate QuitIsSignalled<F>(l: Loop<F>) {
    l.quit && l.phase == AtPoll ==> Signalled(l)
  }

  ghost predicate Inv<F>(l: Loop<F>) {
    Conserved(l) && Shape(l) && ReadsAreDue(l) && WorkIsSignalled(l) && QuitIsSignalled(l)
  }

  lemma InitInv<F>(owner: ThreadId)
    ensures Inv(Init<F>(owner))
  {
  }

  lemma ConcatAssociates<F>(a: seq<F>, b: seq<F>, c: seq<F>)
    ensures a + b + c == a + (b + c)
  {
  }

  /** A push goes to the end of the work to do, the next functor comes off its front, and nothing else changes it. */
  lemma StepTodo<F>(l: Loop<F>, a: Action<F>)
    requires Conserved(l) && Enabled(l, a)
    ensures Next(l, a).next <= |Next(l, a).batch|
    ensures Next(l, a).Todo() == match a
                                 case Queue(_, f) => l.Todo() + [f]
                                 case BeginFunctor => l.Todo()[1..]
                                 case _ => l.Todo()
    ensures a.BeginFunctor? ==> l.Todo() != [] && l.Todo()[0] == l.batch[l.next]
  {
    var l' := Next(l, a);
    match a
    case Queue(t, f) => assert l'.Todo() == l.Todo() + [f];
    case Swap => assert l'.Todo() == l.Todo();
    case BeginFunctor => assert l.Todo() == [l.batch[l.next]] + l'.Todo();
    case EndBatch => assert l'.Todo() == l.Todo();
    case _ =>
  }

  lemma StepConserves<F>(l: Loop<F>, a: Action<F>)
    requires Conserved(l) && Shape(l) && Enabled(l, a)
    ensures Conserved(Next(l, a))
  {
    StepTodo(l, a);
    match a
    case Queue(_, f) => ConcatAssociates(l.executed, l.Todo(), [f]);
    case BeginFunctor =>
      var f := l.batch[l.next];
      assert l.Todo() == [f] + l.Todo()[1..];
      ConcatAssociates(l.executed, [f], l.Todo()[1..]);
    case _ =>
  }

  lemma StepKeepsShape<F>(l: Loop<F>, a: Action<F>)
    requires Inv(l) && Enabled(l, a)
    ensures Shape(Next(l, a)) && WorkIsSignalled(Next(l, a)) && QuitIsSignalled(Next(l, a))
  {
  }

  lemma StepKeepsReads<F>(l: Loop<F>, a: Action<F>)
    requires Inv(l) && Enabled(l, a)
    ensures ReadsAreDue(Next(l, a))
  {
    if a.EndEvent? {
      var active := l.phase.active;
      assert active == [active[0]] + active[1..];
      assert multiset(active) == multiset{active[0]} + multiset(active[1..]);
    }
  }

  lemma StepInv<F>(l: Loop<F>, a: Action<F>)
    requires Inv(l) && Enabled(l, a)
    ensures Inv(Next(l, a))
  {
    StepConserves(l, a);
    StepKeepsShape(l, a);
    StepKeepsReads(l, a);
  }

  lemma {:induction false} RunInv<F>(l: Loop<F>, run: seq<Action<F>>)
    requires Inv(l) && IsRun(l, run)
    ensures Inv(After(l, run))
    decreases |run|
  {
    if run != [] {
      StepInv(l, run[0]);
      RunInv(Next(l, run[0]), run[1..]);
    }
  }

  // ----- no lost wakeup -----

  /** A call made by some thread other than the owner. */
  predicate IsForeign<F>(owner: ThreadId, a: Action<F>) {
    (a.Queue? || a.Quit?) && a.t != owner
  }

  ghost predicate CalledFromOutside<F>(owner: ThreadId, run: seq<Action<F>>) {
    exists k :: 0 <= k < |run| && IsForeign(owner, run[k])
  }

  ghost predicate QueuesWork<F>(run: seq<Action<F>>) {
    exists k :: 0 <= k < |run| && run[k].Queue?
  }

  /** Up to and including the first `poll`. */
  predicate Early<F>(l: Loop<F>) {
    || l.phase == NotStarted
    || (l.phase == CheckQuit && l.iterations == 0)
    || (l.phase == AtPoll && l.iterations == 1)
  }

  lemma {:induction false} LateStays<F>(l: Loop<F>, run: seq<Action<F>>)
    requires Inv(l) && !Early(l) && l.phase != NotStarted && IsRun(l, run)
    requires l.phase == Exited || l.iterations >= 1
    ensures !Early(After(l, run))
    decreases |run|
  {
    if run != [] {
      StepInv(l, run[0]);
      LateStays(Next(l, run[0]), run[1..]);
    }
  }

  lemma {:induction false} EarlySignals<F>(l: Loop<F>, run: seq<Action<F>>)
    requires Inv(l) && Early(l) && IsRun(l, run) && Early(After(l, run))
    ensures Signalled(After(l, run)) <==> Signalled(l) || CalledFromOutside(l.owner, run)
    ensures After(l, run).pending != [] <==> l.pending != [] || QueuesWork(run)
    decreases |run|
  {
    if run != [] {
      var a, rest := run[0], run[1..];
      var l' := Next(l, a);
      StepInv(l, a);
      if !Early(l') { LateStays(l', rest); }
      EarlySignals(l', rest);
      assert run == [a] + rest;
      assert CalledFromOutside(l.owner, run) <==> IsForeign(l.owner, a) || CalledFromOutside(l.owner, rest) by {
        if CalledFromOutside(l.owner, rest) {
          var k :| 0 <= k < |rest| && IsForeign(l.owner, rest[k]);
          assert run[k + 1] == rest[k];
        }
      }
      assert QueuesWork(run) <==> a.Queue? || QueuesWork(rest) by {
        if QueuesWork(rest) {
          var k :| 0 <= k < |rest| && rest[k].Queue?;
          assert run[k + 1] == rest[k];
        }
      }
    }
  }

  /**
   No lost wakeup, for every interleaving of any number of threads. The loop sleeps on work it
   has not been told of in one situation only: its first `poll`, when the owner queued functors
   before starting it and no other thread has called since.
  */
  lemma StuckExactlyWhen<F>(owner: ThreadId, run: seq<Action<F>>)
    requires IsRun(Init(owner), run)
    ensures var l := After(Init(owner), run);
            l.Stuck() <==> && l.phase == AtPoll && l.iterations == 1
                           && QueuesWork(run) && !CalledFromOutside(owner, run)
  {
    InitInv<F>(owner);
    RunInv(Init(owner), run);
    if Early(After(Init<F>(owner), run)) {
      EarlySignals(Init(owner), run);
    }
  }

  lemma RunOfOne<F>(l: Loop<F>, a: Action<F>)
    requires Enabled(l, a)
    ensures IsRun(l, [a]) && After(l, [a]) == Next(l, a)
  {
    assert [a][1..] == [];
  }

  /** Such a run: the owner queues a functor, starts the loop, and polls. */
  lemma QueuedBeforeStartIsStuck<F>(owner: ThreadId, f: F)
    ensures var run := [Queue(owner, f)] + [Start] + [TestQuit];
            IsRun(Init(owner), run) && After(Init(owner), run).Stuck()
  {
    RunOfOne(Init(owner), Queue(owner, f));
    RunExtends(Init(owner), [Queue(owner, f)], Start);
    RunExtends(Init(owner), [Queue(owner, f)] + [Start], TestQuit);
  }

  // ----- two stretches of a run -----

  /** From the start to the callback of a channel. */
  function Opening<F>(event: Event): seq<Action<F>> {
    [Start] + [TestQuit] + [PollReturn([event])] + [BeginEvent]
  }

  /** In the callback of a channel, with nothing queued. */
  predicate InCallback<F>(l: Loop<F>) {
    && l.phase.Dispatch? && |l.phase.active| == 1 && l.busy && !l.quit && !l.calling
    && l.counter == 0 && l.due == {} && l.pending == [] && l.batch == [] && l.next == 0
  }

  lemma OpeningRuns<F>(owner: ThreadId, event: Event)
    requires event != WakeupEvent
    ensures IsRun(Init<F>(owner), Opening(event))
    ensures var l := After(Init<F>(owner), Opening(event)); InCallback(l) && l.owner == owner
  {
    var l := Init<F>(owner);
    RunOfOne(l, Start);
    RunExtends(l, [Start], TestQuit);
    RunExtends(l, [Start] + [TestQuit], PollReturn([event]));
    RunExtends(l, [Start] + [TestQuit] + [PollReturn([event])], BeginEvent);
  }

  /** From one callback to a callback of the next iteration. */
  function NextIteration<F>(event: Event): seq<Action<F>> {
    [EndEvent] + [EndDispatch] + [Swap] + [EndBatch] + [TestQuit] + [PollReturn([event])] + [BeginEvent]
  }

  lemma IterationEnds<F>(l: Loop<F>)
    requires InCallback(l)
    ensures var run := [EndEvent] + [EndDispatch] + [Swap] + [EndBatch];
            IsRun(l, run) && After(l, run) == l.(phase := CheckQuit, busy := false)
  {
    RunOfOne(l, EndEvent);
    RunExtends(l, [EndEvent], EndDispatch);
    RunExtends(l, [EndEvent] + [EndDispatch], Swap);
    RunExtends(l, [EndEvent] + [EndDispatch] + [Swap], EndBatch);
  }

  lemma NextIterationRuns<F>(l: Loop<F>, event: Event)
    requires InCallback(l) && event != WakeupEvent
    ensures IsRun(l, NextIteration(event))
    ensures var l' := After(l, NextIteration(event)); InCallback(l') && l'.owner == l.owner
  {
    IterationEnds(l);
    var run := [EndEvent] + [EndDispatch] + [Swap] + [EndBatch];
    RunExtends(l, run, TestQuit);
    RunExtends(l, run + [TestQuit], PollReturn([event]));
    RunExtends(l, run + [TestQuit] + [PollReturn([event])], BeginEvent);
  }

  // ----- reads of the eventfd -----

  /** `handleRead` is called only with a positive counter, so the assertion on line 141 holds. */
  lemma HandleReadNeverBlocks<F>(owner: ThreadId, run: seq<Action<F>>)
    requires IsRun(Init(owner), run)
    ensures var l := After(Init(owner), run);
            Enabled(l, BeginEvent) && l.phase.active[0] == WakeupEvent ==> l.counter > 0
  {
    InitInv<F>(owner);
    RunInv(Init(owner), run);
  }

  /** What the eventfd holds after a run: one for each wakeup since `handleRead` was last called. */
  ghost function WakeupsSinceRead<F>(l: Loop<F>, run: seq<Action<F>>, before: nat): nat
    requires IsRun(l, run)
    decreases |run|
  {
    if run == [] then before
    else
      var now := if run[0].Wake? then before + 1
                 else if run[0].BeginEvent? && l.phase.active[0] == WakeupEvent then 0 else before;
      WakeupsSinceRead(Next(l, run[0]), run[1..], now)
  }

  lemma {:induction false} CounterCountsWakeups<F>(l: Loop<F>, run: seq<Action<F>>)
    requires IsRun(l, run)
    ensures After(l, run).counter == WakeupsSinceRead(l, run, l.counter)
    decreases |run|
  {
    if run != [] { CounterCountsWakeups(Next(l, run[0]), run[1..]); }
  }

  // ----- no lost quit -----

  /** Once the loop is running, a quit is never slept through. */
  lemma QuitNeverSleeps<F>(owner: ThreadId, run: seq<Action<F>>)
    requires IsRun(Init(owner), run)
    ensures var l := After(Init(owner), run);
            l.quit && l.phase == AtPoll ==> l.counter > 0 || l.due != {}
  {
    InitInv<F>(owner);
    RunInv(Init(owner), run);
  }

  /** After a quit the current iteration is the last one. */
  lemma {:induction false} QuitEndsIterations<F>(l: Loop<F>, run: seq<Action<F>>)
    requires l.quit && l.phase != NotStarted && IsRun(l, run)
    ensures After(l, run).quit && After(l, run).iterations == l.iterations
    decreases |run|
  {
    if run != [] {
      QuitEndsIterations(Next(l, run[0]), run[1..]);
    }
  }

  /** Some quit came after every start. */
  ghost predicate QuitStands<F>(run: seq<Action<F>>) {
    exists k :: 0 <= k < |run| && run[k].Quit? && Start !in run[k..]
  }

  lemma QuitStandsFront<F>(a: Action<F>, rest: seq<Action<F>>)
    ensures QuitStands([a] + rest) <==> QuitStands(rest) || (a.Quit? && Start !in rest)
  {
    var run := [a] + rest;
    assert run[0..] == run && run[1..] == rest;
    if QuitStands(run) {
      var k :| 0 <= k < |run| && run[k].Quit? && Start !in run[k..];
      if k > 0 { assert rest[k - 1] == run[k] && rest[k - 1..] == run[k..]; }
    }
    if QuitStands(rest) {
      var k :| 0 <= k < |rest| && rest[k].Quit? && Start !in rest[k..];
      assert run[k + 1] == rest[k] && run[k + 1..] == rest[k..];
    }
    if a.Quit? && Start !in rest { assert run[0].Quit? && Start !in run[0..]; }
  }

  /** A quit is forgotten exactly when the loop is started after it: line 69 clears the flag. */
  lemma {:induction false} QuitIsKeptExactlyWhen<F>(l: Loop<F>, run: seq<Action<F>>)
    requires IsRun(l, run)
    ensures After(l, run).quit <==> QuitStands(run) || (l.quit && Start !in run)
    decreases |run|
  {
    if run != [] {
      QuitIsKeptExactlyWhen(Next(l, run[0]), run[1..]);
      assert run == [run[0]] + run[1..];
      QuitStandsFront(run[0], run[1..]);
    }
  }

  lemma {:induction false} ExitedHasQuit<F>(l: Loop<F>, run: seq<Action<F>>)
    requires IsRun(l, run) && (l.phase == Exited ==> l.quit)
    ensures After(l, run).phase == Exited ==> After(l, run).quit
    decreases |run|
  {
    if run != [] { ExitedHasQuit(Next(l, run[0]), run[1..]); }
  }

  /** The loop is left on a quit that came after its start, and for no other reason. */
  lemma ExitsOnlyOnQuit<F>(owner: ThreadId, run: seq<Action<F>>)
    requires IsRun(Init(owner), run) && After(Init(owner), run).phase == Exited
    ensures QuitStands(run)
  {
    ExitedHasQuit(Init(owner), run);
    QuitIsKeptExactlyWhen(Init(owner), run);
  }

  /** What the owner does next, when it may: `poll` returns with what there is to read on the eventfd. */
  function OwnerStep<F>(l: Loop<F>): Action<F>
    requires l.phase != Exited
  {
    match l.phase
    case NotStarted => Start
    case CheckQuit => TestQuit
    case AtPoll => PollReturn(if l.counter > 0 then [WakeupEvent] else [])
    case Dispatch(active) => if active == [] then EndDispatch else if l.busy then EndEvent else BeginEvent
    case BeforeSwap => Swap
    case RunBatch => if l.busy then EndFunctor else if l.next < |l.batch| then BeginFunctor else EndBatch
  }

  /** A loop that has not exited can always go on, after a wakeup its owner has to write; other threads can always call. */
  lemma NeverDeadlocks<F>(owner: ThreadId, run: seq<Action<F>>, t: ThreadId, f: F)
    requires IsRun(Init(owner), run)
    ensures var l := After(Init(owner), run);
            && (l.phase != Exited ==> Enabled(l, if OwnerFree(l) then OwnerStep(l) else Wake(l.owner)))
            && (t != owner ==> if t in l.due then Enabled(l, Wake(t)) else Enabled(l, Queue(t, f)) && Enabled(l, Quit(t)))
  {
    InitInv<F>(owner);
    RunInv(Init(owner), run);
    OwnerIsKept(Init(owner), run);
  }

  lemma {:induction false} OwnerIsKept<F>(l: Loop<F>, run: seq<Action<F>>)
    requires IsRun(l, run)
    ensures After(l, run).owner == l.owner
    decreases |run|
  {
    if run != [] { OwnerIsKept(Next(l, run[0]), run[1..]); }
  }

  // ----- every active channel is handled -----

  /** The events whose handling begins in a run, in order. */
  ghost function Handled<F>(l: Loop<F>, run: seq<Action<F>>): seq<Event>
    requires IsRun(l, run)
    decreases |run|
  {
    if run == [] then []
    else (if run[0].BeginEvent? then [l.phase.active[0]] else []) + Handled(Next(l, run[0]), run[1..])
  }

  /** The run ends where the loop is about to swap its queue, for the first time. */
  ghost predicate EndsAtSwap<F>(l: Loop<F>, run: seq<Action<F>>)
    requires IsRun(l, run)
    decreases |run|
  {
    run != [] &&
    var l' := Next(l, run[0]);
    if l'.phase == BeforeSwap then |run| == 1 else EndsAtSwap(l', run[1..])
  }

  /** The rest of the active list, without the channel that is being handled. */
  function Unhandled<F>(l: Loop<F>): seq<Event>
    requires l.phase.Dispatch? && (l.busy ==> l.phase.active != [])
  {
    if l.busy then l.phase.active[1..] else l.phase.active
  }

  lemma DispatchStep<F>(l: Loop<F>, a: Action<F>)
    requires Shape(l) && l.phase.Dispatch? && Enabled(l, a)
    ensures !a.BeginFunctor?
    ensures var l' := Next(l, a);
            if l'.phase == BeforeSwap then Unhandled(l) == [] && !a.BeginEvent?
            else
              && l'.phase.Dispatch? && (l'.busy ==> l'.phase.active != [])
              && Unhandled(l) == (if a.BeginEvent? then [l.phase.active[0]] else []) + Unhandled(l')
  {
  }

  lemma {:induction false} DispatchHandles<F>(l: Loop<F>, run: seq<Action<F>>)
    requires Inv(l) && l.phase.Dispatch? && IsRun(l, run) && EndsAtSwap(l, run)
    ensures Handled(l, run) == Unhandled(l) && BeginFunctor !in run
    decreases |run|
  {
    var l' := Next(l, run[0]);
    StepInv(l, run[0]);
    DispatchStep(l, run[0]);
    hide Next, Enabled, Unhandled, Conserved, ReadsAreDue, WorkIsSignalled, QuitIsSignalled;
    if l'.phase != BeforeSwap { DispatchHandles(l', run[1..]); }
  }

  /**
   Whatever `poll` reports is handled, under any interleaving: between its return and the next batch
   of functors, the handling of exactly the active channels begins, each once and in their order.
  */
  lemma ActiveChannelsAreHandled<F>(owner: ThreadId, run: seq<Action<F>>, active: seq<Event>, more: seq<Action<F>>)
    requires IsRun(Init(owner), run) && Enabled(After(Init(owner), run), PollReturn(active))
    requires var l := Next(After(Init(owner), run), PollReturn(active)); IsRun(l, more) && EndsAtSwap(l, more)
    ensures var l := Next(After(Init(owner), run), PollReturn(active));
            Handled(l, more) == active && BeginFunctor !in more
  {
    InitInv<F>(owner);
    RunInv(Init(owner), run);
    var l := After(Init<F>(owner), run);
    StepInv(l, PollReturn(active));
    DispatchHandles(Next(l, PollReturn(active)), more);
  }

  // ----- conservation and order of functors -----

  /** In every reachable state: executed, then the rest of the batch, then the queue, is the push history. */
  lemma FunctorsAreConserved<F>(owner: ThreadId, run: seq<Action<F>>)
    requires IsRun(Init(owner), run)
    ensures var l := After(Init(owner), run);
            l.next <= |l.batch| && l.executed + l.batch[l.next..] + l.pending == l.pushed
  {
    hide IsRun, After, ReadsAreDue, WorkIsSignalled, QuitIsSignalled;
    InitInv<F>(owner);
    RunInv(Init(owner), run);
    var l := After(Init<F>(owner), run);
    ConcatAssociates(l.executed, l.batch[l.next..], l.pending);
  }

  /** `l'` is in the same batch as `l`, having begun only functors of that batch. */
  ghost predicate SameBatch<F>(l: Loop<F>, l': Loop<F>) {
    && l.phase == RunBatch && l'.phase == RunBatch
    && l'.batch == l.batch && l.next <= l'.next <= |l.batch|
    && l'.executed == l.executed + l.batch[l.next..l'.next]
    && l.pushed <= l'.pushed && l'.pending == l.pending + l'.pushed[|l.pushed|..]
  }

  lemma SameBatchStep<F>(l: Loop<F>, a: Action<F>)
    requires Inv(l) && l.phase == RunBatch && Enabled(l, a) && a != EndBatch
    ensures SameBatch(l, Next(l, a))
  {
  }

  lemma SameBatchTrans<F>(l: Loop<F>, l1: Loop<F>, l2: Loop<F>)
    requires SameBatch(l, l1) && SameBatch(l1, l2)
    ensures SameBatch(l, l2)
  {
    assert l.batch[l.next..l2.next] == l.batch[l.next..l1.next] + l.batch[l1.next..l2.next];
    assert l2.pushed[|l.pushed|..] == l1.pushed[|l.pushed|..] + l2.pushed[|l1.pushed|..];
  }

  /**
   A batch is what the swap took: however its functors requeue themselves and whatever other
   threads push, it executes only those functors, and everything pushed meanwhile waits in the queue.
  */
  lemma {:induction false} BatchIsFixed<F>(l: Loop<F>, run: seq<Action<F>>)
    requires Inv(l) && l.phase == RunBatch && IsRun(l, run) && EndBatch !in run
    ensures SameBatch(l, After(l, run))
    decreases |run|
  {
    if run != [] {
      var l1 := Next(l, run[0]);
      StepInv(l, run[0]);
      SameBatchStep(l, run[0]);
      BatchIsFixed(l1, run[1..]);
      SameBatchTrans(l, l1, After(l, run));
    }
  }

  /** How far an iteration has come with the functors `p` that were pushed before it. */
  ghost predicate Reaches<F>(l: Loop<F>, p: seq<F>) {
    && l.next <= |l.batch|
    && p <= l.pushed
    && (l.phase == RunBatch ==> p <= l.executed + l.batch[l.next..])
    && (l.phase == CheckQuit || l.phase == Exited ==> p <= l.executed)
  }

  lemma FunctorReaches<F>(l: Loop<F>, p: seq<F>)
    requires Reaches(l, p) && Enabled(l, BeginFunctor)
    ensures Reaches(Next(l, BeginFunctor), p)
  {
    var l1 := Next(l, BeginFunctor);
    assert l.batch[l.next..] == [l.batch[l.next]] + l1.batch[l1.next..];
    ConcatAssociates(l.executed, [l.batch[l.next]], l1.batch[l1.next..]);
  }

  lemma SwapReaches<F>(l: Loop<F>, p: seq<F>)
    requires Conserved(l) && Reaches(l, p) && Enabled(l, Swap)
    ensures Reaches(Next(l, Swap), p)
  {
    var l1 := Next(l, Swap);
    assert l1.batch[l1.next..] == l.pending == l.Todo();
  }

  lemma StepReaches<F>(l: Loop<F>, a: Action<F>, p: seq<F>)
    requires Inv(l) && Reaches(l, p) && Enabled(l, a) && l.phase != NotStarted
    requires Next(l, a).iterations == l.iterations
    ensures Reaches(Next(l, a), p)
  {
    match a
    case BeginFunctor => FunctorReaches(l, p);
    case Swap => SwapReaches(l, p);
    case _ => hide ReadsAreDue, WorkIsSignalled, QuitIsSignalled;
  }

  lemma {:induction false} IterationReaches<F>(l: Loop<F>, run: seq<Action<F>>, p: seq<F>)
    requires Inv(l) && Reaches(l, p) && IsRun(l, run) && l.phase != NotStarted
    requires After(l, run).iterations == l.iterations
    ensures Reaches(After(l, run), p)
    decreases |run|
  {
    if run != [] {
      var l1 := Next(l, run[0]);
      StepInv(l, run[0]);
      IterationsGrow(l, [run[0]]);
      IterationsGrow(l1, run[1..]);
      StepReaches(l, run[0], p);
      IterationReaches(l1, run[1..], p);
    }
  }

  lemma {:induction false} IterationsGrow<F>(l: Loop<F>, run: seq<Action<F>>)
    requires IsRun(l, run)
    ensures l.iterations <= After(l, run).iterations
    decreases |run|
  {
    if run != [] { IterationsGrow(Next(l, run[0]), run[1..]); }
  }

  /** Whatever was queued when `poll` was entered, or before, has run by the end of that iteration. */
  lemma IterationRunsBacklog<F>(l: Loop<F>, run: seq<Action<F>>)
    requires Inv(l) && l.phase == AtPoll && IsRun(l, run)
    requires After(l, run).iterations == l.iterations
    requires After(l, run).phase == CheckQuit || After(l, run).phase == Exited
    ensures l.pushed <= After(l, run).executed
  {
    IterationReaches(l, run, l.pushed);
  }
}
