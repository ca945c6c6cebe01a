/**
 How often `handleClose` runs on a connection of a server: once in the runs in which no read
 callback finds the end of the file in an event with a double-close mask, and exactly in those.
 These runs get past all their assertions.
*/
module ServerCloses {
  import L = LoopMachine
  import G = Registry
  import opened Server
  import opened ServerInvariant
  import opened ServerSteps
  import opened ServerTheorems

  // ----- one event, with all other threads at work -----

  /** The callbacks still to come in the event a thread is handling. */
  function ToCome(s: System, l: LoopId, c: ConnId): seq<G.Callback>
    requires IsHandling(s, l, c)
  {
    s.frames[l].todo
  }

  /** What a step leaves of the event. */
  ghost predicate EventGoesOn(s: System, act: Action, s': System, l: LoopId, c: ConnId)
    requires IsHandling(s, l, c) && c in s.conns
  {
    && IsHandling(s', l, c) && c in s'.conns
    && if act.RunCallback? && act.l == l && ToCome(s, l, c) != [] then
         var closes := ClosesNow(ToCome(s, l, c)[0], act.endOfFile);
         && ToCome(s', l, c) == ToCome(s, l, c)[1..]
         && s'.conns[c].muted == (s.conns[c].muted || closes)
         && s'.conns[c].closes == s.conns[c].closes + if closes then 1 else 0
       else
         && ToCome(s', l, c) == ToCome(s, l, c)
         && s'.conns[c].muted == s.conns[c].muted && s'.conns[c].closes == s.conns[c].closes
  }

  lemma OwnStepGoesOn(s: System, act: Action, l: LoopId, c: ConnId)
    requires IsHandling(s, l, c) && c in s.conns && Enabled(s, act)
    requires act == Remove(l) || act == PostDestroy(l) || (act.RunCallback? && act.l == l)
    ensures EventGoesOn(s, act, Next(s, act), l, c)
  {
    hide L.Enabled, L.Next;
  }

  /** A thread that is in no event of `c`, and does not destroy it, leaves the event alone. */
  lemma OtherStepGoesOn(s: System, act: Action, l: LoopId, c: ConnId)
    requires IsHandling(s, l, c) && c in s.conns && Enabled(s, act) && s.nextId !in s.conns
    requires !IsLoopAction(act) && !IsUserAction(act) && act != Accept
    requires var t := ThreadOf(s, act); t != l && t in s.frames && !IsHandling(s, t, c) && s.frames[t] != Destroying(c)
    ensures EventGoesOn(s, act, Next(s, act), l, c)
  {
    hide L.Enabled, L.Next;
  }

  lemma LoopActionGoesOn(s: System, act: Action, l: LoopId, c: ConnId)
    requires IsHandling(s, l, c) && c in s.conns && Enabled(s, act)
    requires IsLoopAction(act) && act != EndEvent(l)
    ensures EventGoesOn(s, act, Next(s, act), l, c)
  {
    hide L.Enabled, L.Next, CanReport, G.Callbacks;
  }

  lemma AcceptGoesOn(s: System, l: LoopId, c: ConnId)
    requires IsHandling(s, l, c) && c in s.conns && CanAccept(s) && s.nextId !in s.conns
    ensures EventGoesOn(s, Accept, Accepts(s), l, c)
  {
  }

  lemma UserActionGoesOn(s: System, act: Action, l: LoopId, c: ConnId)
    requires IsHandling(s, l, c) && c in s.conns && IsUserAction(act) && Enabled(s, act)
    ensures EventGoesOn(s, act, Next(s, act), l, c)
  {
    hide IsDestructed;
  }

  /** Only the connection's own loop is ever inside its events, or destroys it. */
  lemma OthersAreElsewhere(s: System, l: LoopId, t: LoopId, c: ConnId)
    requires FrameOK(s, l) && FrameOK(s, t) && IsHandling(s, l, c) && t != l
    ensures !IsHandling(s, t, c) && s.frames[t] != Destroying(c)
  {
  }

  lemma StepGoesOn(s: System, act: Action, l: LoopId, c: ConnId)
    requires Inv(s) && Enabled(s, act) && l in s.loops && IsHandling(s, l, c) && act != EndEvent(l)
    ensures c in s.conns && EventGoesOn(s, act, Next(s, act), l, c)
  {
    hide FrameOK, TodoOK, ActiveOK, L.Inv, EventGoesOn, Next;
    assert LoopOK(s, l);
    LivingFrame(s, l);
    FreshId(s);
    if IsLoopAction(act) { LoopActionGoesOn(s, act, l, c); }
    else if IsUserAction(act) { UserActionGoesOn(s, act, l, c); }
    else if act == Accept { AcceptStep(s, l, c); }
    else if ThreadOf(s, act) == l { OwnStep(s, act, l, c); }
    else {
      var t := ThreadOf(s, act);
      assert LoopOK(s, t);
      OthersAreElsewhere(s, l, t, c);
      OtherStepGoesOn(s, act, l, c);
    }
  }

  lemma AcceptStep(s: System, l: LoopId, c: ConnId)
    requires IsHandling(s, l, c) && c in s.conns && Enabled(s, Accept) && s.nextId !in s.conns
    ensures EventGoesOn(s, Accept, Next(s, Accept), l, c)
  {
    AcceptGoesOn(s, l, c);
  }

  lemma OwnStep(s: System, act: Action, l: LoopId, c: ConnId)
    requires IsHandling(s, l, c) && c in s.conns && Enabled(s, act) && ThreadOf(s, act) == l
    requires !IsLoopAction(act) && !IsUserAction(act) && act != Accept
    ensures EventGoesOn(s, act, Next(s, act), l, c)
  {
    OwnStepGoesOn(s, act, l, c);
  }

  // ----- how far an event has come -----

  /**
   `k` callbacks of the event have run; the connection is closed if the close callback was one of
   them, and only if it or the read callback was.
  */
  ghost predicate Progress(s: System, l: LoopId, c: ConnId, revents: G.Mask, k: nat) {
    var todo := G.Callbacks(revents);
    && IsHandling(s, l, c) && c in s.conns && k <= |todo| && ToCome(s, l, c) == todo[k..]
    && (G.CloseCallback in todo[..k] ==> s.conns[c].muted)
    && (s.conns[c].muted ==> G.CloseCallback in todo[..k] || G.ReadCallback in todo[..k])
  }

  lemma ProgressSteps(s: System, act: Action, s': System, l: LoopId, c: ConnId, revents: G.Mask, k: nat)
    requires Progress(s, l, c, revents, k) && EventGoesOn(s, act, s', l, c)
    ensures exists k' :: Progress(s', l, c, revents, k')
  {
    var todo := G.Callbacks(revents);
    if act.RunCallback? && act.l == l && ToCome(s, l, c) != [] {
      assert todo[..k + 1] == todo[..k] + [todo[k]] && todo[k..][1..] == todo[k + 1..];
      assert Progress(s', l, c, revents, k + 1);
    } else {
      assert Progress(s', l, c, revents, k);
    }
  }

  lemma {:induction false} EventProgresses(s: System, run: seq<Action>, l: LoopId, c: ConnId, revents: G.Mask)
    requires Inv(s) && l in s.loops && (exists k :: Progress(s, l, c, revents, k))
    requires IsAsserted(s, run) && EndEvent(l) !in run
    ensures Inv(After(s, run)) && l in After(s, run).loops && exists k :: Progress(After(s, run), l, c, revents, k)
    decreases |run|
  {
    if run != [] {
      hide Inv, Enabled, Next, Recloses, EventGoesOn, IsHandling;
      assert run[0] in run && forall act :: act in run[1..] ==> act in run;
      var k :| Progress(s, l, c, revents, k);
      assert IsHandling(s, l, c);
      StepGoesOn(s, run[0], l, c);
      ProgressSteps(s, run[0], Next(s, run[0]), l, c, revents, k);
      StepInv(s, run[0]);
      StaysHandling(s, run[0], l, c);
      EventProgresses(Next(s, run[0]), run[1..], l, c, revents);
    }
  }

  lemma StaysHandling(s: System, act: Action, l: LoopId, c: ConnId)
    requires l in s.loops && Enabled(s, act) && Inv(Next(s, act))
    requires IsHandling(s, l, c) && c in s.conns && EventGoesOn(s, act, Next(s, act), l, c)
    ensures l in Next(s, act).loops
  {
    hide Next, Enabled, MachinesOK, LoopsOK, ConnsOK;
  }

  lemma RepeatsAtRead(s: System, l: LoopId, c: ConnId, revents: G.Mask, k: nat, endOfFile: bool)
    requires Progress(s, l, c, revents, k) && ToCome(s, l, c) != []
    ensures var callback := ToCome(s, l, c)[0];
            ClosesNow(callback, endOfFile) && s.conns[c].muted
            <==> G.DoubleClose(revents) && callback == G.ReadCallback && endOfFile
  {
    var todo := G.Callbacks(revents);
    G.CallbacksExactlyWhen(revents);
    G.DoubleCloseExactlyWhen(revents);
    hide G.Callbacks, G.DoubleClose;
    var callback := todo[k];
    assert ToCome(s, l, c)[0] == callback;
    assert forall j :: 0 <= j < k ==> todo[..k][j] == todo[j] && G.Place(todo[j]) < G.Place(callback);
    if callback == G.ReadCallback && G.CloseCallback in todo {
      var j :| 0 <= j < |todo| && todo[j] == G.CloseCallback;
      assert j < k && todo[..k][j] == G.CloseCallback;
    }
  }

  lemma EventStarts(s: System, l: LoopId, revents: G.Mask)
    requires LoopOK(s, l) && ConnsOK(s) && CanBeginEvent(s, l, revents)
    requires IsConnEvent(s.loops[l].phase.active[0])
    ensures Progress(BegunEvent(s, l, revents), l, s.loops[l].phase.active[0].channel, revents, 0)
  {
    var c := s.loops[l].phase.active[0].channel;
    assert c in s.conns && s.conns[c].stage == SLive;
    assert ConnOK(s, c);
    hide L.Next, TodoOK, FrameOK;
    assert G.Callbacks(revents)[0..] == G.Callbacks(revents);
  }

  /** Before a callback that can close the connection, it has been closed once at most. */
  lemma ClosesAreMuted(s: System, l: LoopId, c: ConnId)
    requires ConnOK(s, c) && FrameOK(s, l) && s.frames[l].Handling? && s.frames[l].c == c && s.frames[l].todo != []
    requires s.frames[l].todo[0].CloseCallback? || s.frames[l].todo[0].ReadCallback?
    ensures s.conns[c].closes == if s.conns[c].muted then 1 else 0
  {
  }

  lemma HandlingIts(s: System, l: LoopId, c: ConnId, revents: G.Mask, k: nat)
    requires Progress(s, l, c, revents, k) && CanRunCallback(s, l)
    ensures IsHandling(s, l, c) && s.frames[l].Handling? && s.frames[l].c == c && c in s.conns && ToCome(s, l, c) != []
  {
  }

  /**
   The next callback of the event, about connection `c`, runs `handleClose` for the second time
   exactly when it is the read callback finding the end of the file, in an event with such a mask.
  */
  ghost predicate ClosesTwiceOnlyThere(s: System, l: LoopId, c: ConnId, revents: G.Mask, endOfFile: bool, drained: bool)
    requires CanRunCallback(s, l)
  {
    var act := RunCallback(l, endOfFile, drained);
    var twice := G.DoubleClose(revents) && s.frames[l].todo[0] == G.ReadCallback && endOfFile;
    && s.frames[l].c == c && c in s.conns && c in AfterCallback(s, l, endOfFile, drained).conns
    && (Recloses(s, act) <==> twice)
    && (s.conns[c].closes <= 1 && AfterCallback(s, l, endOfFile, drained).conns[c].closes > 1 <==> twice)
  }

  lemma CountsCloses(s: System, l: LoopId, c: ConnId, revents: G.Mask, k: nat, endOfFile: bool, drained: bool)
    requires ConnOK(s, c) && FrameOK(s, l) && CanRunCallback(s, l) && Progress(s, l, c, revents, k)
    ensures ClosesTwiceOnlyThere(s, l, c, revents, endOfFile, drained)
  {
    HandlingIts(s, l, c, revents, k);
    RepeatsAtRead(s, l, c, revents, k, endOfFile);
    if s.frames[l].todo[0].CloseCallback? || s.frames[l].todo[0].ReadCallback? { ClosesAreMuted(s, l, c); }
    hide ConnOK, FrameOK, Progress, G.DoubleClose, G.Callbacks;
    OwnStepGoesOn(s, RunCallback(l, endOfFile, drained), l, c);
    hide AfterCallback;
  }

  lemma EventIsReached(s0: System, run: seq<Action>, l: LoopId, revents: G.Mask)
    requires IsInit(s0) && IsAsserted(s0, run) && Enabled(After(s0, run), BeginEvent(l, revents))
    requires IsConnEvent(After(s0, run).loops[l].phase.active[0])
    ensures var s := After(s0, run);
            var s1 := Next(s, BeginEvent(l, revents));
            Inv(s1) && l in s1.loops && Progress(s1, l, s.loops[l].phase.active[0].channel, revents, 0)
  {
    ReachableInv(s0, run);
    var s := After(s0, run);
    assert LoopOK(s, l);
    EventStarts(s, l, revents);
    StepInv(s, BeginEvent(l, revents));
    hide BegunEvent, Inv, LoopOK, Progress, CanBeginEvent;
    BeginKeepsLoops(s, l, revents);
  }

  lemma BeginKeepsLoops(s: System, l: LoopId, revents: G.Mask)
    requires CanBeginEvent(s, l, revents)
    ensures l in BegunEvent(s, l, revents).loops
  {
  }

  /**
   In every run of a server, whatever the other threads do during the event: a callback of an event
   with mask `revents` runs `handleClose` a second time exactly when the mask is a hang-up without
   input paired with priority data or a half-close, and it is the read callback that finds the end
   of the file.
  */
  lemma ClosesTwiceExactlyWhen(s0: System, run: seq<Action>, l: LoopId, revents: G.Mask, more: seq<Action>, endOfFile: bool, drained: bool)
    requires IsInit(s0) && IsAsserted(s0, run) && Enabled(After(s0, run), BeginEvent(l, revents))
    requires IsConnEvent(After(s0, run).loops[l].phase.active[0])
    requires IsAsserted(Next(After(s0, run), BeginEvent(l, revents)), more) && EndEvent(l) !in more
    requires CanRunCallback(After(Next(After(s0, run), BeginEvent(l, revents)), more), l)
    ensures var c := After(s0, run).loops[l].phase.active[0].channel;
            var s := After(Next(After(s0, run), BeginEvent(l, revents)), more);
            ClosesTwiceOnlyThere(s, l, c, revents, endOfFile, drained)
  {
    hide Next, Inv, Progress, ClosesTwiceOnlyThere, CanRunCallback;
    var c := After(s0, run).loops[l].phase.active[0].channel;
    EventIsReached(s0, run, l, revents);
    var s1 := Next(After(s0, run), BeginEvent(l, revents));
    EventProgresses(s1, more, l, c, revents);
    ReachedEvent(After(s1, more), l, c, revents, endOfFile, drained);
  }

  lemma ReachedEvent(s: System, l: LoopId, c: ConnId, revents: G.Mask, endOfFile: bool, drained: bool)
    requires Inv(s) && CanRunCallback(s, l) && exists k :: Progress(s, l, c, revents, k)
    ensures ClosesTwiceOnlyThere(s, l, c, revents, endOfFile, drained)
  {
    hide ClosesTwiceOnlyThere, MachinesOK, CanRunCallback, ConnOK, FrameOK, TodoOK, ActiveOK;
    assert LoopOK(s, l) && ConnOK(s, c);
    var k :| Progress(s, l, c, revents, k);
    CountsCloses(s, l, c, revents, k, endOfFile, drained);
  }

  // ----- whole runs -----

  /** The mask of the event each thread began last. */
  type Masks = map<LoopId, G.Mask>

  function Noted(masks: Masks, act: Action): Masks {
    if act.BeginEvent? then masks[act.l := act.revents] else masks
  }

  /** A read callback finds the end of the file in an event with a double-close mask. */
  predicate EndsAfterHangUp(s: System, masks: Masks, act: Action) {
    && act.RunCallback? && act.endOfFile && CanRunCallback(s, act.l) && s.frames[act.l].todo[0] == G.ReadCallback
    && act.l in masks && G.DoubleClose(masks[act.l])
  }

  ghost predicate IsCalmFrom(s: System, masks: Masks, run: seq<Action>)
    requires IsRun(s, run)
    decreases |run|
  {
    run == [] || (!EndsAfterHangUp(s, masks, run[0]) && IsCalmFrom(Next(s, run[0]), Noted(masks, run[0]), run[1..]))
  }

  /** No read callback of the run finds the end of the file in an event with a double-close mask. */
  ghost predicate IsCalm(s: System, run: seq<Action>)
    requires IsRun(s, run)
  {
    IsCalmFrom(s, map[], run)
  }

  predicate InEvent(frame: Frame) {
    frame.Handling? || frame.Closing? || frame.ErasedInline?
  }

  ghost predicate MasksOK(s: System, masks: Masks) {
    forall l :: l in s.frames && InEvent(s.frames[l]) ==> l in masks && exists k :: Progress(s, l, s.frames[l].c, masks[l], k)
  }

  /** Events come from `BeginEvent` and end with `EndEvent`. */
  lemma EventsBegin(s: System, act: Action, x: LoopId)
    requires Enabled(s, act) && x in Next(s, act).frames
    ensures x in s.frames
    ensures InEvent(Next(s, act).frames[x]) && !(act.BeginEvent? && act.l == x) ==> InEvent(s.frames[x]) && act != EndEvent(x)
    ensures InEvent(Next(s, act).frames[x]) && act.BeginEvent? && act.l == x
            ==> IsConnEvent(s.loops[x].phase.active[0])
                && Next(s, act).frames[x].c == s.loops[x].phase.active[0].channel
  {
    hide L.Enabled, L.Next, CanReport, IsDestructed, G.Callbacks;
  }

  lemma BegunMask(s: System, l: LoopId, revents: G.Mask)
    requires Inv(s) && CanBeginEvent(s, l, revents) && IsConnEvent(s.loops[l].phase.active[0])
    ensures Progress(BegunEvent(s, l, revents), l, s.loops[l].phase.active[0].channel, revents, 0)
  {
    hide Progress, BegunEvent, ConnsOK, LoopOK, MachinesOK;
    assert LoopOK(s, l);
    EventStarts(s, l, revents);
  }

  lemma KeptMask(s: System, act: Action, x: LoopId, revents: G.Mask, k: nat)
    requires Inv(s) && Enabled(s, act) && x in s.frames && InEvent(s.frames[x]) && act != EndEvent(x)
    requires Progress(s, x, s.frames[x].c, revents, k)
    ensures x in Next(s, act).frames && InEvent(Next(s, act).frames[x]) && Next(s, act).frames[x].c == s.frames[x].c
    ensures exists k' :: Progress(Next(s, act), x, s.frames[x].c, revents, k')
  {
    hide MachinesOK, LoopsOK, ConnsOK, Next, Enabled, Progress;
    var c := s.frames[x].c;
    StepGoesOn(s, act, x, c);
    ProgressSteps(s, act, Next(s, act), x, c, revents, k);
  }

  lemma BeginIsNext(s: System, act: Action)
    requires Enabled(s, act) && act.BeginEvent?
    ensures CanBeginEvent(s, act.l, act.revents) && Next(s, act) == BegunEvent(s, act.l, act.revents)
  {
  }

  lemma ThreadMask(s: System, masks: Masks, act: Action, x: LoopId)
    requires Inv(s) && Enabled(s, act) && MasksOK(s, masks) && x in Next(s, act).frames && InEvent(Next(s, act).frames[x])
    ensures x in Noted(masks, act) && exists k :: Progress(Next(s, act), x, Next(s, act).frames[x].c, Noted(masks, act)[x], k)
  {
    hide Inv, Next, Enabled, Progress, BegunEvent;
    EventsBegin(s, act, x);
    if act.BeginEvent? && act.l == x {
      BeginIsNext(s, act);
      BegunMask(s, x, act.revents);
    } else {
      var k :| Progress(s, x, s.frames[x].c, masks[x], k);
      KeptMask(s, act, x, masks[x], k);
    }
  }

  lemma StepMasks(s: System, masks: Masks, act: Action)
    requires Inv(s) && Enabled(s, act) && MasksOK(s, masks)
    ensures MasksOK(Next(s, act), Noted(masks, act))
  {
    hide Inv, Enabled, Next, Progress, Noted;
    forall x | x in Next(s, act).frames && InEvent(Next(s, act).frames[x])
      ensures x in Noted(masks, act) && exists k :: Progress(Next(s, act), x, Next(s, act).frames[x].c, Noted(masks, act)[x], k)
    {
      ThreadMask(s, masks, act, x);
    }
  }

  /** No connection has been closed twice. */
  ghost predicate AllOnce(s: System) {
    forall c :: c in s.conns ==> s.conns[c].closes <= 1
  }

  /** Only a callback counts as a close, and only for its own connection. */
  lemma OthersCount(s: System, act: Action, c: ConnId)
    requires Enabled(s, act) && s.nextId !in s.conns && !(act.RunCallback? && s.frames[act.l].c == c)
    ensures c in s.conns ==> c in Next(s, act).conns && Next(s, act).conns[c].closes == s.conns[c].closes
    ensures c in Next(s, act).conns && c !in s.conns ==> Next(s, act).conns[c].closes == 0
  {
    hide L.Enabled, L.Next, CanReport, IsDestructed, G.Callbacks;
  }

  lemma CallbackIsNext(s: System, act: Action)
    requires Enabled(s, act) && act.RunCallback?
    ensures act.l in s.frames && s.frames[act.l].Handling?
    ensures CanRunCallback(s, act.l) && Next(s, act) == AfterCallback(s, act.l, act.endOfFile, act.drained)
  {
  }

  lemma ItsMask(s: System, masks: Masks, l: LoopId)
    requires MasksOK(s, masks) && CanRunCallback(s, l)
    ensures l in masks && s.frames[l].c in s.conns && exists k :: Progress(s, l, s.frames[l].c, masks[l], k)
  {
    hide Progress;
    assert InEvent(s.frames[l]);
  }

  lemma NeverFewer(s: System, l: LoopId, endOfFile: bool, drained: bool)
    requires CanRunCallback(s, l)
    ensures s.frames[l].c in AfterCallback(s, l, endOfFile, drained).conns
    ensures s.conns[s.frames[l].c].closes <= AfterCallback(s, l, endOfFile, drained).conns[s.frames[l].c].closes
  {
    hide L.Next;
  }

  lemma CallbackOnce(s: System, masks: Masks, act: Action)
    requires Inv(s) && Enabled(s, act) && MasksOK(s, masks) && act.RunCallback?
    ensures s.frames[act.l].c in s.conns && s.frames[act.l].c in Next(s, act).conns
    ensures var c := s.frames[act.l].c;
            && s.conns[c].closes <= Next(s, act).conns[c].closes
            && (s.conns[c].closes <= 1 && Next(s, act).conns[c].closes > 1 <==> EndsAfterHangUp(s, masks, act))
  {
    hide Inv, Enabled, Next, AfterCallback, Progress, MasksOK, CanRunCallback, G.DoubleClose;
    CallbackIsNext(s, act);
    ItsMask(s, masks, act.l);
    NeverFewer(s, act.l, act.endOfFile, act.drained);
    ReachedEvent(s, act.l, s.frames[act.l].c, masks[act.l], act.endOfFile, act.drained);
  }

  /** A step other than a callback counts no close. */
  lemma NoCallbackOnce(s: System, act: Action)
    requires Enabled(s, act) && s.nextId !in s.conns && !act.RunCallback?
    ensures AllOnce(Next(s, act)) <==> AllOnce(s)
  {
    hide Enabled, Next;
    forall c ensures c in s.conns ==> c in Next(s, act).conns && Next(s, act).conns[c].closes == s.conns[c].closes
             ensures c in Next(s, act).conns && c !in s.conns ==> Next(s, act).conns[c].closes == 0
    {
      OthersCount(s, act, c);
    }
  }

  lemma CallbackCounts(s: System, masks: Masks, act: Action)
    requires Inv(s) && Enabled(s, act) && MasksOK(s, masks) && act.RunCallback? && s.nextId !in s.conns
    ensures AllOnce(Next(s, act)) <==> AllOnce(s) && !EndsAfterHangUp(s, masks, act)
  {
    hide Inv, Enabled, Next, MasksOK, AllOnce, EndsAfterHangUp;
    CallbackIsNext(s, act);
    CallbackOnce(s, masks, act);
    var c := s.frames[act.l].c;
    forall d | d != c
      ensures d in s.conns ==> d in Next(s, act).conns && Next(s, act).conns[d].closes == s.conns[d].closes
      ensures d in Next(s, act).conns && d !in s.conns ==> Next(s, act).conns[d].closes == 0
    {
      OthersCount(s, act, d);
    }
    OneAndOthers(s, Next(s, act), c);
  }

  lemma StepOnce(s: System, masks: Masks, act: Action)
    requires Inv(s) && Enabled(s, act) && MasksOK(s, masks)
    ensures AllOnce(Next(s, act)) <==> AllOnce(s) && !EndsAfterHangUp(s, masks, act)
  {
    FreshId(s);
    hide Inv, Enabled, Next, MasksOK, AllOnce;
    if act.RunCallback? { CallbackCounts(s, masks, act); } else { NoCallbackOnce(s, act); }
  }

  lemma OneAndOthers(s: System, s': System, c: ConnId)
    requires c in s.conns && c in s'.conns && s.conns[c].closes <= s'.conns[c].closes
    requires forall d :: d != c && d in s.conns ==> d in s'.conns && s'.conns[d].closes == s.conns[d].closes
    requires forall d :: d != c && d in s'.conns && d !in s.conns ==> s'.conns[d].closes == 0
    ensures AllOnce(s') <==> AllOnce(s) && !(s.conns[c].closes <= 1 && s'.conns[c].closes > 1)
  {
  }

  lemma {:induction false} RunOnce(s: System, masks: Masks, run: seq<Action>)
    requires Inv(s) && MasksOK(s, masks) && IsAsserted(s, run)
    ensures Inv(After(s, run)) && (AllOnce(After(s, run)) <==> AllOnce(s) && IsCalmFrom(s, masks, run))
    decreases |run|
  {
    if run != [] {
      hide Inv, Enabled, Next, AssertionsHold, MasksOK, AllOnce, EndsAfterHangUp, Noted;
      StepOnce(s, masks, run[0]);
      StepMasks(s, masks, run[0]);
      StepInv(s, run[0]);
      RunOnce(Next(s, run[0]), Noted(masks, run[0]), run[1..]);
    }
  }

  /** Where nothing has been closed twice, nothing is erased twice. */
  lemma OnceIsSafe(s: System, act: Action)
    requires Inv(s) && Enabled(s, act) && AllOnce(s)
    ensures AssertionsHold(s, act)
  {
    StepAssertions(s, act);
    if ErasesAgain(s, act) { ErasesOnce(s); }
  }

  lemma ErasesOnce(s: System)
    requires Inv(s) && AllOnce(s) && s.base in s.frames
    requires s.frames[s.base].Closing? || s.frames[s.base].Removing?
    ensures s.frames[s.base].c in s.conns && s.conns[s.frames[s.base].c].erases == 0
  {
    hide FrameOK, TodoOK, ActiveOK, MachinesOK, ConnOK;
    assert LoopOK(s, s.base);
    LivingFrame(s, s.base);
    assert ConnOK(s, s.frames[s.base].c);
    ClosedOnceIsErasing(s, s.frames[s.base].c);
  }

  lemma ClosedOnceIsErasing(s: System, c: ConnId)
    requires FrameOK(s, s.base) && ConnOK(s, c) && s.conns[c].closes <= 1
    requires (s.frames[s.base].Closing? || s.frames[s.base].Removing?) && s.frames[s.base].c == c
    ensures s.conns[c].erases == 0
  {
    hide NoticesOK;
  }

  lemma {:induction false} CalmRunsAreAsserted(s: System, masks: Masks, run: seq<Action>)
    requires Inv(s) && MasksOK(s, masks) && AllOnce(s) && IsRun(s, run) && IsCalmFrom(s, masks, run)
    ensures IsAsserted(s, run)
    decreases |run|
  {
    if run != [] {
      hide Inv, Enabled, Next, AssertionsHold, MasksOK, AllOnce, EndsAfterHangUp, Noted;
      OnceIsSafe(s, run[0]);
      StepOnce(s, masks, run[0]);
      StepMasks(s, masks, run[0]);
      StepInv(s, run[0]);
      CalmRunsAreAsserted(Next(s, run[0]), Noted(masks, run[0]), run[1..]);
    }
  }

  lemma InitIsCalm(s: System)
    requires IsInit(s)
    ensures Inv(s) && MasksOK(s, map[]) && AllOnce(s)
  {
    InitInv(s);
    hide Inv;
  }

  /**
   In every run that gets past its assertions, `handleClose` has run at most once for each
   connection exactly when no read callback found the end of the file in an event that reported a
   hang-up without input together with priority data or a half-close.
  */
  lemma ClosesAtMostOnceExactlyWhen(s0: System, run: seq<Action>)
    requires IsInit(s0) && IsAsserted(s0, run)
    ensures (forall c :: c in After(s0, run).conns ==> After(s0, run).conns[c].closes <= 1) <==> IsCalm(s0, run)
  {
    hide Inv, Enabled, Next, AssertionsHold, MasksOK;
    InitIsCalm(s0);
    RunOnce(s0, map[], run);
  }

  /** A calm run passes all its assertions, and so does whatever step comes next. */
  lemma AssertionsNeverFail(s0: System, run: seq<Action>, act: Action)
    requires IsInit(s0) && IsRun(s0, run) && IsCalm(s0, run) && Enabled(After(s0, run), act)
    ensures IsAsserted(s0, run) && AssertionsHold(After(s0, run), act)
  {
    hide Inv, Enabled, Next, AssertionsHold, MasksOK, AllOnce;
    InitIsCalm(s0);
    CalmRunsAreAsserted(s0, map[], run);
    RunOnce(s0, map[], run);
    OnceIsSafe(After(s0, run), act);
  }

  ghost predicate SingleMasks(run: seq<Action>) {
    forall act :: act in run && act.BeginEvent? ==> !G.DoubleClose(act.revents)
  }

  lemma {:induction false} SingleMasksAreCalm(s: System, masks: Masks, run: seq<Action>)
    requires IsRun(s, run) && SingleMasks(run) && forall l :: l in masks ==> !G.DoubleClose(masks[l])
    ensures IsCalmFrom(s, masks, run)
    decreases |run|
  {
    if run != [] {
      hide Enabled, Next, G.DoubleClose;
      assert run[0] in run && forall act :: act in run[1..] ==> act in run;
      SingleMasksAreCalm(Next(s, run[0]), Noted(masks, run[0]), run[1..]);
    }
  }

  /**
   Exactly-once close, on any run whose events report no such combination: `handleClose` runs at
   most once for a connection, the map entry is erased at most once and only after it, every
   assertion on the way holds, and the user sees up, messages, down.
  */
  lemma ClosesAtMostOnce(s0: System, run: seq<Action>, c: ConnId)
    requires IsInit(s0) && IsRun(s0, run) && SingleMasks(run) && c in After(s0, run).conns
    ensures IsAsserted(s0, run)
    ensures var conn := After(s0, run).conns[c];
            conn.erases <= conn.closes <= 1 && NoticesInOrder(conn)
  {
    hide Inv, Enabled, Next, AssertionsHold, MasksOK, NoticesInOrder;
    SingleMasksAreCalm(s0, map[], run);
    InitIsCalm(s0);
    CalmRunsAreAsserted(s0, map[], run);
    ClosesAtMostOnceExactlyWhen(s0, run);
    ErasesAtMostOnce(s0, run, c);
  }
}
