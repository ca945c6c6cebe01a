/**
 The poller's bookkeeping as a value: the dense vector handed to `poll` and, for each
 registered descriptor, the slot its channel believes it sits in. `PollerObject` (in
 Poller.dfy) holds the same data in objects.
*/
module Registry {

  /** The flags of `poll`; an `int` or `short` mask of the source is the set of its flags. */
  datatype Flag = POLLIN | POLLPRI | POLLOUT | POLLERR | POLLHUP | POLLNVAL | POLLRDHUP

  type Mask = set<Flag>

  const NONE_EVENT: Mask := {}
  const READ_EVENT: Mask := {POLLIN, POLLPRI}
  const WRITE_EVENT: Mask := {POLLOUT}

  /** `mask & flags`, as a condition. */
  predicate Has(m: Mask, flags: Mask) {
    m * flags != {}
  }

  datatype PollFd = PollFd(fd: int, events: Mask, revents: Mask) {
    /** The descriptor behind the slot, muted or not. */
    function Owner(): (fd: nat) {
      if this.fd < 0 then -this.fd - 1 else this.fd
    }

    predicate Muted() {
      fd < 0
    }

    /** `revents > 0`. */
    predicate Active() {
      revents != {}
    }
  }

  datatype Registry = Registry(pfds: seq<PollFd>, index: map<nat, int>) {

    /** Slots, descriptors and back-indices are in bijection. */
    ghost predicate Linked() {
      && (forall fd :: fd in index ==> 0 <= index[fd] < |pfds| && pfds[index[fd]].Owner() == fd)
      && (forall i :: 0 <= i < |pfds| ==> pfds[i].Owner() in index && index[pfds[i].Owner()] == i)
    }
  }

  const EMPTY_REGISTRY: Registry := Registry([], map[])

  // ----- operations -----

  function Add(g: Registry, fd: nat, events: Mask): Registry {
    Registry(g.pfds + [PollFd(fd, events, {})], g.index[fd := |g.pfds|])
  }

  /** The sign-encoded form of a descriptor. */
  function Mute(fd: int): int {
    -fd - 1
  }

  /** A slot is muted by an empty mask; nothing turns the sign back. */
  function Update(g: Registry, fd: nat, events: Mask): Registry
    requires g.Linked() && fd in g.index
  {
    var i := g.index[fd];
    g.(pfds := g.pfds[i := PollFd(if events == NONE_EVENT then Mute(fd) else g.pfds[i].fd, events, {})])
  }

  /** The last slot takes the place of the removed one. */
  function Remove(g: Registry, fd: nat): Registry
    requires g.Linked() && fd in g.index
  {
    var i, last := g.index[fd], |g.pfds| - 1;
    if i == last then Registry(g.pfds[..last], g.index - {fd})
    else Registry(g.pfds[i := g.pfds[last]][..last], (g.index - {fd})[g.pfds[last].Owner() := i])
  }

  /** A new slot at the end asks for the interest, and has nothing to report. */
  lemma AddKeepsLinks(g: Registry, fd: nat, events: Mask)
    requires g.Linked() && fd !in g.index
    ensures Add(g, fd, events).Linked()
    ensures var g' := Add(g, fd, events);
            && |g'.pfds| == |g.pfds| + 1 && g'.pfds[..|g.pfds|] == g.pfds
            && var slot := g'.pfds[|g.pfds|]; slot.fd == fd && slot.events == events && slot.revents == {}
  {
  }

  /** The slot asks for the interest, has nothing to report, and is muted if there is none; no other slot changes. */
  lemma UpdateKeepsLinks(g: Registry, fd: nat, events: Mask)
    requires g.Linked() && fd in g.index
    ensures Update(g, fd, events).Linked()
    ensures var g', i := Update(g, fd, events), g.index[fd];
            && g'.index == g.index && |g'.pfds| == |g.pfds|
            && (forall k :: 0 <= k < |g.pfds| && k != i ==> g'.pfds[k] == g.pfds[k])
            && var slot := g'.pfds[i];
               && slot.events == events && slot.revents == {}
               && if events == {} then slot.fd + fd == -1 else slot.fd == g.pfds[i].fd
  {
    var g' := Update(g, fd, events);
    forall i | 0 <= i < |g'.pfds| ensures g'.pfds[i].Owner() == g.pfds[i].Owner() {
    }
  }

  lemma RemoveKeepsLinks(g: Registry, fd: nat)
    requires g.Linked() && fd in g.index
    ensures Remove(g, fd).Linked()
  {
    var g' := Remove(g, fd);
    forall i | 0 <= i < |g'.pfds|
      ensures g'.pfds[i].Owner() in g'.index && g'.index[g'.pfds[i].Owner()] == i
    {
      assert g.pfds[i].Owner() in g.index;
    }
  }

  /** Removal keeps every other descriptor's slot as it was; only the last one is found elsewhere. */
  lemma RemoveMovesLast(g: Registry, fd: nat)
    requires g.Linked() && fd in g.index
    ensures var g' := Remove(g, fd);
            && g'.index.Keys == g.index.Keys - {fd}
            && forall other :: other in g'.index ==>
                 && g'.index[other] == (if g.index[other] == |g.pfds| - 1 then g.index[fd] else g.index[other])
                 && 0 <= g'.index[other] < |g'.pfds|
                 && g'.pfds[g'.index[other]] == g.pfds[g.index[other]]
  {
    assert forall other :: other in g.index ==> g.pfds[g.index[other]].Owner() == other;
  }

  /** As many slots as registered descriptors. */
  lemma {:induction false} SameSize(g: Registry)
    requires g.Linked()
    ensures |g.pfds| == |g.index|
    decreases |g.pfds|
  {
    if g.pfds == [] {
      assert g.index == map[];
    } else {
      var fd := g.pfds[|g.pfds| - 1].Owner();
      RemoveKeepsLinks(g, fd);
      SameSize(Remove(g, fd));
      assert g.index.Keys == (g.index - {fd}).Keys + {fd};
    }
  }

  // ----- the simple form: what each descriptor is registered for -----

  datatype Interest = Interest(events: Mask, muted: bool)

  ghost function Interests(g: Registry): (m: map<nat, Interest>)
    requires g.Linked()
    ensures m.Keys == g.index.Keys
  {
    map fd | fd in g.index :: Interest(g.pfds[g.index[fd]].events, g.pfds[g.index[fd]].Muted())
  }

  datatype Op = AddOp(fd: nat, events: Mask) | UpdateOp(fd: nat, events: Mask) | RemoveOp(fd: nat)

  datatype Outcome<S> = Aborted | Done(state: S)

  /** One call on the vector and the indices, with the assertions of the source. */
  ghost function Step(g: Registry, op: Op): Outcome<Registry>
    requires g.Linked()
  {
    match op
    case AddOp(fd, events) => if fd in g.index then Aborted else Done(Add(g, fd, events))
    case UpdateOp(fd, events) => if fd in g.index then Done(Update(g, fd, events)) else Aborted
    case RemoveOp(fd) =>
      if fd in g.index && g.pfds[g.index[fd]].fd == Mute(fd) && g.pfds[g.index[fd]].events == NONE_EVENT
      then Done(Remove(g, fd)) else Aborted
  }

  /** The same call on the simple form. */
  function SimpleStep(m: map<nat, Interest>, op: Op): Outcome<map<nat, Interest>> {
    match op
    case AddOp(fd, events) => if fd in m then Aborted else Done(m[fd := Interest(events, false)])
    case UpdateOp(fd, events) =>
      if fd in m then Done(m[fd := Interest(events, m[fd].muted || events == NONE_EVENT)]) else Aborted
    case RemoveOp(fd) => if fd in m && m[fd] == Interest(NONE_EVENT, true) then Done(m - {fd}) else Aborted
  }

  lemma RemoveRefines(g: Registry, fd: nat)
    requires g.Linked() && fd in g.index
    ensures Remove(g, fd).Linked() && Interests(Remove(g, fd)) == Interests(g) - {fd}
  {
    RemoveKeepsLinks(g, fd);
    var g' := Remove(g, fd);
    assert g'.index.Keys == g.index.Keys - {fd};
    forall other | other in g'.index
      ensures Interests(g')[other] == Interests(g)[other]
    {
      assert g.pfds[g.index[other]].Owner() == other;
    }
  }

  lemma UpdateRefines(g: Registry, fd: nat, events: Mask)
    requires g.Linked() && fd in g.index
    ensures Update(g, fd, events).Linked()
    ensures var m := Interests(g);
            Interests(Update(g, fd, events)) == m[fd := Interest(events, m[fd].muted || events == NONE_EVENT)]
  {
    UpdateKeepsLinks(g, fd, events);
    var g' := Update(g, fd, events);
    forall other | other in g.index && other != fd
      ensures Interests(g')[other] == Interests(g)[other]
    {
      assert g.pfds[g.index[other]].Owner() == other;
    }
  }

  lemma AddRefines(g: Registry, fd: nat, events: Mask)
    requires g.Linked() && fd !in g.index
    ensures Add(g, fd, events).Linked()
    ensures Interests(Add(g, fd, events)) == Interests(g)[fd := Interest(events, false)]
  {
    AddKeepsLinks(g, fd, events);
  }

  /** A registered slot carries its descriptor or the muted form of it, so the assertions of the source say `muted`. */
  lemma StepRefinesInterests(g: Registry, op: Op)
    requires g.Linked()
    ensures match (Step(g, op), SimpleStep(Interests(g), op))
            case (Done(g'), Done(m')) => g'.Linked() && Interests(g') == m'
            case (Aborted, Aborted) => true
            case _ => false
  {
    match op
    case AddOp(fd, events) => if fd !in g.index { AddRefines(g, fd, events); }
    case UpdateOp(fd, events) => if fd in g.index { UpdateRefines(g, fd, events); }
    case RemoveOp(fd) =>
      if fd in g.index {
        assert g.pfds[g.index[fd]].Owner() == fd;
        RemoveRefines(g, fd);
      }
  }

  ghost function Run(g: Registry, ops: seq<Op>): (res: Outcome<Registry>)
    requires g.Linked()
    ensures res.Done? ==> res.state.Linked()
    decreases |ops|
  {
    if ops == [] then Done(g)
    else
      match Step(g, ops[0])
      case Aborted => Aborted
      case Done(g') => StepRefinesInterests(g, ops[0]); Run(g', ops[1..])
  }

  function SimpleRun(m: map<nat, Interest>, ops: seq<Op>): Outcome<map<nat, Interest>>
    decreases |ops|
  {
    if ops == [] then Done(m)
    else
      match SimpleStep(m, ops[0])
      case Aborted => Aborted
      case Done(m') => SimpleRun(m', ops[1..])
  }

  /**
   Any sequence of registrations, updates and swap-removals keeps the three structures in
   bijection, and what they say about each descriptor is what a plain map would say; an
   assertion fails in one exactly when it fails in the other.
  */
  lemma {:induction false} RunRefinesInterests(g: Registry, ops: seq<Op>)
    requires g.Linked()
    ensures match (Run(g, ops), SimpleRun(Interests(g), ops))
            case (Done(g'), Done(m')) => g'.Linked() && |g'.pfds| == |g'.index| && Interests(g') == m'
            case (Aborted, Aborted) => true
            case _ => false
    decreases |ops|
  {
    SameSize(g);
    if ops != [] {
      StepRefinesInterests(g, ops[0]);
      match Step(g, ops[0])
      case Aborted =>
      case Done(g') => RunRefinesInterests(g', ops[1..]);
    }
  }

  /** Once muted, a descriptor stays muted until it is removed, whatever interest it asks for. */
  lemma {:induction false} MutedStaysMuted(m: map<nat, Interest>, ops: seq<Op>, fd: nat)
    requires fd in m && m[fd].muted
    requires forall k :: 0 <= k < |ops| ==> ops[k] != RemoveOp(fd)
    ensures match SimpleRun(m, ops)
            case Done(m') => fd in m' && m'[fd].muted
            case Aborted => true
    decreases |ops|
  {
    if ops != [] {
      match SimpleStep(m, ops[0])
      case Aborted =>
      case Done(m') =>
        assert forall k :: 0 <= k < |ops[1..]| ==> ops[1..][k] == ops[k + 1];
        MutedStaysMuted(m', ops[1..], fd);
    }
  }

  /** Slot zero, which the wakeup channel takes first, is kept by every removal of another descriptor. */
  lemma FirstSlotStays(g: Registry, fd: nat)
    requires g.Linked() && fd in g.index && g.index[fd] != 0
    ensures |Remove(g, fd).pfds| > 0 && Remove(g, fd).pfds[0] == g.pfds[0]
    ensures g.pfds[0].Owner() in Remove(g, fd).index && Remove(g, fd).index[g.pfds[0].Owner()] == 0
  {
  }

  // ----- the active list -----

  /** The slots with events, in slot order. */
  function ActiveSlots(pfds: seq<PollFd>): (slots: seq<nat>)
    ensures forall k :: 0 <= k < |slots| ==> slots[k] < |pfds| && pfds[slots[k]].revents != {}
    ensures forall j, k :: 0 <= j < k < |slots| ==> slots[j] < slots[k]
    ensures forall i :: 0 <= i < |pfds| && pfds[i].revents != {} ==> i in slots
  {
    if pfds == [] then []
    else
      var last := |pfds| - 1;
      var before := ActiveSlots(pfds[..last]);
      assert forall i :: 0 <= i < last ==> pfds[..last][i] == pfds[i];
      if pfds[last].Active() then before + [last] else before
  }

  /** The first `n` of the slots are those below slot `i`. */
  ghost predicate SplitsAt(slots: seq<nat>, n: nat, i: nat) {
    && n <= |slots|
    && (forall k :: 0 <= k < n ==> slots[k] < i)
    && (forall k :: n <= k < |slots| ==> i <= slots[k])
  }

  /** One more slot looked at, in any increasing list of slots. */
  lemma ScanSplit(slots: seq<nat>, n: nat, i: nat)
    requires forall j, k :: 0 <= j < k < |slots| ==> slots[j] < slots[k]
    requires SplitsAt(slots, n, i)
    ensures if i in slots then n < |slots| && slots[n] == i && SplitsAt(slots, n + 1, i + 1)
            else SplitsAt(slots, n, i + 1)
  {
    if i in slots {
      var k :| 0 <= k < |slots| && slots[k] == i;
      assert n <= k;
      assert slots[n] <= slots[k];
    }
  }

  /** Once every slot has been looked at, all the active ones have been found. */
  lemma ScanEnds(pfds: seq<PollFd>, n: nat)
    requires SplitsAt(ActiveSlots(pfds), n, |pfds|)
    ensures n == |ActiveSlots(pfds)|
  {
    var slots := ActiveSlots(pfds);
    if slots != [] {
      assert slots[|slots| - 1] < |pfds|;
    }
  }

  lemma ScanStep(pfds: seq<PollFd>, n: nat, i: nat)
    requires i < |pfds| && SplitsAt(ActiveSlots(pfds), n, i)
    ensures var slots := ActiveSlots(pfds);
            if pfds[i].Active()
            then n < |slots| && slots[n] == i && SplitsAt(slots, n + 1, i + 1)
            else SplitsAt(slots, n, i + 1)
  {
    hide SplitsAt;
    ScanSplit(ActiveSlots(pfds), n, i);
  }

  // ----- interest masks and event dispatch -----

  /** Switching one kind of interest on or off leaves the other kind as it was. */
  lemma MaskLaws(m: Mask)
    ensures Has(m + WRITE_EVENT, WRITE_EVENT) && !Has(m - WRITE_EVENT, WRITE_EVENT)
    ensures Has(m + READ_EVENT, READ_EVENT) && !Has(NONE_EVENT, WRITE_EVENT)
    ensures Has(m + WRITE_EVENT, READ_EVENT) == Has(m, READ_EVENT) == Has(m - WRITE_EVENT, READ_EVENT)
    ensures Has(m + READ_EVENT, WRITE_EVENT) == Has(m, WRITE_EVENT)
  {
    assert POLLOUT in (m + WRITE_EVENT) * WRITE_EVENT && POLLIN in (m + READ_EVENT) * READ_EVENT;
    assert (m + WRITE_EVENT) * READ_EVENT == m * READ_EVENT == (m - WRITE_EVENT) * READ_EVENT;
    assert (m + READ_EVENT) * WRITE_EVENT == m * WRITE_EVENT;
  }

  datatype Callback = CloseCallback | ErrorCallback | ReadCallback | WriteCallback

  function OneIf(condition: bool, callback: Callback): seq<Callback> {
    if condition then [callback] else []
  }

  predicate HangsUp(revents: Mask) {
    Has(revents, {POLLHUP}) && !Has(revents, {POLLIN})
  }

  predicate Readable(revents: Mask) {
    Has(revents, {POLLIN, POLLPRI, POLLRDHUP})
  }

  /** The callbacks `handleEvent` makes for a set of returned events, in order. */
  function Callbacks(revents: Mask): seq<Callback> {
    OneIf(HangsUp(revents), CloseCallback)
    + OneIf(Has(revents, {POLLERR, POLLNVAL}), ErrorCallback)
    + OneIf(Readable(revents), ReadCallback)
    + OneIf(Has(revents, {POLLOUT}), WriteCallback)
  }

  /** A hang-up without input, reported together with priority data or a half-close. */
  predicate DoubleClose(revents: Mask) {
    Has(revents, {POLLHUP}) && !Has(revents, {POLLIN}) && Has(revents, {POLLPRI, POLLRDHUP})
  }

  /** The order in which `handleEvent` makes its calls. */
  function Place(callback: Callback): nat {
    match callback
    case CloseCallback => 0
    case ErrorCallback => 1
    case ReadCallback => 2
    case WriteCallback => 3
  }

  predicate InOrder(callbacks: seq<Callback>) {
    forall j, k :: 0 <= j < k < |callbacks| ==> Place(callbacks[j]) < Place(callbacks[k])
  }

  lemma OneMore(callbacks: seq<Callback>, condition: bool, callback: Callback)
    requires InOrder(callbacks) && forall other :: other in callbacks ==> Place(other) < Place(callback)
    ensures InOrder(callbacks + OneIf(condition, callback))
    ensures forall other :: other in callbacks + OneIf(condition, callback)
                            <==> other in callbacks || (condition && other == callback)
  {
  }

  /** `mask & flags`, flag by flag. */
  lemma HasFlags(r: Mask)
    ensures forall flag :: Has(r, {flag}) <==> flag in r
    ensures forall f, g :: Has(r, {f, g}) <==> f in r || g in r
    ensures forall f, g, h :: Has(r, {f, g, h}) <==> f in r || g in r || h in r
  {
    forall f, g, h
      ensures Has(r, {f}) <==> f in r
      ensures Has(r, {f, g}) <==> f in r || g in r
      ensures Has(r, {f, g, h}) <==> f in r || g in r || h in r
    {
      assert f in r ==> f in r * {f} && f in r * {f, g} && f in r * {f, g, h};
      assert g in r ==> g in r * {f, g} && g in r * {f, g, h};
      assert h in r ==> h in r * {f, g, h};
    }
  }

  lemma FourInOrder(close: bool, error: bool, read: bool, write: bool)
    ensures var callbacks := OneIf(close, CloseCallback) + OneIf(error, ErrorCallback)
                             + OneIf(read, ReadCallback) + OneIf(write, WriteCallback);
            && InOrder(callbacks)
            && (CloseCallback in callbacks <==> close) && (ErrorCallback in callbacks <==> error)
            && (ReadCallback in callbacks <==> read) && (WriteCallback in callbacks <==> write)
  {
    var one := OneIf(close, CloseCallback);
    var two := one + OneIf(error, ErrorCallback);
    assert InOrder(one) && forall other :: other in one <==> close && other == CloseCallback;
    hide OneIf, InOrder;
    OneMore(one, error, ErrorCallback);
    OneMore(two, read, ReadCallback);
    OneMore(two + OneIf(read, ReadCallback), write, WriteCallback);
  }

  /** Which flags ask for which callback, for every mask; each is called at most once, in a fixed order. */
  lemma CallbacksExactlyWhen(r: Mask)
    ensures InOrder(Callbacks(r))
    ensures CloseCallback in Callbacks(r) <==> POLLHUP in r && POLLIN !in r
    ensures ErrorCallback in Callbacks(r) <==> POLLERR in r || POLLNVAL in r
    ensures ReadCallback in Callbacks(r) <==> POLLIN in r || POLLPRI in r || POLLRDHUP in r
    ensures WriteCallback in Callbacks(r) <==> POLLOUT in r
  {
    HasFlags(r);
    FourInOrder(HangsUp(r), Has(r, {POLLERR, POLLNVAL}), Readable(r), Has(r, {POLLOUT}));
    hide Has, InOrder, OneIf;
  }

  /** The close callback and the read callback (which may find the end of the file) both run exactly then. */
  lemma DoubleCloseExactlyWhen(revents: Mask)
    ensures HangsUp(revents) && Readable(revents) <==> DoubleClose(revents)
    ensures CloseCallback in Callbacks(revents) && ReadCallback in Callbacks(revents) <==> DoubleClose(revents)
    ensures DoubleClose(revents) <==> POLLHUP in revents && POLLIN !in revents && (POLLPRI in revents || POLLRDHUP in revents)
  {
    HasFlags(revents);
    CallbacksExactlyWhen(revents);
    hide Callbacks;
  }

  /** Which flags each kind of interest asks `poll` for. */
  lemma InterestInFlags(m: Mask)
    ensures forall flag :: flag in m + READ_EVENT <==> flag in m || flag == POLLIN || flag == POLLPRI
    ensures forall flag :: flag in m + WRITE_EVENT <==> flag in m || flag == POLLOUT
    ensures forall flag :: flag in m - WRITE_EVENT <==> flag in m && flag != POLLOUT
    ensures forall flag :: flag !in NONE_EVENT
  {
  }

  /** What a report of it leads to: input and priority data to the read callback, room for output to the write callback. */
  lemma InterestIsAnswered(revents: Mask)
    requires revents != {}
    ensures revents <= READ_EVENT ==> Callbacks(revents) == [ReadCallback]
    ensures revents <= WRITE_EVENT ==> Callbacks(revents) == [WriteCallback]
  {
    HasFlags(revents);
    var flag :| flag in revents;
    if revents <= READ_EVENT {
      assert flag == POLLIN || flag == POLLPRI;
      assert POLLHUP !in revents && POLLERR !in revents && POLLNVAL !in revents && POLLOUT !in revents;
      hide Has;
    }
    if revents <= WRITE_EVENT {
      assert flag == POLLOUT;
      assert POLLHUP !in revents && POLLERR !in revents && POLLNVAL !in revents;
      assert POLLIN !in revents && POLLPRI !in revents && POLLRDHUP !in revents;
      hide Has;
    }
  }
}
