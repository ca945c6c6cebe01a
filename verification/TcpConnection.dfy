/**
 The connection object of net/TcpConnection.cpp, on top of its buffer, its channel and the
 poller of its loop. Its methods are proved against the functions of `Connection`.
*/
module ConnectionObject {
  import opened Prelude
  import opened Registry
  import opened PollerObject
  import opened BufferObject
  import opened C = Connection
  import R = Ring
  import RR = RingRuns

  class TcpConnection {
    var state: State
    const channel: Channel
    const outputBuffer: Buffer

    /** The value this object stands for, with its history. */
    ghost var conn: Conn

    ghost predicate SlotMuted()
      requires channel.Ready()
      reads this, channel, channel.poller, channel.poller.channelMap.Values
    {
      channel.index >= 0 && channel.poller.view.pfds[channel.index].Muted()
    }

    /** The objects agree with each other and with the value. */
    ghost predicate Consistent()
      reads this, channel, channel.poller, channel.poller.channelMap.Values, outputBuffer, outputBuffer.cells
    {
      && channel.Ready() && channel.poller.Synced() && outputBuffer.Valid()
      && conn.state == state && conn.interest == channel.events && conn.out == outputBuffer.View()
      && conn.muted == SlotMuted()
    }

    /** From `connectEstablished` on, the channel is registered. */
    ghost predicate Valid()
      reads this, channel, channel.poller, channel.poller.channelMap.Values, outputBuffer, outputBuffer.cells
    {
      && Consistent()
      && (state == Connected || state == Disconnecting || channel.events != NONE_EVENT ==> channel.index >= 0)
    }

    /** What the slot of this connection asks the kernel to report is the interest of its channel. */
    lemma SlotCarriesInterest()
      requires Valid() && channel.index >= 0
      ensures channel.poller.view.pfds[channel.index].Owner() == channel.fd
      ensures channel.poller.view.pfds[channel.index].events == conn.interest
      ensures channel.poller.view.pfds[channel.index].Muted() == conn.muted
    {
    }

    constructor (channel: Channel, code: R.Code)
      requires channel.Ready() && channel.index < 0 && channel.events == NONE_EVENT && channel.poller.Synced()
      ensures Valid() && conn == NEW && this.channel == channel
      ensures fresh(outputBuffer) && fresh(outputBuffer.cells) && outputBuffer.code == code
    {
      this.channel := channel;
      outputBuffer := new Buffer(code);
      state, conn := Connecting, NEW;
    }

    method ConnectEstablished()
      requires Valid() && state == Connecting
      modifies this`state, this`conn, channel`events, channel`index, channel.poller
      ensures Valid() && C.ConnectEstablished(old(conn)) == Some(conn)
      ensures channel.poller.channelMap == old(channel.poller.channelMap)[channel.fd := channel]
      ensures state == Connected && channel.index >= 0 && POLLIN in channel.events && POLLPRI in channel.events
      ensures channel.poller.pollfds[channel.index].events == channel.events
    {
      state := Connected;
      conn := conn.(state := Connected);
      StartReading();
    }

    method StartReading()
      requires Consistent()
      modifies this`conn, channel`events, channel`index, channel.poller
      ensures Consistent() && channel.index >= 0
      ensures conn == old(conn).(interest := old(conn).interest + READ_EVENT)
      ensures channel.poller.channelMap == old(channel.poller.channelMap)[channel.fd := channel]
    {
      channel.EnableReading();
      conn := conn.(interest := conn.interest + READ_EVENT);
    }

    method ShutDownInLoop()
      requires Valid()
      modifies this`conn
      ensures Valid() && conn == C.ShutDownInLoop(old(conn))
    {
      if !channel.IsWriting() {
        conn := conn.(halfCloses := conn.halfCloses + 1);
      }
    }

    /** On the loop's thread the half-close runs at once; `queued` tells another thread to queue it. */
    method Shutdown(inLoop: bool) returns (queued: bool)
      requires Valid()
      modifies this
      ensures Valid()
      ensures queued <==> old(state) == Connected && !inLoop
      ensures conn == if old(state) == Connected && inLoop
                      then C.ShutDownInLoop(BeginShutdown(old(conn))) else BeginShutdown(old(conn))
    {
      queued := false;
      if state == Connected {
        state := Disconnecting;
        conn := BeginShutdown(conn);
        if inLoop {
          ShutDownInLoop();
        } else {
          queued := true;
        }
      }
    }

    method HandleClose()
      requires Valid() && (state == Connected || state == Disconnecting)
      modifies this, channel`events, channel`index, channel.poller
      ensures Valid() && C.HandleClose(old(conn)) == Some(conn)
      ensures channel.poller.channelMap == old(channel.poller.channelMap)
      ensures channel.events == {} && channel.index >= 0
      ensures channel.poller.pollfds[channel.index].fd + channel.fd == -1
      ensures channel.poller.pollfds[channel.index].events == {}
      ensures state == old(state) && outputBuffer.View() == old(outputBuffer.View())
    {
      StopListening();
      conn := conn.(closes := conn.closes + 1);
    }

    /** The last call on a connection; its channel leaves the poller. */
    method ConnectDestroyed()
      requires Valid() && (state == Connected || state == Disconnecting)
      modifies this, channel`events, channel`index, channel.poller, channel.poller.channelMap.Values`index
      ensures C.ConnectDestroyed(old(conn)) == Some(conn) && state == conn.state == Disconnected
      ensures channel.poller.Valid() && channel.poller.Synced()
      ensures channel.poller.channelMap == old(channel.poller.channelMap) - {channel.fd} && channel.events == {}
    {
      state := Disconnected;
      conn := conn.(state := Disconnected);
      StopListening();
      channel.poller.RemoveChannel(channel);
    }

    /** `disableAll`, after which the assertions of `removeChannel` hold. */
    method StopListening()
      requires Valid() && channel.index >= 0
      modifies this`conn, channel`events, channel`index, channel.poller
      ensures Valid() && conn == old(conn).(interest := NONE_EVENT, muted := true)
      ensures channel.index >= 0 && channel.IsNoneEvent()
      ensures channel.poller.channelMap == old(channel.poller.channelMap)
      ensures channel.poller.pollfds[channel.index].fd == Mute(channel.fd)
      ensures channel.poller.pollfds[channel.index].events == channel.events
    {
      channel.DisableAll();
      conn := conn.(interest := NONE_EVENT, muted := true);
      SlotCarriesInterest();
    }

    /** `kernel` is what `write` answers, should it be called. */
    method SendInLoop(message: Bytes, kernel: Kernel) returns (ok: bool)
      requires Valid() && Fits(kernel, message)
      modifies this, channel`events, channel`index, channel.poller, outputBuffer, outputBuffer.cells
      ensures ok <==> C.SendInLoop(outputBuffer.code, old(conn), message, kernel).Some?
      ensures ok ==> Valid() && C.SendInLoop(outputBuffer.code, old(conn), message, kernel) == Some(conn)
      ensures outputBuffer.cells == old(outputBuffer.cells) || fresh(outputBuffer.cells)
    {
      var nwrote: nat := 0;
      var readable := outputBuffer.ReadableBytes();
      if !channel.IsWriting() && readable == 0 {
        match kernel
        case Accepts(n) => nwrote := n;
        case WouldBlock =>
        case Broken => return false;
      }
      assert nwrote == WrittenDirectly(conn, message, kernel);
      conn := WriteDirectly(conn, message, kernel);
      ok := KeepRest(message[nwrote..]);
    }

    /** The end of `sendInLoop`: buffer what was not written and wait for POLLOUT. */
    method KeepRest(rest: Bytes) returns (ok: bool)
      requires Valid()
      modifies this`conn, channel`events, channel`index, channel.poller, outputBuffer, outputBuffer.cells
      ensures ok <==> C.KeepRest(outputBuffer.code, old(conn), rest).Some?
      ensures ok ==> Valid() && C.KeepRest(outputBuffer.code, old(conn), rest) == Some(conn)
      ensures outputBuffer.cells == old(outputBuffer.cells) || fresh(outputBuffer.cells)
    {
      ok := true;
      if rest != [] {
        ok := BufferRest(rest);
        if ok && !channel.IsWriting() {
          StartWriting();
        }
      }
    }

    method BufferRest(rest: Bytes) returns (ok: bool)
      requires Valid() && rest != []
      modifies this`conn, outputBuffer, outputBuffer.cells
      ensures var out := R.Append(outputBuffer.code, old(conn.out), rest);
              && (ok <==> out.Some?)
              && (ok ==> Valid() && conn == old(conn).(out := out.value, taken := old(conn).taken + rest))
      ensures outputBuffer.cells == old(outputBuffer.cells) || fresh(outputBuffer.cells)
    {
      ok := outputBuffer.Append(rest);
      if ok {
        conn := conn.(out := outputBuffer.View(), taken := conn.taken + rest);
      }
    }

    /** `send`: `queued` tells a thread other than the loop's to queue `sendInLoop`. */
    method Send(inLoop: bool, message: Bytes, kernel: Kernel) returns (ok: bool, queued: bool)
      requires Valid() && Fits(kernel, message)
      modifies this, channel`events, channel`index, channel.poller, outputBuffer, outputBuffer.cells
      ensures queued <==> old(state) == Connected && !inLoop
      ensures old(state) != Connected || !inLoop ==> ok && Valid() && conn == old(conn)
      ensures old(state) == Connected && inLoop ==>
                && (ok <==> C.SendInLoop(outputBuffer.code, old(conn), message, kernel).Some?)
                && (ok ==> Valid() && C.SendInLoop(outputBuffer.code, old(conn), message, kernel) == Some(conn))
      ensures ok && !queued && old(state) == Connected && outputBuffer.code == R.Repaired && Conserved(old(conn))
              ==> Conserved(conn) && conn.taken == old(conn).taken + message
    {
      ok, queued := true, false;
      if state == Connected {
        if inLoop {
          if outputBuffer.code == R.Repaired && Conserved(conn) { SendInLoopConserves(conn, message, kernel); }
          ok := SendInLoop(message, kernel);
        } else {
          queued := true;
        }
      }
    }

    /** `accepted` is what `write` returns for the bytes `writeFd` offers, zero if it fails. */
    method HandleWrite(accepted: nat) returns (ok: bool)
      requires Valid()
      modifies this, channel`events, channel`index, channel.poller, outputBuffer
      ensures ok <==> C.HandleWrite(outputBuffer.code, old(conn), accepted).Some?
      ensures ok ==> Valid() && C.HandleWrite(outputBuffer.code, old(conn), accepted) == Some(conn)
      ensures outputBuffer.cells == old(outputBuffer.cells)
    {
      ok := true;
      if channel.IsWriting() {
        ok := Drain(accepted);
        if ok { AfterDrain(); }
      }
    }

    method Drain(accepted: nat) returns (ok: bool)
      requires Valid()
      modifies this`conn, outputBuffer
      ensures ok <==> C.Drain(outputBuffer.code, old(conn), accepted).Some?
      ensures ok ==> Valid() && C.Drain(outputBuffer.code, old(conn), accepted) == Some(conn)
      ensures outputBuffer.cells == old(outputBuffer.cells)
    {
      var empty := outputBuffer.IsEmpty();
      var readable := outputBuffer.ReadableBytes();
      var offered := RR.Offered(outputBuffer.View());
      if empty || offered.None? || accepted == 0 || accepted > |offered.value| || accepted > readable {
        return false;
      }
      outputBuffer.Retrieve(accepted);
      conn := conn.(out := outputBuffer.View(), sent := conn.sent + offered.value[..accepted]);
      ok := true;
    }

    method StartWriting()
      requires Valid()
      modifies this`conn, channel`events, channel`index, channel.poller
      ensures Valid() && conn == old(conn).(interest := old(conn).interest + WRITE_EVENT)
    {
      channel.EnableWriting();
      conn := conn.(interest := conn.interest + WRITE_EVENT);
    }

    method StopWriting()
      requires Valid() && channel.index >= 0
      modifies this`conn, channel`events, channel`index, channel.poller
      ensures Valid() && conn == C.StopWriting(old(conn))
    {
      channel.DisableWriting();
      conn := C.StopWriting(conn);
    }

    method AfterDrain()
      requires Valid() && channel.index >= 0
      modifies this`conn, channel`events, channel`index, channel.poller
      ensures Valid() && conn == C.AfterDrain(old(conn))
    {
      var readable := outputBuffer.ReadableBytes();
      if readable == 0 {
        StopWriting();
        conn := conn.(completes := conn.completes + 1);
        if state == Disconnecting {
          ShutDownInLoop();
        }
      }
    }

    /** One callback of `handleEvent`, if its condition holds. */
    method RunIf(condition: bool, callback: Callback, read: ReadResult, accepted: nat) returns (ok: bool)
      requires Valid()
      modifies this, channel`events, channel`index, channel.poller, outputBuffer
      ensures var res := C.HandleEvent(outputBuffer.code, old(conn), OneIf(condition, callback), read, accepted);
              (ok <==> res.Some?) && (ok ==> Valid() && res == Some(conn))
    {
      ok := true;
      if condition {
        ok := RunCallback(callback, read, accepted);
        assert [callback][1..] == [];
      }
    }

    method RunCallback(callback: Callback, read: ReadResult, accepted: nat) returns (ok: bool)
      requires Valid()
      modifies this, channel`events, channel`index, channel.poller, outputBuffer
      ensures var res := C.RunCallback(outputBuffer.code, old(conn), callback, read, accepted);
              (ok <==> res.Some?) && (ok ==> Valid() && res == Some(conn))
    {
      match callback
      case CloseCallback =>
        ok := state == Connected || state == Disconnecting;
        if ok { HandleClose(); }
      case ErrorCallback => ok := false;
      case ReadCallback =>
        ok := read.Received? || state == Connected || state == Disconnecting;
        if ok && read.EndOfFile? { HandleClose(); }
      case WriteCallback => ok := HandleWrite(accepted);
    }

    /** The four tests of `handleEvent`: close, error, read, write. */
    method RunCallbacks(revents: Mask, read: ReadResult, accepted: nat) returns (ok: bool)
      requires Valid()
      modifies this, channel`events, channel`index, channel.poller, outputBuffer
      ensures var res := C.HandleEvent(outputBuffer.code, old(conn), Callbacks(revents), read, accepted);
              (ok <==> res.Some?) && (ok ==> Valid() && res == Some(conn))
    {
      ok := RunClosing(revents, read, accepted);
      ghost var code, was := outputBuffer.code, old(conn);
      ghost var first := OneIf(HangsUp(revents), CloseCallback) + OneIf(Has(revents, {POLLERR, POLLNVAL}), ErrorCallback);
      ghost var readable := OneIf(Readable(revents), ReadCallback);
      HandleEventConcat(code, was, first, readable, read, accepted);
      HandleEventConcat(code, was, first + readable, OneIf(Has(revents, {POLLOUT}), WriteCallback), read, accepted);
      if !ok { return; }
      ok := RunIf(Readable(revents), ReadCallback, read, accepted);
      if !ok { return; }
      ok := RunIf(Has(revents, {POLLOUT}), WriteCallback, read, accepted);
    }

    method RunClosing(revents: Mask, read: ReadResult, accepted: nat) returns (ok: bool)
      requires Valid()
      modifies this, channel`events, channel`index, channel.poller, outputBuffer
      ensures var first := OneIf(HangsUp(revents), CloseCallback) + OneIf(Has(revents, {POLLERR, POLLNVAL}), ErrorCallback);
              var res := C.HandleEvent(outputBuffer.code, old(conn), first, read, accepted);
              (ok <==> res.Some?) && (ok ==> Valid() && res == Some(conn))
    {
      ghost var close := OneIf(HangsUp(revents), CloseCallback);
      HandleEventConcat(outputBuffer.code, conn, close, OneIf(Has(revents, {POLLERR, POLLNVAL}), ErrorCallback), read, accepted);
      ok := RunIf(HangsUp(revents), CloseCallback, read, accepted);
      if !ok { return; }
      ok := RunIf(Has(revents, {POLLERR, POLLNVAL}), ErrorCallback, read, accepted);
    }

    /** `Channel::handleEvent`, with the guard of the channel's destructor up meanwhile. */
    method HandleEvent(read: ReadResult, accepted: nat) returns (ok: bool)
      requires Valid() && !channel.eventHandling
      modifies this, channel, channel.poller, outputBuffer
      ensures var res := C.HandleEvent(outputBuffer.code, old(conn), Callbacks(old(channel.revents)), read, accepted);
              (ok <==> res.Some?) && (ok ==> Valid() && !channel.eventHandling && res == Some(conn))
    {
      channel.eventHandling := true;
      assert Valid();
      ok := RunCallbacks(channel.revents, read, accepted);
      channel.eventHandling := false;
      assert ok ==> Valid();
    }
  }
}
