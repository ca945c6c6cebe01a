# EasyEvent, modelled and proved

EasyEvent is a reactor: an event loop per thread polls descriptors, dispatches their events and
runs functors that other threads queue on it; a TCP server spreads its connections over such
loops. This project models the parts of it that keep state, from the byte buffer up to the life
of connections across loops, and proves what each part promises to the next.

| file | what it models |
|---|---|
| `Ring.dfy`, `RingRuns.dfy`, `RingAsWritten.dfy`, `Buffer.dfy` | `base/Buffer.h`: the circular buffer as a value, whole runs of calls against a FIFO queue, what holds of the header as it is written, and the buffer object over an array |
| `Registry.dfy`, `Poller.dfy` | `net/Poller.cpp`, `net/Channel.h`, `net/Channel.cpp`: slots, back-indices and the descriptor map as a value and in objects; interest masks; the order of callbacks |
| `LoopMachine.dfy`, `EventLoop.dfy` | `net/EventLoop.cpp`: the loop and any number of calling threads as an interleaving state machine, and the loop object, whose calls are runs of that machine |
| `Connection.dfy`, `ConnectionAsWritten.dfy`, `TcpConnection.dfy` | `net/TcpConnection.cpp`: state, interest and output path of one connection as a value with its history, what holds of it over the buffer as written, and the connection object over its buffer, channel and poller |
| `Session.dfy`, `HalfClose.dfy` | `send` and `shutdown` by many threads, over the functor queue of the connection's loop; how often SHUT_WR goes out, and what comes too late for it |
| `Server.dfy`, `ServerInvariant.dfy`, `ServerSteps.dfy`, `ServerTheorems.dfy`, `ServerHistory.dfy` | `net/TcpServer.cpp` and the hand-offs of a connection between the base loop and its I/O loop, for any number of loops, connections and threads; what its steps amount to over a run |
| `ServerCloses.dfy`, `ServerDoubleClose.dfy`, `ServerLife.dfy` | when a connection of a server is closed once and when twice, what then fails under every schedule, and a run of every server that fails so |
| `ThreadPool.dfy`, `ServerCalls.dfy`, `TcpServer.dfy` | `net/EventLoopThreadPool.cpp` and the server object over its loops and pool, whose calls are runs of the server's machine |

## How it is modelled

**Values and objects.** An operation that changes state is a function on a value, about which the
lemmas speak, and a method of a class whose contract equates the object's new state with that
function of the old one. History that the code does not keep (bytes sent, functors pushed,
pointers held, a connection's stage) is in ghost state or in fields marked as history.

**Threads.** `LoopMachine`, `Session` and `Server` are state machines. A step is one action of one
thread, and steps interleave in any order: the push of `queueInLoop` and its `wakeup` are two
steps, the state check of `send` and its push are two steps, and so are all parts of a close. The
lock makes a push and the swap one step each. The theorems about a machine are about every run of
it. Those of `ServerTheorems` are about every run whose steps have passed the assertions of the
source, since a run in which one fails ends there; no other condition is put on the run, and a
connection may be closed twice in it. `ServerCloses` says of which runs that is known from the
events they report.

**The kernel** answers through parameters: how much a `write` takes, what a `read` returns, which
channels `poll` reports. `poll` reports the wakeup channel exactly when the eventfd is readable
and no muted descriptor, as POSIX.1-2017 says of negative ones. Once SHUT_WR has gone out a
`write` fails with EPIPE, as POSIX.1-2017 says of `write`, and the code aborts.

**Two lines of the buffer.** `base/Buffer.h` line 158 ends the wrapped copy at
`data + secondPart` instead of the end of `data`, and line 92 clears the full flag only when the
indices meet, so draining part of a full buffer leaves it set. Every buffer operation takes a
`Code`: `AsWritten` is the header as it is, `Repaired` has these two lines as the rest of the
class needs them. All results that name `Repaired` hold without condition. As written:

- `Ring.RetrieveAsWrittenExactlyWhen` and `Ring.AppendAsWrittenExactlyWhen` give the exact
  condition for each call. Draining part of a full buffer leaves the content right and the flag
  stale: `readableBytes` is wrong from then on, until the indices meet.
- `RingAsWritten.RunsAreRightExactlyWhen` gives it for whole runs of calls, by what a caller sees
  of them, with and without `readableBytes`. No write may wrap. In a stale state nothing may be
  appended and no more retrieved than is held, and all of it taken as a string only while the data
  wraps. A caller that goes by `readableBytes` must never drain part of a full buffer.
- `ConnectionAsWritten.StreamIsKeptExactlyWhen` gives it for whole runs of a connection. No
  message that waits may wrap, none may wait in a stale state, and `writeFd`, which there offers
  more than is held, may only be called while the data wraps, or starts at the first cell and the
  kernel takes no more than is held. `ConnectionAsWritten.StreamIsBrokenAsWritten` and
  `ConnectionAsWritten.ElevenBytesAbortAsWritten` are short runs that lose bytes and that abort.
- The calls of `tests/Buffertest.cpp` wrap a write. The bytes that line 158 leaves unwritten are
  the `lo` of its first string, which are also the ones its second string puts there, so the
  string that comes out is the right one (`RingAsWritten.WrappingRunExactlyWhen`).

**What else the code does that one might not expect.**

- A functor the owner queues before `startLoop`, with no call from outside since, waits for the
  poll timeout; it is the only way for the loop to sleep on work (`LoopMachine.StuckExactlyWhen`,
  and such a run in `LoopMachine.QueuedBeforeStartIsStuck`).
- `startLoop` clears a quit that came first (`LoopMachine.QuitIsKeptExactlyWhen`).
- `shutdown` from another thread changes the state at once and queues its action. SHUT_WR then goes
  out at most twice, and twice exactly when the last waiting byte leaves before the queued action
  begins (`HalfClose.HalfClosesTwiceExactlyWhen`, and such a run in `HalfClose.ForeignShutdownRepeats`).
- A message accepted from another thread can come after SHUT_WR. Its functor then aborts the
  program (`HalfClose.AbortsExactlyWhen`, `HalfClose.ForeignSendIsOvertaken`);
  `HalfClose.SentForeverExactlyWhen` says when every accepted message is on the socket.
- A hang-up without input, reported with priority data or a half-close, runs `handleClose` twice
  when the read then finds the end of the file (`Connection.EventClosesTwiceExactlyWhen`,
  `ServerCloses.ClosesTwiceExactlyWhen`). In whole runs of a server `handleClose` runs at most once
  for each connection exactly when no read finds the end of the file in such an event
  (`ServerCloses.ClosesAtMostOnceExactlyWhen`); it is enough that no such event is reported
  (`ServerCloses.ClosesAtMostOnce`). After a second close the second removal is still to come
  (`ServerDoubleClose.SecondRemovalIsAhead`), and its erase fails its assertion whatever the
  schedule (`ServerDoubleClose.SecondRemovalFails`). Every server has a run that ends so
  (`ServerLife.EveryServerCanFail`).
- An event that closes the connection writes nothing, though it reports room for output
  (`Connection.HandleEventDoes`); what waits then stays in the buffer for good, unless a message is
  sent after the close (`Connection.CloseIsFinal`, `Connection.MessageAfterCloseIsWritten`).
- A muted slot is never unmuted (`Registry.MutedStaysMuted`). The server relies on that: it is
  why a closed connection is not reported again.

## Model

| member | source | states |
|---|---|---|
| `Ring.RetrieveDropsOldest` | base/Buffer.h:85-95 | `retrieve(len)` (line 92 repaired) drops exactly the oldest `len` bytes, wrapped or not |
| `Ring.WriteAppends` | base/Buffer.h:151-172 | a write that fits (line 158 repaired) never fails and adds its bytes behind the ones held, wrapped or not |
| `Ring.RetrieveAsStringIsContent` | base/Buffer.h:106-123 | all four cases of the drain return the bytes held, oldest first, and read inside the vector |
| `Ring.MakeSpaceKeepsContent` | base/Buffer.h:140-149 | growing or shrinking keeps the content, moves it to the front, leaves room for exactly the bytes asked for, and its assertion holds |
| `Ring.AppendAddsNewest` | base/Buffer.h:129-149 | `append` never aborts, adds exactly its bytes, and the capacity becomes the larger of itself and the stored length |
| `Ring.RetrieveAsWrittenExactlyWhen` | base/Buffer.h:85-95 | as written the right bytes remain, but the length is right if and only if the call does not drain part of a full buffer |
| `Ring.StaleAppendAborts` | base/Buffer.h:129-149 | after such a drain, an append whose data wraps fails the assertion of line 148 |
| `Ring.AppendAsWrittenExactlyWhen` | base/Buffer.h:129-172 | as written `append` is right for all cells and all bytes of a length if and only if it writes nothing, or grows with a right flag, or does not wrap |
| `RingRuns.StepRefinesQueue` | base/Buffer.h:85-149 | one call on the ring gives what the call on a FIFO queue gives, and aborts exactly when that does |
| `RingRuns.RunRefinesQueue` | base/Buffer.h:85-172 | so does any run of calls, and the capacity ends at the largest length ever stored by an append, or the initial one |
| `RingRuns.QueriesAgree` | base/Buffer.h:54-78 | readable and writable bytes and emptiness are those of the queue; how the free run behind the end relates to the room |
| `RingRuns.OffersPrefix` | base/Buffer.h:41-52 | `writeFd` offers a non-empty prefix of the queue, all of it exactly when the data does not wrap |
| `RingRuns.AcceptedBytesLeave` | base/Buffer.h:41-95 | whatever part the kernel takes, those bytes followed by what is left are the queue |
| `RingRuns.TwoWritesDrain` | base/Buffer.h:41-95 | a kernel that takes all it is offered drains any content in two writes, and in one exactly when it does not wrap |
| `RingAsWritten.RunsAreRightExactlyWhen` | base/Buffer.h:54-172 | a run of calls on the header as written gives the queue's content after each call, the strings it hands out and its aborts, for all bytes calls of these lengths can carry, if and only if every call on the way is sound; likewise with the answers of `readableBytes` |
| `RingAsWritten.SoundnessIsShape` | base/Buffer.h:85-172 | that condition depends on the lengths of the calls only |
| `RingAsWritten.RetrieveDropsHeld` | base/Buffer.h:85-95 | as written, stale or not, `retrieve` drops the oldest bytes if there are as many |
| `RingAsWritten.StaleRunMayBeRight` | base/Buffer.h:85-172 | ten bytes in, five out, the rest as a string: right although stale on the way, unless `readableBytes` is asked |
| `RingAsWritten.WrappingRunExactlyWhen` | tests/Buffertest.cpp:8-18 | all five calls of that test: as written the string that comes out is right if and only if the last two bytes of the second string equal two of the first, as they do there |
| `BufferObject.Buffer.constructor` | base/Buffer.h:18-26 | a new buffer is the empty ring of ten cells |
| `BufferObject.Buffer.ReadableBytes` | base/Buffer.h:54-63 | the length of the queue |
| `BufferObject.Buffer.WritableBytes` | base/Buffer.h:65-67 | the room left: the cells less the length of the queue |
| `BufferObject.Buffer.IsEmpty` | base/Buffer.h:174-176 | empty exactly when the queue is |
| `BufferObject.Buffer.Retrieve` | base/Buffer.h:85-95 | under either reading the indices move as the value's do; repaired, the oldest bytes are dropped |
| `BufferObject.Buffer.RetrieveAll` | base/Buffer.h:101-104 | nothing is left |
| `BufferObject.Buffer.RetrieveAsString` | base/Buffer.h:106-123 | returns the whole queue and leaves nothing |
| `BufferObject.Buffer.WriteAfterEnd` | base/Buffer.h:151-161 | the two copies and the index update do what the value's write does, in place |
| `BufferObject.Buffer.HasWritten` | base/Buffer.h:163-172 | the end index wraps and the flag is set as in the value, for any length, and the indices stay in the vector up to one whole vector |
| `BufferObject.Buffer.MakeSpace` | base/Buffer.h:140-149 | moves into a new array, larger or smaller, as the value does; its measure shows the recursion one level deep |
| `BufferObject.Buffer.Append` | base/Buffer.h:129-134 | repaired, it succeeds and the queue is the old one followed by the data |
| `Registry.AddKeepsLinks` | net/Poller.cpp:49-63 | adding a free descriptor keeps slots, descriptors and back-indices in bijection; its new slot asks for its interest and reports nothing yet |
| `Registry.UpdateKeepsLinks` | net/Poller.cpp:64-76 | so does updating one: its slot asks for the interest and reports nothing, holds the negated descriptor if there is none, and no other slot changes |
| `Registry.RemoveKeepsLinks` | net/Poller.cpp:99-113 | so does swap-removal, whichever slot goes and whether or not the last one is muted |
| `Registry.RemoveMovesLast` | net/Poller.cpp:99-113 | removal leaves every other slot's content and finds only the last one at a new place |
| `Registry.StepRefinesInterests` | net/Poller.cpp:47-115 | each operation does to the vector and the indices what it does to a plain map from descriptor to interest, with the same assertions failing |
| `Registry.RunRefinesInterests` | net/Poller.cpp:47-115 | so does every sequence of operations, with as many slots as descriptors and the bijection kept |
| `Registry.MutedStaysMuted` | net/Poller.cpp:70-76 | a muted descriptor stays muted until removed, whatever interest it asks for |
| `Registry.FirstSlotStays` | net/Poller.cpp:102-113 | slot zero, the wakeup channel's, survives the removal of any other |
| `Registry.ActiveSlots` | net/Poller.cpp:30-45 | exactly the slots with any event to report, in slot order |
| `Registry.ScanStep` | net/Poller.cpp:30-45 | the scan has always found the active slots before the one it looks at, and no other |
| `Registry.MaskLaws` | net/Channel.h:42-47 | switching one kind of interest leaves the other as it was |
| `Registry.CallbacksExactlyWhen` | net/Channel.cpp:45-66 | for every mask, flag by flag: a hang-up without input asks for the close callback, an error or invalid bit for the error callback, input, priority data or a half-close for the read callback, room for output for the write callback; each is made at most once and in this order |
| `Registry.DoubleCloseExactlyWhen` | net/Channel.cpp:45-61 | close and read callbacks both run exactly for a hang-up without input paired with priority data or a half-close |
| `Registry.InterestInFlags` | net/Channel.cpp:12-16 | read interest asks for POLLIN and POLLPRI, write interest for POLLOUT, and switching one touches no other flag |
| `Registry.InterestIsAnswered` | net/Channel.cpp:57-66 | a report of what read interest asked for leads to the read callback alone, of what write interest asked for to the write callback alone |
| `PollerObject.Channel.EnableReading` | net/Channel.h:42 | POLLIN and POLLPRI are added, no other flag changes, and slot and channel agree again |
| `PollerObject.Channel.EnableWriting` | net/Channel.h:43 | likewise for writing |
| `PollerObject.Channel.DisableWriting` | net/Channel.h:44 | the interest shrinks; left with none, the slot is muted |
| `PollerObject.Channel.DisableAll` | net/Channel.h:45 | no interest is left and the slot is muted |
| `PollerObject.Poller.UpdateChannel` | net/Poller.cpp:47-82 | adds or updates as the registry does, keeps the bijection, and every slot asks for its channel's interest |
| `PollerObject.Poller.RemoveChannel` | net/Poller.cpp:84-115 | removes as the registry does, keeps the bijection and the agreement of slots and channels |
| `PollerObject.Poller.EraseSlot` | net/Poller.cpp:102-113 | the swap, the new index of the moved channel and the pop are the registry's removal |
| `PollerObject.Poller.FillActiveChannels` | net/Poller.cpp:30-45 | the early-exit scan returns the channels of the first active slots, as many as counted, in slot order, each lookup succeeding and each told its events |
| `LoopMachine.StepTodo` | net/EventLoop.cpp:99-160 | a push adds to the end of the work to do, beginning a functor takes its front, no other step changes it |
| `LoopMachine.StepInv` | net/EventLoop.cpp:64-160 | every step of every thread keeps the loop's invariant |
| `LoopMachine.StuckExactlyWhen` | net/EventLoop.cpp:64-160 | no lost wakeup: the loop sleeps on queued work with no wakeup due or delivered if and only if it is in its first poll, work was queued, and no other thread has called since |
| `LoopMachine.QueuedBeforeStartIsStuck` | net/EventLoop.cpp:99-108 | such a run: the owner queues, starts, and polls |
| `LoopMachine.CounterCountsWakeups` | net/EventLoop.cpp:125-142 | the eventfd holds one for each wakeup since `handleRead` last ran |
| `LoopMachine.HandleReadNeverBlocks` | net/EventLoop.cpp:138-142 | `handleRead` runs only with a positive counter, so its assertion holds |
| `LoopMachine.QuitNeverSleeps` | net/EventLoop.cpp:83-88 | a quit is never slept through |
| `LoopMachine.QuitEndsIterations` | net/EventLoop.cpp:71-88 | after a quit no further iteration starts |
| `LoopMachine.QuitIsKeptExactlyWhen` | net/EventLoop.cpp:64-88 | a quit stands if and only if the loop is not started after it |
| `LoopMachine.ExitsOnlyOnQuit` | net/EventLoop.cpp:64-88 | the loop is left on a quit that came after its start and for no other reason |
| `LoopMachine.NeverDeadlocks` | net/EventLoop.cpp:64-160 | in every run a loop that has not been left can go on, after a wakeup its owner owes at most, and every other thread can call or finish its call |
| `LoopMachine.ActiveChannelsAreHandled` | net/EventLoop.cpp:71-78 | in every run, between the return of `poll` and the next batch of functors, the handling of exactly the reported channels begins, each once and in their order |
| `LoopMachine.FunctorsAreConserved` | net/EventLoop.cpp:99-160 | executed functors, the rest of the batch and the queue are the push history, in order |
| `LoopMachine.BatchIsFixed` | net/EventLoop.cpp:144-160 | a batch executes only what the swap took; everything pushed meanwhile, by its own functors too, waits |
| `LoopMachine.IterationRunsBacklog` | net/EventLoop.cpp:71-78 | what was queued when a poll was entered has run by the end of that iteration |
| `EventLoopObject.EventLoop.constructor` | net/EventLoop.cpp:38-55 | a new loop is the machine's initial state |
| `EventLoopObject.EventLoop.QueueInLoop` | net/EventLoop.cpp:99-108 | the whole call: the functor at the end of the queue, and one wakeup exactly when another thread calls or a batch is running |
| `EventLoopObject.EventLoop.RunInLoop` | net/EventLoop.cpp:91-97 | at once exactly on the loop's thread, else queued with a wakeup |
| `EventLoopObject.EventLoop.QuitLoop` | net/EventLoop.cpp:83-88 | the flag, and a wakeup exactly from another thread |
| `EventLoopObject.EventLoop.Wakeup` | net/EventLoop.cpp:125-134 | the eventfd counts one more, and the call that owed it is done |
| `EventLoopObject.EventLoop.HandleRead` | net/EventLoop.cpp:138-142 | the eventfd was readable and is empty after |
| `EventLoopObject.EventLoop.HandleEvent` | net/EventLoop.cpp:74-76 | the first active channel is handled and leaves the list; the wakeup channel empties the eventfd, no other channel touches it; what the callbacks queue is queued without a wakeup |
| `EventLoopObject.EventLoop.HandleActive` | net/EventLoop.cpp:74-76 | each active channel is handled once and in order, none is left, and no functor runs before |
| `EventLoopObject.EventLoop.DoPendingFunctors` | net/EventLoop.cpp:144-160 | exactly the queued functors run, in order; what they queue, and what other threads push between them, makes the next queue, with one wakeup each |
| `Connection.EventClosesTwiceExactlyWhen` | net/Channel.cpp:39-70 | one event closes at most twice, and twice if and only if the mask is of that kind and the read finds the end of the file |
| `Connection.SendInLoopConserves` | net/TcpConnection.cpp:151-181 | a message aborts exactly when it meets a broken pipe; with nothing waiting, what the kernel takes of it is on the socket, the rest in the buffer, POLLOUT asked for exactly if there is a rest, and write-complete queued exactly if there is none; else all of it waits behind the buffer and POLLOUT is asked for |
| `Connection.HandleWriteConserves` | net/TcpConnection.cpp:108-133 | if POLLOUT is asked for, exactly the bytes the kernel takes go from the front of the buffer to the socket; with the last one POLLOUT is dropped, write-complete queued, and SHUT_WR sent if the connection is shutting down; else nothing changes |
| `Connection.LifeDoes` | net/TcpConnection.cpp:70-141 | establishing asks for input; a close and the destruction ask for nothing, mute the slot and leave buffer and stream alone; each is possible in exactly the states the assertions name |
| `Connection.HandleEventDoes` | net/Channel.cpp:39-70 | for every mask: an error bit aborts; a hang-up or the end of the file closes and does nothing else, though there be room for output; else room for output takes bytes out of the buffer if POLLOUT was asked for |
| `Connection.StepConserves` | net/TcpConnection.cpp:93-189 | every step of a run does what is said of it above and keeps the stream |
| `Connection.ShutDownInLoopConserves` | net/TcpConnection.cpp:184-189 | SHUT_WR is issued only when everything handed in is on the socket |
| `Connection.StreamIsConserved` | net/TcpConnection.cpp:108-181 | end to end over any run: bytes on the socket followed by the buffer are all messages in order, the socket only gets more, and write interest holds exactly while data waits until the close; the socket gets exactly as many bytes as the kernel took |
| `Connection.SocketGetsWhatIsTaken` | net/TcpConnection.cpp:108-181 | over whole runs, under either reading of the buffer, the bytes on the socket grow by exactly the kernel's answers to the writes that were tried |
| `Connection.CloseIsFinal` | net/TcpConnection.cpp:136-141 | after a close the slot stays muted over all runs, closes are counted, and unless a message is sent after it nothing is asked for and no byte moves |
| `Connection.WritesExactlyWhenAsked` | net/TcpConnection.cpp:108-133 | a report of room for output moves bytes to the socket if and only if POLLOUT is asked for |
| `Connection.MessageAfterCloseIsWritten` | net/TcpConnection.cpp:45-55 | a run in which a message sent after the close asks for POLLOUT again, and a report already under way writes it |
| `Connection.AbortsExactlyWhen` | net/TcpConnection.cpp:108-181 | a step that the kernel allows aborts if and only if it writes after SHUT_WR; no assertion on the way fails |
| `Connection.TwoCallsDrain` | net/TcpConnection.cpp:108-133 | with a kernel that takes all it is offered, two calls of `handleWrite` put everything on the socket and switch POLLOUT off |
| `ConnectionAsWritten.StreamIsKeptExactlyWhen` | net/TcpConnection.cpp:108-181 | over the buffer as written a connection never aborts, keeps socket and buffer equal to the stream with exactly what the kernel took on the socket, and asks for POLLOUT exactly while data waits until the close, for all messages of these lengths and these answers of the kernel, if and only if every step on the way is sound |
| `ConnectionAsWritten.SoundnessIsShape` | net/TcpConnection.cpp:108-181 | that condition depends on lengths and answers only |
| `ConnectionAsWritten.StaleRunMayBeSound` | net/TcpConnection.cpp:108-181 | ten bytes waiting, drained five at a time: sound although stale on the way |
| `ConnectionAsWritten.StreamIsBrokenAsWritten` | net/TcpConnection.cpp:108-181 | eight bytes waiting, five drained and seven more lose bytes |
| `ConnectionAsWritten.SendAbortsAsWritten` | net/TcpConnection.cpp:108-181 | a full buffer drained in part makes the next waiting message abort |
| `ConnectionAsWritten.ElevenBytesAbortAsWritten` | net/TcpConnection.cpp:108-181 | such a run from the establishment: ten bytes waiting, five drained, one more |
| `ConnectionObject.TcpConnection.constructor` | net/TcpConnection.cpp:14-39 | a new connection is the model's initial one |
| `ConnectionObject.TcpConnection.SlotCarriesInterest` | net/Poller.cpp:64-76 | the connection's slot asks for exactly its interest and is muted exactly when the connection is |
| `ConnectionObject.TcpConnection.ConnectEstablished` | net/TcpConnection.cpp:70-77 | connected, registered, channel and slot ask for POLLIN and POLLPRI |
| `ConnectionObject.TcpConnection.ConnectDestroyed` | net/TcpConnection.cpp:79-88 | disconnected and unregistered, the assertions of `removeChannel` holding |
| `ConnectionObject.TcpConnection.HandleClose` | net/TcpConnection.cpp:136-141 | the channel and its slot ask for nothing, the slot holds the negated descriptor, state and buffer are as they were, still registered |
| `ConnectionObject.TcpConnection.Send` | net/TcpConnection.cpp:45-55 | on the loop's thread it does what `sendInLoop` does, so the stream grows by the message; else it is queued exactly when connected |
| `ConnectionObject.TcpConnection.Shutdown` | net/TcpConnection.cpp:57-62 | the state changes at once; the half-close runs on the loop's thread, else it is queued |
| `ConnectionObject.TcpConnection.SendInLoop` | net/TcpConnection.cpp:151-181 | buffer, interest, slot and state change as the model's do |
| `ConnectionObject.TcpConnection.HandleWrite` | net/TcpConnection.cpp:108-133 | likewise |
| `ConnectionObject.TcpConnection.ShutDownInLoop` | net/TcpConnection.cpp:184-189 | likewise |
| `ConnectionObject.TcpConnection.HandleEvent` | net/Channel.cpp:39-70 | the callbacks run in the order close, error, read, write, each on what the one before left |
| `Session.InitAccepts` | net/TcpConnection.cpp:45-62 | in every run what has passed the check of `send` is the messages of all its calls before the first `shutdown`, and the connection is shutting down exactly if there was one |
| `Session.StreamKeepsEveryProducersOrder` | net/TcpConnection.cpp:45-55 | for every interleaving: each thread's messages taken, then queued, then in flight are the messages it called `send` with before the first `shutdown`, in its order; the owner's are taken at once |
| `Session.WritesExactlyWhilePending` | net/TcpConnection.cpp:108-181 | over whole runs of many threads, until the close, write interest holds exactly while data waits |
| `Session.AllTakenExactlyWhen` | net/TcpConnection.cpp:45-55 | every accepted message has been taken if and only if no send is queued or about to be |
| `Session.SocketGetsWhatIsTaken` | net/TcpConnection.cpp:108-181 | over the runs of many threads, through a close: the socket has got as many bytes as the kernel took, `handleClose` has run as often as it was called, and the slot then stays muted |
| `Session.HalfCloseFlushesExactlyWhen` | net/TcpConnection.cpp:57-62 | whenever SHUT_WR goes out, every byte taken is on the socket; every accepted message is, if and only if no send of another thread is underway |
| `Session.HalfCloseIsGraceful` | net/TcpConnection.cpp:45-62 | with calls on the loop's thread SHUT_WR goes out at most once, and has gone out if and only if a shutdown was asked for and every accepted byte is on the socket |
| `HalfClose.StepHalfClosesExactlyWhen` | net/TcpConnection.cpp:57-62 | each SHUT_WR of any run: it goes out if and only if a shutdown's action begins with nothing waiting, or the last waiting byte leaves while shutting down |
| `HalfClose.HalfClosesTwiceExactlyWhen` | net/TcpConnection.cpp:57-62 | for any threads, before a close: at most twice, and twice if and only if the last waiting byte leaves while shutting down and later the action of another thread's shutdown begins |
| `HalfClose.ForeignShutdownRepeats` | net/TcpConnection.cpp:57-62 | such a run, from the establishment of the connection on a loop in its first callback |
| `HalfClose.ShutdownIsCarriedOut` | net/TcpConnection.cpp:57-62 | no shutdown is lost, whichever thread calls it: once its action is no longer underway, SHUT_WR has gone out if and only if nothing waits |
| `HalfClose.AbortsExactlyWhen` | net/TcpConnection.cpp:151-171 | for any threads, before a close: a step aborts if and only if it begins a queued send after SHUT_WR |
| `HalfClose.SentForeverExactlyWhen` | net/TcpConnection.cpp:45-62 | after SHUT_WR nothing more reaches the socket in any continuation; what is there is every message taken, and every accepted one if and only if no send was underway, and then nothing aborts |
| `HalfClose.ForeignSendIsOvertaken` | net/TcpConnection.cpp:45-62 | a run in which a send of another thread is overtaken by the half-close, and aborts when it begins |
| `ServerSteps.StepInv` | net/TcpServer.cpp:55-108 | every step of every thread that passes its assertions keeps the server's invariant, a second close of a connection included |
| `ServerTheorems.OwnedUntilDestroyed` | net/TcpServer.cpp:77-108 | in every interleaving a connection has an owner among the map, a queued or running functor and a stack pointer until `connectDestroyed` has run |
| `ServerTheorems.NeverDestructedWhileHandled` | net/Channel.cpp:30-32 | no connection is destructed while its channel handles an event, so the destructor's assertion holds |
| `ServerTheorems.ActiveListIsSafe` | net/EventLoop.cpp:71-78 | while a loop dispatches, every connection in its active list is registered and alive |
| `ServerTheorems.DestructionIsFinal` | net/TcpServer.cpp:88-108 | once the last pointer is gone nothing holds the connection again, and its channel is out of the poller |
| `ServerTheorems.ErasesAtMostOnce` | net/TcpServer.cpp:99-108 | in every run the map entry is erased at most once and only after `handleClose`, which runs twice at most, and the user sees up, messages, down |
| `ServerTheorems.AssertionsFailExactlyWhen` | net/TcpServer.cpp:99-108 | of the assertions on state, thread, map entry and registration, the next step fails one if and only if it erases the entry of a connection for the second time |
| `ServerTheorems.HandoffsMoveOn` | net/TcpServer.cpp:77-108 | a thread in the middle of any hand-off can always take its next step |
| `ServerTheorems.ClosingIsUnderway` | net/TcpServer.cpp:88-108 | a close is never dropped half way: a thread carries it, or its functor is queued, once and after a second close with a second removal at most, on a loop that is not asleep on it |
| `ServerTheorems.OpeningIsUnderway` | net/TcpServer.cpp:55-86 | nor is an opening: until `connectEstablished` runs, a thread carries it or its functor is queued once on a loop that is not asleep on it |
| `ServerTheorems.LoopsKeepTheirPromises` | net/EventLoop.cpp:64-160 | each loop of a server is in a state of some run of the loop machine, so its exact wakeup condition, its quits and its functors are as proved there |
| `ServerTheorems.ConnectionsTakeTurns` | net/TcpServer.cpp:55-86 | in every run the k-th connection lives on loop k mod n of a pool of n, or on the base loop without a pool |
| `ServerHistory.ReportedChannelsAreHandled` | net/EventLoop.cpp:71-78 | on every loop of a server, with all other threads at work: between the return of `poll` and the next batch the handling of exactly the reported channels begins, each once and in order |
| `ServerHistory.EventsMakeTheirCallbacks` | net/Channel.cpp:39-70 | when the handling of an event of a connection ends, all the callbacks its flags ask for have been made, in order |
| `ServerHistory.UserIsTold` | net/TcpConnection.cpp:57-105 | the user is told of as many messages as reads have found data, and of up and down once for each establishment and destruction; pointers in user code are those copied and not dropped; a connection is shutting down exactly if `shutdown` was called on it while connected |
| `ServerHistory.QueuesHoldWhatStepsPush` | net/TcpServer.cpp:85-108 | what a loop has been handed is, in order, what the steps of the run queue on it: openings and destructions on the connection's loop, removals on the base loop, write-completes where the last byte left |
| `ServerCloses.ClosesAtMostOnceExactlyWhen` | net/Channel.cpp:39-70 | over whole runs, whatever the interleaving: `handleClose` has run at most once for every connection if and only if no read callback found the end of the file in an event begun with a mask of that kind |
| `ServerCloses.ClosesAtMostOnce` | net/TcpServer.cpp:88-108 | in every run whose events have no such mask `handleClose` runs at most once per connection, the map entry is erased at most once and only after it, every assertion on the way holds, and the user sees up, messages, down |
| `ServerCloses.AssertionsNeverFail` | net/TcpServer.cpp:99-108 | a run in which no read finds the end of the file in such an event passes all its assertions, and so does whatever step comes next |
| `ServerCloses.ClosesTwiceExactlyWhen` | net/Channel.cpp:39-70 | in every run, whatever other threads do during an event, a callback of it closes the connection a second time if and only if the mask is of that kind and it is the read callback finding the end of the file |
| `ServerDoubleClose.SecondEraseFailsOnBase` | net/TcpServer.cpp:99-108 | on the base loop the thread's next step after a second close fails to find the map entry |
| `ServerDoubleClose.SecondRemovalIsAhead` | net/TcpServer.cpp:88-108 | in every run the second removal of a connection closed twice is never over: its thread is about to ask for it, or it is queued on the base loop, which is not asleep on it, or the base loop is in it with the entry gone |
| `ServerDoubleClose.SecondRemovalFails` | net/TcpServer.cpp:99-108 | once the base loop begins a removal whose entry is gone, no schedule gets it past the erase: it can be taken, after a wakeup at most, and the assertion fails |
| `ServerDoubleClose.DoubleCloseFails` | net/TcpServer.cpp:88-108 | from any state a run leads to, POLLHUP with POLLRDHUP and the end of the file lead to a failing erase, for a connection on the base loop and for one on another loop |
| `ServerLife.FirstIsReady` | net/TcpServer.cpp:55-86 | from the initial state of every server a run accepts a connection, hands it over and opens it, and its loop has an event of it to handle |
| `ServerLife.EveryServerCanFail` | net/TcpServer.cpp:88-108 | every server has a run that passes its assertions, and whose next step then fails one by erasing an entry for the second time |
| `ServerCalls.NewConnectionIsRun` | net/TcpServer.cpp:55-86 | a call of `newConnection` is the run accept, insert, post and wake, and what that run does to map, turn, number and loops |
| `ServerCalls.RemovalIsRun` | net/TcpServer.cpp:99-108 | `removeConnectionInLoop` is the run erase, post and wake, as a functor of the base loop and inside `handleClose` |
| `ServerCalls.HandBackIsRun` | net/TcpServer.cpp:88-97 | `removeConnection` on another loop is the run that queues the removal on the base loop and wakes it up |
| `ServerCalls.NewConnectionLooks` | net/TcpServer.cpp:55-86 | from any state of the machine that the object looks like, the contract of `NewConnection` leads to a state at the end of that run |
| `ServerCalls.RemovalLooks` | net/TcpServer.cpp:99-108 | likewise for `RemoveConnectionInLoop` |
| `ServerCalls.HandBackLooks` | net/TcpServer.cpp:88-97 | likewise for `RemoveConnection` on another loop |
| `ThreadPool.TurnsAreBalanced` | net/EventLoopThreadPool.cpp:36-47 | after m calls a loop has had m / n turns, and one more exactly if its place is below m mod n |
| `ThreadPool.NextTurn` | net/EventLoopThreadPool.cpp:41-44 | the increment and wrap of the index is the remainder of the number of calls |
| `ThreadPool.EventLoopThreadPool.Start` | net/EventLoopThreadPool.cpp:21-34 | the pool holds one loop for each thread, in order |
| `ThreadPool.EventLoopThreadPool.GetNextLoop` | net/EventLoopThreadPool.cpp:36-47 | call k returns loop k mod n, or the base loop when the pool is empty |
| `ServerObject.TcpServer.constructor` | net/TcpServer.cpp:14-27 | no connections, numbers from one, an empty pool on the base loop |
| `ServerObject.TcpServer.NewConnection` | net/TcpServer.cpp:55-86 | a fresh name, the loop whose turn it is, one new entry, `connectEstablished` run at once or queued with a wakeup, and no other loop touched; the object then looks as after the machine's run |
| `ServerObject.TcpServer.RemoveConnection` | net/TcpServer.cpp:88-97 | on the base loop's thread the entry goes at once and `connectDestroyed` is queued, else the removal is queued there with a wakeup; either way as by the machine's run |
| `ServerObject.TcpServer.RemoveConnectionInLoop` | net/TcpServer.cpp:99-108 | exactly one entry goes, and `connectDestroyed` is queued on the connection's loop, never run at once, as by the machine's run |

## Left out

- HalfCloseIsGraceful: for calls on the loop's thread only, since the claim is false for other threads; `HalfClose` has the exact conditions for all threads.
- AssertionsNeverFail: for events without an error bit, which abort.
- DoubleCloseFails: for a connection on a loop of its own the base loop is taken to be about to swap an empty queue; `SecondRemovalIsAhead` and `SecondRemovalFails` are for every schedule.
- WriteAfterEnd: called with room only, as `append` does; with less room it writes outside the vector.
- MakeSpace: not for an empty buffer and no bytes, where it leaves a vector without cells; `append` never asks for that.
- MakeSpaceKeepsContent: likewise.
- EventLoopObject.EventLoop.constructor: the wakeup channel and its registration, which is `PollerObject.Channel.EnableReading` on slot zero.
- EventLoopObject.EventLoop.RunInLoop: running the functor at once is the caller's next step; the contract says when that is.
- EventLoopObject.EventLoop.DoPendingFunctors: other threads push between functors here, and anywhere in `LoopMachine`.
- ConnectionObject.TcpConnection.ConnectEstablished: the user's callback at its end.
- ConnectionObject.TcpConnection.ConnectDestroyed: the user's callback between its two steps.
- ConnectionObject.TcpConnection.HandleClose: the close callback at its end, which is `ServerObject.TcpServer.RemoveConnection`.
- ServerObject.TcpServer.constructor: the acceptor and its callback.
- ServerObject.TcpServer.NewConnection: running `connectEstablished` at once is the caller's next step; the contract says when that is, and `ServerCalls` ties the call to the steps before it.
- Building without assertions: `shutDownInLoop` makes its system call inside one (net/TcpConnection.cpp line 187), so such a build never half-closes. The model has assertions on.
- System calls that fail, but for a `write` after SHUT_WR: `handleError`, any other failed `write`, `poll` or `eventfd` end in `abort` or an assertion. A successful `write` on a writable socket is taken to accept at least one byte.
- `startLoop` as a method: its loop does not end, so it is modelled by the phases of `LoopMachine`; `HandleActive`, `DoPendingFunctors` and the calls of other threads are methods.
- Memory weaker than sequential consistency, and the race on the plain field `_state`: the check and set in `shutdown` is one step.
- The functors of `send` and `shutdown` hold a raw pointer: that the connection outlives them is taken for granted, and the server model, which counts pointers, does not queue them.
- Functors left after a loop exits, restarting a loop, and tearing down a server or its loops: the code promises nothing there.
- In `ConnectionObject` the user's callbacks do not call back into the connection; in `Session` such calls are steps of the owner inside a callback, and in `Server` they are steps of their own.
- The write-complete callback is taken to be set. `Connection` counts the functors it queues; `Server` queues those of `handleWrite`, and leaves out those of `sendInLoop`, which would only be further owners.
- The input buffer and `readFd`: a read is bytes or the end of the file, and what the message callback does with the bytes is the user's.
- Connection names: the number stands for the name, which is the server's name and that number.
- Descriptors being reused: connections are told apart by number; `DestructionIsFinal` is what makes reuse safe.
- Overflow of `_nextConnId`, of the eventfd counter and of vector sizes: they are unbounded numbers.
- The thread pool of a `TcpServer` is never started by the code, so its I/O loops are all the base loop; the server model takes any pool.
- `setTcpNoDelay`, names and addresses, logging, and the time `poll` returned.
- `Acceptor`, `Socket`, `FileDescriptor`, `CapsuledAddr`, `Thread`, `EventLoopThread`, `Timestamp`: wrappers around the operating system and the standard library.
- `UdpServer` and `UdpHandler`: blocking calls with no state to speak of.
