# Verification of libnbd's transmission engine, negotiation and copier

A Dafny 4.11 model of three parts of libnbd and machine-checked proofs about them.
`dafny verify dfyconfig.toml` checks everything.

**The transmission engine** (`Nbd`, `Reply`, `Engine`, `BlockStatus`).  The handle during the
transmission phase: commands on three lists, requests that are sent with arbitrary short writes
and paused for replies, and the reply parser, which can be suspended at any byte.  Each state of the
state machine is a function from handle to handle; a run is any sequence of steps in which the
environment chooses what recv and send return, when notifications arrive, which commands a program
queues or retires, and what its callbacks answer (a callback is any function of everything that
happened before).  Assertions of the original set the trace field `failed`, so that their absence is
a theorem.  `NbdHandle` is the same machine as an object: a method for each state, which does to the
fields what the state's function does to the handle, and the calls of a program.  The object carries
the run that led to it, so that the contracts of these calls state what the run theorems promise.
`CommandLists` has the command lists as linked structures with tail pointers.
The proofs are of runs: `EngineQuiet` (what reply states leave alone), `EngineLedger` (conservation of
commands and callbacks), `EngineSend` and `EngineResend` (the outgoing stream), `EngineParser` and
`EngineSafety` (positions of the parser), `EngineAsserts` (when an assertion fails), `EngineErrors` and
`EngineHistory` (errors, and the order of completion), `EngineRequests` (the requests in the lists),
`ReadData`, `EngineReads`, `EngineOverrun` and `EngineMisread` (read buffers), `EngineWaits` (where the
machine waits) and `Fragmentation`.  What the bytes mean is stated in the protocol's own terms, with
literal numbers: `EngineWire` is a server that reads the requests, `EngineContent`, `EngineReplies` and
`EngineReplyData` say what becomes of the bytes of a reply, `EngineVerdicts`, `EngineRefusals` and
`EngineCauses` that commands fail for the errors that the server reports and for no other cause, and
`EngineEndings` when the connection is given up.  All of it holds whatever the server sends; only what is
said of successful reads is about chunks that do not overlap.

**nbdcopy's copier** (`Extents`, `SparseSplit`, `CopyModel`, `CopyTheorems`, `CopyProgress`,
`CopyOptions`, `Copier`, `SynchCopy`).  The shared state of the worker threads with the atomic steps they and the
completion callbacks take; a run is any interleaving.  `Copier` is the object whose methods are the
C functions; `SynchCopy` is the sequential copier, the reference.

**Option negotiation** (`Negotiation`, `NegotiationSafety`, `NegotiationRuns`, `StaleContexts`,
`Negotiator`, `OptionSend`).  The fixed newstyle, newstyle and oldstyle handshakes with the calls allowed while
NEGOTIATING, and the sending of the two options that consist of several parts.  `Negotiator` is the
same machine as an object that carries its run.

Some properties hold only under a condition, which the proofs make exact:

- A chunk whose header is refused before `payload_left` is assigned
  (generator/states-reply-chunk.c:108-110) has its payload skipped only if it has none: `payload_left`
  is still 0 from the previous chunk (`EngineSafety.ChunkConsumed`, with a run in
  `EngineAsserts.PayloadLeftBehind`).
- `structured_reply_in_bounds` adds in 64 bits; a read has a reply for which a byte outside its buffer
  is written exactly if the request ends within four gigabytes of the end of the 64-bit range, or 64
  megabytes if the buffer was zeroed before (`EngineOverrun.OverrunExact`).
- For the same reason a read can be reported as successful by chunks that do not overlap although not
  every byte was brought by one of them, exactly if the request ends nearer to the end of the 64-bit range
  than its own length (`EngineMisread.MisreadExact`, with a run in `EngineMisread.ShortReadSucceeds`).
- The `in_write_shutdown` branch of ISSUE_COMMAND.START (generator/states-issue-command.c:34-35) does
  not return, so that a disconnect whose shutdown was interrupted is sent again; the outgoing stream is
  right exactly until then (`EngineResend.SentInOrder`, with a run in
  `EngineResend.InterruptedShutdownResends`).
- A server that replies to a request before all of it has been sent can run the client into the
  assertion of FINISH_COMMAND, exactly if its reply is suspended between cookie and length and goes on
  after the request is out (`EngineAsserts.AssertionExact`, with a run in
  `EngineAsserts.AssertionCanFail`); with extended headers it cannot
  (`EngineAsserts.ExtendedNeverFails`).
- Accepting TLS keeps the list of metadata contexts, although the comment at lib/flags.c:32-34 has
  connection data reset: `StaleContexts.StaleExactly` says when a context granted in the clear is
  reported over TLS, and two runs show that it happens.
- The tail pointer of the issue queue dangles after DEAD or CLOSED exactly if the queue was not empty
  (`CommandLists.CommandLists.End`); nothing can be queued any more by then.
- `file_synch_zero` takes the result of fallocate the wrong way round (copy/file-ops.c:597).  The range is
  refused after having been zeroed exactly if space is demanded, holes can be punched, zeroing a range is
  not available, and punching and fallocate work (`SynchCopy.Target.FileZero`).  Then the multi-threaded
  copier writes zeroes once more (`SynchCopy.Target.FillRange`, with an example in
  `SynchCopy.WritesZeroesTwice`); the sequential copier never gets there
  (`SynchCopy.Target.ZeroExtent`, `SynchCopy.SynchCopying`).
- `nbd_ops_get_extents` asserts that extents are contiguous, which fails exactly for a reply in which an
  extent before the last of a callback overruns the request, or a second callback for the context follows
  one that made progress (`Extents.MisplacedExactly`, with an example in `Extents.RepeatedCallback`).

## Model

| member | source | states |
|---|---|---|
| `CopyTheorems.EveryRunCopies` | copy/multi-thread-copying.c:229-313 | In every interleaving of worker steps, asynchronous completions and partially landed writes, once all workers have exited the destination is the source followed by whatever it held beyond, the result of synch_copying |
| `CopyTheorems.CompleteCopy` | copy/multi-thread-copying.c:229-313 | At that point each byte was finished exactly once, no command is outstanding, every queue size is 0 and every buffer has been freed exactly once |
| `CopyTheorems.RunInv` | copy/multi-thread-copying.c:156-709 | In every state of every run: queue_size is the bytes of outstanding reads and buffered writes (with the rest of a split read), below queue_size + request_size; refs is the number of commands on the buffer; each offset is unclaimed, or with one worker, or with one command, or finished once; a destination byte is the source's or the initial one |
| `CopyTheorems.StepInv` | copy/multi-thread-copying.c:498-709 | Every enabled step touches live buffers only, stays inside the destination, takes no queue size below zero, and keeps the invariant |
| `CopyProgress.BoundedSteps` | copy/multi-thread-copying.c:229-332 | Whatever the interleaving, a copy takes at most 24 steps for each byte of the source and two for each worker, not counting the landing of single bytes |
| `CopyProgress.StepLess` | copy/multi-thread-copying.c:229-313 | Every step except the landing of a single byte strictly decreases the work left |
| `CopyProgress.NoDeadlock` | copy/multi-thread-copying.c:229-332 | While a worker is left, a step is possible (--requests is at least 1) |
| `CopyProgress.StuckMeansCopied` | copy/multi-thread-copying.c:229-332 | A run that cannot go on has copied the source |
| `CopyProgress.SplitExists` | copy/multi-thread-copying.c:518-604 | For every buffer, offset and block size a correct split exists |
| `CopyOptions.StartsWithinLimits` | copy/multi-thread-copying.c:274-332 | In every run a read is started only while fewer than --requests commands of the worker are outstanding and less than --queue-size bytes are queued, and only if its range is not known to be zero |
| `CopyOptions.ReadsBounded` | copy/multi-thread-copying.c:326-346 | In every state of every run a worker has at most --requests reads outstanding |
| `CopyOptions.CommandsAsAsked` | copy/multi-thread-copying.c:498-672 | In every state of every run: unless --allocated is given, no write that is handed to the destination holds an aligned block of zeroes of the --sparse size; with --allocated or without that size no read is split; with --destination-is-zero no zeroes are written |
| `CopyModel.FallbackIsCommand` | copy/multi-thread-copying.c:649-668 | Writing zeroes in place of a zero command is such a command that is done at once, so that a loop of zero writes that is interrupted is among the runs |
| `Copier.Copier.constructor` | copy/multi-thread-copying.c:83-153 | The initial state satisfies the invariant |
| `Copier.Copier.GetNextOffset` | copy/multi-thread-copying.c:50-78 | Claims the next work range under the lock, exactly as the step of the model; keeps the invariant |
| `Copier.Copier.NextRequest` | copy/multi-thread-copying.c:247-292 | One round of the copying loop: defers a zero range, flushes a deferred one, waits if and only if --requests commands of the worker are outstanding or --queue-size bytes are queued, or starts a read; the extent cursor stays valid |
| `Copier.Copier.StartRead` | copy/multi-thread-copying.c:274-288 | create_command, the queue size increase and the read: the model's step |
| `Copier.Copier.FlushDeferred` | copy/multi-thread-copying.c:262-304 | The deferred zero range is handed over |
| `Copier.Copier.FillDstRangeWithZeroes` | copy/multi-thread-copying.c:632-672 | Nothing for a zero target, a zero command if accepted, else the range reads as zeroes after the fallback loop |
| `Copier.Copier.FreeCommand` | copy/multi-thread-copying.c:694-709 | Drops one reference; frees the buffer at zero |
| `Copier.Copier.FinishedCommand` | copy/multi-thread-copying.c:675-691 | The command's bytes are on the destination, its queue share and reference are given back; keeps the invariant |
| `Copier.Copier.BeginFinishedRead` | copy/multi-thread-copying.c:498-522 | After a read: one write, or the list of pieces |
| `Copier.Copier.DispatchNext` | copy/multi-thread-copying.c:468-492 | One subcommand: a write sharing the buffer, or a zero range that leaves the queue; keeps the invariant |
| `Copier.Copier.DispatchAll` | copy/multi-thread-copying.c:529-604 | The whole loop keeps the invariant and leaves all other commands alone |
| `Copier.Copier.FinishedRead` | copy/multi-thread-copying.c:498-613 | finished_read end to end with nothing in between: the command is a write, or its pieces have gone out and it is freed; completions in between are steps of their own (CopyTheorems.StepInv) |
| `Copier.Copier.Exit` | copy/multi-thread-copying.c:307-313 | When the last worker exits the copy is complete |
| `SparseSplit.Split` | copy/multi-thread-copying.c:518-604 | The pieces partition the buffer, a byte is in a zero piece exactly when it lies in an aligned all-zero block, zero pieces are block-aligned, and neighbours alternate except before the unaligned tail |
| `SparseSplit.SplitBlock` | copy/multi-thread-copying.c:532-572 | One block lengthens the run or dispatches it: the scan invariant is kept |
| `SparseSplit.SplitRest` | copy/multi-thread-copying.c:575-604 | The last run and the unaligned tail complete the split |
| `SparseSplit.SplitIsUnique` | copy/multi-thread-copying.c:518-604 | There is only one list of pieces with these properties |
| `SparseSplit.IsZeroMeansAllZero` | common/include/iszero.h:48-61 | The memcmp trick of is_zero answers whether all bytes are zero |
| `Extents.OnlyZeroes` | copy/multi-thread-copying.c:176-223 | True exactly when every byte of the range lies in a zero extent; the cursor only moves forward and ends on the extent of the offset; none of the assertions fails |
| `Extents.NbdGetExtents` | copy/nbd-ops.c:436-496 | Ends with a tiling of exactly the range in which an offset is in a zero extent if and only if the descriptor that covers it, in the answer to the call that asked for it, is zero; or stops: how it ends is decided by the first answer, of the calls that are made, that is an error, is disordered or makes no progress |
| `Extents.OneEnd` | copy/nbd-ops.c:446-496 | The answers to the calls made leave the query one outcome |
| `Extents.RecordedSays` | copy/nbd-ops.c:499-531 | For every list of callbacks: what is recorded of an offset is what the descriptor that covers it says |
| `Extents.SaidSoundly` | copy/nbd-ops.c:436-496 | If the descriptors with the zero flag cover zeroes only, so do the zero extents of the list |
| `CopyModel.ListedGood` | copy/nbd-ops.c:436-496 | The list made of sound replies is what the copier needs: it tiles the claimed range and marks zero only what is zero in the source |
| `CopyModel.ScannedGood` | copy/file-ops.c:666-755 | So is the list made of a file whose holes read as zeroes |
| `Extents.MisplacedExactly` | copy/nbd-ops.c:465-467 | For every list of callbacks that one call makes for the context: an extent does not begin where the ones before it end, so that the assertion fails, if and only if a callback overruns the request before its last descriptor, or a callback with a descriptor follows one that made progress |
| `Extents.RepeatedCallback` | copy/nbd-ops.c:465-467 | A reply without an overrun that fails the assertion: two callbacks for one byte each of a request for two |
| `Extents.CopyReply` | copy/nbd-ops.c:465-482 | For one reply: the assertion fails if and only if the reply is disordered; otherwise the result is extended by exactly what fits, and says of it what the descriptors of the reply say |
| `Extents.RecordReply` | copy/nbd-ops.c:499-531 | Every callback of a call is recorded from the offset of the request on |
| `Extents.CopyOne` | copy/nbd-ops.c:467-481 | One extent is cut back to the request and appended: the result says zero or data of its offsets as the extent does, and of all others as before |
| `Extents.AddExtents` | copy/nbd-ops.c:499-531 | The callback records the descriptors at consecutive offsets |
| `Extents.FileGetExtents` | copy/file-ops.c:666-755 | Under the SEEK_DATA and SEEK_HOLE contract: a tiling of exactly the range whose zero flags say exactly where there is no data |
| `Extents.AppendSpan` | copy/file-ops.c:698-731 | A non-empty span is appended with the right flag |
| `Extents.CutBack` | copy/file-ops.c:736-746 | The last extent is cut back to the end of the range |
| `Extents.TilesUnique` | copy/multi-thread-copying.c:176-223 | In a tiling every offset lies in exactly one extent |
| `SynchCopy.SynchCopying` | copy/synch-copying.c:34-111 | Afterwards the destination is the source followed by what it held beyond, for sources of known and unknown size; no call of synch_zero was refused after it had zeroed its range |
| `SynchCopy.CopyStream` | copy/synch-copying.c:48-56 | The loop for a source of unknown size copies all of it |
| `SynchCopy.CopyRange` | copy/synch-copying.c:62-107 | One request: the copied prefix grows by exactly the request |
| `SynchCopy.CopyExtent` | copy/synch-copying.c:75-104 | One extent, by zeroing, writing zeroes, or reading and writing |
| `SynchCopy.SynchWrite` | copy/file-ops.c:467-491 | The write loop stores all of the data and nothing else, however short the writes |
| `SynchCopy.Target.SynchZero` | copy/synch-copying.c:79-80 | For any destination: the range reads as zeroes when the call is done; it is refused although the range was zeroed if and only if it is a file whose chain misjudges fallocate |
| `SynchCopy.Target.FileZero` | copy/file-ops.c:558-619 | The chain of attempts with its capability flags, whatever the kernel supports: only the range changes, flags are only withdrawn, and the call is refused after the range was zeroed if and only if space is demanded, holes can be punched, zeroing a range is not available, and punching and fallocate work |
| `SynchCopy.Target.ZeroExtent` | copy/synch-copying.c:77-87 | The sequential copier zeroes an extent, and its first call keeps the second from misjudging fallocate whatever the kernel supports at either |
| `SynchCopy.Target.FillRange` | copy/multi-thread-copying.c:632-672 | The multi-threaded copier zeroes a range; it writes zeroes to one that has just been zeroed if and only if the call misjudges fallocate |
| `SynchCopy.WritesZeroesTwice` | copy/file-ops.c:594-603 | A regular file on which that happens |
| `Fragmentation.FragmentationIndependent` | generator/states-reply.c:48-244 | From every reachable handle that waits in READY, whatever the server did before, any two ways of cutting one incoming stream into recv results, with EAGAIN and polling anywhere, give the same buffers, callbacks, errors, completions and outcome (DEAD, a failed assertion or neither), and parsers that go on in the same way |
| `Fragmentation.StepNorm` | generator/states.c:43-100 | One step moves the parser's normal form by exactly the bytes it takes, as if they came one at a time |
| `Fragmentation.RunNorm` | generator/states.c:43-100 | So does every run |
| `Fragmentation.FeedTogether` | generator/states.c:43-100 | Bytes that arrive together do what they do one by one, also when the magic of an extended reply is already wrong |
| `Fragmentation.ReachableListens` | generator/states-reply.c:126-150 | The theorem applies to every reachable waiting handle: a wrong magic is never left behind in READY |
| `EngineResend.SentInOrder` | generator/states-issue-command.c:22-141 | In every run of a connection that lasts: commands are issued in queue order with cookies 1, 2, 3, ...; and the bytes sent are the whole messages of those issued, then a prefix of the head's message, with wbuf the unsent rest of its current part, if and only if ISSUE_COMMAND.START has not run since a write shutdown was interrupted. What a server reads in these messages is EngineWire.ServerReads |
| `EngineResend.RunSurplus` | generator/states-issue-command.c:34-35 | A run passes through three phases: the exact stream; a disconnect request sent once and interrupted; and, from the next ISSUE_COMMAND.START on, more bytes than messages |
| `EngineResend.SentInTheEnd` | generator/states.c:102-127 | When the connection is over, what has gone out is what had when it was last alive, about which SentInOrder holds |
| `EngineWire.ServerReads` | generator/states-issue-command.c:44-62 | In every run of a connection that lasts, until a disconnect is sent again: a server that reads the bytes sent with the magics, field widths and type numbers of the protocol finds the first requests that the program queued, in order, with their flags, types, cookies 1, 2, 3, ..., offsets, counts and payloads: those that were issued, and the next one if all of it is out |
| `EngineWire.MessageRead` | generator/states-issue-command.c:44-126 | Every acceptable command is read back from its message, whatever follows it |
| `EngineWire.RunKept` | lib/rw.c:329-336 | In every run the commands issued and those that wait are the ones that were queued, in order |
| `EngineWaits.RunWaits` | generator/states-issue-command.c:22-66 | In every run, whenever the machine waits it could do nothing without an event: no command waits in READY, and a state that sends has bytes left |
| `EngineWaits.ListensAlways` | generator/state_machine.ml:725-834 | In every run, whenever the machine waits it listens: a read notification leads to REPLY.START, at once or from a state that pauses the sending, and a write notification goes on with the sending |
| `EngineSend.StepSend` | generator/states-issue-command.c:22-141 | Every step keeps the sender's invariant, and the exact stream unless it interrupts a write shutdown |
| `EngineSend.RunSend` | generator/states-issue-command.c:67-126 | In every run the prepared header is that of the head of the queue and wbuf is empty between parts |
| `EngineSend.EnterSafe` | generator/states-issue-command.c:67-141 | No assertion of a sending state can fail |
| `EngineResend.InterruptedShutdownResends` | generator/states-issue-command.c:34-66 | A run from a new connection in which one byte of a reply interrupts the write shutdown and the disconnect header is put in wbuf a second time |
| `EngineSend.HeaderCookie` | generator/states-issue-command.c:44-59 | The cookie read back from an encoded request is the command's; 28 or 32 bytes |
| `EngineLedger.OnePlace` | generator/states-issue-command.c:128-141 | In every reachable state cookies are distinct, every queued command is in exactly one place of one list or was retired, and in_flight is the length of the two lists until the end |
| `EngineLedger.CallbackOnce` | generator/states-reply.c:271-307 | In every run a completion callback is made at most once, never while the command is in flight, and exactly once by the time the handle is DEAD or CLOSED; nbd_aio_command_completed gives its verdict on a cookie at most once |
| `EngineLedger.StepLedger` | generator/states.c:141-219 | Every step of every kind keeps the books on commands, callbacks and retirements |
| `EngineLedger.EnterEndLedger` | generator/states.c:193-219 | DEAD and CLOSED leave both lists empty, everything booked |
| `EngineVerdicts.ConnectionLost` | generator/states.c:141-219 | In every run, at DEAD or CLOSED every command that has not ended, sent or not, is told its error, or 107 (ENOTCONN) if it has none, and is in the done queue with an error or was retired |
| `EngineVerdicts.SimpleErrorCounts` | generator/states-reply-simple.c:22-73 | In every run: if a simple reply has a non-zero error and the cookie of a command in flight, that command is never reported as a success; unless it had an error or is a read with structured replies, its error is the errno of that number, by a literal table, and its completion callback is given it |
| `EngineRefusals.SimpleDecides` | generator/states-reply-simple.c:51-73 | In every run, a simple reply to a command in flight: data follows if it is a read and there is no error, otherwise the command ends; without an error before it has the errno of the error number, or 71 (EPROTO) if it is a read with structured replies |
| `EngineRefusals.StrayIgnored` | generator/states-reply.c:246-268 | In every run, unless an assertion fails, a reply to no command in flight changes no command |
| `EngineRefusals.ResyncFails` | generator/states-reply-chunk.c:653-698 | In every run, when a chunk has been skipped its command has its own error or 71 (EPROTO), and is never reported as a success |
| `EngineRefusals.ErrorRefused` | generator/states-reply-chunk.c:193-233 | In every run: an error chunk whose message does not fit in it, or is longer than 4096 bytes, gives its command the errno of the error number and is skipped |
| `EngineRefusals.CountRefused` | generator/states-reply-chunk.c:444-508 | In every run a wide block status chunk is skipped if the number of descriptors is not what follows |
| `EngineVerdicts.DirtyNeverSucceeds` | lib/aio.c:98-131 | In every run a command that has an error is never reported as a success later |
| `EngineVerdicts.EndTold` | generator/states-reply.c:246-312 | In every run FINISH_COMMAND gives the completion callback the error of the command, zero or not; then the command is retired, or joins the back of the done queue with that error or the one that a failing callback sets |
| `EngineCauses.ErrorHasCause` | generator/states-reply-chunk.c:79-712 | In every run a command in flight gets an error only from a reply with its cookie that blames it: an error number, a malformed or unexpected chunk, descriptors that cannot be cooked, or a callback that fails |
| `EngineErrors.FlaggedNeverSucceeds` | generator/states-reply-chunk.c:653-696 | A command that got an error chunk or went through RESYNC has an error wherever it stands and is never reported as a success |
| `EngineErrors.ErrorsStay` | generator/states-reply.c:275-290 | Once a command has an error, in no later state of the run is it without one |
| `EngineHistory.FirstErrorKept` | generator/states-reply-chunk.c:224-328 | In every run: a command in flight with an error keeps it; unless RECV_READ_PAYLOAD of a simple reply works on it, at any later time it is in flight with that error or its completion callback was given just that error |
| `EngineHistory.StepTells` | generator/states-reply.c:246-312 | Every step, including the end of other commands, ISSUE_COMMAND.FINISH, DEAD and CLOSED, keeps the error or tells it |
| `EngineHistory.DoneInOrder` | lib/aio.c:76-132 | In every run the done queue is in the order in which the completion callbacks were made |
| `EngineHistory.JoinedInOrder` | generator/states-reply.c:299-307 | In every run, of any two commands in the done queue, with or without a callback, at every earlier time at which the second was in it the first was too, in front of it |
| `EngineErrors.StepErrors` | generator/states.c:141-180 | Every step: a command without an error had none before; success is logged only of such a command |
| `EngineSafety.RunParse` | generator/states-reply.c:48-312 | In every run, whatever the server sends, the parser's fields are as its position says |
| `EngineAsserts.AssertionExact` | generator/states-reply.c:255-268 | An assertion fails at a step of a run if and only if that step is FINISH_COMMAND and the reply it ends was suspended, its cookie looked up in vain, when ISSUE_COMMAND.FINISH put the command with that cookie on the list |
| `EngineAsserts.ExtendedNeverFails` | generator/states-reply.c:126-150 | With extended headers no assertion fails in any run |
| `EngineAsserts.AssertionCanFail` | generator/states-reply.c:152-268 | A run from a new connection that ends in the failing assertion |
| `EngineAsserts.ForetoldWhere` | generator/states-reply.c:168-244 | Such a reply is suspended between the 16th and the 20th byte of a structured header |
| `EngineAsserts.StepDoom` | generator/states-reply.c:208-223 | No other step changes whether a reply that was looked up in vain has its command in flight |
| `EngineSafety.ChunkConsumed` | generator/states-reply-chunk.c:700-712 | In every run, at the end of a chunk, on every path: payload_left is 0, and exactly header plus length was consumed if and only if the header was not refused before payload_left was set or the chunk was empty |
| `EngineAsserts.PayloadLeftBehind` | generator/states-reply-chunk.c:104-111 | A run from a new connection in which a chunk ends with its payload still in the stream |
| `EngineSafety.ReplyCmdMatches` | generator/states-reply.c:208-223 | In every run a non-NULL reply_cmd is the in-flight command with the header's cookie, across suspensions too |
| `EngineContent.RunContent` | generator/states.c:43-100 | In every run the buffers of the parser hold the bytes of the current reply, each in its place |
| `EngineReplies.MagicDecides` | generator/states-reply.c:152-233 | In every run: the first part of a reply is taken for a simple reply, a structured or an extended chunk exactly if it begins with the magic of one that was negotiated, and otherwise the connection is given up; reply_cmd is the command whose cookie is in bytes 8 to 16 |
| `EngineEndings.GivenUpForCause` | generator/states-reply.c:49-233 | In every run, as long as no assertion has failed, a step leads to DEAD or CLOSED if and only if there is one of these causes: send or recv fails, the server closes the connection, a magic that was not negotiated, a simple reply without an error to no command and without structured replies, a chunk that is too long, or data or a hole that structured_reply_in_bounds refuses |
| `EngineVerdicts.HeaderDecides` | generator/states-reply-chunk.c:79-191 | In every run: a length beyond the limit ends the connection, a chunk that was not asked for is skipped, and otherwise its type and length and the kind of command decide, by a literal table; a block status chunk of the wrong width gives the command 71 (EPROTO) |
| `EngineVerdicts.LastEnds` | generator/states-reply-chunk.c:700-712 | In every run the last chunk of a reply ends its command, and any other gives the connection back |
| `EngineReplies.DescsDecode` | generator/states-reply-chunk.c:556-631 | Decoding the protocol's encoding of a list of descriptors, narrow or wide, gives the list back |
| `EngineReplies.StatusReported` | generator/states-reply-chunk.c:510-649 | In every run: at the end of a block status chunk whose payload encodes a context and a list of descriptors, the extent callback is made for that context with the list cooked for the command, which has the error of the cooked list or of the callback; nothing happens for an unknown context |
| `EngineReplyData.DataAccepted` | generator/states-reply-chunk.c:332-365 | In every run a data chunk is accepted if it lies in the request, and the connection is given up if it begins outside |
| `EngineReplyData.DataStored` | generator/states-reply-chunk.c:332-393 | In every run, at the end of a data chunk the buffer holds the bytes of its payload at the offset in its first eight bytes, and the chunk callback is shown them |
| `EngineReplyData.SimpleStored` | generator/states-reply-simple.c:64-99 | In every run, at the end of a simple reply to a read the buffer is what followed the header, and the chunk callback is shown it |
| `EngineReplyData.HolePunched` | generator/states-reply-chunk.c:395-442 | In every run, a hole inside the request reads as zeroes afterwards, nothing else of the buffer changes, and the chunk callback is shown it; one that begins outside ends the connection |
| `EngineReplyData.ErrorTold` | generator/states-reply-chunk.c:193-330 | In every run, at the end of an error chunk a command without an error has the errno of the number in its first four bytes, by a literal table, or what a failing chunk callback says; an error it has stays |
| `EngineSafety.StepParse` | generator/states-reply.c:48-312 | Every step keeps the parser right and fails no assertion, except FINISH_COMMAND of a reply whose command was unknown when its cookie was read and is in flight now, which fails |
| `EngineParser.ActParse` | generator/states-reply-chunk.c:79-712 | Each reply state leads to a position whose promises hold |
| `EngineParser.DeliverParse` | generator/states.c:43-100 | Receiving any part of what is wanted keeps the position's promises |
| `EngineReads.SuccessfulReadComplete` | lib/aio.c:101-110 | In every run, whatever other commands there are: a read that is CountSafe, is reported as successful and whose chunks did not overlap has every byte of its buffer from exactly one chunk: received data, or zero in a hole |
| `EngineMisread.MisreadExact` | lib/aio.c:101-110 | For every read request there is a run with that request alone in which it is reported as successful by chunks that do not overlap without every byte having been brought by one, if and only if the request is not CountSafe: it ends nearer to the end of the 64-bit range than its own length |
| `EngineMisread.ShortReadSucceeds` | generator/states-reply-chunk.c:395-442 | Such a run: one hole chunk as long as the read begins at its last byte; nothing is written outside if the buffer was zeroed before |
| `EngineReads.NoOverrun` | generator/states-reply-chunk.c:332-442 | In every run, whatever the server sends, no byte outside a read buffer is written, if the requests are WriteSafe |
| `EngineOverrun.OverrunExact` | generator/states-reply-chunk.c:30-46 | For every read request there is a run with that request alone in which a byte outside its buffer is written if and only if the request is not WriteSafe: it ends within four gigabytes, or 64 megabytes if the buffer was zeroed before, of the end of the 64-bit range |
| `EngineReads.StepReads` | generator/states-reply-chunk.c:332-442 | Every step keeps each buffer equal to its initial content painted with the pieces claimed so far, and data_seen their sum in 32 bits or beyond the count |
| `EngineRequests.RunEvery` | lib/rw.c:291-342 | In every run, what holds of every request that is queued holds of every command in a list |
| `ReadData.BoundsExact` | generator/states-reply-chunk.c:30-46 | Of all chunks of up to m bytes structured_reply_in_bounds, with its 64-bit wrap-around, lets only those inside the request through if and only if the request does not end within m bytes of the end of the range |
| `ReadData.FullCover` | lib/aio.c:101-110 | Disjoint in-range pieces whose lengths add up to the count cover every byte |
| `EngineQuiet.ActQuiet` | generator/states-reply-chunk.c:79-712 | Every reply state but FINISH_COMMAND changes only the parser, the data and error of commands in flight, and the log; errors do not go away |
| `BlockStatus.CookedList` | generator/states-reply-chunk.c:556-631 | At least one entry; all but the last are the server's; lengths sum to at most what is left of the export and fit the callback; an empty entry comes alone with an error; unchanged and without error exactly when well formed |
| `BlockStatus.CookLoop` | generator/states-reply-chunk.c:575-631 | The loop computes that list |
| `BlockStatus.CookEntry` | generator/states-reply-chunk.c:576-631 | One round of the loop, with 63-bit and 32-bit limits |
| `NbdHandle.FindCommand` | generator/states-reply.c:213-218 | The search loop finds the first command with the cookie |
| `NbdHandle.NbdHandle.constructor` | lib/handle.c:51-122 | A new handle is the beginning of a run |
| `NbdHandle.NbdHandle.RecvIntoRbuf` | generator/states.c:43-100 | Stores what recv gave where rbuf points; 0, 1 or -1 |
| `NbdHandle.NbdHandle.CookEntries` | generator/states-reply-chunk.c:556-631 | The raw descriptors are cooked by the loop; that they are the ones on the wire is EngineReplies.DescsDecode and EngineReplies.StatusReported |
| `NbdHandle.NbdHandle.AbortCommands` | generator/states.c:141-180 | The loop fails a whole list as specified |
| `NbdHandle.NbdHandle.Run` | generator/state_machine.ml:725-834 | One entry of any state continues the run; whatever the server sent: no assertion has failed with extended headers, nothing was written outside a buffer, the outgoing stream is exact unless a disconnect was resent, and at the end every completion callback has been made |
| `NbdHandle.NbdHandle.Notify` | generator/state_machine.ml:725-834 | A notification continues the run |
| `NbdHandle.NbdHandle.Submit` | lib/rw.c:291-342 | The cookie is one that no command has or had; -1 after a disconnect and beyond the largest count, and then nothing changes |
| `NbdHandle.NbdHandle.AioCommandCompleted` | lib/aio.c:76-132 | The one verdict on a command: 0 if and only if no done command has the cookie, 1 if and only if it has no error and, if it is a read, data_seen is its count; never success for one that got an error chunk or went through RESYNC; success for a CountSafe read with non-overlapping chunks means that every byte came from one chunk |
| `NbdHandle.NbdHandle.AioPeekCommandCompleted` | lib/aio.c:135-149 | -1 if and only if every command ever queued has been retired; otherwise 0, or a command with a verdict whose completion callback came before the others' |
| `CommandLists.List.Find` | generator/states-reply.c:256-262 | The walk finds the element that the engine's search finds, and its predecessor |
| `CommandLists.List.Unlink` | generator/states-reply.c:293-297 | Unlinking keeps the list a chain without repetition and takes out just that element |
| `CommandLists.List.Append` | generator/states-reply.c:300-307 | Appending at the tail |
| `CommandLists.List.Push` | generator/states-issue-command.c:138-139 | Pushing in front |
| `CommandLists.CommandLists.Enqueue` | lib/rw.c:329-336 | Queues at the back; lists stay acyclic and disjoint and tails right; an empty queue has no tail; the lists hold what the engine's queues hold |
| `CommandLists.CommandLists.IssueFinish` | generator/states-issue-command.c:132-139 | The head moves to the in-flight list, as in the engine; the tail is cleared with the last one |
| `CommandLists.CommandLists.FinishCommand` | generator/states-reply.c:256-307 | The first command with the cookie moves to the back of the done queue or is freed, as in the engine |
| `CommandLists.CommandLists.Retire` | lib/aio.c:88-122 | The first command with the cookie leaves the done queue, as in the engine; order and tail are kept |
| `CommandLists.CommandLists.Abort` | generator/states.c:141-180 | All commands of a list are freed or appended to the done queue in order; no other tail is touched |
| `CommandLists.CommandLists.End` | generator/states.c:193-219 | DEAD and CLOSED empty both lists; cmds_to_issue_tail dangles afterwards if and only if the queue was not empty |
| `NegotiationSafety.RequiredTlsIsThere` | generator/states-newstyle.c:245-283 | With TLS required no run reaches READY or NEGOTIATING without TLS |
| `NegotiationSafety.NegotiatedStateFits` | lib/flags.c:55-92 | In every reachable state: no assertion has failed, extended headers imply structured replies, nothing negotiated in the clear is in use while TLS is set up and after that everything in use was received over it, and the flags claim nothing that was not negotiated |
| `NegotiationSafety.StepInv` | generator/states-newstyle.c:184-319 | Every state and every call keeps the invariant, so that the empty-contexts assertion and the callback and option-mode assertions hold |
| `NegotiationRuns.TlsTried` | generator/states-newstyle-opt-starttls.c:22-131 | In every run: if TLS is not disabled, a fixed newstyle connection that has got beyond TLS, in particular one that is READY or NEGOTIATING, uses it, or the server has answered NBD_OPT_STARTTLS with an error |
| `NegotiationRuns.OnlySought` | generator/states-newstyle-opt-starttls.c:28-31 | In every run: no option is awaited that neither the settings want nor the program called for; TLS is on although it is disabled only if the program called for it |
| `NegotiationRuns.HeadersTried` | generator/states-newstyle-opt-extended-headers.c:22-49 | In every run: on a fixed newstyle connection that is READY or NEGOTIATING, extended headers that are requested have been answered by the server, and so have structured replies unless they came with extended headers |
| `NegotiationRuns.ContextsAsked` | generator/states-newstyle-opt-meta-context.c:64-77 | In every run: requested metadata contexts have been asked for just before OPT_GO or OPT_INFO |
| `NegotiationRuns.AgreedExactly` | generator/states-newstyle-opt-starttls.c:82-93 | In every run TLS, structured replies, extended headers and the validity of the contexts are there if and only if the server granted them and nothing withdrew them since |
| `NegotiationRuns.FixedAsOffered` | generator/states-newstyle.c:245-283 | In every run a newstyle server counts as fixed if and only if it and the client say so |
| `NegotiationRuns.SizeAsTold` | lib/flags.c:55-92 | In every run size and flags of the export are those that the server last said and that were not forgotten since, without the flags that need what was not agreed on; without such there are none |
| `NegotiationRuns.BlockSizeAsTold` | lib/flags.c:98-126 | In every run so are the block sizes, of those that are powers of two in the ranges of the protocol |
| `NegotiationRuns.ReadyAfter` | generator/states-newstyle-opt-go.c:138-271 | In every run a READY connection got its export in the oldstyle handshake, by OPT_EXPORT_NAME, or by an acknowledged OPT_GO; OPT_EXPORT_NAME is used of a fixed server only if it does not know OPT_GO; and the payload limit follows from the maximum block size |
| `NegotiationRuns.FailsForCause` | generator/states-newstyle.c:117-319 | In every run a step leads to DEAD if and only if there is one of these causes: an I/O error, a malformed or unexpected reply, information of the wrong length, flags of zero, TLS that is required and not possible or accepted twice, global flags of an oldstyle server, or an abort |
| `NegotiationRuns.CallSent` | lib/opt.c:349-520 | In every run an option that a program calls for is sent to a fixed newstyle server, unless an I/O error is in the way; OPT_GO and OPT_INFO after the metadata contexts |
| `StaleContexts.StaleExactly` | generator/states-newstyle-opt-starttls.c:82-93 | In every run, over TLS: nbd_can_meta_context reports a context that was granted in the clear if and only if the list held it when TLS was accepted, no OPT_META_CONTEXT.START has emptied it since, and the program requests no contexts now |
| `StaleContexts.RunHas` | generator/states-newstyle-opt-meta-context.c:48-77 | In every run the list holds just the contexts that were granted since it was last emptied |
| `StaleContexts.StaleContextReachable` | lib/flags.c:230-243 | A run in which a context granted in the clear is reported after TLS was accepted |
| `StaleContexts.StaleAfterClearing` | lib/flags.c:230-243 | A run in which it is not reported when TLS comes on, but is as soon as the program clears its list of requests |
| `Negotiator.Negotiator.constructor` | lib/handle.c:69-87 | A new negotiation is the beginning of a run |
| `Negotiator.Negotiator.Run` | generator/states-newstyle.c:184-319 | One entry of any state continues the run, of which NegotiationRuns and NegotiationSafety say what was asked and what came of it; no assertion has failed, READY and NEGOTIATING mean TLS if it is required, and over TLS everything in use was received over it |
| `Negotiator.Negotiator.CallOption` | lib/opt.c:349-520 | So does an option call while NEGOTIATING |
| `Negotiator.Negotiator.SetName` | lib/handle.c:290-313 | So does a new export name, which forgets the export and the validity of the contexts |
| `Negotiator.Negotiator.CanContext` | lib/flags.c:230-243 | What is reported was granted since the list was last emptied; over TLS, exactly when it was granted in the clear |
| `OptionSend.MetaOptionComplete` | generator/states-newstyle-opt-meta-context.c:79-178 | Under any short writes: what has been sent when the reply is awaited is the option header and exactly the encoded name and queries, the announced length is the number of bytes after the header if and only if that fits in 32 bits, and a server finds the magic IHAVEOPT, the option, the name and the queries |
| `OptionSend.MetaOptionLength` | generator/states-newstyle-opt-meta-context.c:79-82 | The 32-bit loop adds up the length of the data |
| `OptionSend.MetaStepInv` | generator/states-newstyle-opt-meta-context.c:94-172 | Every entry of every sending state keeps sent + wbuf equal to the committed prefix |
| `OptionSend.MetaRoundTrip` | generator/states-newstyle-opt-meta-context.c:94-172 | A server that follows the protocol reads back the export name and the queries |
| `OptionSend.GoOptionComplete` | generator/states-newstyle-opt-go.c:22-120 | The same for NBD_OPT_GO and NBD_OPT_INFO: a server finds the magic, the option, the name and the numbers of the information asked for |
| `OptionSend.GoStepInv` | generator/states-newstyle-opt-go.c:51-120 | Every entry keeps the committed prefix |
| `OptionSend.GoRoundTrip` | generator/states-newstyle-opt-go.c:51-116 | A server reads back the name and the list of information: 3 for block sizes, 1 and 2 for full information |
| `OptionSend.MetaSender.constructor` | generator/states-newstyle-opt-meta-context.c:79-92 | START announces the length computed by the loop |
| `OptionSend.MetaSender.Enter` | generator/states-newstyle-opt-meta-context.c:94-178 | One entry of a sending state; when the reply is awaited exactly the header and the encoded name and queries have been sent |
| `Bytes.ValBE` | generator/states-issue-command.c:44-59 | Decoding a big-endian field inverts encoding it |
| `Bytes.BEVal` | generator/states-reply.c:208 | Encoding inverts decoding: a field has one wire form |
| `Bytes.MostSignificantFirst` | generator/states-issue-command.c:44-59 | The first byte of a field is its most significant one |

## Left out

- Sockets, GnuTLS, fork and exec, connecting, and the magic numbers before NEWSTYLE.START and OLDSTYLE.START: recv, send and the TLS handshake are inputs of the model.
- nbd_close, ABANDON_PENDING and nbd_shutdown: runs end with DEAD or CLOSED at the latest.
- Failing allocations (malloc, strdup, vectors): every allocation succeeds.
- MSG_MORE, traffic counters, debug and error messages, thread-local errors: they have no influence on the properties.
- The size of the sink buffer in recv_into_rbuf: a discarded payload may be received in larger pieces than BUFSIZ.
- The checks of nbd_internal_command_common that refuse a command before it is queued are preconditions of Submit; a command is refused without one after a disconnect and beyond the largest count.
- What a write outside a read buffer does to other memory: the model drops the bytes and sets the trace field `overrun`.
- Cookies are limited to 63 bits, as the API returns them as int64_t.
- The replies of NBD_OPT_LIST, the canonical name and the description are not stored, as nothing else depends on them.
- Signed overflow of offsets in extent lists: offsets are unbounded, which the cooking of descriptors (`BlockStatus.CookedList`) justifies for extents of an export.
- The allocation status of zeroed ranges, page cache advice, progress bars and the command line of nbdcopy; copy/main.c:404-438 gives the preconditions of a valid configuration.
- Locking in the copier: the mutex of get_next_offset makes it one step; the other steps are what a thread does to the shared state between two points at which another thread's access matters, and a loop of zero writes is covered as a zero command whose bytes land one by one.
- SynchCopy.Target.SynchZero: states the content of the range, not whether it is allocated.
- SynchCopy.Target.FileZero: states the content of the range, not whether it is allocated.
- EngineReads.SuccessfulReadComplete: is about nbd_aio_command_completed; a read that its completion callback retires is not checked for data_seen by the original either.
- The data and error of a command change in the engine's sequences only; the linked lists hold the requests.
- The methods of NbdHandle and Negotiator for single states have no row of their own: each does to the fields what the function of its state does to the handle.
