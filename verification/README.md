# Hiway: machine-checked model of its bounded event bus

Hiway moves events between components through bounded, caller-driven storage. This
project models the parts of it whose correctness is hard to see from one function and
proves what they are for. Everything is verified by Dafny 4.11; `dafny verify
dfyconfig.toml` checks the whole project.

The model follows the program's structure.

- **Frames and the credit link.** `Wire` and `Transport` hold the HWY1 frame layout.
  `Machine` is the import/export state machine as a value, `Protocol` the same machine as
  an object updated in place and proved equal to it step by step. `Link` joins one exporter
  and one importer by two FIFO byte streams; a driver may shorten every request and a kernel
  may complete lanes in any order, short, retried or failed. `LinkSafety` proves what every
  run keeps, `LinkProgress` that a matched link never closes itself, never gets stuck and
  finishes within a measure. `ImportOrder` and `ExportCredits` take the peer's side away: what
  an importer admits and which credits an exporter takes whoever sends the bytes.
- **Accountability.** `Records` is the bounded record ring, `Accountability` one
  connection's history, `Endings` how that history ends, `Archive` the records that outlive
  their connection.
- **The io_uring driver.** `Operations` are the operation slots, `ReadyRing` the
  deduplicating ring, `Slots` what each call does to one link's record, `Kernel` the set of
  completions still owed, `Completions` what its answers do, `Turns` the cyclic order of a
  pass, `Passes` what the visits of a pass did and what they add up to over a run, `Calls`
  what each call does and what any sequence of calls adds up to, `Driver` the scheduler
  itself, proved to make only such steps, `Shutdown` the debt that every remaining step of a
  stopped driver lowers. `Results` says what each result code means and `OwnerWakes` that no
  waiting future is forgotten, whatever is called. `Wired` and `WiredRuns` put a driver at
  each end of a `Link` and carry its safety over to them.
- **Grants.** `Revocation` interleaves `enter`, `restrict`, `revoke` and operation ends one
  atomic access at a time, `Quota` charges and releases one counter at a time; `GrantCalls`
  and `QuotaCalls` prove that calls succeed when nothing forbids them and fail only for cause.
  `Allowance` is the partition into pools and the permission table.
- **Streams.** `RetainedLog` is one unbounded log with cursors. `StaticStream` (a ring
  array) and `DynamicStream` (a deque of leased entries with deferred maintenance) both
  refine it, and `Backends` runs both to the same answers. `DequeRuns` follows one
  subscription of the deque through any calls. `Wakeups` is the static stream's waiter
  protocol, `StaticWaiters` the calls that take part in it.
- **Schemas.** `Schema` is the evolution relation.
- **The Unix endpoints.** `UnixLink` is the second importer and its agreement with the
  machine, `UnixExport` the exporter's two tasks, `UnixSafety` both ends over their sockets,
  `UnixProgress` that their exchange never gets stuck and can always be finished.

Specification functions describe one step on values. Classes hold the fields the program
updates, and each method's contract ties its new state to those functions; what the program
promises is then proved of the functions, over every input and every run, in terms that do
not name them: arithmetic on sequences, bytes on the wire, what was sent and what was given up,
which errors are retried, which futures are woken. A run is any sequence of enabled steps;
where a step function is defined on sound states only, that each state of a run is sound is
proved, not assumed.

## Two results that differ from the expectation

- `shutdown_complete` is documented as the point after which nothing remains. It is not
  stable: dropping the future of a link that was already closed and released leaves the
  answer true, but the next I/O pass records the retirement of its protocol and the answer
  becomes false until that is dispatched (`Shutdown.CompleteIsNotFinal`, reached from a first
  attachment). From a complete state it stays complete, over any sequence of calls, if and
  only if no pass and no further `cancel_all` begins while a link is abandoned, that is, has
  a protocol and no future (`Calls.CompleteRun`, a clause of `Driver.Driver.Serve`).
- In `submit` and `submit_entered` the second check of the queue and of the protocol's
  demand, a failed preparation and an absent reservation cannot be reached from a sound slot
  (`hiway-uring/src/driver.rs:1160-1195`); the model has one branch for each reachable
  outcome.

## Model

| member | source | states |
|---|---|---|
| Wire.DecodeEncodeLe | hiway/src/transport/mod.rs:248-255 | a fixed-width little-endian field reads back as the number written, at every width |
| Wire.EncodeDecodeLe | hiway/src/transport/mod.rs:248-255 | and every byte string is the encoding of the number it reads as |
| Wire.EncodeLeInjective | hiway/src/unix.rs:677-700 | two numbers with the same field bytes are equal, so a header addresses one event only |
| Wire.Digits | hiway/src/transport/mod.rs:248-255 | the byte at place i is the number's digit for 256 to the power i: the least significant byte comes first |
| Transport.Layout | hiway/src/transport/mod.rs:248-255 | where each field stands: the magic, event, major, revision, sequence and length at their offsets, a credit a one and the sequence, byte by byte |
| Transport.HeaderRoundTrip | hiway/src/transport/mod.rs:248-255 | a header parses back to revision, sequence and length, and is addressed to exactly the contracts with its event and wire major |
| Transport.CreditNamesSequence | hiway/src/transport/protocol.rs:228-232 | the nine credit bytes decode to the sequence they acknowledge |
| Transport.EncodeFrame | hiway/src/transport/mod.rs:234-255 | the caller buffer holds header and payload exactly when the frame fits and the codec wrote what it declared; each refusal has its own error and the header is untouched |
| Machine.ApplyKeepsInv | hiway/src/transport/protocol.rs:239-343 | every input keeps stage, offsets, lengths, credit flag and accepted operations consistent, so no length in a later effect underflows |
| Machine.ApplyKeepsContract | hiway/src/transport/protocol.rs:257-343 | no input changes contract, direction or capacity |
| Machine.EffectFitsBuffer | hiway/src/transport/protocol.rs:175-226 | every transfer asks for at least one byte and stays inside its fixed buffer |
| Machine.ClosureIsFinal | hiway/src/transport/protocol.rs:239-255 | the first close reason stays, and closing forgets no operation still owed a completion |
| Machine.SentCreditHasFrame | hiway/src/transport/protocol.rs:228-232 | a credit in flight always has an admitted frame to name |
| Machine.AcceptedMachine | hiway/src/transport/protocol.rs:265-274 | accepting a transfer the lane asks for with an unused id records exactly that transfer and changes nothing else |
| Machine.CompletedMachine | hiway/src/transport/protocol.rs:275-307 | a completion reaches the one lane whose operation has its id |
| Machine.CompleteClearsLane | hiway/src/transport/protocol.rs:275-307 | after a completion the lane is free, the other lanes as before |
| Protocol.Protocol.Input | hiway/src/transport/protocol.rs:239-255 | the in-place method ends in the state, error and history of the specification step, and closure ends the history with Cancelled for a revocation or a close for Closed or Revoked, and otherwise with Rejected and the reason the link closed for |
| Protocol.Protocol.Transition | hiway/src/transport/protocol.rs:257-343 | the same for each kind of input before the closing rule |
| Protocol.Protocol.Provide | hiway/src/transport/protocol.rs:308-325 | a provided frame starts sending with its credit withdrawn, or is refused in the stated cases |
| Protocol.Protocol.Admit | hiway/src/transport/protocol.rs:326-341 | admission turns the machine to the next header and remembers the sequence to credit |
| Protocol.Protocol.Complete | hiway/src/transport/protocol.rs:275-307 | short, retried, failed and oversized completions each move the machine as specified |
| Protocol.Protocol.Progress | hiway/src/transport/protocol.rs:346-348 | an advanced offset is judged by its own lane |
| Protocol.Protocol.ProgressData | hiway/src/transport/protocol.rs:348-399 | reassembly: when a frame or header is complete, and what is refused |
| Protocol.Protocol.ParseHeader | hiway/src/transport/protocol.rs:367-392 | a header is taken if and only if it names the contract, fits, brings no excess bytes and its sequence is the successor on an ordered link, any larger one on a latest-state link; too long a frame is Capacity, every other refusal Protocol |
| Protocol.Protocol.CreditBytes | hiway/src/transport/protocol.rs:228-232 | the credit handed out for the wire is the one the specification stages |
| Protocol.Protocol.PopRecord | hiway/src/transport/protocol.rs:158-161 | draining hands out the oldest undrained record of this connection and changes nothing else of the protocol |
| Protocol.Protocol.ObserveSequence | hiway/src/transport/protocol.rs:168-173 | noting a sequence from outside changes only the history, as an observation does |
| Link.StartHolds | hiway/src/transport/protocol.rs:109-132 | two fresh machines and empty byte streams satisfy the link invariant |
| LinkSafety.StepHolds | hiway/src/transport/protocol.rs:175-431 | every step of exporter, importer, driver, kernel and host keeps the link invariant, whatever is shortened, retried, reordered between lanes or failed |
| LinkSafety.DeliversNextItem | hiway/src/transport/protocol.rs:350-399 | when the importer asks for admission, the payload in its buffer is the next item the exporter was given |
| LinkSafety.AcceptCreditHolds | hiway/src/transport/protocol.rs:228-232 | the credit staged for sending names the last admitted frame even when a new header has replaced the sequence |
| LinkSafety.CreditIsExpected | hiway/src/transport/protocol.rs:404-426 | the credit that arrives is for the exporter's current frame, which is in the stage that accepts it |
| LinkSafety.ParsedHeader | hiway/src/transport/protocol.rs:367-392 | a received header is accepted if and only if event and major agree, the frame fits and the sequence is the successor on an ordered link, a larger one on a latest-state link |
| ImportOrder.MachineAdmitsInTurn | hiway/src/transport/protocol.rs:367-392 | whatever inputs an importer is given by any peer, driver and host, the sequences it admits are consecutive on an ordered link and strictly increase on a latest-state link |
| ImportOrder.HeaderTakenExactly | hiway/src/transport/protocol.rs:367-392 | and nothing else is refused for its sequence: when a whole header is taken, with which fields, and which error it is refused with otherwise |
| ImportOrder.WholeFrameAtOnce | hiway/src/transport/protocol.rs:191-200 | an importer asks for as much as its buffer holds, so a frame arriving in one piece is ready for admission at once |
| ImportOrder.FrameTakenExactly | hiway/src/unix.rs:677-700 | the Unix importer refuses a header in the same cases with the same errors |
| ImportOrder.UnixAdmitsInTurn | hiway/src/unix.rs:622-660 | and over any stream of bytes admits consecutive sequences on an ordered link, increasing ones on a latest-state link |
| ImportOrder.StreamTakesAll | hiway/src/unix.rs:622-660 | and a stream of frames that name its event and major, fit and are in turn is admitted one and all, each credited, after which it waits for more |
| ExportCredits.CreditsNameFrames | hiway/src/transport/protocol.rs:404-426 | whatever the peer sends, each credit an exporter has taken is a one and the sequence of the frame it credits, frame by frame, and it asks for the next frame only once every frame before is credited |
| ExportCredits.CreditTakenExactly | hiway/src/transport/protocol.rs:404-426 | at any point of any run a whole credit is taken exactly when a frame waits for one and the bytes name it, and otherwise closes the link as a protocol error |
| LinkSafety.LinkSafety | hiway/src/transport/protocol.rs:175-431 | link safety over every run: admitted is a prefix of delivered is a prefix of provided, credits accepted <= admissions, provided <= credits + 1, and each accepted credit names its frame |
| LinkProgress.NeverCloses | hiway/src/transport/protocol.rs:257-431 | with matching contracts, fitting frames and following sequences neither machine ever closes itself |
| LinkProgress.StepWorks | hiway/src/transport/protocol.rs:257-431 | every productive step lowers a measure of unsent, unread, uncredited and uncollected bytes |
| LinkProgress.WorkIsBounded | hiway/src/transport/protocol.rs:257-431 | a run makes no more productive steps than its frames and retries pay for |
| LinkProgress.NeverStuck | hiway/src/transport/protocol.rs:175-226 | until every provided frame is admitted and credited some productive step is enabled |
| LinkProgress.Drains | hiway/src/transport/protocol.rs:175-431 | from any point of a matched link the exchange can be finished within the measure: every provided frame is admitted and the exporter is back at its source |
| Records.Ring.Push | hiway/src/transport/accountability.rs:63-75 | pushing into the circular buffer is pushing onto a bounded queue that drops its oldest record and counts it |
| Records.Ring.Pop | hiway/src/transport/accountability.rs:78-87 | popping hands out the oldest undrained record |
| Records.RecordsAreConserved | hiway/src/transport/accountability.rs:38-95 | over any pushes and pops the held records are the newest undrained ones in order, and every other record was drained or counted lost until the counter saturates |
| Accountability.Ledger.Push | hiway/src/transport/accountability.rs:147-152 | nothing is recorded after a terminal record |
| Accountability.Ledger.Finish | hiway/src/transport/accountability.rs:161-164 | the first closure writes one rejection record and ends the history |
| Accountability.Ledger.Cancel | hiway/src/transport/accountability.rs:166-169 | the first cancellation writes one record and ends the history |
| Accountability.PhaseMeaning | hiway/src/transport/accountability.rs:143-169 | a history accepted by the phase automaton alternates Admitted and Completed of the same sequence and has at most one terminal record, at its end |
| Accountability.EventTracks | hiway/src/transport/protocol.rs:239-255 | each input moves the history exactly as it moves the machine |
| Accountability.ConnectionHistory | hiway/src/transport/accountability.rs:143-169 | over any run of a connection the history alternates Admitted(s), Completed(s), with exactly one terminal record once it is closed |
| Endings.ConnectionEnding | hiway/src/transport/protocol.rs:239-255 | and that terminal record is Cancelled if a revocation or a close for Closed or Revoked closed the link, and otherwise Rejected with the error it closed for; it carries the last sequence seen |
| Endings.ClosingEvent | hiway/src/transport/protocol.rs:239-255 | the same event by event: what an open connection's history gains when an event closes it |
| Endings.LastRecord | hiway/src/transport/protocol.rs:239-255 | and for any machine and any history not yet ended |
| Archive.Shelf.Retire | hiway-uring/src/driver.rs:365-374 | retiring a connection moves its undrained records in order into the shared archive and adds its losses |
| Archive.StepKeepsDomain | hiway-uring/src/driver.rs:654-680 | generating, retiring and popping keep generated = popped + held + overwritten |
| Archive.NothingLostUncounted | hiway-uring/src/driver.rs:667-680 | across any slot reuse the reported loss is generated minus popped minus held, until it saturates |
| Operations.Operation.Prepare | hiway/src/transport/operation.rs:58-65 | a fresh generation, wrapping, only from the available phase |
| Operations.Operation.Accepted | hiway/src/transport/operation.rs:67-74 | submission takes only the prepared id |
| Operations.Operation.Cancel | hiway/src/transport/operation.rs:76-85 | cancelling abandons an unsubmitted operation and requests cancellation of a submitted one once |
| Operations.Operation.CancelAccepted | hiway/src/transport/operation.rs:91-97 | only a requested cancellation of the current id is accepted |
| Operations.Operation.CancelCompleted | hiway/src/transport/operation.rs:99-105 | the cancellation ends only for its own id after it was accepted |
| Operations.Operation.Completed | hiway/src/transport/operation.rs:107-117 | the original ends once, for its own id, and drops a cancellation not yet accepted |
| Operations.Operation.Reclaim | hiway/src/transport/operation.rs:119-126 | reuse waits for an accepted cancellation to end |
| Operations.ReuseNeedsBothEnds | hiway/src/transport/operation.rs:58-126 | over any calls an operation that can be prepared again has had its original and its accepted cancellation each end exactly once |
| Operations.GenerationCounts | hiway/src/transport/operation.rs:58-65 | over any calls the generation counts the preparations and goes round after the last |
| ReadyRing.Ready.Push | hiway-uring/src/driver.rs:246-252 | the ring is a queue without duplicates and never overflows |
| ReadyRing.Ready.Pop | hiway-uring/src/driver.rs:256-262 | popping hands out the front |
| ReadyRing.Ready.Prioritize | hiway-uring/src/driver.rs:263-270 | it terminates and preserves cyclic order with the index in front; an absent index changes nothing |
| ReadyRing.RoomForAbsent | hiway-uring/src/driver.rs:231-252 | a duplicate-free ring as large as its index space has room for any absent index |
| Turns.TurnedPosition | hiway-uring/src/driver.rs:935-939 | after turning to the first denied link, every later link is strictly nearer by that many places |
| Turns.TourIsFair | hiway-uring/src/driver.rs:893-939 | a link the tour does not record as served ends the pass strictly nearer the front; that the record is exactly the visits not denied is what `Driver.Driver.Rounds` ensures |
| Turns.BoundedWait | hiway-uring/src/driver.rs:859-947 | over fair passes a queued link is served within as many passes as its position |
| Passes.ServedEnters | hiway-uring/src/driver.rs:905-930 | in any pass of the driver a turn not denied to a link that stays pending, uncontended and not turned away entered a request |
| Passes.EnteredWithinPasses | hiway-uring/src/driver.rs:859-947 | over any run of the driver whose passes each find the submission queue taken, such a link has a request entered within as many passes as there are links |
| Passes.LaneEnteredWithinPasses | hiway-uring/src/driver.rs:215-228 | and each lane that stays pending on it has its own request entered within three times as many passes |
| Passes.QuietRun | hiway-uring/src/driver.rs:905-930 | visits to a link that asks for nothing enter nothing and only refresh it |
| Kernel.TokenRoundTrip | hiway-uring/src/driver.rs:114-116 | a completion token decodes to the operation and kind it was made for |
| Kernel.KernelGains | hiway-uring/src/driver.rs:1055-1073 | submitting adds exactly one new token, owed by nobody before |
| Kernel.KernelLoses | hiway-uring/src/driver.rs:1005-1052 | a completion removes exactly the token it decodes to |
| Kernel.KernelBound | hiway-uring/src/driver.rs:480-484 | the kernel never owes more than six completions a link |
| Kernel.OwedIsCurrent | hiway-uring/src/driver.rs:1007-1020 | an owed token names the current generation of exactly one operation |
| Kernel.BufferIsFree | hiway-uring/src/driver.rs:1019-1052 | while a lane is free, or its machine asks for a transfer, a frame or an admission on it, the kernel owes neither terminal completion for it: its buffer is the owner's |
| Slots.CompletedHolds | hiway-uring/src/driver.rs:1019-1052 | after a terminal completion the slot is sound: the protocol lane and the operation are both free |
| Slots.SentHolds | hiway-uring/src/driver.rs:1188-1215 | after a submission the protocol lane holds the id of the submitted operation |
| Slots.CancelSentHolds | hiway-uring/src/driver.rs:1055-1073 | after a submitted cancellation the slot is sound |
| Slots.RefreshHolds | hiway-uring/src/driver.rs:1222-1233 | a refresh leaves only a pending lane in need of another pass |
| Slots.ShutHolds | hiway-uring/src/driver.rs:1456-1465 | closing leaves every kernel-held operation recorded |
| Slots.DispatchedHolds | hiway-uring/src/driver.rs:312-363 | sockets and reservation are released, and the protocol retired, only when all operations are free; dispatching creates no new need of a pass |
| Slots.AttachedHolds | hiway-uring/src/driver.rs:556-570 | a reused slot holds no operation and no socket of its last connection |
| Slots.NothingLeft | hiway-uring/src/driver.rs:952-965 | a slot needs no pass if and only if no lane is pending, no closed link's request is uncancelled, and with no reclamation recorded no closed idle link holds resources or lacks its future |
| Driver.Driver.Consume | hiway-uring/src/driver.rs:1005-1052 | one completion ends the request its token names, marks the slot ready and touches no other slot; a link that has closed by it, or whose machine newly asks its owner for a frame or an admission, has its wake on record; a refused receive hint turns hints off |
| Results.CompletionMeans | hiway-uring/src/driver.rs:1027-1047 | EINTR, EAGAIN and the refusal of a receive hint leave the machine to ask again, any other negative code closes it with that code, zero closes it as ended, more bytes than asked for is a protocol error |
| Results.HintIsFirst | hiway-uring/src/driver.rs:1185-1204 | a request is hinted exactly if it is a receive at the start of its buffer and hints are on |
| Results.HintsOverRun | hiway-uring/src/driver.rs:1027-1031 | over any calls hints are on if and only if they were at first and no completion consumed since refused one |
| OwnerWakes.WakeIsRecorded | hiway-uring/src/driver.rs:1040-1048 | between any two states of any run of calls, while a future makes no call and no dispatch wakes it, its waker stays; once its link closes, or its machine newly asks for a frame or an admission, the wake is on record |
| OwnerWakes.ParkedIsWoken | hiway-uring/src/driver.rs:1344-1416 | a future whose poll was told to wait is registered, with its wake on record if the link has closed or what it polled for is there, unless a dispatch has woken it since |
| OwnerWakes.NobodyIsForgotten | hiway-uring/src/driver.rs:290-360 | so once every record has been dispatched no future is left waiting for something that is there |
| OwnerWakes.PassNotes | hiway-uring/src/driver.rs:1090-1092 | after a pass with deferred admission every link for which the authority was asked has a note for it on record |
| Driver.Driver.CancelLane | hiway-uring/src/driver.rs:1055-1073 | a cancellation is queued unless the submission queue is full |
| Driver.Driver.SubmitLane | hiway-uring/src/driver.rs:1075-1134 | a transfer is blocked exactly when bytes or unreserved entries are missing; otherwise the authority's answer decides: sent, marked contended with the machine untouched, or the link closed for exactly the authority's reason with its wake on record |
| Driver.Driver.SendLane | hiway-uring/src/driver.rs:1136-1219 | the request is the protocol's effect shortened to the byte budget, with one new kernel token |
| Driver.Driver.Visit | hiway-uring/src/driver.rs:905-930 | one link's turn: its first pending lane is entered, or denied exactly for want of bytes or entries, or the link is contended, has nothing pending or is turned away; back in the ring if anything is pending |
| Driver.Driver.Turn | hiway-uring/src/driver.rs:902-931 | the next link in the ring takes its turn; the event returned is that link's slot before and after and what came of it, and no other slot changes |
| Driver.Driver.Rounds | hiway-uring/src/driver.rs:889-939 | three rounds stay within the submission and byte limits; a trace of genuine visits accounts for every slot's change and every request; fairness holds with served meaning visited and not denied; unless the limit stops it every queued link is visited |
| Driver.Driver.ScanAuthority | hiway-uring/src/driver.rs:830-857 | exactly the open links whose authority is revoked are closed, as Revoked and with their wake on record, and queued; every contention mark is cleared and nothing else changes |
| Driver.Driver.Reap | hiway-uring/src/driver.rs:866-878 | exactly the budgeted number of completions is consumed |
| Driver.Driver.AdvanceWith | hiway-uring/src/driver.rs:859-947 | one pass: limits, kernel accounting, ownership, no stranded work; the slots its rounds start from are exactly what the consumed completions and the authority scan leave, and a trace of genuine visits leads from them to its result; fairness; on a stopped driver no new transfer; from a complete state complete again if and only if no link was abandoned |
| Calls.DonePass | hiway-uring/src/driver.rs:710-724 | why: from a complete state every visit enters nothing, and exactly the abandoned links get a reclamation recorded |
| Driver.Driver.Perform | hiway-uring/src/driver.rs:528-965 | each call of the host or an owner is one step of the calls' relation, which fixes every slot, the ring, admission and the cursor |
| Driver.Driver.Serve | hiway-uring/src/driver.rs:528-965 | any sequence of attach, export, import, poll, drop, stop, dispatch and pass calls is a run of that relation; its passes form one run of passes; a stopped driver stays stopped, starts no transfer and winds down; and it says when a complete driver stays complete |
| Calls.PassesRun | hiway-uring/src/driver.rs:859-947 | between the passes of any run links join the ring only at the back and turn markers move only with a new connection |
| Calls.GivenTurns | hiway/src/transport/mod.rs:184-202 | whatever the codec and the authority say, an export turn touches only its machine, wake-up and contention marks, keeps the first reason of a closed link, and fails if and only if it leaves the link closed with that error |
| Calls.ReceivedTurns | hiway/src/transport/mod.rs:208-228 | and so does an import turn |
| Completions.AnswersDelivered | hiway-uring/src/driver.rs:1005-1017 | any completions offered are cut down to ones the kernel owed, each once, and a true delivery is not cut |
| Completions.QueueFits | hiway-uring/src/driver.rs:480-484 | the completion queue never holds more than the kernel owed, so it never overflows its six entries a link |
| Driver.Driver.Attach | hiway-uring/src/driver.rs:528-581 | a link is attached if and only if admission is open, the reservation agrees and a slot with a generation left is empty: the first such, with the next generation, a fresh machine, its sockets and a live future; every rejection names its reason and changes nothing |
| Driver.Driver.CheckOpen | hiway-uring/src/driver.rs:1312-1341 | an owner call goes on if and only if the link is open and not revoked; otherwise the link ends closed and its first reason is returned |
| Driver.Driver.ProvideFrame | hiway-uring/src/driver.rs:1356-1375 | a frame is provided if and only if the link is open, unrevoked before and after the codec, of this contract and asking for one, and the frame fits; only success marks the link ready |
| Driver.Driver.AdmittedFrame | hiway-uring/src/driver.rs:1418-1422 | admission is reported if and only if the link is open, unrevoked and awaiting it; only success marks it ready |
| Driver.Driver.CloseLink | hiway-uring/src/driver.rs:1456-1465 | closing an open link sets this reason and its wake record, a closed one keeps its first reason; the contention mark is cleared and the link queued |
| Driver.Driver.ExportStep | hiway/src/transport/mod.rs:184-202 | an export turn queues the link; a closed link keeps its first reason and loses only its contention mark; a success is exactly the frame provided; nothing else of the slot is touched |
| Driver.Driver.ImportStep | hiway/src/transport/mod.rs:208-228 | an import turn queues the link; a closed link keeps its first reason and loses only its contention mark; a success is exactly the admission told; nothing else of the slot is touched |
| Driver.Driver.PollLink | hiway-uring/src/driver.rs:1344-1454 | a poll checks the link, looks, registers the future's waker only when there is nothing for it, and looks again if the waker was not there |
| Driver.Driver.PollStep | hiway/src/transport/mod.rs:184-217 | a failed poll closes the link with its error and queues it; any other leaves it open and unqueued |
| OwnerWakes.PollDecides | hiway-uring/src/driver.rs:1344-1416 | a poll is answered if and only if the link is open, unrevoked and asks for a frame, or has one for admission of this contract that the codec takes; what a failed poll says |
| Calls.LookedTurns | hiway-uring/src/driver.rs:1344-1454 | apart from registering its waker a poll that does not fail leaves an open link as it was, a poll that fails is a failed turn, and one that waits leaves a waker |
| Driver.Driver.DropHandle | hiway-uring/src/driver.rs:1468-1487 | dropping a link's future closes it as Closed unless it was closed before, takes its waker and leaves its protocol to be retired |
| Driver.Driver.CancelAll | hiway-uring/src/driver.rs:686-703 | admission stops and every open link is closed as Closed with its wake on record, with everything that still needs work queued |
| Driver.Driver.DispatchSlot | hiway-uring/src/driver.rs:312-363 | one record is dispatched against the snapshot it was taken from |
| Driver.Driver.DispatchWithBudget | hiway-uring/src/driver.rs:290-310 | exactly the slots from the cursor on, up to the budget of nonempty records, are dispatched, and exactly their nonempty records are counted |
| Calls.DispatchIsFair | hiway-uring/src/driver.rs:290-310 | a slot not dispatched comes strictly nearer the cursor |
| Driver.Driver.ShutdownComplete | hiway-uring/src/driver.rs:710-724 | the answer is exactly admission stopped, nothing owed and every slot done |
| Driver.Driver.Advise | hiway-uring/src/driver.rs:952-965 | Wait only when every slot is at rest: no lane pending, no uncancelled request on a closed link, nothing held that is not recorded for release; Retry only when every slot not at rest is contended |
| Shutdown.OpCompletedWinds | hiway-uring/src/driver.rs:1019-1052 | on a closed link a completion lowers the shutdown debt and wakes nobody |
| Shutdown.DispatchedWinds | hiway-uring/src/driver.rs:312-363 | dispatching any recorded work lowers the debt |
| Shutdown.CancelSentWinds | hiway-uring/src/driver.rs:1055-1073 | an accepted cancellation lowers the debt |
| Shutdown.NoNewTransfer | hiway-uring/src/driver.rs:686-703 | a step that winds the slots down leaves the kernel no transfer it did not hold before; over any calls this is `Calls.NoTransferAfterStop` |
| Calls.NoTransferAfterStop | hiway-uring/src/driver.rs:686-703 | after `cancel_all`, whatever the owners and the host go on to call, no data operation is ever submitted again |
| Calls.StoppedRun | hiway-uring/src/driver.rs:686-728 | a stopped driver stays stopped over any calls, and all its completions, cancellations and dispatched records add up to at most its debt and two for each future dropped |
| Calls.StepStops | hiway-uring/src/driver.rs:686-728 | call by call: what a stopped driver does lowers its debt by the work done, but for a drop, which adds at most two |
| Calls.CompleteRun | hiway-uring/src/driver.rs:710-724 | from a complete state shutdown stays complete over any calls if and only if no pass and no further stop begins while a link is abandoned |
| Shutdown.NoDebt | hiway-uring/src/driver.rs:710-724 | the debt is zero if and only if every slot is done and no link is abandoned |
| Shutdown.DebtlessIsComplete | hiway-uring/src/driver.rs:710-724 | without debt the kernel owes nothing and every slot is done |
| Shutdown.DebtIsVisible | hiway-uring/src/driver.rs:952-984 | while debt is left there is a completion to await, a record to dispatch or a link in the ring |
| Shutdown.RefreshKeepsDone | hiway-uring/src/driver.rs:1222-1233 | a done slot stays done under a refresh if and only if it is not abandoned; `Driver.Driver.AdvanceWith` has the same condition for a whole pass |
| Shutdown.DropUndoesDone | hiway-uring/src/driver.rs:1468-1487 | dropping a live future leaves a done slot done and abandoned, so by the condition of `Driver.Driver.AdvanceWith` the next pass undoes completion |
| Shutdown.ClosedOutIsDone | hiway-uring/src/driver.rs:312-363 | closing, passing over and dispatching an open idle link leaves it done while its future watches |
| Shutdown.CompleteIsNotFinal | hiway-uring/src/driver.rs:710-724 | the first connection of any slot, attached and closed out, is such a slot: done, and undone once its future is dropped and a pass follows |
| Revocation.NextHolds | hiway/src/grant.rs:508-531 | every atomic step of enter, restrict, revoke, operation end and handle drop keeps the revocation invariant |
| Revocation.RevocationCutoff | hiway/src/grant.rs:753-787 | in every interleaving, once a node's revocation is complete no admitted operation is live on it or on any descendant, and none ever will be |
| Revocation.ReturnsComplete | hiway/src/grant.rs:753-787 | a revocation that returns success has completed its node |
| Revocation.LateCallsFail | hiway/src/grant.rs:549-616 | a call that begins below a flagged node never admits an operation and never makes a child |
| Revocation.SeenCovers | hiway/src/grant.rs:764-772 | the nodes a revocation collects include every reachable descendant, also those delegated meanwhile |
| Revocation.AdmitHolds | hiway/src/grant.rs:582-611 | raising the counter under a clear flag, together with one admitted operation, keeps the revocation invariant |
| Revocation.ListsChild | hiway/src/grant.rs:508-519 | the locked rewrite of the child list loses no undropped entry |
| GrantCalls.EnterSucceeds | hiway/src/grant.rs:570-616 | with no flag on the path to the root and room in the counter, an enter left alone ends in one live operation, counted once, and changes nothing else |
| GrantCalls.EnterFailsForCause | hiway/src/grant.rs:570-616 | in every interleaving an enter ends without one only at a step that finds a flag on its path, a full counter or, deferred, a state word changed since it was read |
| GrantCalls.OperationEnds | hiway/src/grant.rs:821-831 | an operation that ends gives back exactly the one it counted |
| GrantCalls.RestrictSucceeds | hiway/src/grant.rs:454-531 | with no flag on the path and the list unlocked, a restrict left alone ends with one open child in its parent's list |
| GrantCalls.RestrictFailsForCause | hiway/src/grant.rs:454-531 | in every interleaving a restrict is refused only at a step that finds a flag on its path, and otherwise ends only with its child open |
| GrantCalls.RevokeSucceeds | hiway/src/grant.rs:753-787 | with no operation under way below its node, a revocation left alone returns with the node complete |
| Quota.NextHolds | hiway/src/grant.rs:652-691 | every single counter access of a charge, rollback, release or delegation keeps the books |
| Quota.CountersAreExact | hiway/src/grant.rs:652-691 | in every interleaving each counter is the sum of the leases and partial charges on it and within its limit |
| Quota.SubtreeWithinLimit | hiway/src/grant.rs:454-507 | direct charges anywhere below a pool, generic or of one event, never exceed its limit, counter by counter |
| Quota.DescendantsWithinLimit | hiway/src/grant.rs:471-477 | the live grants delegated at any depth out of a pool are no more than its limit of grants |
| Quota.GrantWithinDeclared | hiway/src/grant.rs:454-507 | in every interleaving the direct charges under all of a grant's pools together, and its live descendants, are within the limits it declares |
| Quota.PoolInUseIsBacked | hiway/src/grant.rs:802-814 | a pool in use hangs from a lease still accounting for all its counters, so the subtree sums leave nothing out |
| QuotaCalls.RequestDecides | hiway/src/grant.rs:652-691 | a request left alone is granted if and only if every amount fits what its pool has left, reaching the limit included; it then takes exactly its amounts, and a refused one leaves every counter as it was |
| QuotaCalls.RefusedForCause | hiway/src/grant.rs:652-691 | in every interleaving a request is refused only where a counter and the amount asked of it exceeded the limit at that moment |
| QuotaCalls.ReleaseReturns | hiway/src/grant.rs:802-814 | a released lease gives back exactly its amounts |
| Allowance.PartitionLimits | hiway/src/grant.rs:397-423 | the loop computes the split, and fails at the first conflicting repeat or missing capacity |
| Allowance.PoolsMakeUpLimits | hiway/src/grant.rs:397-423 | the generic pool and one pool an event add up to the declared limits however often events repeat |
| Allowance.SplitDecides | hiway/src/grant.rs:397-423 | the split succeeds if and only if repeats of an event agree and what each event asks, counted once, fits the limits |
| Allowance.SplitRefuses | hiway/src/grant.rs:397-423 | and otherwise the first entry to break either decides which error |
| Allowance.Merge | hiway/src/grant.rs:486-492 | merging runs of one event after sorting |
| Allowance.MergedIsTable | hiway/src/grant.rs:485-492 | the merged table is strictly ordered and holds each event's united rights |
| Allowance.CheckDecides | hiway/src/grant.rs:534-547 | binary search decides exactly the union of the requested permissions |
| Allowance.CheckAnswers | hiway/src/grant.rs:534-547 | a revoked grant answers Revoked whatever is asked; otherwise the root permits everything and a delegated grant exactly the rights and events of its request |
| Allowance.ChildIsWeaker | hiway/src/grant.rs:463-465 | a child permits nothing its parent does not |
| Allowance.DescendantIsWeaker | hiway/src/grant.rs:463-465 | down any chain of delegations a descendant permits a subset of every ancestor |
| RetainedLog.ApplyKeepsLog | hiway/src/local.rs:486-580 | no operation lets a live required cursor fall behind what has been given up |
| RetainedLog.CursorSeesEverything | hiway/src/local.rs:544-580 | over any run an ordered cursor's items tile exactly what it moved past, each with its own value; every entry a gap passes over has been given up, and a required cursor sees no gap |
| RetainedLog.GapsAreGivenUp | hiway/src/local.rs:544-580 | whenever a cursor asks, over any run, the entry it is owed is what it gets if that can still be had, and every entry a gap passes over had been given up by then |
| RetainedLog.ReceiveMeans | hiway/src/local.rs:544-580 | a gap starts at the entry owed and ends at the first still had; nothing is answered only when nothing is owed |
| RetainedLog.EarlyOnlyByEviction | hiway/src/alloc_local.rs:464-479 | entries are given up before the capacity forces it only by an eviction no required cursor minds |
| RetainedLog.JoinMeans | hiway/src/local.rs:486-514 | a new ordered cursor starts after everything sent, a new latest-state cursor gets the newest version at once; when joining is refused |
| RetainedLog.SendMeans | hiway/src/local.rs:516-542 | a send is refused only at the end of the sequence space or to spare an entry a live required cursor is still owed |
| RetainedLog.FullSpares | hiway/src/local.rs:516-542 | and had a full log taken the value, that cursor's next entry would be gone |
| RetainedLog.LeaveMeans | hiway/src/local.rs:1046-1055 | a cursor leaves by its own key only; its place is free again, and a send it alone held back goes through |
| RetainedLog.RevokeMeans | hiway/src/alloc_local.rs:464-479 | a revoked subscription keeps its place and position and holds nothing back any more |
| RetainedLog.EvictMeans | hiway/src/alloc_local.rs:464-479 | giving up an entry no required cursor needs gives up it and everything older, and nothing newer; otherwise nothing happens |
| RetainedLog.LatestSeesNewest | hiway/src/local.rs:556-558 | a latest-state cursor gets the newest version or nothing, never a gap |
| StaticStream.Ring.Subscribe | hiway/src/local.rs:486-514 | the ring joins the first vacant cursor slot as the log does |
| StaticStream.Ring.SendNow | hiway/src/local.rs:516-542 | the ring accepts, or answers full or exhausted, exactly as the log, and marks receivers changed |
| StaticStream.Ring.RecvNow | hiway/src/local.rs:544-580 | the ring answers data, gap or nothing exactly as the log, and marks senders changed; data is the value stored in the array for the cursor's sequence, a gap ends at the oldest entry stored |
| StaticStream.Ring.DropReceiver | hiway/src/local.rs:1046-1055 | a dropped receiver frees its own cursor only, and marks senders changed exactly when it did |
| StaticStream.Ring.Close | hiway/src/local.rs:749-755 | the first close reason stays and the values are gone |
| StaticStream.NewestStays | hiway/src/local.rs:534-540 | writing at the tail modulo the capacity overwrites only the entry that has become too old |
| StaticWaiters.UnblocksSend | hiway/src/local.rs:560-578 | a refused sender can only be unblocked by a call that marks senders changed |
| StaticWaiters.UnblocksReceive | hiway/src/local.rs:534-540 | an empty-handed receiver can only be unblocked by a call that marks receivers changed, or by the end of its own subscription |
| StaticWaiters.FailedAttempt | hiway/src/local.rs:694-719 | an attempt that would wait changes neither the stream nor its bits |
| DynamicStream.Deque.Subscribe | hiway/src/alloc_local.rs:338-396 | the deque joins as the log does |
| DynamicStream.Deque.Reserve | hiway/src/alloc_local.rs:696-769 | the publisher is charged one item; with allowance left the answer is the log's; otherwise it gives up only what no required reader needs, and refuses with room left only when the allowance is used up by entries all still needed |
| DynamicStream.Deque.OlderIsUnneeded | hiway/src/alloc_local.rs:464-471 | checking the publisher's own later entry is enough to give up the front |
| DynamicStream.Deque.Commit | hiway/src/alloc_local.rs:771-842 | an admitted publication is the log's send and its payload leaves the publisher's prepared ones; maintenance is demanded exactly when a strict send would have to reclaim; every refusal changes neither entries nor allowances nor what is prepared |
| DynamicStream.Deque.PushOver | hiway/src/alloc_local.rs:805-836 | a full deque loses its first entry, kept as the retired snapshot when reclamation is deferred and dropped, once, when not |
| DynamicStream.Deque.PopFront | hiway/src/alloc_local.rs:581-602 | giving up the front entry drops its payload, for the first time, and its lease |
| DynamicStream.ConservedPush | hiway/src/alloc_local.rs:805-836 | every admitted payload is retained, retired or dropped, and only one of these |
| DynamicStream.Deque.Delegate | hiway/src/grant.rs:493-500 | a child grant's reservation is charged to the allowance exactly when it fits |
| DynamicStream.Deque.Return | hiway/src/grant.rs:802-814 | and given back with the child |
| DynamicStream.Deque.Discard | hiway/src/alloc_local.rs:948-953 | a cancelled preparation releases its charge and its payload |
| DynamicStream.Deque.SendNow | hiway/src/alloc_local.rs:852-860 | with allowance left a send answers and changes the stream as the log does |
| DynamicStream.Deque.TryReceive | hiway/src/alloc_local.rs:1081-1139 | a receive answers and moves its cursor as the log does; data is an entry the deque holds, and no entry a gap passes over is still in it |
| DynamicStream.Deque.ReceiveNow | hiway/src/alloc_local.rs:1066-1071 | receiving with maintenance gives the same item |
| DynamicStream.Deque.RetireConsumed | hiway/src/alloc_local.rs:581-602 | retiring what every live cursor has read changes nothing a user can see |
| DynamicStream.Deque.Maintain | hiway/src/alloc_local.rs:530-560 | maintenance frees the retired snapshot and gives up at most one entry no required reader needs, after which a strict send that asked for it finds room |
| DynamicStream.Deque.DropReceiver | hiway/src/alloc_local.rs:1020-1034 | dropping a receiver is leaving the log |
| DynamicStream.Deque.RevokeGrant | hiway/src/alloc_local.rs:464-479 | a revoked subscription no longer holds anything back |
| DynamicStream.Deque.CloseStream | hiway/src/alloc_local.rs:191-209 | closing releases exactly the retained and retired leases and drops every payload not yet dropped |
| DynamicStream.FullMeans | hiway/src/alloc_local.rs:724-732 | a full deque is a full log, a deque with room never is |
| Backends.RunRing | hiway/src/local.rs:486-580 | for every sequence of subscribe, send, receive and drop the ring answers as the one unbounded log |
| Backends.RunDeque | hiway/src/alloc_local.rs:338-1139 | and so does the deque, for any publishers and allowances, up to a send by one whose allowance is used up; an allowance above the capacity never is |
| DequeRuns.Serve | hiway/src/alloc_local.rs:530-1139 | over any calls on the open deque, with exhausted allowances, strict sends, revoked subscriptions and maintenance, the items a subscription receives tile what it moved past, and a required one sees no gap; and every payload offered is sent, still prepared or given back |
| DequeRuns.RemovedInHand | hiway/src/alloc_local.rs:926-953 | a preparation committed or discarded takes exactly its own payload out of its publisher's prepared ones |
| DequeRuns.SendOf | hiway/src/alloc_local.rs:696-842 | an admitted publication is one send after at most one eviction no required reader minds |
| Wakeups.NextHolds | hiway/src/local.rs:634-719 | every step of locking, contention marking, access, dispatch and registration keeps the wake-up invariant |
| Wakeups.NoLostWakeup | hiway/src/local.rs:694-719 | a parked future whose operation would now succeed has been woken, will be by a dispatch under way, or a change or contention is on record, given that accesses record what they make possible |
| StaticWaiters.AccessIsHonest | hiway/src/local.rs:484-580 | and they do: whatever any call makes possible for a pending future is in the bits it leaves |
| StaticWaiters.Access | hiway/src/local.rs:634-657 | each call on the ring itself is that step: its real bits and what its waiters can do afterwards are the protocol's next state |
| StaticWaiters.Take | hiway/src/local.rs:637-639 | and a dispatching call takes those bits as the protocol says |
| StaticWaiters.NoLostStreamWakeup | hiway/src/local.rs:634-719 | so in every interleaving of calls on the stream no parked send or receive that could complete is forgotten |
| Wakeups.MaintainWakes | hiway/src/local.rs:721-723 | with nobody mid-call one maintenance wakes every such future |
| Wakeups.MaintainRuns | hiway/src/local.rs:634-641 | maintenance can run to its dispatch loop from any quiet state |
| Wakeups.VisitRuns | hiway/src/local.rs:658-665 | and the dispatch loop visits every slot to its end |
| Schema.ValidateSchemaMeans | hiway/src/schema.rs:125-144 | a manifest is accepted if and only if every tag is used once |
| Schema.ValidateEvolutionMeans | hiway/src/schema.rs:154-205 | a revision is accepted if and only if event and major agree, required tags are equal, reservations stay, removed tags are reserved and kinds agree |
| Schema.FaultIsTrue | hiway/src/schema.rs:125-205 | whatever fault a refusal names, with its tag, the two manifests have |
| Schema.EvolutionIsReflexive | hiway/src/schema.rs:154-205 | every valid manifest may follow itself |
| Schema.EvolutionIsTransitive | hiway/src/schema.rs:154-205 | accepted revisions compose |
| Schema.ChainKeepsPromises | hiway/src/schema.rs:154-205 | along any chain a tag keeps its kind even across an absence, a reserved tag never returns and the required tags never change |
| UnixLink.ImportData | hiway/src/unix.rs:622-660 | however the socket hands out its bytes, the import loop ends as its stream of bytes says: frame after frame is cut off the front, admitted and credited until it must wait or refuse, and what follows a frame is kept |
| UnixLink.StreamIsTurns | hiway/src/unix.rs:622-660 | when the peer sends frame by frame this is the run over its turns that the protocol importer agrees with |
| Wired.FinishDrives | hiway-uring/src/driver.rs:1005-1052 | a terminal completion consumed by a driver is the link's completion of that flight, on the protocol of the same slot |
| Wired.TransferDrives | hiway-uring/src/driver.rs:1136-1219 | a visit that enters a transfer is the link's acceptance of it, for as many bytes as the visit asked |
| Wired.PassDrives | hiway-uring/src/driver.rs:859-947 | so a whole pass, as far as one link goes, is a run of link steps |
| WiredRuns.CallDrives | hiway-uring/src/driver.rs:528-965 | every call of a driver is a run of link steps, adding an item exactly when an export turn succeeds and an admission exactly when an import turn reports one |
| WiredRuns.DriversAreSafe | hiway-uring/src/driver.rs:528-965 | link safety of two drivers: over any runs of both the frames admitted at one slot are a prefix of the items taken at the other, at most one behind, and each accepted credit names its frame |
| UnixLink.ReceiveTakes | hiway/src/transport/protocol.rs:275-307 | an accepted receive completed short moves the machine by exactly those bytes |
| UnixLink.FrameAgrees | hiway/src/unix.rs:677-700 | however a frame is cut, the machine waits, refuses or admits exactly as the Unix importer, with the same error, sequence, revision and payload |
| UnixLink.ImportersAgree | hiway/src/unix.rs:622-660 | over whole runs both importers admit the same frames, send the same credit bytes and refuse at the same frame |
| UnixExport.CompletedOnceInOrder | hiway/src/unix.rs:542-620 | each exported frame is completed once, in order, before the next is taken, whichever of last byte and credit comes first, whatever the peer sends |
| ExportCredits.UnixCreditsNameFrames | hiway/src/unix.rs:553-575 | whatever the peer sends, the credit frames taken name the frames admitted one by one; the next is taken exactly when a frame is uncredited and it names that frame, and otherwise ends the link as a protocol error |
| UnixSafety.MoveHolds | hiway/src/unix.rs:553-660 | every step of the two endpoints and their sockets keeps exactly the unadmitted frame and the uncredited credit between them |
| UnixSafety.FrameRead | hiway/src/unix.rs:677-700 | a frame the importer has read is the last item published, in sequence and payload |
| UnixSafety.RefusedExactly | hiway/src/unix.rs:677-700 | a header is refused if and only if it names another event or major, is too long for the importer, or is not the successor on an ordered link, a larger one on a latest-state link; never for how its bytes came |
| UnixSafety.CreditIsAccepted | hiway/src/unix.rs:553-575 | a credit read in full names the outstanding frame, so an honest importer never makes the exporter fail |
| UnixSafety.ExporterStaysOpen | hiway/src/unix.rs:553-575 | and over no run does the exporter close but by a failure of its own |
| UnixSafety.UnixLinkSafety | hiway/src/unix.rs:542-660 | link safety over every run of the two Unix endpoints: admitted is a prefix of published at most one behind, credits are exactly the sequences admitted, in order and at most one behind, and completions follow credits |
| UnixProgress.NeverStuck | hiway/src/unix.rs:542-660 | while a frame the importer takes is under way, or its credit or completion, one of the two ends or sockets can move on |
| UnixProgress.MoveWorks | hiway/src/unix.rs:542-660 | every such move lowers a measure of unwritten, unread, unadmitted and uncredited bytes |
| UnixProgress.WorkIsBounded | hiway/src/unix.rs:542-660 | so no more than that many can be made |
| UnixProgress.Drains | hiway/src/unix.rs:542-660 | and from any point the exchange can be finished: the frame is admitted, credited and completed, and the exporter is ready for the next |

## Left out

- Sockets, system calls, ring setup, eventfd and memory-lock diagnostics: the kernel is the set of completions it owes plus byte streams with short, retried or failed results.
- Callback re-entrancy, panicking wakers and the detached teardown path of the driver: a callback is an ordinary step between driver calls.
- Memory ordering, snapshot reclamation and notification internals: atomic accesses are sequentially consistent steps.
- User codecs: an encoder is a declared length and the bytes it wrote, a decoder never fails except where a refusal is modelled.
- Nested error enumerations: `Topic`, `Wire`, `Receive` and `Send` errors carry a number.
- `usize` is taken as 64 bits wide; sequences, generations and loss counters have their exact bounds.
- Driver.Driver.AdvanceWith: how many queued entries the kernel takes from one submit call, and which access the authority grants, are arbitrary; fairness is stated for passes that start with an empty submission queue.
- Driver.Driver.ExportStep: a failed turn is followed by `close`, as both loops do without awaiting in between.
- Driver.Driver.PollLink: a registered waker is a flag, and whether it is the caller's own an argument; between the two looks of one poll only the authority may change; what the local endpoint answers is an argument.
- Passes.EnteredWithinPasses: that the kernel takes every queued entry before the next pass is part of its hypothesis; a pass that starts on a full submission queue may deny every link.
- Driver.Driver.Serve: completions the kernel cannot have reported are ignored, as are calls that name no live link; record draining touches nothing it speaks of.
- GrantCalls.EnterSucceeds: the permission that `enter` checks on its first walk is `Allowance.CheckAnswers`; the threads carry no rights.
- Revocation: one walk stands for the several authority checks `restrict` makes before allocating; that a second revocation of one node is refused while one runs is not modelled, any number may run.
- Quota: revocation checks around a charge appear as the freedom to release a kept lease at once; the notification of waiters is left out.
- DynamicStream.Deque.Reserve: other publishers may run between its locked sections; every method keeps the invariant at each lock release, and the equality with the log is stated for one call without interference.
- DynamicStream.Deque.Subscribe: the subscription allowance is an account of `Quota`, not charged here.
- Wakeups: each future already owns its waiter slot, which the program claims by one compare-and-exchange.
- Archive: which connection a popped record is taken from is not fixed, as ordering holds per connection only.
- UnixLink.ImportersAgree: local admission succeeds and the peer sends no more than one frame before its credit.
- UnixSafety.UnixLinkSafety: every failure of a socket, a codec, an endpoint or the authority is one step that closes its end.
- WiredRuns.DriversAreSafe: that a completion reports what the kernel moved and that each loop offers encoded items and reports what it delivered are hypotheses of its steps; it speaks of one connection, until its protocol is retired.
- The driver's slots carry the protocol and operation values, not the objects of `Protocol` and `Operations`, which are proved equal to those values call by call; which connection's history is retired by which dispatch is left to `Archive`.
- `EnvelopeHeader`, event-name hashing, ports, transforms, macros, examples and benches: no state to prove about.
