# Verification of the AngryUEFI core protocol and its data paths

A Dafny model of the parts of AngryUEFI in which several pieces of code have to agree: the
shared-memory job protocol between core 0 and the application processors (APs), the assembly fault
handlers that bring an AP back after a fault, the page tables an AP runs on, the wire format, and
the captured and mutated data that travels over it.

`dafny verify dfyconfig.toml` checks everything.

## What is modelled

**Job protocol** (`CoreContexts`, `CoreSteps`, `CoreInvariant`, `CoreMailbox`, `CoreTheorems`,
`CoreBounds`, `CoreProgress`, `CoreWait`, `CoreLock`, `CoreCalls`, `CoreReplies`, `CoreRequests`,
`CoreRelease`, `CoreCollisions`, `CoreCollidingRuns`). Core 0 and any number of APs interleave;
every step performs at most one access to a shared context. `CoreSteps` has one program counter per
AP and one for core 0, named after the next access. Jobs end nondeterministically: they return,
hang, or fault, and a handler resumes, recovers or locks the core up. History variables record what
was submitted, accepted and reported. `CoreInvariant` is the inductive invariant, `CoreMailbox` the
specification (a mailbox per core with room for one job), `CoreTheorems` what follows for every
reachable state, `CoreBounds` what never happens again on a dead core and how long core 0 waits,
`CoreProgress` that no hand-off of the lock leaves a core stuck, and `CoreWait` the polling loop as
the loop it is. `CoreCalls` follows a job through its functions, `CoreReplies` a finished wait to
the reply, and `CoreRequests` a request from its first guard to its answer. `CoreRelease` is the
same machine with `unlock_context` as two accesses, `CoreCollisions` what holds of it in every run,
and `CoreCollidingRuns` what can go wrong in one.

The assumptions are part of the model:

- Memory is sequentially consistent and the compare-exchange is atomic (stubs.s:214-223).
- `unlock_context` is one atomic release. It is written as a store followed by a 1 -> 0
  compare-exchange (handlers/cores.c:36-39). `CoreRelease` takes these as two accesses with anything
  in between, and proves that the runs in which no second half meets a lock that has been taken again
  are exactly the runs with mutual exclusion; all their states are reachable in `CoreSteps`, so every
  theorem about reachable states holds of them.
- Faults strike only inside job functions, and job functions write neither control flags nor function
  slots.
- `StartupThisAP` fails on an AP that is already running. Otherwise its outcome is arbitrary.

**Fault handlers** (`FaultHandlers`, `CoreFaults`, `Idt`). Registers, control registers and memory as far as
`fault_handling_stubs.s` uses them, instruction by instruction, with the delivery of a fault and
`iretq` as the processor defines them. `CoreFaults` ties them to the job protocol: a fault, from the
interrupted instruction to where the handlers leave it, is a run of the step system that ends with the
same record, in the corresponding place, on the same stack.

**Page tables** (`Paging`, `PageTransfer`). The hardware walk as a function, `create_minimal_paging`
as the transformation of memory it is, and the chunked transfer of a table.

**Capture, mutation, transfer** (`Ibs`, `IbsRegisters`, `IbsTransfer`, `Dsm`, `BitFlip`, `Framing`,
`Replies`). IBS samples, the fields of the registers they are read from, their filter and bounded
buffer; the packets in which events are sent; the DSM ring; bit flips; the frame format, and the
loop that cuts a byte stream back into messages.

## Where the code differs from what is written about it

- The repository's README.md calls the length field of a frame big-endian (README.md:23). The code
  stores and loads it in the processor's order, little-endian (Protocol.c:113, AngryUEFI.c:190). The
  model follows the code.
- `unlock_context` may free a lock that somebody else has taken between its two accesses. Then a job
  runs in a context without a lock (`CoreCollidingRuns.ReleaseCollides`); a request may find a core that
  is not ready, and status 0x205 is sent (`CoreCollidingRuns.NotReadySent`); and `wait_on_ap_exec` may
  report completion, and core 0 send a reply, while the AP has accepted the job but called none of its
  functions (`CoreCollidingRuns.RepliesTooEarly`). Two cores and one job are enough for these three. And
  a job may be flagged while another recovers from a fault, and be dropped when `core_main_loop` clears
  the flag (`CoreCollidingRuns.JobDropped`). Status and reply hinge on one access each: what core 0
  reads at handlers/cores.c:211 is not ready iff the AP is coming up or inside a job just then
  (`CoreCollisions.NotReadyIff`), and when it reads `job_queued == 0` at handlers/cores.c:163 the jobs
  are done iff the AP is not inside one just then and none was dropped by a recovery
  (`CoreCollisions.ReportsDoneIff`).
- The handler for vector 8 does not remove the error code before `iretq`
  (system/fault_handling_stubs.s:247-249), so the frame is read one cell too low: CS is loaded from the
  low 16 bits of RIP, SS from those of RSP. The comment there says that the core must always lock up.
  It does so only if both happen to select suitable segments. Otherwise the `iretq` faults, handler 13
  resumes behind it, execution slides through handlers 9 and 10, and the core recovers, with fault
  number 10 (11 or 12 if such a segment is marked not present). `FaultHandlers.TakeDoubleFault` states
  both outcomes and when each occurs. The protocol model has both: a fault locks the core up, or it
  recovers.
- The handler for vector 13 does not put RCX back; it is left with the handler's stack pointer.
- Vector 0 records fault number 1 (system/fault_handling_stubs.s:185-186).
- As long as no release collides in the way just described, the check after locking in `handle_job`
  (handlers/cores.c:52-54) and status 0x205 (handlers/cores.c:211-216) never fire
  (`CoreTheorems.ReadyBehindFreeLock`, `CoreRelease.No205WhenClean`), and every reply that reports no
  timeout is true (`CoreRelease.CleanRepliesAreSound`).
- A second request to start a core that is still coming up may be answered 0x6 although the core is up and
  ready by then: `started` is looked at before the lock is taken (handlers/cores.c:242-248).
  `CoreRequests.StartsMean` has the phases in which each status is sent, `CoreRequests.UpAndRefused` such a
  run.
- `create_minimal_paging` copies a page directory that is never linked into the new tables
  (system/paging.c:258-260).
- `copy_ibs_entries` reports a wrapped count if start plus count exceeds 64 bits, although it copies
  nothing (asr/ibs.c:257-263); `IbsTransfer.CopyIbsEntries` states both cases. Its caller never
  reaches the second one.

## Model

| member | source | states |
|---|---|---|
| CoreLock.UnlockExclusive | handlers/cores.c:32-39 | The lock word alone: released by its owner in two accesses, it stays exclusive iff no other core attempts to take it between them, for any number of attempts. |
| CoreRelease.CleanRunsProject | handlers/cores.c:36-39 | With releases as two accesses: every state of a run in which no second half finds the lock taken again is reachable in the step system, so all the results about reachable states hold of it. |
| CoreRelease.CollisionBreaks | handlers/cores.c:36-39 | A second half that does find the lock taken leaves that context with an owner but without a lock. |
| CoreRelease.ExclusiveIffClean | handlers/cores.c:24-39 | Mutual exclusion holds throughout a run with split releases iff no second half finds the lock taken again, for every run. |
| CoreRelease.No205WhenClean | handlers/cores.c:211-216 | Without a collision 0x205 is never sent, whatever happens between the halves of a release. When it is sent in runs with collisions: CoreCollisions.NotReadyIff. |
| CoreRelease.CleanRepliesAreSound | handlers/cores.c:157-171 | Without a collision every reply that reports no timeout is about a job that has been accepted and has finished, and carries its report. |
| CoreCollisions.MachineRunInv | handlers/cores.c:36-146 | In every run with releases of two accesses, collisions included: ready is clear exactly while an AP is coming up or inside a job; at most one job is in progress, and accordingly placed; jobs submitted are jobs accepted, plus one if flagged, plus at least one if a recovery has dropped any. |
| CoreCollisions.NotReadyIff | handlers/cores.c:211-216 | In every such run: a job request that has taken the lock is answered 0x205, by core 0's next step and whatever the APs do meanwhile, iff at its look at the flag the AP is coming up or inside a job; otherwise that step says nothing. |
| CoreCollisions.ReportsDoneIff | handlers/cores.c:163-167 | In every such run: the wait's last look reports completion iff job_queued is clear, and then every job submitted to the core is done iff the AP is not inside a job at that look (in a job function or handler, in recovery up to its unlock, or about to set ready and unlock) and no recovery has dropped one. |
| CoreCollidingRuns.ReleaseCollides | handlers/cores.c:36-39 | There is a run, with two cores and one job, in which a release collides, and mutual exclusion is lost. |
| CoreCollidingRuns.NotReadySent | handlers/cores.c:211-216 | That run has a continuation in which status 0x205 is sent. |
| CoreCollidingRuns.RepliesTooEarly | handlers/cores.c:157-171 | It has another in which the wait reports completion and the reply is sent although none of the job's functions has been called. |
| CoreCollidingRuns.JobDropped | handlers/cores.c:120-124 | With a second job there is one in which that job is flagged while the first recovers, and core_main_loop clears the flag: the job is never accepted. |
| CoreContexts.StoresDeliver | handlers/ucode_execute.c:80-97 | Whatever the previous job left in a context, the stores of each of the three producers hand over exactly the new job: slots, addresses, zeroed results. |
| CoreInvariant.ApKeeps | handlers/cores.c:41-155 | Every step an AP can take, with every outcome of a job or handler and each release one step, keeps the whole invariant and disturbs nothing core 0 relies on. |
| CoreInvariant.BootKeeps | handlers/cores.c:157-269 | Every step of core 0 in a start request, a job request, a wait or a synchronous job, with each release one step, keeps the whole invariant. |
| CoreMailbox.ApRefines | handlers/cores.c:41-146 | Every step of an AP is one of the moves of a one-slot mailbox or leaves the mailbox as it is. |
| CoreMailbox.BootRefines | handlers/ucode_execute.c:151-196 | The same for every step of core 0, including the synchronous execution of a job on core 0 itself. |
| CoreTheorems.RunInv | handlers/cores.c:41-269 | The invariant holds after every interleaving of any length, for any number of cores, with each release one step; by CoreRelease.CleanRunsProject also with releases of two, until one collides. |
| CoreTheorems.StepRefinesMailbox | handlers/cores.c:41-269 | With each release one step, from every reachable state each step makes every core's mailbox (Stopped, Starting, Ready, Queued, Running, Dead) perform a legal move or none, and leaves every core but the one it concerns as it is. |
| CoreTheorems.MutualExclusion | handlers/cores.c:104-124 | In every reachable state the lock is set iff exactly one party owns the context; core_main_loop, on first start and on recovery, runs as the owner, so an unlock that is one step never frees a lock held by core 0. For an unlock of two steps see CoreRelease.ExclusiveIffClean. |
| CoreTheorems.JobsConserved | handlers/cores.c:47-65 | With each release one step, in every reachable state jobs submitted are jobs accepted plus at most the one flagged; they are accepted once, in order, each with exactly the content core 0 wrote; every completion is a truthful report about the job accepted at its position. |
| CoreTheorems.RepliesAreSound | handlers/ucode_execute.c:188-198 | With each release one step, a reply that reports no timeout is about the very job of its request: that job was accepted and finished exactly once, and the result fields are its own. For the two execute jobs bit 0x2 is set iff the job faulted; a register read is answered by the two words it left. With releases of two: CoreRelease.CleanRepliesAreSound, and false beyond (CoreCollidingRuns.RepliesTooEarly). |
| CoreTheorems.ReadyBehindFreeLock | handlers/cores.c:163-163 | With each release one step, in every reachable state a started core with a free lock is ready, so the completion test amounts to the test of job_queued, the AP never finds its job gone after locking, status 0x205 is not sent, and a core never looks ready while a job function runs or hangs. |
| CoreTheorems.RefusalsMean | handlers/cores.c:185-226 | What each refusal status tells about the mailbox of the core at that moment. |
| CoreTheorems.FaultRecordLifetime | handlers/cores.c:60-65 | The record is entirely zero when a job's functions begin; from the end of a job to the acceptance of the next one it is what that job left, whatever core 0 reads or refuses meanwhile; unmarked means all zero. |
| CoreTheorems.BoundedStack | handlers/cores.c:76-89 | In every run, every entry to core_main_loop on a core has the RSP of the first start. |
| CoreBounds.DeadForever | handlers/cores.c:205-210 | Once a core is locked up or hung, no continuation of any length changes its context; all that is still said about it is 0x204 to a job and 0x4 to a start request, and a timeout to a wait that was already under way. |
| CoreBounds.DeadAnswers | handlers/cores.c:185-210 | A job request to such a core is answered: after three steps of core 0, however many steps the APs take in between, by exactly one message, status 0x204. |
| CoreBounds.WaitReturns | handlers/cores.c:157-183 | With a nonzero timeout, each step of core 0 inside the wait uses up a bound of six steps for each iteration that is left, whatever the APs do in between. |
| CoreBounds.WaitIsBounded | handlers/cores.c:173-178 | Hence core 0 leaves the wait within that many of its own steps in every interleaving: 6 * timeout from the start of the wait. |
| CoreProgress.FinishesAlone | handlers/cores.c:126-145 | From every reachable state in which core 0 does not own the context of a live core, at most 17 steps of that core alone (functions returning) complete every job submitted to it and leave it ready with a free lock. |
| CoreWait.WaitOnApExec | handlers/cores.c:157-183 | The polling loop under arbitrary interference between its accesses, a release being one of them: FALSE only if the job just submitted has finished and the context holds its report; TRUE only after exactly timeout iterations; never more than timeout iterations. For releases of two accesses see CoreCollisions.ReportsDoneIff. |
| CoreWait.DoneMeansDone | handlers/cores.c:163-167 | With each release one step, when the wait reports completion the last job submitted has been accepted with its own content and completed, and result and fault record are those it left. |
| CoreCalls.FunctionsMay | handlers/cores.c:148-155 | A job function may report anything, move the stack pointer, return, hang, or fault in any way, and does nothing else to the core and its context: the premise about functions, exactly. |
| CoreCalls.JobsCall | handlers/ucode_execute.c:80-97 | In every reachable state a finished job has called its functions in this order: the machine code; or the preparation, then the restoring or the simple variant by bit 0 of the options; or the register read. One cut short by a fault has called a nonempty prefix of these. |
| CoreCalls.EntersInOrder | handlers/cores.c:148-155 | From the acceptance of a job on, in every interleaving and until its completion: the AP has entered exactly the functions of the slots it has passed, each once, in slot order. |
| CoreCalls.FinishedMeansEntered | handlers/cores.c:126-155 | The step that completes the job completes it once, and the functions entered until then are those of all three slots, or, if a fault cut it short, of the slots up to the one that faulted. |
| CoreCalls.LastReportStays | handlers/cores.c:126-155 | Whatever a function of the job reports last, in any slot, is what the completion of that job says, whatever else happens in between. |
| CoreCalls.OwnEntersInOrder | handlers/ucode_execute.c:169-180 | EntersInOrder for a job that core 0 runs itself. |
| CoreCalls.OwnFinishedMeansEntered | handlers/ucode_execute.c:169-180 | And its end: all functions have been entered. |
| CoreCalls.OwnLastReportStays | handlers/ucode_execute.c:169-180 | And its report. |
| CoreReplies.ExecuteIsAnswered | handlers/ucode_execute.c:185-198 | In every run with releases of two accesses, from the end of the wait of an execute job: core 0's next four steps, with any steps of APs before each, send exactly one reply; bit 0x1 is set iff the wait timed out; bit 0x2 and the three report fields are what the context holds when each is read. |
| CoreReplies.ReadIsAnswered | handlers/ucode.c:241-247 | The same for a register read: status 0x2 iff the wait timed out, otherwise the two words. |
| CoreReplies.OwnJobIsAnswered | handlers/ucode_execute.c:169-198 | The same for a job that core 0 runs itself: both flags are clear, and the report is the one in the context at the unlock. |
| CoreReplies.TimeoutsMean | handlers/ucode_execute.c:188-192 | In every reachable state: a reply names the request's core and job and the last job submitted; it reports a timeout iff the wait did, and only to a request with a nonzero timeout to a core other than 0. |
| CoreReplies.LockUpMarks | system/fault_handling_stubs.s:217-249 | A core that locks up does so with its record marked. |
| CoreReplies.LockedUpIsReported | handlers/ucode_execute.c:188-195 | From then on, in every continuation in which core 0 has not read the mark before it was set: each reply about an execute job on that core reports the timeout and the fault. |
| CoreRequests.StartsMean | handlers/cores.c:232-269 | In every reachable state: 0x3 is sent iff the core is not present at that look, 0x4 iff it is started, 0x5 iff its lock is held, StartOk iff the mailbox goes from Stopped to Starting, 0x6 iff the launch has failed, and then the lock is free and the core stopped, or up after all. |
| CoreRequests.LaunchIsAnswered | handlers/cores.c:258-266 | StartOk is sent iff StartupThisAP succeeds on a core that is not running; after a failure exactly the lock is released, and no job has been submitted to the core. |
| CoreRequests.StartFindsCleanRecord | handlers/cores.c:254-254 | The fault record that a start request replaces is all zero in every reachable state. |
| CoreRequests.UpAndRefused | handlers/cores.c:242-266 | There is a run in which a core is up and ready when its second start request is answered 0x6. |
| CoreRequests.AcquireIsAnswered | handlers/cores.c:185-226 | Which status each guard of a job request sends, and that it sends nothing otherwise. |
| CoreRequests.RequestIsTaken | handlers/cores.c:186-190 | A core number beyond the contexts is refused at once, status 0x201. |
| CoreRequests.StartIsTaken | handlers/cores.c:288-304 | A request to start an existing core goes to the first guard for that core; a request for its status changes nothing. |
| CoreRequests.PresentIsConstant | handlers/cores.c:192-197 | In every run a request finds exactly the cores that were there at the beginning. |
| CoreRequests.AnsweredOnce | handlers/cores.c:157-269 | Every request is answered by exactly one message about its core, in every interleaving; if its wait has a timeout, at the latest after a bound of core 0's own steps, provided the functions of core 0's own jobs return. |
| CoreRequests.RequestRank | handlers/cores.c:157-226 | That bound is 29 steps, and 6 for each iteration of the wait. |
| CoreRequests.Served | handlers/cores.c:157-226 | From every reachable state in which a core is at rest, a job request to it can be served: a continuation answers it by one message, without timeout, about that very job, done, with its report. |
| CoreRequests.StartServed | handlers/cores.c:232-269 | From every reachable state a core that is there and not running can be started: a continuation answers StartOk and brings the core to rest. |
| FaultHandlers.StoreRegisters | system/fault_handling_stubs.s:22-61 | With the three words pushed by the caller on the stack, the record receives every general register as it was on entry and the control registers; nothing else in it changes. |
| FaultHandlers.HandlerInner | system/fault_handling_stubs.s:75-100 | Pushes and pops balance, RAX and RBX come back, memory below the entry stack pointer is the only memory written, and the record holds registers, number and mark. |
| FaultHandlers.HandlerNoErrorCode | system/fault_handling_stubs.s:107-138 | The frame without error code goes to the record; what iretq then finds is the interrupted frame with RIP replaced by recovery, and RDI = context. |
| FaultHandlers.HandlerWithErrorCode | system/fault_handling_stubs.s:146-182 | The same with an error code, which is recorded and removed. |
| FaultHandlers.HandlerDoubleFault | system/fault_handling_stubs.s:217-249 | The record is complete; the error code is overwritten in place of RIP, and iretq finds every word of the frame one cell too far down. |
| FaultHandlers.HandlerGpf | system/fault_handling_stubs.s:268-316 | The frame leads two bytes behind the faulting instruction, with RAX = 0xDEAD; every general register but RAX and RCX is as before. |
| FaultHandlers.TakeFault | system/fault_handling_stubs.s:188-345 | For vectors 1 to 20 but 8, from the interrupted instruction: the record is the interrupted register state with vector and error code, the pointers recovery needs survive, and control reaches recovery, or for 13 the instruction two bytes on, with the interrupted segments, flags and stack. |
| FaultHandlers.RecoverAll | system/fault_handling_stubs.s:421-441 | Any number of recovering faults, double faults included, at any depth of the stack, each in arbitrary register states: the state after each is that of a recovered core with a complete record, recovery loads its stack pointer from that state, and it is always the RSP of the first start. |
| FaultHandlers.TakeDoubleFault | system/fault_handling_stubs.s:217-249 | A double fault ends in dummy_loop iff the low 16 bits of the interrupted RIP select a code segment and those of RSP a stack segment, and otherwise in recovery, with fault number 10, 11 or 12; in the case of 10 with the interrupted frame in the record and the stack pointer restored. |
| FaultHandlers.SlideToRecovery | system/fault_handling_stubs.s:251-316 | After the failed iretq of handler 8: handler 13 resumes behind it, handler 9 fails in the same way, and handler 10 drops the stale cell and recovers. |
| FaultHandlers.OrdinaryDoubleFault | system/fault_handling.h:77-78 | Where 0x38 is the only code segment, a double fault at an ordinary, concrete state ends in recovery with fault number 10. |
| FaultHandlers.ExtraordinaryDoubleFault | system/fault_handling_stubs.s:247-249 | At another, whose RIP differs from CS as a whole but not in its low 16 bits, it ends in dummy_loop. |
| CoreFaults.FaultIsRun | system/fault_handling_stubs.s:75-316 | Whatever the processor and the handlers do with a fault of any vector from 1 to 20 is a run of the step system: it ends with the same 26 words in the record and the mark set, in the place that belongs to the one kind of fault this is (resumed, recovering, locked up), on the stack pointer that the processor has there or that recovery loads. |
| CoreFaults.FaultSteps | system/fault_handling_stubs.s:421-441 | On the side of the step system: raising a fault, writing the record word by word, marking it and leaving the handler change nothing else in the context, and end in the job function, at the start of core_main_loop on the saved stack, or nowhere. |
| CoreFaults.StoreHitsOneWord | system/fault_handling.h:14-50 | A store of the handlers at byte offset 8n reaches word n of the record, the flag being word 0, and no other. |
| Idt.Reassembled | system/fault_handling.c:46-48 | The three parts of an address in an IDT entry make up the address, for every 64-bit address. |
| Idt.InitFaultHandlersOnCore | system/fault_handling.c:36-58 | Each of the 256 entries is an interrupt gate in segment 0x38 whose target is this core's copy of the vector's own handler for vectors 0 to 20 and of the fallback handler otherwise. |
| Paging.CopyTables | system/paging.c:250-260 | Each of the three copies finds its source as it was before the first, except for entries that lie in the fresh pages themselves. |
| Paging.CreateMinimalPaging | system/paging.c:249-276 | Which entries of the fresh tables differ from the base tables, and how; all other memory is unchanged. |
| Paging.TranslationPreserved | system/paging.c:262-269 | For every address below 4 GiB the hardware walk gives the same physical address, rights or fault with the new tables as with the base tables, including 1 GiB and 2 MiB pages, if the fresh pages hold no entry that this very walk reads; what lies behind a large page or an absent entry does not matter. |
| Paging.RestKept | system/paging.c:262-273 | Entries lose their bits present and PS alone, the first PML4 entry gets the new table's address; all other bits are those of the base tables. |
| Paging.RestUnmapped | system/paging.c:262-273 | Every other canonical address is unmapped. |
| Paging.BaseUnchanged | system/paging.c:249-276 | The base tables still translate every address as before whose walk reads nothing in the fresh pages. |
| Paging.DataPagesMayBeReused | system/paging.c:249-276 | That includes addresses in a 2 MiB page in which a fresh page lies. |
| PageTransfer.WriteEntry | system/paging.c:82-86 | The receiver decodes index, level and entry from the two words, whatever the buffer held before. |
| PageTransfer.SendTable | system/paging.c:106-141 | For every table length: decoding and concatenating the packets yields each entry once, in order, with index and level; all packets but the last hold 80 entries, only the last is marked so, and construct_message accepts each. |
| Framing.ConstructMessage | Protocol.c:106-120 | Succeeds iff the frame fits; then the buffer begins with the encoded frame and is otherwise unchanged, else it is untouched. |
| Framing.DecodeEncode | Protocol.c:22-36 | Parsing inverts encoding: type, payload and last-message flag come back, and the length field is that of the body. |
| Framing.WireFormat | Protocol.c:113-117 | Which byte of an encoded frame is what: the little-endian length of the rest, version 1.0, the control flag, a zero, the little-endian type, the payload. |
| Framing.HandledIff | Protocol.c:22-36 | A message is accepted iff it has a header of version 1.0; its type is the little-endian number in bytes 4-7 and its payload what follows. |
| Framing.WholeStreamMeansAll | AngryUEFI.c:168-219 | No proper prefix of a list of messages has the same byte stream. |
| Framing.ReceiveMessages | AngryUEFI.c:161-221 | However the stream is cut into chunks: the messages dispatched are a prefix of those sent, and what each way of ending says about the stream, the transport or the last message. If the stream is complete, all messages are dispatched iff no receive that asks for part of one fails, each receive that asks for a length field delivers all four bytes, and no message but the last is refused; which receives these are is told by the chunk sizes alone, and those that ask for part of a body may be of any size. |
| Framing.TornHeaderLoses | AngryUEFI.c:186-189 | A complete stream whose length field arrives in two pieces: nothing is dispatched. |
| BitFlip.FlipAt | handlers/ucode.c:57-61 | A flip inverts the bit of that value in that byte, counted from the least significant; a position beyond the end changes nothing. |
| BitFlip.FlipParity | handlers/ucode.c:95-98 | A bit within range ends up inverted iff its position occurs an odd number of times in the list. |
| BitFlip.SameParity | handlers/ucode.c:95-98 | Two lists have the same effect iff every position in range occurs in them with the same parity. |
| BitFlip.OrderIrrelevant | handlers/ucode.c:95-98 | The order of the list does not matter. |
| BitFlip.Joined | handlers/ucode.c:85-98 | Two requests on slot 1 in a row amount to one with the lists joined. |
| BitFlip.Involution | handlers/ucode.c:57-61 | The same list applied twice restores the update. |
| BitFlip.Slots.HandleFlipBits | handlers/ucode.c:63-103 | Slot 1 becomes the target slot's update with the list applied; every other slot, and on an error every slot, is untouched; which error is reported when. |
| BitFlip.Slots.FlipAndUndo | handlers/ucode.c:85-98 | A request on any slot followed by the same list on slot 1 leaves the original update in slot 1. |
| Ibs.AddressesRecovered | asr/ibs.c:221-242 | The physical address comes back iff it has at most 48 bits and the linear address is invalid or shares its low 12 bits; the linear address keeps its upper 52 bits, and all of them when valid. |
| Ibs.UnpackPacked | asr/ibs.h:86-129 | No two bit fields of an event overlap: every event is recovered from its two words. |
| IbsRegisters.FieldRead | asr/ibs.h:153-223 | A word made of bit fields of any number and widths has each field at the sum of the widths below it. |
| IbsRegisters.EventFields | asr/ibs.c:170-242 | For all contents of the four registers, given field by field: each field of the event is the register field it stands for (load IbsLdOp, store IbsStOp, and so on), the page number is that of the physical address, and the low 12 address bits come from it iff IbsDcLinAddrValid is 0. |
| IbsRegisters.FilterMeans | asr/ibs.c:150-168 | Which samples each filter value lets through, by IbsLdOp and IbsStOp; a value that names no filter lets all through. |
| IbsRegisters.FirstWordIs | asr/ibs.h:86-129 | The first word of an event is made of the fields of IBSEvent with their widths, in their order. |
| Ibs.OffsetPlaced | asr/ibs.c:84-97 | Bits 0-15 are zero, bits 20-26 hold 1, bits 32-58 hold 2^20 minus the offset. |
| Ibs.OffsetProgrammed | asr/ibs.c:84-97 | Maximum count minus current count is the requested offset iff that is at most 2^20; no other control bit changes. |
| Ibs.CapturedNext | asr/ibs.c:140-168 | How one more operation changes the samples that should be kept, where kept is defined over the whole past: passed the filter in force when sampled, and not cleared since. |
| Ibs.IbsControl.StoreIbsEntry | asr/ibs.c:192-249 | The buffer stays the first MAX_IBS_ENTRIES of the kept samples, and the result is the room left. The sample is appended iff there is room and bits 0 and 1 of the third data register suit the filter. |
| Ibs.IbsControl.ClearIbsResults | asr/ibs.c:140-143 | The buffer is empty, as it should be after a clear, under an unchanged filter. |
| Ibs.IbsControl.ClearIbsResultsResetFilter | asr/ibs.c:145-148 | The same, and everything is kept from then on. |
| Ibs.IbsControl.InitIbsOnCore | asr/ibs.c:46-72 | Re-initialisation after a recovered fault keeps the stored events and resets the filter. |
| IbsTransfer.EndIndexMeans | asr/ibs.c:253-263 | When start plus count wraps around 64 bits the end lies before the start and the result is not 0; otherwise the range is the requested one, clamped. |
| IbsTransfer.CopyIbsEntries | asr/ibs.c:251-264 | The target holds exactly the requested events that are stored, and the result is their number; on wrap-around nothing is copied. |
| IbsTransfer.EventsSelected | handlers/handle_ibs.c:83-103 | The guard lets through exactly the requests that select something, and for these the 64-bit difference has not wrapped and the clamped range is what was asked for. |
| IbsTransfer.SendPackets | handlers/handle_ibs.c:105-133 | The loop terminates; its packets concatenate to the selected events in order, all but the last hold 64, only the last is marked so, and construct_message accepts each. |
| IbsTransfer.HandleGetIbsBuffer | handlers/handle_ibs.c:36-136 | Which requests are refused with which status, the reply without a buffer, and otherwise a complete transfer of events[start..min(start+count, stored)], a count of 0 meaning all. |
| Dsm.UnrolledInOrder | asr/dsm.c:107-127 | Read from the next entry to be written, the ring yields the last 128 events in the order in which they happened, however often it has wrapped. |
| Dsm.DsmControl.StoreDsmCapture | asr/dsm.c:101-141 | The buffer is the ring rotated by bits 48-54 of the index register; so for whatever was recorded it lists the latest events in order. |

## Left out

- TCP, events, console output, reboot and EFI services: a send appends a packet to a sequence, a receive delivers an arbitrary chunk or fails.
- Microcode application, supplied machine code, MSR, CPUID and fp-instruction side effects: a job returns, resumes after a fault, recovers, locks up or hangs.
- Weak memory and compiler reordering: not modelled. heartbeat, cr3_value and the scratch space, which no decision reads: left out of the context.
- The class of a context: the protocol interleaves cores, so contexts are values that steps replace; only the wait is a loop. The model therefore does not show the C code's aliasing of context pointers.
- CoreInvariant.ApKeeps: takes a release for one step; a run with releases of two steps is covered until the first second half that meets a lock taken again (CoreRelease.CleanRunsProject), and past that point mutual exclusion is false of the code.
- CoreInvariant.BootKeeps: the same.
- CoreTheorems.RunInv: the same.
- CoreTheorems.StepRefinesMailbox: the same.
- CoreTheorems.MutualExclusion: the same; CoreRelease.ExclusiveIffClean has the exact condition.
- CoreTheorems.JobsConserved: the same; what remains of the count is in CoreCollisions.MachineRunInv.
- CoreTheorems.RepliesAreSound: the same; beyond, CoreCollisions.ReportsDoneIff has the exact condition for the jobs being done, not for the result fields being theirs. It also says nothing about replies that report a timeout beyond the job they name, because their fields are read while the job may still write them; what these replies do say is in CoreReplies.ExecuteIsAnswered.
- CoreTheorems.ReadyBehindFreeLock: the same; CoreCollisions.NotReadyIff has the exact condition for status 0x205.
- CoreWait.WaitOnApExec: the same.
- CoreWait.DoneMeansDone: the same.
- CoreContexts.StoresDeliver: the length of the microcode slot and the function arguments are not among the fields; the argument of a register read is its two-word buffer, which is a field of the result.
- A timed-out register read ends its handler and with it the life of the buffer the AP writes to: the model keeps the buffer.
- Starting all cores in one request (handlers/cores.c:288-298): single starts, up to the first that fails, with one final status; each is modelled on its own.
- CoreRequests.AnsweredOnce: without a timeout, or if a function of core 0's own job never returns, core 0 may never answer; then only the count of answers is claimed.
- CoreRequests.Served: says that a request can be served, not that it will be: that takes the functions to return, and the timeout to be long enough.
- The fairness of the spin loops: CoreProgress.FinishesAlone bounds the work of one core, not the luck of its attempts to lock.
- Inputs out of range: core numbers below the number of contexts (a request beyond it is refused), frames and flip lists within their buffers.
- FaultHandlers.TakeFault: claims nothing about vector 0, which records number 1, nor about vectors from 21 on, which reach the fallback handler; which vectors can be delivered depends on the limit loaded into IDTR and is not claimed.
- FaultHandlers: the fault record and the stub are blocks of their own that nothing else overlaps; of faults inside a handler only those of its iretq are followed. Whether iretq accepts a segment is given by sets of selectors; the mode of a code segment other than the interrupted one is not modelled. Behind an iretq lies nothing but padding up to the next handler.
- Paging: reserved bits and the caching of translations; handle_get_paging_info, which asks for tables of 1024 entries (system/paging.c:211-233), passes whatever lies there.
- IbsTransfer: the core is idle during a transfer; the handler takes no lock.
- Ibs.IbsControl.InitIbsOnCore: the control register and the local vector table entry, which it also writes, are not part of the structure.
- Dsm: the setting-up of the counters, the selection bytes of the file header, and the packet loop, which is that of the IBS transfer without a range. That bits 48-54 name the next entry to be written is taken as a premise.
- The microcode database, ASR registry, system information and ping handlers: data or straight-line replies.
