/** The interleaving of core 0 with any number of APs. Every action performs at most one access
    to a shared context; an action that is not enabled leaves the state as it is.

    What is assumed: memory is sequentially consistent and the compare-exchange is atomic; releasing
    the lock is one step (CoreRelease has the two accesses that it really takes, and tells the
    runs apart for which that makes no difference); clearing the fault record and copying a buffer are
    one step each; faults strike only inside job functions; job functions write their report
    fields and the stack pointer, but no control flag and no function slot; StartupThisAP fails on
    an AP that is already running. */
module CoreSteps {
  import opened CoreContexts

  // ---- the AP side: handlers/cores.c core_main_loop and handle_job ----

  /** How a fault ends: the handler resumes (vector 13), recovers, or locks the core up. A double fault
      may end in either of the last two ways. */
  datatype FaultKind = Resumes | Recovers | LocksUp

  /** Program counter of an AP, named after the next shared access. */
  datatype ApPc =
    | Off
    | SaveRsp                                          // core_main_loop_stub_wrapper
    | MainStarted | MainReady | MainQueued | MainUnlock // core_main_loop up to unlock_context
    | SpinLock | SpinQueued                            // the spin loop
    | TryLock | Recheck | ClearReady | ClearQueued | CheckFault | ZeroFault
    | NextCall(i: nat) | InCall(i: nat)                // call_core_functions
    | InHandler(i: nat, kind: FaultKind, marked: bool) // fault_handling_stubs.s
    | RestoreRsp                                       // core_main_loop_stub_recovery
    | SetReady | Unlock(ran: bool)
    | DeadLoop                                         // dummy_loop, or a job that never ends

  datatype Ap = Ap(pc: ApPc, rsp: int)

  /** What the hardware or the job does next; Go is the only choice for code of the repository. */
  datatype ApChoice =
    | Go
    | Report(r: Result)        // a job function writes its report fields
    | MoveStack(rsp: int)
    | Raise(kind: FaultKind)
    | Hang
    | StoreField(k: nat, v: int) // a fault handler writes one word of the record

  datatype Core = Core(ctx: Context, ap: Ap, hist: History)

  function Finish(k: Core, recovered: bool): Core {
    var h := k.hist;
    if h.accepted == [] then k else
    k.(hist := h.(completed := h.completed +
      [Completion(h.accepted[|h.accepted| - 1], h.depth, h.calls, recovered, h.faulted, k.ctx.result, k.ctx.fault)]))
  }

  function ApStep(k: Core, ch: ApChoice): Core {
    var c := k.ctx;
    var h := k.hist;
    match k.ap.pc
    case Off => k
    case SaveRsp =>
      Goto(k.(ctx := c.(recoveryRsp := k.ap.rsp), hist := h.(entries := h.entries + [k.ap.rsp])), MainStarted)
    case MainStarted => Goto(k.(ctx := c.(started := true)), MainReady)
    case MainReady => Goto(k.(ctx := c.(ready := true)), MainQueued)
    case MainQueued => Goto(k.(ctx := c.(jobQueued := false)), MainUnlock)
    case MainUnlock =>
      var k' := if Busy(h) then Finish(k, true) else k;
      Goto(k'.(ctx := c.(lock := false)), SpinLock)
    case SpinLock => Goto(k, if c.lock then SpinLock else SpinQueued)
    case SpinQueued => Goto(k, if c.jobQueued then TryLock else SpinLock)
    case TryLock => if c.lock then Goto(k, SpinLock) else Goto(k.(ctx := c.(lock := true)), Recheck)
    case Recheck => Goto(k, if c.jobQueued then ClearReady else Unlock(false))
    case ClearReady => Goto(k.(ctx := c.(ready := false)), ClearQueued)
    case ClearQueued =>
      Goto(k.(ctx := c.(jobQueued := false),
              hist := h.(accepted := h.accepted + [SeenIn(c)], depth := 0, calls := [], faulted := false)), CheckFault)
    case CheckFault => Goto(k, if c.fault.occurred then ZeroFault else NextCall(0))
    case ZeroFault => Goto(k.(ctx := c.(fault := CleanRecord())), NextCall(0))
    case NextCall(i) =>
      if i >= CORE_FUNCTION_SLOTS || i >= |c.functions| then Goto(k, SetReady) else
      (match c.functions[i]
       case Empty => Goto(k.(hist := h.(depth := i + 1)), NextCall(i + 1))
       case Call(f) => Goto(k.(hist := h.(depth := i + 1, calls := h.calls + [f])), InCall(i)))
    case InCall(i) =>
      (match ch
       case Go => Goto(k, NextCall(i + 1))
       case Report(r) => k.(ctx := c.(result := r))
       case MoveStack(rsp) => k.(ap := k.ap.(rsp := rsp))
       case Raise(kind) => Goto(k.(hist := h.(faulted := true)), InHandler(i, kind, false))
       case Hang => Goto(k, DeadLoop)
       case StoreField(_, _) => k)
    case InHandler(i, kind, marked) =>
      (match ch
       case StoreField(n, v) =>
         if n < |c.fault.fields| then k.(ctx := c.(fault := c.fault.(fields := c.fault.fields[n := v]))) else k
       case _ =>
         if !marked then Goto(k.(ctx := c.(fault := c.fault.(occurred := true))), InHandler(i, kind, true))
         else Goto(k, if kind.Resumes? then InCall(i) else if kind.Recovers? then RestoreRsp else DeadLoop))
    case RestoreRsp =>
      Goto(k.(ap := k.ap.(rsp := c.recoveryRsp), hist := h.(entries := h.entries + [c.recoveryRsp])), MainStarted)
    case SetReady => Goto(k.(ctx := c.(ready := true)), Unlock(true))
    case Unlock(ran) =>
      var k' := if ran then Finish(k, false) else k;
      Goto(k'.(ctx := c.(lock := false)), SpinLock)
    case DeadLoop => k
  }

  function Goto(k: Core, pc: ApPc): Core { k.(ap := k.ap.(pc := pc)) }

  // ---- core 0: handlers/cores.c start_core, acquire_core_lock_for_job, wait_on_ap_exec and
  //      the three job producers ----

  datatype Request = Request(core: nat, job: Job, timeout: nat)

  datatype BootPc =
    | Idle
    | StartPresent(c: nat) | StartStarted(c: nat) | StartTryLock(c: nat)
    | StartInit(c: nat) | StartLaunch(c: nat) | StartUnlock(c: nat)
    | AcqPresent(q: Request) | AcqStarted(q: Request) | AcqTryLock(q: Request)
    | AcqReady(q: Request) | AcqQueued(q: Request) | AcqUnlock(q: Request, status: int)
    | Writing(q: Request, k: nat) | Queue(q: Request)
    | SyncReady(q: Request) | SyncClear(q: Request)    // synchronous execution on core 0
    | SyncNext(q: Request, i: nat) | SyncIn(q: Request, i: nat)
    | SyncSet(q: Request) | SyncUnlock(q: Request)
    | UnlockJob(q: Request)
    | WaitLock(q: Request, n: nat) | WaitTry(q: Request, n: nat)
    | WaitReady(q: Request, n: nat) | WaitQueued(q: Request, n: nat)
    | WaitUnlock(q: Request, n: nat, done: bool) | WaitTick(q: Request, n: nat)
    | ReplyFlags(q: Request, timedOut: bool)
    | ReplyRead(q: Request, timedOut: bool, faultBit: bool, k: nat, got: Result)
    | ReplyMsr(q: Request)                             // the end of handle_read_msr_on_core

  datatype BootChoice =
    | Proceed
    | Start(c: nat)
    | Submit(q: Request)
    | Poll(c: nat)
    | Launch(ok: bool, rsp: int)  // outcome of StartupThisAP, and the RSP the AP starts with
    | BootReport(r: Result)

  /** The messages core 0 sends back. index numbers the jobs submitted to that core from 0. The two
      execute jobs are answered with flags and a report, a register read with the two words read or
      with status 0x2. */
  datatype Answer =
    | StartOk(core: nat)
    | StartFailed(core: nat, status: int)
    | Rejected(core: nat, status: int)
    | Reply(core: nat, index: int, job: Job, timedOut: bool, faultBit: bool, rdtsc: int, gpf: int, buffer: seq<int>)
    | MsrReply(core: nat, index: int, job: Job, words: seq<int>)
    | MsrTimedOut(core: nat, index: int, job: Job)

  datatype Boot = Boot(core: Core, pc: BootPc, answers: seq<Answer>)

  predicate HasTarget(pc: BootPc) { !pc.Idle? }

  function Target(pc: BootPc): nat
    requires HasTarget(pc)
  {
    if pc.StartPresent? || pc.StartStarted? || pc.StartTryLock? || pc.StartInit? || pc.StartLaunch? || pc.StartUnlock?
    then pc.c else pc.q.core
  }

  function EmptyResult(): Result { Result(0, 0, [], []) }

  /** One step of core 0 in the middle of a request; k is the context it works on. */
  function BootStep(k: Core, pc: BootPc, ch: BootChoice): Boot
    requires HasTarget(pc)
  {
    var c := k.ctx;
    var h := k.hist;
    match pc
    case StartPresent(t) => if c.present then Boot(k, StartStarted(t), []) else Boot(k, Idle, [StartFailed(t, 0x3)])
    case StartStarted(t) => if c.started then Boot(k, Idle, [StartFailed(t, 0x4)]) else Boot(k, StartTryLock(t), [])
    case StartTryLock(t) =>
      if c.lock then Boot(k, Idle, [StartFailed(t, 0x5)]) else Boot(k.(ctx := c.(lock := true)), StartInit(t), [])
    case StartInit(t) => Boot(k.(ctx := c.(fault := CleanRecord())), StartLaunch(t), [])
    case StartLaunch(t) =>
      if ch.Launch? && ch.ok && k.ap.pc.Off?
      then Boot(k.(ap := Ap(SaveRsp, ch.rsp)), Idle, [StartOk(t)])
      else Boot(k, StartUnlock(t), [])
    case StartUnlock(t) => Boot(k.(ctx := c.(lock := false)), Idle, [StartFailed(t, 0x6)])

    case AcqPresent(q) => if c.present then Boot(k, AcqStarted(q), []) else Boot(k, Idle, [Rejected(q.core, 0x202)])
    case AcqStarted(q) => if c.started then Boot(k, AcqTryLock(q), []) else Boot(k, Idle, [Rejected(q.core, 0x203)])
    case AcqTryLock(q) =>
      if c.lock then Boot(k, Idle, [Rejected(q.core, 0x204)]) else Boot(k.(ctx := c.(lock := true)), AcqReady(q), [])
    case AcqReady(q) => if c.ready then Boot(k, AcqQueued(q), []) else Boot(k, AcqUnlock(q, 0x205), [])
    case AcqQueued(q) => if c.jobQueued then Boot(k, AcqUnlock(q, 0x206), []) else Boot(k, Writing(q, 0), [])
    case AcqUnlock(q, status) => Boot(k.(ctx := c.(lock := false)), Idle, [Rejected(q.core, status)])

    case Writing(q, n) =>
      var ws := Stores(q.job);
      if n >= |ws| then Boot(k, Queue(q), []) else Boot(k.(ctx := DoStore(ws[n], c)), Writing(q, n + 1), [])
    case Queue(q) =>
      Boot(k.(ctx := c.(jobQueued := true), hist := h.(submitted := h.submitted + [q.job])),
           if q.core == 0 then SyncReady(q) else UnlockJob(q), [])

    case SyncReady(q) => Boot(k.(ctx := c.(ready := false)), SyncClear(q), [])
    case SyncClear(q) =>
      Boot(k.(ctx := c.(jobQueued := false),
              hist := h.(accepted := h.accepted + [SeenIn(c)], depth := 0, calls := [], faulted := false)),
           SyncNext(q, 0), [])
    case SyncNext(q, i) =>
      if i >= CORE_FUNCTION_SLOTS || i >= |c.functions| then Boot(k, SyncSet(q), []) else
      (match c.functions[i]
       case Empty => Boot(k.(hist := h.(depth := i + 1)), SyncNext(q, i + 1), [])
       case Call(f) => Boot(k.(hist := h.(depth := i + 1, calls := h.calls + [f])), SyncIn(q, i), []))
    case SyncIn(q, i) =>
      if ch.BootReport? then Boot(k.(ctx := c.(result := ch.r)), pc, []) else Boot(k, SyncNext(q, i + 1), [])
    case SyncSet(q) => Boot(k.(ctx := c.(ready := true)), SyncUnlock(q), [])
    case SyncUnlock(q) =>
      Boot(Finish(k, false).(ctx := c.(lock := false)), ReplyRead(q, false, false, 0, EmptyResult()), [])

    case UnlockJob(q) => Boot(k.(ctx := c.(lock := false)), WaitLock(q, 0), [])
    case WaitLock(q, n) => Boot(k, if c.lock then WaitTick(q, n) else WaitTry(q, n), [])
    case WaitTry(q, n) =>
      if c.lock then Boot(k, WaitTick(q, n), []) else Boot(k.(ctx := c.(lock := true)), WaitReady(q, n), [])
    case WaitReady(q, n) => Boot(k, if c.ready then WaitQueued(q, n) else WaitUnlock(q, n, false), [])
    case WaitQueued(q, n) => Boot(k, WaitUnlock(q, n, !c.jobQueued), [])
    case WaitUnlock(q, n, done) =>
      Boot(k.(ctx := c.(lock := false)), if done then ReplyFlags(q, false) else WaitTick(q, n), [])
    case WaitTick(q, n) =>
      if q.timeout != 0 then
        if n + 1 >= q.timeout then Boot(k, ReplyFlags(q, true), []) else Boot(k, WaitLock(q, n + 1), [])
      else Boot(k, WaitLock(q, n), [])
    case ReplyFlags(q, timedOut) =>
      if !q.job.ReadMsr? then Boot(k, ReplyRead(q, timedOut, c.fault.occurred, 0, EmptyResult()), [])
      else if timedOut then Boot(k, Idle, [MsrTimedOut(q.core, |h.submitted| - 1, q.job)])
      else Boot(k, ReplyMsr(q), [])
    case ReplyRead(q, timedOut, bit, n, got) =>
      if n == 0 then Boot(k, ReplyRead(q, timedOut, bit, 1, got.(rdtsc := c.result.rdtsc)), [])
      else if n == 1 then Boot(k, ReplyRead(q, timedOut, bit, 2, got.(gpf := c.result.gpf)), [])
      else Boot(k, Idle, [Reply(q.core, |h.submitted| - 1, q.job, timedOut, bit, got.rdtsc, got.gpf, c.result.buffer)])
    case ReplyMsr(q) => Boot(k, Idle, [MsrReply(q.core, |h.submitted| - 1, q.job, c.result.msr)])
  }

  // ---- the whole machine ----

  datatype State = State(cores: seq<Core>, pc: BootPc, answers: seq<Answer>)

  datatype Action = ApAction(core: nat, choice: ApChoice) | BootAction(boot: BootChoice)

  /** Core 0 picks up a message. handle_read_msr serves core 0 without touching any context. */
  function Begin(s: State, ch: BootChoice): State {
    match ch
    case Start(t) => if 0 < t < |s.cores| then s.(pc := StartPresent(t)) else s
    case Submit(q) =>
      if q.core >= |s.cores| then s.(answers := s.answers + [Rejected(q.core, 0x201)])
      else if q.core == 0 && q.job.ReadMsr? then s
      else s.(pc := AcqPresent(q))
    case _ => s   // Poll: GETCORESTATUS and GETLASTTESTRESULT only read
  }

  function Step(s: State, a: Action): State {
    match a
    case ApAction(t, ch) =>
      if 0 < t < |s.cores| then s.(cores := s.cores[t := ApStep(s.cores[t], ch)]) else s
    case BootAction(ch) =>
      if !HasTarget(s.pc) then Begin(s, ch)
      else if Target(s.pc) >= |s.cores| then s
      else
        var t := Target(s.pc);
        var b := BootStep(s.cores[t], s.pc, ch);
        State(s.cores[t := b.core], b.pc, s.answers + b.answers)
  }

  function Run(s: State, acts: seq<Action>): State {
    if acts == [] then s else Step(Run(s, acts[..|acts| - 1]), acts[|acts| - 1])
  }

  // ---- initial state: init_core_contexts ----

  function NoHistory(): History { History([], [], [], 0, [], false, []) }

  function InitialCore(boot: bool, present: bool): Core {
    Core(Context(present || boot, boot, boot, false, false, [Empty, Empty, Empty], 0, 0,
                 Result(0, 0, Zeros(RESULT_BUFFER_SIZE), []), CleanRecord(), 0),
         Ap(Off, 0), NoHistory())
  }

  /** present tells which cores this CPU has; its length is the number of contexts. */
  function Initial(present: seq<bool>): State {
    State(seq(|present|, i requires 0 <= i < |present| => InitialCore(i == 0, present[i])), Idle, [])
  }
}
