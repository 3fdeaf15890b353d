/** The inductive invariant of the job protocol. It is stated for one context at a time: the
    context, its AP, its history, and what core 0 is currently doing with that context. */
module CoreInvariant {
  import opened CoreContexts
  import opened CoreSteps

  // ---- who owns the context ----

  /** Core 0 is between a successful lock and the matching unlock (or hand-off to the AP). */
  predicate BootHolds(v: BootPc) {
    || v.StartInit? || v.StartLaunch? || v.StartUnlock?
    || v.AcqReady? || v.AcqQueued? || v.AcqUnlock?
    || WritesJob(v) || InSync(v)
    || v.WaitReady? || v.WaitQueued? || v.WaitUnlock?
  }

  predicate InSync(v: BootPc) {
    v.SyncReady? || v.SyncClear? || v.SyncNext? || v.SyncIn? || v.SyncSet? || v.SyncUnlock?
  }

  /** From the first store of a job to the unlock that publishes it. */
  predicate WritesJob(v: BootPc) { v.Writing? || v.Queue? || v.UnlockJob? }

  predicate InMain(pc: ApPc) { pc.MainStarted? || pc.MainReady? || pc.MainQueued? || pc.MainUnlock? }

  predicate InSpin(pc: ApPc) { pc.SpinLock? || pc.SpinQueued? || pc.TryLock? }

  predicate InJob(pc: ApPc) {
    pc.CheckFault? || pc.ZeroFault? || pc.NextCall? || pc.InCall? || pc.InHandler?
  }

  predicate ApHolds(pc: ApPc) { !pc.Off? && !InSpin(pc) }

  // ---- the clauses ----

  predicate LockInv(k: Core, v: BootPc) {
    && k.ctx.lock == (BootHolds(v) || ApHolds(k.ap.pc))
    && !(BootHolds(v) && ApHolds(k.ap.pc))
  }

  predicate ShapeInv(boot: bool, k: Core) {
    && |k.ctx.functions| == CORE_FUNCTION_SLOTS
    && |k.ctx.fault.fields| == FAULT_FIELDS
    && (boot ==> k.ap.pc.Off? && k.ctx.present && k.ctx.started)
    && (!k.ap.pc.Off? ==> k.ctx.present)
  }

  /** Accepted jobs are the submitted ones, in order; at most one is pending, at most one runs. */
  predicate HistoryInv(k: Core) {
    var h := k.hist;
    && |h.accepted| <= |h.submitted| <= |h.accepted| + 1
    && |h.completed| <= |h.accepted| <= |h.completed| + 1
    && (k.ctx.jobQueued <==> Pending(h))
    && !(Pending(h) && Busy(h))
    && (forall i :: 0 <= i < |h.accepted| ==> Matches(h.accepted[i], h.submitted[i]))
    && (forall i :: 0 <= i < |h.completed| ==> h.completed[i].seen == h.accepted[i] && Truthful(h.completed[i]))
    && (Pending(h) ==> Matches(SeenIn(k.ctx), h.submitted[|h.submitted| - 1]))
  }

  /** The job in progress: nobody but its core touches the slots, and they are called in order. */
  predicate CallsSoFar(k: Core, depth: nat) {
    var h := k.hist;
    && Busy(h)
    && k.ctx.functions == h.accepted[|h.accepted| - 1].functions
    && h.depth == depth <= CORE_FUNCTION_SLOTS == |k.ctx.functions|
    && h.calls == Called(k.ctx.functions[..depth])
  }

  predicate Interrupted(k: Core) {
    && CallsSoFar(k, k.hist.depth)
    && 0 < k.hist.depth <= |k.ctx.functions| && k.ctx.functions[k.hist.depth - 1].Call?
    && k.hist.faulted && k.ctx.fault.occurred
  }

  predicate RecordAgrees(k: Core) {
    && k.ctx.fault.occurred == k.hist.faulted
    && (!k.hist.faulted ==> k.ctx.fault == CleanRecord())
  }

  /** The state of the flags and of the job at each program counter of the AP. */
  predicate PhaseInv(boot: bool, k: Core, v: BootPc) {
    var c := k.ctx;
    var h := k.hist;
    match k.ap.pc
    case Off =>
      if boot then SyncInv(k, v)
      else !c.started && !c.ready && h.submitted == [] && h.entries == [] && c.fault == CleanRecord()
    case SaveRsp => !c.started && !c.ready && h.submitted == [] && h.entries == [] && c.fault == CleanRecord()
    case MainStarted =>
      (Busy(h) && c.started && !c.ready && Interrupted(k)) || (h.submitted == [] && !c.started && !c.ready)
    case MainReady =>
      (Busy(h) && c.started && !c.ready && Interrupted(k)) || (h.submitted == [] && c.started && !c.ready)
    case MainQueued => c.started && c.ready && ((Busy(h) && Interrupted(k)) || h.submitted == [])
    case MainUnlock => c.started && c.ready && ((Busy(h) && Interrupted(k)) || h.submitted == [])
    case SpinLock => c.started && c.ready && !Busy(h)
    case SpinQueued => c.started && c.ready && !Busy(h)
    case TryLock => c.started && c.ready && Pending(h)
    case Recheck => c.started && c.ready && Pending(h)
    case ClearReady => c.started && c.ready && Pending(h)
    case ClearQueued => c.started && !c.ready && Pending(h)
    case CheckFault =>
      c.started && !c.ready && CallsSoFar(k, 0) && !h.faulted && (c.fault.occurred || c.fault == CleanRecord())
    case ZeroFault => c.started && !c.ready && CallsSoFar(k, 0) && !h.faulted
    case NextCall(i) => c.started && !c.ready && CallsSoFar(k, i) && RecordAgrees(k) && (i == 0 ==> !h.faulted)
    case InCall(i) => c.started && !c.ready && CallsSoFar(k, i + 1) && c.functions[i].Call? && RecordAgrees(k)
    case InHandler(i, kind, marked) =>
      && c.started && !c.ready && CallsSoFar(k, i + 1) && c.functions[i].Call? && h.faulted
      && (marked ==> c.fault.occurred)
    case RestoreRsp => c.started && !c.ready && Interrupted(k)
    case SetReady => c.started && !c.ready && CallsSoFar(k, CORE_FUNCTION_SLOTS) && RecordAgrees(k)
    case Unlock(ran) => c.started && c.ready && ran && CallsSoFar(k, CORE_FUNCTION_SLOTS) && RecordAgrees(k)
    case DeadLoop => c.started && !c.ready && Busy(h)
  }

  /** Core 0's own context while core 0 runs a job synchronously. */
  predicate SyncInv(k: Core, v: BootPc) {
    var c := k.ctx;
    var h := k.hist;
    && c.fault == CleanRecord()
    && match v
       case SyncReady(_) => c.ready && Pending(h)
       case SyncClear(_) => !c.ready && Pending(h)
       case SyncNext(_, i) => !c.ready && CallsSoFar(k, i) && !h.faulted
       case SyncIn(_, i) => !c.ready && CallsSoFar(k, i + 1) && !h.faulted
       case SyncSet(_) => !c.ready && CallsSoFar(k, CORE_FUNCTION_SLOTS) && !h.faulted
       case SyncUnlock(_) => c.ready && CallsSoFar(k, CORE_FUNCTION_SLOTS) && !h.faulted
       case _ => c.ready && !Busy(h) && !Pending(h)
  }

  /** While no job runs, the record and the report are those of the job that finished last. */
  predicate RestInv(k: Core, v: BootPc) {
    var h := k.hist;
    && (!Busy(h) ==> k.ctx.fault == if h.completed == [] then CleanRecord() else h.completed[|h.completed| - 1].fault)
    && (!Busy(h) && !Pending(h) && h.completed != [] && !WritesJob(v) ==>
          k.ctx.result == h.completed[|h.completed| - 1].result)
  }

  /** Every entry to core_main_loop runs on the stack pointer that was saved first. */
  predicate StackInv(k: Core) {
    && (forall i :: 0 <= i < |k.hist.entries| ==> k.hist.entries[i] == k.ctx.recoveryRsp)
    && (!k.ap.pc.Off? && !k.ap.pc.SaveRsp? ==> k.hist.entries != [])
    && (InMain(k.ap.pc) ==> k.ap.rsp == k.ctx.recoveryRsp)
  }

  /** handle_read_msr_on_core reads core 0's own registers without a job. */
  predicate Askable(boot: bool, q: Request) { boot ==> !q.job.ReadMsr? }

  predicate Submitted(k: Core, q: Request) {
    && k.hist.submitted != []
    && k.hist.submitted[|k.hist.submitted| - 1] == q.job
  }

  predicate Settled(k: Core) {
    && |k.hist.completed| == |k.hist.submitted|
    && k.hist.completed != []
  }

  /** What core 0 may rely on at each of its program counters. */
  predicate BootInv(boot: bool, k: Core, v: BootPc) {
    var c := k.ctx;
    var h := k.hist;
    match v
    case Idle => true
    case StartPresent(_) => !boot
    case StartStarted(_) => !boot && c.present
    case StartTryLock(_) => !boot && c.present && h.submitted == []
    case StartInit(_) => !boot && c.present && h.submitted == []
    case StartLaunch(_) => !boot && c.present && h.submitted == []
    case StartUnlock(_) => !boot && h.submitted == []
    case AcqPresent(q) => Askable(boot, q)
    case AcqStarted(q) => Askable(boot, q) && c.present
    case AcqTryLock(q) => Askable(boot, q) && c.started
    case AcqReady(q) => Askable(boot, q) && c.started && c.ready
    case AcqQueued(q) => Askable(boot, q) && c.started && c.ready
    case AcqUnlock(q, status) => c.started && status == 0x206 && c.jobQueued
    case Writing(q, n) =>
      && Askable(boot, q) && c.started && c.ready && !Pending(h) && !Busy(h)
      && n <= |Stores(q.job)|
      && Matches(SeenIn(DoStores(Stores(q.job)[n..], c)), q.job)
    case Queue(q) =>
      Askable(boot, q) && c.started && c.ready && !Pending(h) && !Busy(h) && Matches(SeenIn(c), q.job)
    case UnlockJob(q) => !boot && c.started && Submitted(k, q) && Pending(h)
    case WaitLock(q, n) => !boot && c.started && Submitted(k, q) && Ticking(q, n)
    case WaitTry(q, n) => !boot && c.started && Submitted(k, q) && Ticking(q, n)
    case WaitReady(q, n) => !boot && c.started && Submitted(k, q) && Ticking(q, n)
    case WaitQueued(q, n) => !boot && c.started && Submitted(k, q) && Ticking(q, n)
    case WaitUnlock(q, n, done) => !boot && c.started && Submitted(k, q) && Ticking(q, n) && (done ==> Settled(k))
    case WaitTick(q, n) => !boot && c.started && Submitted(k, q) && Ticking(q, n)
    case ReplyFlags(q, timedOut) =>
      !boot && c.started && Submitted(k, q) && if timedOut then q.timeout != 0 else Settled(k)
    case ReplyRead(q, timedOut, bit, n, got) =>
      && c.started && Submitted(k, q) && !q.job.ReadMsr?
      && (timedOut ==> !boot && q.timeout != 0)
      && (!timedOut ==>
            && Settled(k)
            && bit == h.completed[|h.completed| - 1].fault.occurred
            && (n >= 1 ==> got.rdtsc == c.result.rdtsc)
            && (n >= 2 ==> got.gpf == c.result.gpf))
    case ReplyMsr(q) => !boot && c.started && Submitted(k, q) && Settled(k) && q.job.ReadMsr?
    case SyncReady(q) => boot && Askable(boot, q) && Submitted(k, q)
    case SyncClear(q) => boot && Askable(boot, q) && Submitted(k, q)
    case SyncNext(q, _) => boot && Askable(boot, q) && Submitted(k, q) && !Pending(h)
    case SyncIn(q, _) => boot && Askable(boot, q) && Submitted(k, q) && !Pending(h)
    case SyncSet(q) => boot && Askable(boot, q) && Submitted(k, q) && !Pending(h)
    case SyncUnlock(q) => boot && Askable(boot, q) && Submitted(k, q) && !Pending(h)
  }

  predicate Ticking(q: Request, n: nat) { q.timeout != 0 ==> n < q.timeout }

  /** Everything but core 0's own knowledge. */
  predicate SharedInv(boot: bool, k: Core, v: BootPc) {
    && ShapeInv(boot, k)
    && LockInv(k, v)
    && HistoryInv(k)
    && PhaseInv(boot, k, v)
    && RestInv(k, v)
    && StackInv(k)
  }

  predicate CoreInv(boot: bool, k: Core, v: BootPc) {
    && SharedInv(boot, k, v)
    && BootInv(boot, k, v)
  }

  /** What core 0 is doing, as far as context t is concerned. */
  function View(pc: BootPc, t: nat): BootPc {
    if HasTarget(pc) && Target(pc) == t then pc else Idle
  }

  // ---- preservation by an AP ----

  lemma CalledNext(slots: seq<Slot>, i: nat)
    requires i < |slots|
    ensures Called(slots[..i + 1]) == Called(slots[..i]) + if slots[i].Empty? then [] else [slots[i].func]
  {
    assert slots[..i + 1][..i] == slots[..i];
  }

  /** What core 0 can count on when the AP moves: nothing it relies on changes under it. */
  predicate Undisturbed(k: Core, k': Core, v: BootPc) {
    && k'.ctx.present == k.ctx.present
    && (k.ctx.started ==> k'.ctx.started)
    && k'.hist.submitted == k.hist.submitted
    && (BootHolds(v) ==> k'.ctx == k.ctx && k'.hist == k.hist)
    && (Settled(k) ==> k'.hist.completed == k.hist.completed && k'.ctx.result == k.ctx.result)
  }

  lemma UndisturbedKeepsBoot(boot: bool, k: Core, k': Core, v: BootPc)
    requires BootInv(boot, k, v)
    requires Undisturbed(k, k', v)
    ensures BootInv(boot, k', v)
  {
    hide Matches, Truthful, Called;
  }

  predicate KeptByAp(boot: bool, k: Core, v: BootPc, ch: ApChoice) {
    SharedInv(boot, ApStep(k, ch), v) && Undisturbed(k, ApStep(k, ch), v)
  }

  /** An AP that only moves on has nothing but its new place in the code to answer for. */
  lemma MovingOnKeeps(boot: bool, k: Core, v: BootPc, pc': ApPc)
    requires SharedInv(boot, k, v) && PhaseInv(boot, Goto(k, pc'), v)
    requires ApHolds(pc') == ApHolds(k.ap.pc) && (InMain(pc') ==> InMain(k.ap.pc))
    requires !k.ap.pc.Off? && !k.ap.pc.SaveRsp? && !pc'.Off?
    ensures SharedInv(boot, Goto(k, pc'), v) && Undisturbed(k, Goto(k, pc'), v)
  {
    hide PhaseInv, Zeros, CleanRecord, Matches, Truthful, Called;
  }

  lemma ApStackKeeps(boot: bool, k: Core, v: BootPc, ch: ApChoice)
    requires SharedInv(boot, k, v)
    requires k.ap.pc.SaveRsp? || k.ap.pc.RestoreRsp?
    ensures KeptByAp(boot, k, v, ch)
  {
    hide SyncInv, Zeros, Matches, Truthful, Called;
    assert !BootHolds(v);
  }

  lemma ApMainKeeps(boot: bool, k: Core, v: BootPc, ch: ApChoice)
    requires SharedInv(boot, k, v)
    requires k.ap.pc.MainStarted? || k.ap.pc.MainReady? || k.ap.pc.MainQueued?
    ensures KeptByAp(boot, k, v, ch)
  {
    hide SyncInv, Zeros, Matches, Truthful, Called;
  }

  lemma ApFirstUnlockKeeps(boot: bool, k: Core, v: BootPc, ch: ApChoice)
    requires SharedInv(boot, k, v)
    requires k.ap.pc.MainUnlock? && !Busy(k.hist)
    ensures KeptByAp(boot, k, v, ch)
  {
    hide CallsSoFar, Interrupted, SyncInv, Zeros, CleanRecord, Matches, Truthful, Called;
  }

  lemma ApRecoveredKeeps(boot: bool, k: Core, v: BootPc, ch: ApChoice)
    requires SharedInv(boot, k, v)
    requires k.ap.pc.MainUnlock? && Busy(k.hist)
    ensures KeptByAp(boot, k, v, ch)
  {
    hide SyncInv, Zeros, Matches, Called;
  }

  lemma SpinPhase(boot: bool, k: Core, v: BootPc, ch: ApChoice)
    requires PhaseInv(boot, k, v) && HistoryInv(k)
    requires k.ap.pc.SpinLock? || k.ap.pc.SpinQueued? || (k.ap.pc.TryLock? && k.ctx.lock)
    ensures var pc' := ApStep(k, ch).ap.pc;
            ApStep(k, ch) == Goto(k, pc') && InSpin(k.ap.pc) && InSpin(pc') && PhaseInv(boot, Goto(k, pc'), v)
  {
    hide CallsSoFar, Interrupted, RecordAgrees, CleanRecord, SyncInv, Zeros, Matches, Truthful, Called;
  }

  lemma ApSpinKeeps(boot: bool, k: Core, v: BootPc, ch: ApChoice)
    requires SharedInv(boot, k, v)
    requires k.ap.pc.SpinLock? || k.ap.pc.SpinQueued? || (k.ap.pc.TryLock? && k.ctx.lock)
    ensures KeptByAp(boot, k, v, ch)
  {
    hide ApStep, PhaseInv, HistoryInv, LockInv, RestInv, StackInv, ShapeInv, Undisturbed;
    SpinPhase(boot, k, v, ch);
    MovingOnKeeps(boot, k, v, ApStep(k, ch).ap.pc);
  }

  lemma ApTryLockKeeps(boot: bool, k: Core, v: BootPc, ch: ApChoice)
    requires SharedInv(boot, k, v)
    requires k.ap.pc.TryLock? && !k.ctx.lock
    ensures KeptByAp(boot, k, v, ch)
  {
    hide CallsSoFar, Interrupted, RecordAgrees, CleanRecord, SyncInv, Zeros, Matches, Truthful, Called;
    assert !BootHolds(v);
  }

  lemma ApAcceptKeeps(boot: bool, k: Core, v: BootPc, ch: ApChoice)
    requires SharedInv(boot, k, v)
    requires k.ap.pc.Recheck? || k.ap.pc.ClearReady?
    ensures KeptByAp(boot, k, v, ch)
  {
    hide CallsSoFar, Interrupted, RecordAgrees, CleanRecord, SyncInv, Zeros, Matches, Truthful, Called;
    assert !BootHolds(v);
  }

  /** While no job runs, the record is marked or clean. */
  lemma MarkedOrClean(k: Core, v: BootPc)
    requires HistoryInv(k) && RestInv(k, v) && !Busy(k.hist)
    ensures k.ctx.fault.occurred || k.ctx.fault == CleanRecord()
  {
    hide Matches, Called;
  }

  lemma ApAcceptedKeeps(boot: bool, k: Core, v: BootPc, ch: ApChoice)
    requires SharedInv(boot, k, v)
    requires k.ap.pc.ClearQueued?
    ensures KeptByAp(boot, k, v, ch)
  {
    hide SyncInv, Zeros, Matches, Truthful;
    MarkedOrClean(k, v);
  }

  lemma ApFaultCheckKeeps(boot: bool, k: Core, v: BootPc, ch: ApChoice)
    requires SharedInv(boot, k, v)
    requires k.ap.pc.CheckFault? || k.ap.pc.ZeroFault?
    ensures KeptByAp(boot, k, v, ch)
  {
    hide SyncInv, Matches, Truthful, Called;
    assert !BootHolds(v);
  }

  lemma ApSlotsDoneKeeps(boot: bool, k: Core, v: BootPc, ch: ApChoice)
    requires SharedInv(boot, k, v)
    requires k.ap.pc.NextCall? && k.ap.pc.i >= CORE_FUNCTION_SLOTS
    ensures KeptByAp(boot, k, v, ch)
  {
    hide SyncInv, Zeros, CleanRecord, Matches, Truthful, Called;
    assert !BootHolds(v);
  }

  /** Progress in the list of slots concerns the program counter and two history variables only. */
  predicate OnlyProgress(k: Core, k': Core) {
    k' == k.(ap := k.ap.(pc := k'.ap.pc), hist := k.hist.(depth := k'.hist.depth, calls := k'.hist.calls))
  }

  lemma ProgressKeeps(boot: bool, k: Core, v: BootPc, k': Core)
    requires SharedInv(boot, k, v) && InJob(k.ap.pc) && InJob(k'.ap.pc) && Busy(k.hist)
    requires OnlyProgress(k, k') && PhaseInv(boot, k', v)
    ensures SharedInv(boot, k', v) && Undisturbed(k, k', v)
  {
    hide PhaseInv, Zeros, CleanRecord, Matches, Truthful, Called;
  }

  lemma NextCallPhase(boot: bool, k: Core, v: BootPc, ch: ApChoice)
    requires PhaseInv(boot, k, v) && k.ap.pc.NextCall? && k.ap.pc.i < CORE_FUNCTION_SLOTS
    ensures OnlyProgress(k, ApStep(k, ch)) && Busy(k.hist) && InJob(ApStep(k, ch).ap.pc)
    ensures PhaseInv(boot, ApStep(k, ch), v)
  {
    hide SyncInv, Zeros, CleanRecord, Matches, Truthful, Called, CallsSoFar;
    OneMoreSlot(k, ch);
  }

  lemma OneMoreSlot(k: Core, ch: ApChoice)
    requires k.ap.pc.NextCall? && k.ap.pc.i < CORE_FUNCTION_SLOTS && CallsSoFar(k, k.ap.pc.i)
    ensures CallsSoFar(ApStep(k, ch), k.ap.pc.i + 1) && Busy(k.hist) && |k.ctx.functions| == CORE_FUNCTION_SLOTS
  {
    hide Called, CleanRecord;
    CalledNext(k.ctx.functions, k.ap.pc.i);
  }

  lemma ApNextCallKeeps(boot: bool, k: Core, v: BootPc, ch: ApChoice)
    requires SharedInv(boot, k, v)
    requires k.ap.pc.NextCall? && k.ap.pc.i < CORE_FUNCTION_SLOTS
    ensures KeptByAp(boot, k, v, ch)
  {
    hide ApStep, OnlyProgress, PhaseInv, HistoryInv, LockInv, RestInv, StackInv, ShapeInv, Undisturbed;
    NextCallPhase(boot, k, v, ch);
    ProgressKeeps(boot, k, v, ApStep(k, ch));
  }

  lemma ApWorkingKeeps(boot: bool, k: Core, v: BootPc, ch: ApChoice)
    requires SharedInv(boot, k, v)
    requires k.ap.pc.InCall? && (ch.Report? || ch.Raise?)
    ensures KeptByAp(boot, k, v, ch)
  {
    hide SyncInv, Zeros, Matches, Truthful, Called;
    assert !BootHolds(v);
  }

  lemma ApReturningKeeps(boot: bool, k: Core, v: BootPc, ch: ApChoice)
    requires SharedInv(boot, k, v)
    requires k.ap.pc.InCall? && !ch.Report? && !ch.Raise?
    ensures KeptByAp(boot, k, v, ch)
  {
    hide SyncInv, Zeros, Matches, Truthful, Called;
    assert !BootHolds(v);
  }

  /** Inside a handler only the fault record changes. */
  predicate OnlyRecord(k: Core, k': Core) {
    && k' == k.(ap := k.ap.(pc := k'.ap.pc), ctx := k.ctx.(fault := k'.ctx.fault))
    && |k'.ctx.fault.fields| == |k.ctx.fault.fields|
  }

  lemma RecordKeeps(boot: bool, k: Core, v: BootPc, k': Core)
    requires SharedInv(boot, k, v) && InJob(k.ap.pc) && ApHolds(k'.ap.pc) && !InMain(k'.ap.pc) && Busy(k.hist)
    requires OnlyRecord(k, k') && PhaseInv(boot, k', v)
    ensures SharedInv(boot, k', v) && Undisturbed(k, k', v)
  {
    hide PhaseInv, Zeros, CleanRecord, Matches, Truthful, Called;
  }

  lemma HandlingPhase(boot: bool, k: Core, v: BootPc, ch: ApChoice)
    requires PhaseInv(boot, k, v) && k.ap.pc.InHandler?
    ensures OnlyRecord(k, ApStep(k, ch)) && Busy(k.hist) && ApHolds(ApStep(k, ch).ap.pc) && !InMain(ApStep(k, ch).ap.pc)
    ensures PhaseInv(boot, ApStep(k, ch), v)
  {
    hide SyncInv, Zeros, CleanRecord, Matches, Truthful, Called;
  }

  lemma ApHandlingKeeps(boot: bool, k: Core, v: BootPc, ch: ApChoice)
    requires SharedInv(boot, k, v)
    requires k.ap.pc.InHandler?
    ensures KeptByAp(boot, k, v, ch)
  {
    hide ApStep, OnlyRecord, PhaseInv, HistoryInv, LockInv, RestInv, StackInv, ShapeInv, Undisturbed;
    HandlingPhase(boot, k, v, ch);
    RecordKeeps(boot, k, v, ApStep(k, ch));
  }

  lemma ApSetReadyKeeps(boot: bool, k: Core, v: BootPc, ch: ApChoice)
    requires SharedInv(boot, k, v)
    requires k.ap.pc.SetReady?
    ensures KeptByAp(boot, k, v, ch)
  {
    hide SyncInv, Zeros, Matches, Truthful, Called;
    assert !BootHolds(v);
  }

  lemma ApUnlockKeeps(boot: bool, k: Core, v: BootPc, ch: ApChoice)
    requires SharedInv(boot, k, v)
    requires k.ap.pc.Unlock?
    ensures KeptByAp(boot, k, v, ch)
  {
    hide SyncInv, Zeros, Matches, Called;
    assert !BootHolds(v);
  }

  lemma ApKeeps(boot: bool, k: Core, v: BootPc, ch: ApChoice)
    requires CoreInv(boot, k, v)
    ensures CoreInv(boot, ApStep(k, ch), v)
    ensures Undisturbed(k, ApStep(k, ch), v)
  {
    hide Matches, Truthful, Called;
    assert KeptByAp(boot, k, v, ch) by {
      match k.ap.pc
      case Off =>
      case DeadLoop =>
      case SaveRsp => ApStackKeeps(boot, k, v, ch);
      case RestoreRsp => ApStackKeeps(boot, k, v, ch);
      case MainStarted => ApMainKeeps(boot, k, v, ch);
      case MainReady => ApMainKeeps(boot, k, v, ch);
      case MainQueued => ApMainKeeps(boot, k, v, ch);
      case MainUnlock =>
        if Busy(k.hist) { ApRecoveredKeeps(boot, k, v, ch); } else { ApFirstUnlockKeeps(boot, k, v, ch); }
      case SpinLock => ApSpinKeeps(boot, k, v, ch);
      case SpinQueued => ApSpinKeeps(boot, k, v, ch);
      case TryLock => if k.ctx.lock { ApSpinKeeps(boot, k, v, ch); } else { ApTryLockKeeps(boot, k, v, ch); }
      case Recheck => ApAcceptKeeps(boot, k, v, ch);
      case ClearReady => ApAcceptKeeps(boot, k, v, ch);
      case ClearQueued => ApAcceptedKeeps(boot, k, v, ch);
      case CheckFault => ApFaultCheckKeeps(boot, k, v, ch);
      case ZeroFault => ApFaultCheckKeeps(boot, k, v, ch);
      case NextCall(i) =>
        if i < CORE_FUNCTION_SLOTS { ApNextCallKeeps(boot, k, v, ch); } else { ApSlotsDoneKeeps(boot, k, v, ch); }
      case SetReady => ApSetReadyKeeps(boot, k, v, ch);
      case Unlock(_) => ApUnlockKeeps(boot, k, v, ch);
      case InCall(_) =>
        if ch.Report? || ch.Raise? { ApWorkingKeeps(boot, k, v, ch); } else { ApReturningKeeps(boot, k, v, ch); }
      case InHandler(_, _, _) => ApHandlingKeeps(boot, k, v, ch);
    }
    UndisturbedKeepsBoot(boot, k, ApStep(k, ch), v);
  }

  // ---- preservation by core 0 ----

  /** The context after a step of core 0, seen by the invariant. */
  predicate KeptBy(boot: bool, k: Core, pc: BootPc, ch: BootChoice)
    requires HasTarget(pc)
  {
    var b := BootStep(k, pc, ch);
    && (HasTarget(b.pc) ==> Target(b.pc) == Target(pc))
    && CoreInv(boot, b.core, b.pc)
  }

  /** A step of core 0 that touches nothing concerns only core 0's own knowledge. */
  lemma ViewChange(boot: bool, k: Core, v: BootPc, v': BootPc)
    requires SharedInv(boot, k, v)
    requires BootHolds(v) == BootHolds(v') && WritesJob(v) == WritesJob(v')
    requires !InSync(v) && !InSync(v')
    ensures SharedInv(boot, k, v')
  {
    hide CallsSoFar, Interrupted, RecordAgrees, CleanRecord, Matches, Truthful, Called;
  }

  lemma TakeLock(boot: bool, k: Core, v: BootPc, v': BootPc)
    requires SharedInv(boot, k, v) && !k.ctx.lock
    requires BootHolds(v') && !WritesJob(v) && !WritesJob(v') && !InSync(v) && !InSync(v')
    ensures SharedInv(boot, k.(ctx := k.ctx.(lock := true)), v')
  {
    hide CallsSoFar, Interrupted, RecordAgrees, CleanRecord, Matches, Truthful, Called;
    assert !BootHolds(v) && !ApHolds(k.ap.pc);
  }

  lemma DropLock(boot: bool, k: Core, v: BootPc, v': BootPc)
    requires SharedInv(boot, k, v) && BootHolds(v) && !BootHolds(v')
    requires (WritesJob(v) ==> Pending(k.hist)) && !WritesJob(v') && !InSync(v) && !InSync(v')
    ensures SharedInv(boot, k.(ctx := k.ctx.(lock := false)), v')
  {
    hide CallsSoFar, Interrupted, RecordAgrees, CleanRecord, Matches, Truthful, Called;
    assert !ApHolds(k.ap.pc);
  }

  /** A free lock on a started core means that the core is ready. */
  lemma FreeMeansReady(boot: bool, k: Core, v: BootPc)
    requires SharedInv(boot, k, v)
    requires k.ctx.started && (!k.ctx.lock || (BootHolds(v) && !InSync(v)))
    ensures k.ctx.ready && !Busy(k.hist)
  {
    hide Matches, Truthful, Called;
    assert !ApHolds(k.ap.pc);
  }

  /** Facts about a context that core 0 reads without owning it. */
  predicate Readable(boot: bool, k: Core) {
    && (!k.ctx.started ==> k.hist.submitted == [] && !boot)
    && (Settled(k) ==> k.ctx.fault == k.hist.completed[|k.hist.completed| - 1].fault)
  }

  lemma AlwaysReadable(boot: bool, k: Core, v: BootPc)
    requires SharedInv(boot, k, v)
    ensures Readable(boot, k)
  {
    hide Matches, Truthful, Called;
  }

  predicate ReadsOnly(k: Core, pc: BootPc) {
    || pc.StartPresent? || pc.StartStarted? || pc.AcqPresent? || pc.AcqStarted? || pc.WaitLock? || pc.WaitTick?
    || pc.ReplyFlags? || pc.ReplyRead? || pc.ReplyMsr?
    || (k.ctx.lock && (pc.StartTryLock? || pc.AcqTryLock? || pc.WaitTry?))
  }

  lemma ReadKeepsKnowledge(boot: bool, k: Core, pc: BootPc, ch: BootChoice)
    requires ReadsOnly(k, pc) && BootInv(boot, k, pc) && Readable(boot, k)
    ensures BootInv(boot, k, BootStep(k, pc, ch).pc)
  {
    hide Matches, Truthful, Called;
  }

  lemma ReadShape(k: Core, pc: BootPc, ch: BootChoice)
    requires ReadsOnly(k, pc)
    ensures var b := BootStep(k, pc, ch);
            && b.core == k
            && !BootHolds(pc) && !BootHolds(b.pc) && !WritesJob(b.pc)
            && (HasTarget(b.pc) ==> Target(b.pc) == Target(pc))
  {
  }

  lemma ReadKeeps(boot: bool, k: Core, pc: BootPc, ch: BootChoice)
    requires ReadsOnly(k, pc) && CoreInv(boot, k, pc)
    ensures KeptBy(boot, k, pc, ch)
  {
    hide Matches, Truthful, Called;
    AlwaysReadable(boot, k, pc);
    ReadKeepsKnowledge(boot, k, pc, ch);
    ReadShape(k, pc, ch);
    ViewChange(boot, k, pc, BootStep(k, pc, ch).pc);
  }

  predicate SameButJob(c: Context, c': Context) {
    && c' == c.(functions := c'.functions, code := c'.code, ucode := c'.ucode, result := c'.result)
    && |c'.functions| == |c.functions|
  }

  /** The stores of a producer touch the job fields and nothing else. */
  lemma StoreScope(w: Store, c: Context)
    requires |c.functions| == CORE_FUNCTION_SLOTS
    ensures SameButJob(c, DoStore(w, c))
  {
  }

  lemma StoreKeeps(boot: bool, k: Core, v: BootPc, w: Store)
    requires SharedInv(boot, k, v) && v.Writing? && !Busy(k.hist) && !Pending(k.hist)
    ensures SharedInv(boot, k.(ctx := DoStore(w, k.ctx)), Writing(v.q, v.k + 1))
  {
    hide CallsSoFar, Interrupted, RecordAgrees, CleanRecord, Matches, Truthful, Called;
    StoreScope(w, k.ctx);
    assert !ApHolds(k.ap.pc);
  }

  lemma BootTryLockKeeps(boot: bool, k: Core, pc: BootPc, ch: BootChoice)
    requires pc.StartTryLock? || pc.AcqTryLock? || pc.WaitTry?
    requires CoreInv(boot, k, pc) && boot == (Target(pc) == 0) && !k.ctx.lock
    ensures KeptBy(boot, k, pc, ch)
  {
    hide CallsSoFar, Interrupted, RecordAgrees, CleanRecord, Matches, Truthful, Called;
    TakeLock(boot, k, pc, BootStep(k, pc, ch).pc);
    if k.ctx.started {
      FreeMeansReady(boot, k, pc);
    }
  }

  lemma BootStartingKeeps(boot: bool, k: Core, pc: BootPc, ch: BootChoice)
    requires pc.StartInit? || pc.StartLaunch?
    requires CoreInv(boot, k, pc) && boot == (Target(pc) == 0)
    ensures KeptBy(boot, k, pc, ch)
  {
    hide Matches, Truthful, Called;
  }

  lemma BootReleaseKeeps(boot: bool, k: Core, pc: BootPc, ch: BootChoice)
    requires pc.StartUnlock? || pc.AcqUnlock?
    requires CoreInv(boot, k, pc) && boot == (Target(pc) == 0)
    ensures KeptBy(boot, k, pc, ch)
  {
    hide Matches, Truthful, Called;
    DropLock(boot, k, pc, Idle);
  }

  lemma BootAcqReadyKeeps(boot: bool, k: Core, pc: BootPc, ch: BootChoice)
    requires pc.AcqReady?
    requires CoreInv(boot, k, pc) && boot == (Target(pc) == 0)
    ensures KeptBy(boot, k, pc, ch)
  {
    hide Matches, Truthful, Called;
    FreeMeansReady(boot, k, pc);
    ViewChange(boot, k, pc, BootStep(k, pc, ch).pc);
  }

  lemma BootAcqQueuedKeeps(boot: bool, k: Core, pc: BootPc, ch: BootChoice)
    requires pc.AcqQueued?
    requires CoreInv(boot, k, pc) && boot == (Target(pc) == 0)
    ensures KeptBy(boot, k, pc, ch)
  {
    hide Matches, Truthful, Called;
    StoresDeliver(pc.q.job, k.ctx);
    assert Stores(pc.q.job)[0..] == Stores(pc.q.job);
    FreeMeansReady(boot, k, pc);
  }

  /** One store of a producer: what remains to be written shrinks by one. */
  lemma OneStore(ws: seq<Store>, n: nat, c: Context)
    requires n < |ws|
    ensures DoStores(ws[n..], c) == DoStores(ws[n + 1..], DoStore(ws[n], c))
  {
    hide DoStore;
    assert ws[n..][1..] == ws[n + 1..];
  }

  lemma BootStoreKeeps(boot: bool, k: Core, pc: BootPc, ch: BootChoice)
    requires pc.Writing? && pc.k < |Stores(pc.q.job)|
    requires CoreInv(boot, k, pc) && boot == (Target(pc) == 0)
    ensures KeptBy(boot, k, pc, ch)
  {
    hide DoStore, DoStores, Stores, SharedInv, Matches;
    var ws := Stores(pc.q.job);
    OneStore(ws, pc.k, k.ctx);
    assert |k.ctx.functions| == CORE_FUNCTION_SLOTS by { ShapeOf(boot, k, pc); }
    StoreScope(ws[pc.k], k.ctx);
    StoreKeeps(boot, k, pc, ws[pc.k]);
  }

  lemma ShapeOf(boot: bool, k: Core, v: BootPc)
    requires SharedInv(boot, k, v)
    ensures |k.ctx.functions| == CORE_FUNCTION_SLOTS
  {
    hide HistoryInv, PhaseInv, RestInv, StackInv, LockInv;
  }

  lemma BootWrittenKeeps(boot: bool, k: Core, pc: BootPc, ch: BootChoice)
    requires pc.Writing? && pc.k >= |Stores(pc.q.job)|
    requires CoreInv(boot, k, pc) && boot == (Target(pc) == 0)
    ensures KeptBy(boot, k, pc, ch)
  {
    hide CallsSoFar, Interrupted, RecordAgrees, CleanRecord, SharedInv, DoStore, Stores, Matches, Truthful, Called;
    assert Stores(pc.q.job)[pc.k..] == [];
    ViewChange(boot, k, pc, Queue(pc.q));
  }

  lemma BootQueueKeeps(boot: bool, k: Core, pc: BootPc, ch: BootChoice)
    requires pc.Queue?
    requires CoreInv(boot, k, pc) && boot == (Target(pc) == 0)
    ensures KeptBy(boot, k, pc, ch)
  {
    hide Matches, Truthful, Called;
  }

  lemma BootUnlockJobKeeps(boot: bool, k: Core, pc: BootPc, ch: BootChoice)
    requires pc.UnlockJob?
    requires CoreInv(boot, k, pc) && boot == (Target(pc) == 0)
    ensures KeptBy(boot, k, pc, ch)
  {
    hide Matches, Truthful, Called;
    DropLock(boot, k, pc, BootStep(k, pc, ch).pc);
  }

  lemma BootWaitReadyKeeps(boot: bool, k: Core, pc: BootPc, ch: BootChoice)
    requires pc.WaitReady?
    requires CoreInv(boot, k, pc) && boot == (Target(pc) == 0)
    ensures KeptBy(boot, k, pc, ch)
  {
    hide Matches, Truthful, Called;
    FreeMeansReady(boot, k, pc);
    ViewChange(boot, k, pc, BootStep(k, pc, ch).pc);
  }

  lemma BootWaitQueuedKeeps(boot: bool, k: Core, pc: BootPc, ch: BootChoice)
    requires pc.WaitQueued?
    requires CoreInv(boot, k, pc) && boot == (Target(pc) == 0)
    ensures KeptBy(boot, k, pc, ch)
  {
    hide Matches, Truthful, Called;
    FreeMeansReady(boot, k, pc);
    ViewChange(boot, k, pc, BootStep(k, pc, ch).pc);
  }

  lemma BootWaitUnlockKeeps(boot: bool, k: Core, pc: BootPc, ch: BootChoice)
    requires pc.WaitUnlock?
    requires CoreInv(boot, k, pc) && boot == (Target(pc) == 0)
    ensures KeptBy(boot, k, pc, ch)
  {
    hide Matches, Truthful, Called;
    DropLock(boot, k, pc, BootStep(k, pc, ch).pc);
  }

  lemma BootSyncReadyKeeps(boot: bool, k: Core, pc: BootPc, ch: BootChoice)
    requires pc.SyncReady?
    requires CoreInv(boot, k, pc) && boot == (Target(pc) == 0)
    ensures KeptBy(boot, k, pc, ch)
  {
    hide Matches, Truthful, Called;
  }

  lemma BootSyncClearKeeps(boot: bool, k: Core, pc: BootPc, ch: BootChoice)
    requires pc.SyncClear?
    requires CoreInv(boot, k, pc) && boot == (Target(pc) == 0)
    ensures KeptBy(boot, k, pc, ch)
  {
    hide Matches, Truthful;
  }

  lemma BootSlotsDoneKeeps(boot: bool, k: Core, pc: BootPc, ch: BootChoice)
    requires pc.SyncNext? && pc.i >= CORE_FUNCTION_SLOTS
    requires CoreInv(boot, k, pc) && boot == (Target(pc) == 0)
    ensures KeptBy(boot, k, pc, ch)
  {
    hide Matches, Truthful, Called;
  }

  lemma BootSyncNextKeeps(boot: bool, k: Core, pc: BootPc, ch: BootChoice)
    requires pc.SyncNext? && pc.i < CORE_FUNCTION_SLOTS
    requires CoreInv(boot, k, pc) && boot == (Target(pc) == 0)
    ensures KeptBy(boot, k, pc, ch)
  {
    hide Zeros, CleanRecord, Matches, Truthful, Called;
    CalledNext(k.ctx.functions, pc.i);
  }

  lemma BootSyncInKeeps(boot: bool, k: Core, pc: BootPc, ch: BootChoice)
    requires pc.SyncIn?
    requires CoreInv(boot, k, pc) && boot == (Target(pc) == 0)
    ensures KeptBy(boot, k, pc, ch)
  {
    hide Matches, Truthful, Called;
  }

  lemma BootSyncSetKeeps(boot: bool, k: Core, pc: BootPc, ch: BootChoice)
    requires pc.SyncSet?
    requires CoreInv(boot, k, pc) && boot == (Target(pc) == 0)
    ensures KeptBy(boot, k, pc, ch)
  {
    hide Matches, Truthful, Called;
  }

  lemma BootSyncUnlockKeeps(boot: bool, k: Core, pc: BootPc, ch: BootChoice)
    requires pc.SyncUnlock?
    requires CoreInv(boot, k, pc) && boot == (Target(pc) == 0)
    ensures KeptBy(boot, k, pc, ch)
  {
    hide Matches, Called;
  }

  lemma BootKeeps(boot: bool, k: Core, pc: BootPc, ch: BootChoice)
    requires HasTarget(pc) && CoreInv(boot, k, pc) && boot == (Target(pc) == 0)
    ensures KeptBy(boot, k, pc, ch)
  {
    hide Matches, Truthful, Called;
    if ReadsOnly(k, pc) {
      ReadKeeps(boot, k, pc, ch);
    } else {
      match pc
      case StartTryLock(_) => BootTryLockKeeps(boot, k, pc, ch);
      case AcqTryLock(_) => BootTryLockKeeps(boot, k, pc, ch);
      case WaitTry(_, _) => BootTryLockKeeps(boot, k, pc, ch);
      case StartInit(_) => BootStartingKeeps(boot, k, pc, ch);
      case StartLaunch(_) => BootStartingKeeps(boot, k, pc, ch);
      case StartUnlock(_) => BootReleaseKeeps(boot, k, pc, ch);
      case AcqUnlock(_, _) => BootReleaseKeeps(boot, k, pc, ch);
      case AcqReady(_) => BootAcqReadyKeeps(boot, k, pc, ch);
      case AcqQueued(_) => BootAcqQueuedKeeps(boot, k, pc, ch);
      case Writing(q, n) =>
        if n < |Stores(q.job)| { BootStoreKeeps(boot, k, pc, ch); } else { BootWrittenKeeps(boot, k, pc, ch); }
      case Queue(_) => BootQueueKeeps(boot, k, pc, ch);
      case UnlockJob(_) => BootUnlockJobKeeps(boot, k, pc, ch);
      case WaitReady(_, _) => BootWaitReadyKeeps(boot, k, pc, ch);
      case WaitQueued(_, _) => BootWaitQueuedKeeps(boot, k, pc, ch);
      case WaitUnlock(_, _, _) => BootWaitUnlockKeeps(boot, k, pc, ch);
      case SyncReady(_) => BootSyncReadyKeeps(boot, k, pc, ch);
      case SyncClear(_) => BootSyncClearKeeps(boot, k, pc, ch);
      case SyncNext(_, i) =>
        if i < CORE_FUNCTION_SLOTS { BootSyncNextKeeps(boot, k, pc, ch); } else { BootSlotsDoneKeeps(boot, k, pc, ch); }
      case SyncIn(_, _) => BootSyncInKeeps(boot, k, pc, ch);
      case SyncSet(_) => BootSyncSetKeeps(boot, k, pc, ch);
      case SyncUnlock(_) => BootSyncUnlockKeeps(boot, k, pc, ch);
    }
  }
}
