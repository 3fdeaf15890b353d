/** What running a job means: which functions are entered, in which order, and whose report it is. */
module CoreCalls {
  import opened CoreContexts
  import opened CoreSteps
  import opened CoreInvariant
  import opened CoreMailbox
  import opened CoreTheorems

  // ---- the functions of each job ----

  /** A finished job has called exactly these functions, in this order; one that was cut short by a fault
      has got as far as one of them. */
  lemma JobsCall(s: State, t: nat, i: nat)
    requires Reachable(s) && t < |s.cores| && i < |s.cores[t].hist.completed|
    ensures i < |s.cores[t].hist.submitted|
    ensures var d := s.cores[t].hist.completed[i];
            var called :=
              match s.cores[t].hist.submitted[i]
              case ExecuteMachineCode(_) => [MachineCodeFn]
              case ApplyUcodeTest(_, _, restore) =>
                if restore then [PrepareUcodeFn, ApplyRestoreFn] else [PrepareUcodeFn, ApplySimpleFn]
              case ReadMsr(_) => [ReadMsrFn];
            if d.recovered then d.calls != [] && d.calls <= called else d.calls == called
  {
    JobsConserved(s, t);
    var h := s.cores[t].hist;
    var d := h.completed[i];
    SlotsCalled(h.submitted[i], d.depth);
    assert d.seen.functions == Slots(h.submitted[i]);
  }

  /** What calling the first n slots of each job comes to. */
  lemma SlotsCalled(job: Job, n: nat)
    requires n <= CORE_FUNCTION_SLOTS
    ensures var fs := Slots(job);
            Called(fs[..n]) == (
              if n == 0 then []
              else if n == 1 || fs[1].Empty? then [fs[0].func]
              else [fs[0].func, fs[1].func])
    ensures Slots(job)[0].Call? && Slots(job)[2].Empty?
  {
    var fs := Slots(job);
    CalledNext(fs, 0);
    CalledNext(fs, 1);
    CalledNext(fs, 2);
    assert fs[..0] == [];
  }

  // ---- what a function may do ----

  /** A function may report anything, leave any stack pointer, return, never return, or fault in any way; and
      that is all it does to the shared context and the core. */
  lemma FunctionsMay(k: Core, i: nat, r: Result, rsp: int, kind: FaultKind)
    requires k.ap.pc == InCall(i)
    ensures exists ch :: ApStep(k, ch) == k.(ctx := k.ctx.(result := r))
    ensures exists ch :: ApStep(k, ch) == k.(ap := Ap(InCall(i), rsp))
    ensures exists ch :: ApStep(k, ch) == k.(ap := k.ap.(pc := NextCall(i + 1)))
    ensures exists ch :: ApStep(k, ch) == k.(ap := k.ap.(pc := DeadLoop))
    ensures exists ch :: ApStep(k, ch).ap == k.ap.(pc := InHandler(i, kind, false)) && ApStep(k, ch).ctx == k.ctx
    ensures forall ch :: var k' := ApStep(k, ch);
              && k'.ctx == k.ctx.(result := k'.ctx.result)
              && k'.hist == k.hist.(faulted := k.hist.faulted || k'.ap.pc.InHandler?)
  {
    hide Finish, SeenIn, CleanRecord;
    assert ApStep(k, Report(r)) == k.(ctx := k.ctx.(result := r));
    assert ApStep(k, MoveStack(rsp)) == k.(ap := Ap(InCall(i), rsp));
    assert ApStep(k, Go) == k.(ap := k.ap.(pc := NextCall(i + 1)));
    assert ApStep(k, Hang) == k.(ap := k.ap.(pc := DeadLoop));
    assert ApStep(k, Raise(kind)).ap == k.ap.(pc := InHandler(i, kind, false));
  }

  // ---- entering the functions ----

  /** A step that enters job function i. */
  function Entered(k: Core, k': Core): seq<nat> {
    if k.ap.pc.NextCall? && k'.ap.pc == InCall(k.ap.pc.i) then [k.ap.pc.i] else []
  }

  /** The slots whose functions core t enters in a run, in the order in which it does. */
  function Visits(s: State, acts: seq<Action>, t: nat): seq<nat> {
    if acts == [] then []
    else
      var m := Run(s, acts[..|acts| - 1]);
      var m' := Step(m, acts[|acts| - 1]);
      Visits(s, acts[..|acts| - 1], t) + if t < |m.cores| == |m'.cores| then Entered(m.cores[t], m'.cores[t]) else []
  }

  /** The slots below n that hold a function. */
  function Filled(fs: seq<Slot>, n: nat): seq<nat>
    requires n <= |fs|
  {
    if n == 0 then [] else Filled(fs, n - 1) + if fs[n - 1].Call? then [n - 1] else []
  }

  /** A context whose AP owns it is left alone by core 0. */
  lemma HeldUntouched(k: Core, pc: BootPc, ch: BootChoice)
    requires HasTarget(pc) && LockInv(k, pc) && ApHolds(k.ap.pc)
    ensures BootStep(k, pc, ch).core == k
  {
    hide DoStore, Stores, Finish, CleanRecord;
  }

  lemma BusyHolds(k: Core, v: BootPc)
    requires PhaseInv(false, k, v) && HistoryInv(k) && Busy(k.hist)
    ensures ApHolds(k.ap.pc) && !k.ap.pc.ClearQueued?
  {
    hide Matches, Truthful, Called, CallsSoFar;
  }

  /** The job in progress. */
  predicate InProgress(k: Core, fs: seq<Slot>) {
    Busy(k.hist) && k.ctx.functions == fs && |fs| == CORE_FUNCTION_SLOTS && k.hist.depth <= |fs|
  }

  /** One step of the AP inside a job: it goes one slot on, entering the function if there is one; or it
      ends the job. Only job functions write the report. */
  predicate SlotOn(k: Core, k': Core, ch: ApChoice, fs: seq<Slot>)
    requires InProgress(k, fs)
  {
    && k'.hist.accepted == k.hist.accepted
    && if k'.hist.completed == k.hist.completed then
         && InProgress(k', fs) && Filled(fs, k'.hist.depth) == Filled(fs, k.hist.depth) + Entered(k, k')
         && (k'.ctx.result == k.ctx.result || (k.ap.pc.InCall? && ch.Report?))
       else
         && k'.hist.completed != [] && k'.hist.completed == k.hist.completed + [Last(k'.hist.completed)]
         && Last(k'.hist.completed).depth == k.hist.depth && Last(k'.hist.completed).result == k.ctx.result
  }

  lemma SlotStep(k: Core, v: BootPc, ch: ApChoice, fs: seq<Slot>)
    requires PhaseInv(false, k, v) && InProgress(k, fs) && ApHolds(k.ap.pc) && !k.ap.pc.ClearQueued?
    ensures SlotOn(k, ApStep(k, ch), ch, fs)
  {
    hide ApStep, SlotOn, InProgress, PhaseInv;
    if k.ap.pc.NextCall? {
      NextSlot(k, v, ch, fs);
    } else if k.ap.pc.MainUnlock? || k.ap.pc.Unlock? {
      JobEnds(k, v, ch, fs);
    } else if k.ap.pc.InCall? {
      FunctionRuns(k, ch, fs);
    } else if k.ap.pc.InHandler? {
      HandlerRuns(k, ch, fs);
    } else {
      SameSlot(k, ch, fs);
    }
  }

  lemma NextSlot(k: Core, v: BootPc, ch: ApChoice, fs: seq<Slot>)
    requires PhaseInv(false, k, v) && InProgress(k, fs) && k.ap.pc.NextCall?
    ensures SlotOn(k, ApStep(k, ch), ch, fs)
  {
    hide Matches, Truthful, Called, CleanRecord, SyncInv, SeenIn, RecordAgrees;
  }

  lemma JobEnds(k: Core, v: BootPc, ch: ApChoice, fs: seq<Slot>)
    requires PhaseInv(false, k, v) && InProgress(k, fs) && (k.ap.pc.MainUnlock? || k.ap.pc.Unlock?)
    ensures SlotOn(k, ApStep(k, ch), ch, fs)
  {
    hide Matches, Truthful, Called, CleanRecord, SyncInv, SeenIn, RecordAgrees, CallsSoFar, Interrupted;
  }

  lemma FunctionRuns(k: Core, ch: ApChoice, fs: seq<Slot>)
    requires InProgress(k, fs) && k.ap.pc.InCall?
    ensures SlotOn(k, ApStep(k, ch), ch, fs)
  {
    hide Matches, Truthful, Called, CleanRecord, SeenIn, Filled, Finish;
  }

  lemma HandlerRuns(k: Core, ch: ApChoice, fs: seq<Slot>)
    requires InProgress(k, fs) && k.ap.pc.InHandler?
    ensures SlotOn(k, ApStep(k, ch), ch, fs)
  {
    hide Matches, Truthful, Called, CleanRecord, SeenIn, Filled, Finish;
  }

  lemma SameSlot(k: Core, ch: ApChoice, fs: seq<Slot>)
    requires InProgress(k, fs) && !k.ap.pc.NextCall? && !k.ap.pc.InCall? && !k.ap.pc.InHandler?
    requires !k.ap.pc.MainUnlock? && !k.ap.pc.Unlock? && !k.ap.pc.ClearQueued?
    ensures SlotOn(k, ApStep(k, ch), ch, fs)
  {
    hide Matches, Truthful, Called, CleanRecord, SeenIn, Filled, Finish;
  }

  /** Any step, seen from a core other than core 0 with a job in progress. */
  lemma JobStep(s: State, a: Action, t: nat, fs: seq<Slot>)
    requires Reachable(s) && 0 < t < |s.cores| && InProgress(s.cores[t], fs)
    ensures var k, k' := s.cores[t], Step(s, a).cores[t];
            && |Step(s, a).cores| == |s.cores|
            && if a.ApAction? && a.core == t then k' == ApStep(k, a.choice) && SlotOn(k, k', a.choice, fs) else k' == k
  {
    hide ApStep, BootStep, SlotOn, InProgress, PhaseInv, RestInv, StackInv, LockInv, ShapeInv, HistoryInv, BootInv,
      ApHolds, AnswerOk;
    ReachableInv(s);
    var k := s.cores[t];
    assert CoreInv(t == 0, k, View(s.pc, t));
    ProgressIsBusy(k, fs);
    BusyHolds(k, View(s.pc, t));
    if a.ApAction? && a.core == t {
      SlotStep(k, View(s.pc, t), a.choice, fs);
    } else if a.BootAction? && HasTarget(s.pc) && Target(s.pc) == t {
      HeldUntouched(k, s.pc, a.boot);
    }
  }

  lemma ProgressIsBusy(k: Core, fs: seq<Slot>)
    requires InProgress(k, fs)
    ensures Busy(k.hist)
  {
  }

  lemma SlotOnParts(k: Core, k': Core, ch: ApChoice, fs: seq<Slot>)
    requires InProgress(k, fs) && SlotOn(k, k', ch, fs)
    ensures |k.hist.completed| <= |k'.hist.completed|
    ensures |k'.hist.completed| == |k.hist.completed| ==> k'.hist.completed == k.hist.completed && InProgress(k', fs)
  {
  }

  /** What has happened to a job since state s, as long as it is not finished. */
  predicate Underway(s: State, acts: seq<Action>, t: nat, fs: seq<Slot>)
    requires t < |s.cores|
  {
    var k, s' := s.cores[t], Run(s, acts);
    && t < |s'.cores| == |s.cores|
    && s'.cores[t].hist.completed == k.hist.completed && s'.cores[t].hist.accepted == k.hist.accepted
    && InProgress(s'.cores[t], fs)
    && Visits(s, acts, t) == Filled(fs, s'.cores[t].hist.depth)
  }

  /** From the acceptance of a job on, with anything going on elsewhere: as long as no completion is
      added, core t has entered exactly the functions of the slots it has passed, in their order. */
  lemma {:induction false} EntersInOrder(s: State, acts: seq<Action>, t: nat)
    requires Reachable(s) && 0 < t < |s.cores| && s.cores[t].ap.pc.CheckFault?
    ensures Reachable(Run(s, acts)) && |Run(s, acts).cores| == |s.cores|
    ensures |s.cores[t].hist.completed| <= |Run(s, acts).cores[t].hist.completed|
    ensures |Run(s, acts).cores[t].hist.completed| == |s.cores[t].hist.completed| ==>
              Underway(s, acts, t, s.cores[t].ctx.functions)
  {
    var fs := s.cores[t].ctx.functions;
    if acts == [] {
      JobBegins(s, t);
      assert Run(s, []) == s;
    } else {
      var n := |acts| - 1;
      EntersInOrder(s, acts[..n], t);
      var m := Run(s, acts[..n]);
      ReachableStep(m, acts[n]);
      CompletionsGrow(m, acts[n], t);
      if |m.cores[t].hist.completed| == |s.cores[t].hist.completed| {
        OneStepUnderway(s, acts, t, fs);
      }
    }
  }

  lemma JobBegins(s: State, t: nat)
    requires Reachable(s) && 0 < t < |s.cores| && s.cores[t].ap.pc.CheckFault?
    ensures InProgress(s.cores[t], s.cores[t].ctx.functions) && s.cores[t].hist.depth == 0
  {
    ReachableInv(s);
    assert CoreInv(t == 0, s.cores[t], View(s.pc, t));
  }

  lemma CompletionsGrow(s: State, a: Action, t: nat)
    requires Reachable(s) && t < |s.cores|
    ensures |Step(s, a).cores| == |s.cores|
    ensures s.cores[t].hist.completed <= Step(s, a).cores[t].hist.completed
  {
    hide Step, PhaseOf, HistoryInv;
    StepRefinesMailbox(s, a, t);
    FollowsGrows(t == 0, s.cores[t], Step(s, a).cores[t]);
  }

  lemma OneStepUnderway(s: State, acts: seq<Action>, t: nat, fs: seq<Slot>)
    requires acts != [] && 0 < t < |s.cores| && Reachable(Run(s, acts[..|acts| - 1]))
    requires Underway(s, acts[..|acts| - 1], t, fs)
    ensures t < |Run(s, acts).cores|
    ensures |Run(s, acts).cores[t].hist.completed| == |s.cores[t].hist.completed| ==> Underway(s, acts, t, fs)
  {
    hide Step, ApStep, Filled;
    var n := |acts| - 1;
    var m := Run(s, acts[..n]);
    JobStep(m, acts[n], t, fs);
    var k, k' := m.cores[t], Run(s, acts).cores[t];
    if acts[n].ApAction? && acts[n].core == t {
      SlotOnParts(k, k', acts[n].choice, fs);
    } else {
      assert Entered(k, k') == [];
    }
  }

  /** When it finishes, it has entered the functions of exactly as many slots as the completion says:
      of all of them, unless a fault has cut it short. */
  lemma FinishedMeansEntered(s: State, acts: seq<Action>, a: Action, t: nat)
    requires Reachable(s) && 0 < t < |s.cores| && s.cores[t].ap.pc.CheckFault?
    requires var n := |s.cores[t].hist.completed|; var m := Run(s, acts);
             t < |m.cores| && |m.cores[t].hist.completed| == n
             && t < |Step(m, a).cores| && |Step(m, a).cores[t].hist.completed| > n
    ensures var d := Last(Step(Run(s, acts), a).cores[t].hist.completed);
            var fs := s.cores[t].ctx.functions;
            && |Step(Run(s, acts), a).cores[t].hist.completed| == |s.cores[t].hist.completed| + 1
            && d.seen.functions == fs && d.depth <= |fs|
            && Visits(s, acts, t) == Filled(fs, d.depth)
            && (!d.recovered ==> d.depth == |fs| == CORE_FUNCTION_SLOTS)
  {
    EntersInOrder(s, acts, t);
    var m := Run(s, acts);
    JobStep(m, a, t, s.cores[t].ctx.functions);
    ReachableStep(m, a);
    JobsConserved(Step(m, a), t);
    SeenIsAccepted(s, t);
  }

  lemma SeenIsAccepted(s: State, t: nat)
    requires Reachable(s) && 0 < t < |s.cores| && s.cores[t].ap.pc.CheckFault?
    ensures s.cores[t].hist.accepted != [] && Last(s.cores[t].hist.accepted).functions == s.cores[t].ctx.functions
    ensures |s.cores[t].hist.accepted| == |s.cores[t].hist.completed| + 1
  {
    ReachableInv(s);
    assert CoreInv(t == 0, s.cores[t], View(s.pc, t));
  }

  // ---- the report ----

  /** No function on core t writes a report. */
  predicate Silent(acts: seq<Action>, t: nat) {
    forall a :: a in acts ==> !(a.ApAction? && a.core == t && a.choice.Report?)
  }

  /** Where report r has got to: it is in the context as long as the job is in progress, and in the
      completion after that. */
  predicate Reported(h0: History, k: Core, r: Result) {
    var n := |h0.completed|;
    && n <= |k.hist.completed|
    && (|k.hist.completed| == n ==> k.ctx.result == r && InProgress(k, k.ctx.functions))
    && (|k.hist.completed| > n ==> k.hist.completed[n].result == r)
  }

  /** What a function reports last is what the completion of its job says, whichever function that is,
      whatever it reports, and whatever happens meanwhile. */
  lemma {:induction false} LastReportStays(s: State, r: Result, acts: seq<Action>, t: nat)
    requires Reachable(s) && 0 < t < |s.cores| && s.cores[t].ap.pc.InCall? && Silent(acts, t)
    ensures var s' := Run(Step(s, ApAction(t, Report(r))), acts);
            Reachable(s') && |s'.cores| == |s.cores| && Reported(s.cores[t].hist, s'.cores[t], r)
  {
    var s1 := Step(s, ApAction(t, Report(r)));
    ReachableStep(s, ApAction(t, Report(r)));
    if acts == [] {
      Writes(s, r, t);
      assert Run(s1, []) == s1;
    } else {
      var n := |acts| - 1;
      assert Silent(acts[..n], t);
      LastReportStays(s, r, acts[..n], t);
      var m := Run(s1, acts[..n]);
      assert acts[n] in acts;
      ReachableStep(m, acts[n]);
      StillReported(s.cores[t].hist, m, r, acts[n], t);
    }
  }

  lemma Writes(s: State, r: Result, t: nat)
    requires Reachable(s) && 0 < t < |s.cores| && s.cores[t].ap.pc.InCall?
    ensures Reported(s.cores[t].hist, Step(s, ApAction(t, Report(r))).cores[t], r)
  {
    hide Matches, Truthful, Called, CleanRecord;
    ReachableInv(s);
    assert CoreInv(t == 0, s.cores[t], View(s.pc, t));
  }

  lemma StillReported(h0: History, m: State, r: Result, a: Action, t: nat)
    requires Reachable(m) && 0 < t < |m.cores| && Reported(h0, m.cores[t], r)
    requires !(a.ApAction? && a.core == t && a.choice.Report?)
    ensures |Step(m, a).cores| == |m.cores| && Reported(h0, Step(m, a).cores[t], r)
  {
    hide Step, ApStep, Filled;
    CompletionsGrow(m, a, t);
    if |m.cores[t].hist.completed| == |h0.completed| {
      JobStep(m, a, t, m.cores[t].ctx.functions);
      if a.ApAction? && a.core == t {
        SlotOnParts(m.cores[t], Step(m, a).cores[t], a.choice, m.cores[t].ctx.functions);
      }
    }
  }

  // ---- the same for a job that core 0 runs itself ----

  /** Core 0 is past the acceptance of a job of its own. */
  predicate RunsJob(pc: BootPc) { pc.SyncNext? || pc.SyncIn? || pc.SyncSet? || pc.SyncUnlock? }

  function BootEntered(pc: BootPc, pc': BootPc): seq<nat> {
    if pc.SyncNext? && pc' == SyncIn(pc.q, pc.i) then [pc.i] else []
  }

  /** The slots whose functions core 0 enters in a run. */
  function BootVisits(s: State, acts: seq<Action>): seq<nat> {
    if acts == [] then []
    else
      var m := Run(s, acts[..|acts| - 1]);
      BootVisits(s, acts[..|acts| - 1]) + BootEntered(m.pc, Step(m, acts[|acts| - 1]).pc)
  }

  predicate BootSlotOn(k: Core, pc: BootPc, b: Boot, ch: BootChoice, fs: seq<Slot>)
    requires InProgress(k, fs) && RunsJob(pc)
  {
    && b.core.hist.accepted == k.hist.accepted
    && if b.core.hist.completed == k.hist.completed then
         && InProgress(b.core, fs) && RunsJob(b.pc) && b.pc.q == pc.q
         && Filled(fs, b.core.hist.depth) == Filled(fs, k.hist.depth) + BootEntered(pc, b.pc)
         && (b.core.ctx.result == k.ctx.result || (pc.SyncIn? && ch.BootReport?))
       else
         && b.core.hist.completed != [] && b.core.hist.completed == k.hist.completed + [Last(b.core.hist.completed)]
         && var d := Last(b.core.hist.completed);
         && d.depth == k.hist.depth == CORE_FUNCTION_SLOTS && d.result == k.ctx.result && !d.recovered && !d.faulted
  }

  lemma BootSlotStep(k: Core, pc: BootPc, ch: BootChoice, fs: seq<Slot>)
    requires RunsJob(pc) && SyncInv(k, pc) && InProgress(k, fs)
    ensures BootSlotOn(k, pc, BootStep(k, pc, ch), ch, fs)
  {
    hide Matches, Truthful, Called, CleanRecord, SeenIn, DoStore, Stores;
  }

  /** Any step, seen from core 0's own job. */
  lemma OwnJobStep(s: State, a: Action, fs: seq<Slot>)
    requires Reachable(s) && RunsJob(s.pc) && s.pc.q.core == 0 < |s.cores| && InProgress(s.cores[0], fs)
    ensures var k, s' := s.cores[0], Step(s, a);
            && |s'.cores| == |s.cores|
            && if a.BootAction? then
                 var b := BootStep(k, s.pc, a.boot);
                 BootSlotOn(k, s.pc, b, a.boot, fs) && s'.cores[0] == b.core && s'.pc == b.pc
               else s'.cores[0] == k && s'.pc == s.pc
  {
    hide ApStep, BootStep, BootSlotOn, InProgress, SyncInv, RestInv, StackInv, LockInv, ShapeInv, HistoryInv, AnswerOk;
    ReachableInv(s);
    assert CoreInv(true, s.cores[0], View(s.pc, 0));
    if a.BootAction? {
      OwnSync(s.cores[0], s.pc);
      BootSlotStep(s.cores[0], s.pc, a.boot, fs);
    }
  }

  lemma OwnSync(k: Core, v: BootPc)
    requires PhaseInv(true, k, v) && ShapeInv(true, k)
    ensures SyncInv(k, v)
  {
    hide SyncInv;
  }

  predicate OwnUnderway(s: State, acts: seq<Action>, fs: seq<Slot>)
    requires 0 < |s.cores|
  {
    var k, s' := s.cores[0], Run(s, acts);
    && |s'.cores| == |s.cores| && RunsJob(s'.pc) && s'.pc.q.core == 0
    && s'.cores[0].hist.completed == k.hist.completed && s'.cores[0].hist.accepted == k.hist.accepted
    && InProgress(s'.cores[0], fs)
    && BootVisits(s, acts) == Filled(fs, s'.cores[0].hist.depth)
  }

  /** From the acceptance of a job of its own on, core 0 enters the functions of the slots in order. */
  lemma {:induction false} OwnEntersInOrder(s: State, acts: seq<Action>)
    requires Reachable(s) && s.pc.SyncNext? && s.pc.i == 0 && s.pc.q.core == 0 < |s.cores|
    ensures Reachable(Run(s, acts)) && |Run(s, acts).cores| == |s.cores|
    ensures |s.cores[0].hist.completed| <= |Run(s, acts).cores[0].hist.completed|
    ensures |Run(s, acts).cores[0].hist.completed| == |s.cores[0].hist.completed| ==>
              OwnUnderway(s, acts, s.cores[0].ctx.functions)
  {
    var fs := s.cores[0].ctx.functions;
    if acts == [] {
      OwnJobBegins(s);
      assert Run(s, []) == s;
    } else {
      var n := |acts| - 1;
      OwnEntersInOrder(s, acts[..n]);
      var m := Run(s, acts[..n]);
      ReachableStep(m, acts[n]);
      CompletionsGrow(m, acts[n], 0);
      if |m.cores[0].hist.completed| == |s.cores[0].hist.completed| {
        OwnStepUnderway(s, acts, fs);
      }
    }
  }

  lemma OwnJobBegins(s: State)
    requires Reachable(s) && s.pc.SyncNext? && s.pc.i == 0 && s.pc.q.core == 0 < |s.cores|
    ensures InProgress(s.cores[0], s.cores[0].ctx.functions) && s.cores[0].hist.depth == 0
    ensures var h := s.cores[0].hist;
            && h.accepted != [] && Last(h.accepted).functions == s.cores[0].ctx.functions
            && |h.accepted| == |h.completed| + 1
  {
    hide Matches, Truthful, Called, CleanRecord;
    ReachableInv(s);
    assert CoreInv(true, s.cores[0], View(s.pc, 0));
    OwnSync(s.cores[0], s.pc);
  }

  lemma OwnStepUnderway(s: State, acts: seq<Action>, fs: seq<Slot>)
    requires acts != [] && 0 < |s.cores| && Reachable(Run(s, acts[..|acts| - 1]))
    requires OwnUnderway(s, acts[..|acts| - 1], fs)
    ensures |Run(s, acts).cores| == |s.cores|
    ensures |Run(s, acts).cores[0].hist.completed| == |s.cores[0].hist.completed| ==> OwnUnderway(s, acts, fs)
  {
    hide Step, BootStep, Filled;
    var n := |acts| - 1;
    var m := Run(s, acts[..n]);
    OwnJobStep(m, acts[n], fs);
    if !acts[n].BootAction? {
      assert BootEntered(m.pc, Step(m, acts[n]).pc) == [];
    }
  }

  /** When it finishes, it has entered the functions of all its slots. */
  lemma OwnFinishedMeansEntered(s: State, acts: seq<Action>, a: Action)
    requires Reachable(s) && s.pc.SyncNext? && s.pc.i == 0 && s.pc.q.core == 0 < |s.cores|
    requires var n := |s.cores[0].hist.completed|; var m := Run(s, acts);
             0 < |m.cores| && |m.cores[0].hist.completed| == n
             && 0 < |Step(m, a).cores| && |Step(m, a).cores[0].hist.completed| > n
    ensures var d := Last(Step(Run(s, acts), a).cores[0].hist.completed);
            var fs := s.cores[0].ctx.functions;
            && |Step(Run(s, acts), a).cores[0].hist.completed| == |s.cores[0].hist.completed| + 1
            && d.seen.functions == fs && |fs| == CORE_FUNCTION_SLOTS == d.depth && !d.recovered && !d.faulted
            && BootVisits(s, acts) == Filled(fs, |fs|)
  {
    hide Step, BootStep, Filled;
    OwnEntersInOrder(s, acts);
    var m := Run(s, acts);
    OwnJobStep(m, a, s.cores[0].ctx.functions);
    ReachableStep(m, a);
    JobsConserved(Step(m, a), 0);
    OwnJobBegins(s);
  }

  /** The last report of a function of core 0's own job is the one in its completion. */
  lemma {:induction false} OwnLastReportStays(s: State, r: Result, acts: seq<Action>)
    requires Reachable(s) && s.pc.SyncIn? && s.pc.q.core == 0 < |s.cores|
    requires forall a :: a in acts ==> !(a.BootAction? && a.boot.BootReport?)
    ensures var s' := Run(Step(s, BootAction(BootReport(r))), acts);
            && Reachable(s') && |s'.cores| == |s.cores| && Reported(s.cores[0].hist, s'.cores[0], r)
            && (|s'.cores[0].hist.completed| == |s.cores[0].hist.completed| ==> RunsJob(s'.pc) && s'.pc.q.core == 0)
  {
    var s1 := Step(s, BootAction(BootReport(r)));
    ReachableStep(s, BootAction(BootReport(r)));
    if acts == [] {
      OwnWrites(s, r);
      assert Run(s1, []) == s1;
    } else {
      var n := |acts| - 1;
      OwnLastReportStays(s, r, acts[..n]);
      var m := Run(s1, acts[..n]);
      assert acts[n] in acts;
      ReachableStep(m, acts[n]);
      OwnStillReported(s.cores[0].hist, m, r, acts[n]);
    }
  }

  lemma OwnWrites(s: State, r: Result)
    requires Reachable(s) && s.pc.SyncIn? && s.pc.q.core == 0 < |s.cores|
    ensures var s' := Step(s, BootAction(BootReport(r)));
            |s'.cores| == |s.cores| && Reported(s.cores[0].hist, s'.cores[0], r) && s'.pc == s.pc
  {
    hide Matches, Truthful, Called, CleanRecord;
    ReachableInv(s);
    assert CoreInv(true, s.cores[0], View(s.pc, 0));
    OwnSync(s.cores[0], s.pc);
  }

  lemma OwnStillReported(h0: History, m: State, r: Result, a: Action)
    requires Reachable(m) && 0 < |m.cores| && Reported(h0, m.cores[0], r)
    requires |m.cores[0].hist.completed| == |h0.completed| ==> RunsJob(m.pc) && m.pc.q.core == 0
    requires !(a.BootAction? && a.boot.BootReport?)
    ensures var s' := Step(m, a);
            && |s'.cores| == |m.cores| && Reported(h0, s'.cores[0], r)
            && (|s'.cores[0].hist.completed| == |h0.completed| ==> RunsJob(s'.pc) && s'.pc.q.core == 0)
  {
    hide Step, BootStep, Filled;
    CompletionsGrow(m, a, 0);
    if |m.cores[0].hist.completed| == |h0.completed| {
      OwnJobStep(m, a, m.cores[0].ctx.functions);
    }
  }
}
