/** What holds over every run of core 0 and the APs. */
module CoreTheorems {
  import opened CoreContexts
  import opened CoreSteps
  import opened CoreInvariant
  import opened CoreMailbox

  // ---- answers ----

  /** The report in a reply is the one that completion d left behind. */
  predicate ReportsOn(d: Completion, a: Answer) {
    && (a.Reply? ==>
          a.rdtsc == d.result.rdtsc && a.gpf == d.result.gpf && a.buffer == d.result.buffer && a.faultBit == d.faulted)
    && (a.MsrReply? ==> a.words == d.result.msr)
  }

  /** An answer to a request whose job was submitted. */
  predicate IsReply(a: Answer) { a.Reply? || a.MsrReply? || a.MsrTimedOut? }

  predicate TimedOut(a: Answer) { a.MsrTimedOut? || (a.Reply? && a.timedOut) }

  /** The answer is about the job with the right number, and of the kind that is due to it. */
  predicate AnswersJob(h: History, a: Answer)
    requires IsReply(a)
  {
    0 <= a.index < |h.submitted| && h.submitted[a.index] == a.job && (a.job.ReadMsr? <==> !a.Reply?)
  }

  predicate AnswerOk(h: History, a: Answer) {
    && (a.StartFailed? ==> a.status in {0x3, 0x4, 0x5, 0x6})
    && (a.Rejected? ==> a.status in {0x201, 0x202, 0x203, 0x204, 0x206})
    && (IsReply(a) ==>
          AnswersJob(h, a) && (!TimedOut(a) ==> a.index < |h.completed| && ReportsOn(h.completed[a.index], a)))
  }

  predicate StateInv(s: State) {
    && (HasTarget(s.pc) ==> Target(s.pc) < |s.cores|)
    && (forall t :: 0 <= t < |s.cores| ==> CoreInv(t == 0, s.cores[t], View(s.pc, t)))
    && (forall a :: a in s.answers ==>
          (a.core < |s.cores| && AnswerOk(s.cores[a.core].hist, a)) || (a.Rejected? && a.status == 0x201))
  }

  predicate Grows(h: History, h': History) { h.submitted <= h'.submitted && h.completed <= h'.completed }

  lemma FollowsGrows(boot: bool, k: Core, k': Core)
    requires HistoryInv(k) && HistoryInv(k') && Follows(BoxOf(boot, k), BoxOf(boot, k'))
    ensures Grows(k.hist, k'.hist)
  {
    var b, b' := BoxOf(boot, k), BoxOf(boot, k');
    assert b.submitted == k.hist.submitted && b'.submitted == k'.hist.submitted;
    assert b.completed == k.hist.completed && b'.completed == k'.hist.completed;
  }

  /** An answer stays right: what it speaks about is never rewritten. */
  lemma AnswerStays(h: History, h': History, a: Answer)
    requires AnswerOk(h, a) && Grows(h, h')
    ensures AnswerOk(h', a)
  {
  }

  lemma AnswersGiven(boot: bool, k: Core, pc: BootPc, ch: BootChoice)
    requires HasTarget(pc) && BootInv(boot, k, pc) && HistoryInv(k) && RestInv(k, pc)
    ensures forall a :: a in BootStep(k, pc, ch).answers ==> a.core == Target(pc) && AnswerOk(k.hist, a)
  {
    hide BootStep, BootInv, HistoryInv, RestInv, AnswerOk;
    if pc.ReplyFlags? || pc.ReplyRead? || pc.ReplyMsr? {
      RepliesGiven(boot, k, pc, ch);
    } else {
      StatusGiven(boot, k, pc, ch);
    }
  }

  lemma RepliesGiven(boot: bool, k: Core, pc: BootPc, ch: BootChoice)
    requires pc.ReplyFlags? || pc.ReplyRead? || pc.ReplyMsr?
    requires BootInv(boot, k, pc) && HistoryInv(k) && RestInv(k, pc)
    ensures forall a :: a in BootStep(k, pc, ch).answers ==> a.core == Target(pc) && AnswerOk(k.hist, a)
  {
    hide Matches, Called, Stores, DoStore, DoStores, CleanRecord;
  }

  lemma StatusGiven(boot: bool, k: Core, pc: BootPc, ch: BootChoice)
    requires HasTarget(pc) && !pc.ReplyFlags? && !pc.ReplyRead? && !pc.ReplyMsr?
    requires BootInv(boot, k, pc)
    ensures forall a :: a in BootStep(k, pc, ch).answers ==> a.core == Target(pc) && AnswerOk(k.hist, a)
  {
    hide Matches, Called, Stores, DoStore, DoStores, CleanRecord, AnswersJob, ReportsOn;
  }

  // ---- the invariant over runs ----

  lemma InitialInv(present: seq<bool>)
    ensures StateInv(Initial(present))
  {
  }

  lemma ApStepInv(s: State, t: nat, ch: ApChoice)
    requires StateInv(s) && 0 < t < |s.cores|
    ensures StateInv(Step(s, ApAction(t, ch)))
    ensures Follows(BoxOf(false, s.cores[t]), BoxOf(false, Step(s, ApAction(t, ch)).cores[t]))
  {
    hide PhaseInv, RestInv, StackInv, LockInv, ShapeInv, HistoryInv, BootInv, AnswerOk, Follows, BoxOf, ApStep, Grows;
    var s' := Step(s, ApAction(t, ch));
    var k := s.cores[t];
    assert CoreInv(t == 0, k, View(s.pc, t));
    ApKeeps(false, k, View(s.pc, t), ch);
    ApRefines(false, k, View(s.pc, t), ch);
    FollowsGrows(false, k, s'.cores[t]);
    forall a | a in s'.answers
      ensures (a.core < |s'.cores| && AnswerOk(s'.cores[a.core].hist, a)) || (a.Rejected? && a.status == 0x201)
    {
      if a.core == t && AnswerOk(k.hist, a) {
        AnswerStays(k.hist, s'.cores[t].hist, a);
      }
    }
  }

  lemma BootStepInv(s: State, ch: BootChoice)
    requires StateInv(s) && HasTarget(s.pc)
    ensures StateInv(Step(s, BootAction(ch)))
    ensures var t := Target(s.pc);
            Follows(BoxOf(t == 0, s.cores[t]), BoxOf(t == 0, Step(s, BootAction(ch)).cores[t]))
  {
    hide PhaseInv, RestInv, StackInv, LockInv, ShapeInv, HistoryInv, BootInv, AnswerOk, Follows, BoxOf, BootStep, Grows;
    var t := Target(s.pc);
    var k := s.cores[t];
    var s' := Step(s, BootAction(ch));
    assert CoreInv(t == 0, k, View(s.pc, t));
    BootKeeps(t == 0, k, s.pc, ch);
    BootRefines(t == 0, k, s.pc, ch);
    FollowsGrows(t == 0, k, s'.cores[t]);
    AnswersGiven(t == 0, k, s.pc, ch);
    forall a | a in s'.answers
      ensures (a.core < |s'.cores| && AnswerOk(s'.cores[a.core].hist, a)) || (a.Rejected? && a.status == 0x201)
    {
      if a.core == t && AnswerOk(k.hist, a) {
        AnswerStays(k.hist, s'.cores[t].hist, a);
      }
    }
    forall d | 0 <= d < |s'.cores|
      ensures CoreInv(d == 0, s'.cores[d], View(s'.pc, d))
    {
      if d != t {
        assert CoreInv(d == 0, s.cores[d], View(s.pc, d));
      }
    }
  }

  lemma BeginInv(s: State, ch: BootChoice)
    requires StateInv(s) && !HasTarget(s.pc)
    ensures StateInv(Begin(s, ch))
  {
    hide SharedInv, AnswerOk;
    var s' := Begin(s, ch);
    forall d | 0 <= d < |s'.cores|
      ensures CoreInv(d == 0, s'.cores[d], View(s'.pc, d))
    {
      assert CoreInv(d == 0, s.cores[d], View(s.pc, d));
      ViewChange(d == 0, s.cores[d], Idle, View(s'.pc, d));
    }
  }

  lemma StepInv(s: State, a: Action)
    requires StateInv(s)
    ensures StateInv(Step(s, a))
  {
    match a
    case ApAction(t, ch) =>
      if 0 < t < |s.cores| { ApStepInv(s, t, ch); }
    case BootAction(ch) =>
      if HasTarget(s.pc) { BootStepInv(s, ch); } else { BeginInv(s, ch); }
  }

  /** The invariant holds after every interleaving of any length. */
  lemma {:induction false} RunInv(present: seq<bool>, acts: seq<Action>)
    ensures StateInv(Run(Initial(present), acts))
    ensures |Run(Initial(present), acts).cores| == |present|
  {
    if acts == [] {
      InitialInv(present);
    } else {
      RunInv(present, acts[..|acts| - 1]);
      StepInv(Run(Initial(present), acts[..|acts| - 1]), acts[|acts| - 1]);
    }
  }

  ghost predicate Reachable(s: State) {
    exists present: seq<bool>, acts: seq<Action> :: s == Run(Initial(present), acts)
  }

  lemma ReachableInv(s: State)
    requires Reachable(s)
    ensures StateInv(s)
  {
    var present: seq<bool>, acts: seq<Action> :| s == Run(Initial(present), acts);
    RunInv(present, acts);
  }

  /** Reachable states are closed under every step, so the lemmas below speak about whole runs. */
  lemma ReachableStep(s: State, a: Action)
    requires Reachable(s)
    ensures Reachable(Step(s, a))
  {
    var present: seq<bool>, acts: seq<Action> :| s == Run(Initial(present), acts);
    assert (acts + [a])[..|acts|] == acts;
    assert Step(s, a) == Run(Initial(present), acts + [a]);
  }

  // ---- refinement ----

  /** The core a step is about: an AP's own, or the one core 0 is working on. */
  predicate Concerns(s: State, a: Action, t: nat) {
    match a
    case ApAction(core, _) => t == core
    case BootAction(_) => HasTarget(s.pc) && t == Target(s.pc)
  }

  /** No step touches a core it does not concern, and an AP never moves core 0 along. */
  lemma StepIsLocal(s: State, a: Action, t: nat)
    requires t < |s.cores| && !Concerns(s, a, t)
    ensures Step(s, a).cores[t] == s.cores[t]
    ensures a.ApAction? ==> Step(s, a).pc == s.pc && Step(s, a).answers == s.answers
  {
    if a.BootAction? && HasTarget(s.pc) && Target(s.pc) < |s.cores| {
      var u := Target(s.pc);
      assert s.cores[u := BootStep(s.cores[u], s.pc, a.boot).core][t] == s.cores[t];
    }
  }

  /** Whatever step is taken next in whatever run, the mailbox of each core makes one of the six
      moves or none; none, if the step does not concern the core. */
  lemma StepRefinesMailbox(s: State, a: Action, t: nat)
    requires Reachable(s) && t < |s.cores|
    ensures var k' := Step(s, a).cores;
            && |k'| == |s.cores| && HistoryInv(s.cores[t]) && HistoryInv(k'[t])
            && Follows(BoxOf(t == 0, s.cores[t]), BoxOf(t == 0, k'[t]))
            && (!Concerns(s, a, t) ==> k'[t] == s.cores[t])
  {
    hide PhaseInv, RestInv, StackInv, LockInv, ShapeInv, HistoryInv, BootInv, AnswerOk, BoxOf;
    ReachableInv(s);
    StepInv(s, a);
    if !Concerns(s, a, t) {
      StepIsLocal(s, a, t);
    }
    assert CoreInv(t == 0, s.cores[t], View(s.pc, t));
    if a.ApAction? && 0 < a.core < |s.cores| {
      ApStepInv(s, a.core, a.choice);
    } else if a.BootAction? && HasTarget(s.pc) {
      BootStepInv(s, a.boot);
    }
  }

  // ---- mutual exclusion and hand-off ----

  /** The lock of context t is set iff exactly one party owns the context. */
  predicate OwnedOnce(s: State, t: nat)
    requires t < |s.cores|
  {
    var byBoot, byAp := BootHolds(View(s.pc, t)), ApHolds(s.cores[t].ap.pc);
    (s.cores[t].ctx.lock <==> byBoot || byAp) && !(byBoot && byAp)
  }

  /** The lock is set iff exactly one party owns the context; core_main_loop is only ever entered
      by the owner, so its unlock never frees a lock that core 0 holds. */
  lemma MutualExclusion(s: State, t: nat)
    requires Reachable(s) && t < |s.cores|
    ensures OwnedOnce(s, t)
    ensures var pc := s.cores[t].ap.pc;
            InMain(pc) || pc.SaveRsp? || pc.RestoreRsp? ==> s.cores[t].ctx.lock && !BootHolds(View(s.pc, t))
  {
    ReachableInv(s);
    assert CoreInv(t == 0, s.cores[t], View(s.pc, t));
  }

  // ---- jobs ----

  /** No job is lost, duplicated, reordered or altered on the way. */
  lemma JobsConserved(s: State, t: nat)
    requires Reachable(s) && t < |s.cores|
    ensures var h := s.cores[t].hist; var queued := s.cores[t].ctx.jobQueued;
            && |h.submitted| == |h.accepted| + (if queued then 1 else 0)
            && |h.completed| <= |h.accepted| <= |h.completed| + 1
            && (queued ==> |h.accepted| == |h.completed|)
            && (forall i :: 0 <= i < |h.accepted| ==> Matches(h.accepted[i], h.submitted[i]))
            && (forall i :: 0 <= i < |h.completed| ==> h.completed[i].seen == h.accepted[i] && Truthful(h.completed[i]))
  {
    ReachableInv(s);
    assert CoreInv(t == 0, s.cores[t], View(s.pc, t));
  }

  /** Answer a speaks about a job that was accepted and has finished, exactly once, and its report is
      that job's own. For the two execute jobs bit 0x2 is set iff the job faulted; a register read is
      answered with the two words that the job left. */
  predicate DoneAndReported(h: History, a: Answer)
    requires IsReply(a)
  {
    && 0 <= a.index < |h.completed| <= |h.accepted| <= |h.submitted|
    && h.submitted[a.index] == a.job && (a.job.ReadMsr? <==> a.MsrReply?)
    && Matches(h.accepted[a.index], a.job)
    && h.completed[a.index].seen == h.accepted[a.index] && Truthful(h.completed[a.index])
    && ReportsOn(h.completed[a.index], a)
  }

  /** A reply that reports no timeout speaks about the very job it was sent for, and truly. */
  lemma RepliesAreSound(s: State, a: Answer)
    requires Reachable(s) && a in s.answers && IsReply(a) && !TimedOut(a)
    ensures a.core < |s.cores| && DoneAndReported(s.cores[a.core].hist, a)
  {
    ReachableInv(s);
    assert CoreInv(a.core == 0, s.cores[a.core], View(s.pc, a.core));
  }

  /** A started core with a free lock is ready. Hence the extra checks of the source never fire:
      core 0 never finds ready == 0 behind a lock it took (status 0x205), its completion test is
      the test of job_queued alone, and the AP never finds its job gone after locking. And whoever
      polls a core without the lock never sees it ready while a job function runs or hangs. */
  lemma ReadyBehindFreeLock(s: State, t: nat)
    requires Reachable(s) && t < |s.cores|
    ensures var k := s.cores[t]; var v := View(s.pc, t);
            && (k.ctx.started && !k.ctx.lock ==> k.ctx.ready)
            && (v.AcqReady? || v.WaitReady? || v.WaitQueued? ==> k.ctx.ready)
            && (k.ap.pc.Recheck? ==> k.ctx.jobQueued)
            && (InJob(k.ap.pc) || k.ap.pc.DeadLoop? ==> k.ctx.started && !k.ctx.ready && !k.ctx.jobQueued)
    ensures forall a :: a in s.answers && a.Rejected? ==> a.status != 0x205
  {
    hide Matches, Truthful, Called, RestInv, StackInv;
    ReachableInv(s);
    var k, v := s.cores[t], View(s.pc, t);
    assert CoreInv(t == 0, k, v);
    if (k.ctx.started && !k.ctx.lock) || v.WaitReady? || v.WaitQueued? {
      FreeMeansReady(t == 0, k, v);
    }
  }

  /** The mailbox of a core at the moment a job for it is refused. */
  predicate RefusedIn(phase: Phase, status: int) {
    && (status == 0x202 ==> phase.Stopped?)
    && (status == 0x203 ==> phase.Stopped? || phase.Starting?)
    && (status == 0x204 ==> phase.Starting? || phase.Queued? || phase.Running? || phase.Dead?)
    && (status == 0x206 ==> phase.Queued?)
  }

  /** What core 0 may conclude about the mailbox when acquire_core_lock_for_job refuses a job. */
  lemma RefusalsMean(s: State, ch: BootChoice)
    requires Reachable(s) && HasTarget(s.pc) && Target(s.pc) < |s.cores|
    ensures var t := Target(s.pc); var k := s.cores[t];
            && HistoryInv(k)
            && forall a :: a in BootStep(k, s.pc, ch).answers && a.Rejected? ==> RefusedIn(PhaseOf(t == 0, k), a.status)
  {
    hide BootStep, PhaseInv, RestInv, StackInv, LockInv, ShapeInv, HistoryInv, PhaseOf, SyncInv, AnswerOk, Matches;
    ReachableInv(s);
    var t := Target(s.pc);
    var k := s.cores[t];
    assert CoreInv(t == 0, k, View(s.pc, t));
    forall a | a in BootStep(k, s.pc, ch).answers && a.Rejected?
      ensures RefusedIn(PhaseOf(t == 0, k), a.status)
    {
      WhereRefused(k, s.pc, ch, a);
      if s.pc.AcqPresent? {
        AbsentMeansStopped(t == 0, k);
      } else if s.pc.AcqStarted? {
        NotStartedMeansNew(t == 0, k, s.pc);
      } else if s.pc.AcqTryLock? {
        LockedMeansOccupied(t == 0, k, s.pc);
      } else {
        FlaggedMeansQueued(t == 0, k, s.pc);
      }
    }
  }

  lemma WhereRefused(k: Core, pc: BootPc, ch: BootChoice, a: Answer)
    requires HasTarget(pc) && a in BootStep(k, pc, ch).answers && a.Rejected?
    ensures || (pc.AcqPresent? && a.status == 0x202 && !k.ctx.present)
            || (pc.AcqStarted? && a.status == 0x203 && !k.ctx.started)
            || (pc.AcqTryLock? && a.status == 0x204 && k.ctx.lock)
            || (pc.AcqUnlock? && a.status == pc.status)
  {
  }

  lemma AbsentMeansStopped(boot: bool, k: Core)
    requires HistoryInv(k) && ShapeInv(boot, k) && !k.ctx.present
    ensures PhaseOf(boot, k).Stopped?
  {
  }

  lemma FlaggedMeansQueued(boot: bool, k: Core, v: BootPc)
    requires HistoryInv(k) && PhaseInv(boot, k, v) && k.ctx.jobQueued
    ensures PhaseOf(boot, k).Queued?
  {
  }

  lemma NotStartedMeansNew(boot: bool, k: Core, v: BootPc)
    requires HistoryInv(k) && ShapeInv(boot, k) && PhaseInv(boot, k, v) && !k.ctx.started
    ensures PhaseOf(boot, k).Stopped? || PhaseOf(boot, k).Starting?
  {
  }

  lemma LockedMeansOccupied(boot: bool, k: Core, v: BootPc)
    requires HistoryInv(k) && ShapeInv(boot, k) && LockInv(k, v) && PhaseInv(boot, k, v) && k.ctx.lock && !BootHolds(v)
    ensures !PhaseOf(boot, k).Stopped? && !PhaseOf(boot, k).Ready?
  {
  }

  // ---- fault records ----

  /** A record is entirely zero when a job's functions begin; from the end of a job to the
      acceptance of the next it is exactly what that job left, whatever core 0 does meanwhile.
      So in that time bit 0x2 tells whether the job that finished last faulted. */
  lemma FaultRecordLifetime(s: State, t: nat)
    requires Reachable(s) && t < |s.cores|
    ensures var k := s.cores[t]; var h := k.hist;
            && (k.ap.pc == NextCall(0) ==> k.ctx.fault == CleanRecord())
            && (!Busy(h) && h.completed != [] ==> k.ctx.fault == Last(h.completed).fault)
            && (!Busy(h) ==> k.ctx.fault.occurred == (h.completed != [] && Last(h.completed).faulted))
            && (!Busy(h) && !k.ctx.fault.occurred ==> k.ctx.fault == CleanRecord())
  {
    ReachableInv(s);
    assert CoreInv(t == 0, s.cores[t], View(s.pc, t));
    if !Busy(s.cores[t].hist) {
      RecordAtRest(t == 0, s.cores[t], View(s.pc, t));
    }
  }

  lemma RecordAtRest(boot: bool, k: Core, v: BootPc)
    requires HistoryInv(k) && RestInv(k, v) && !Busy(k.hist)
    ensures k.hist.completed != [] ==> k.ctx.fault == Last(k.hist.completed).fault
    ensures k.ctx.fault.occurred == (k.hist.completed != [] && Last(k.hist.completed).faulted)
    ensures !k.ctx.fault.occurred ==> k.ctx.fault == CleanRecord()
  {
  }

  // ---- the stack ----

  /** However many faults were recovered, core_main_loop always runs on the RSP of the first entry. */
  lemma BoundedStack(s: State, t: nat)
    requires Reachable(s) && t < |s.cores|
    ensures var k := s.cores[t]; var e := k.hist.entries;
            && (forall i :: 0 <= i < |e| ==> e[i] == e[0])
            && (InMain(k.ap.pc) ==> e != [] && k.ap.rsp == e[0])
  {
    ReachableInv(s);
    assert CoreInv(t == 0, s.cores[t], View(s.pc, t));
  }
}
