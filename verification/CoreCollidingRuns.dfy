/** Runs with split releases in which a release collides, and what becomes of them: mutual exclusion is
    lost, status 0x205 is sent, a job is reported as done before it has begun, a job is dropped. Two cores
    are enough, and a second job for the last. */
module CoreCollidingRuns {
  import opened CoreContexts
  import opened CoreSteps
  import opened CoreTheorems
  import opened CoreRelease

  /** A step of core 0 on core 1's context; it owes nothing. */
  lemma BootThen(x: Machine, ch: BootChoice) returns (x': Machine)
    requires MachineReachable(x) && |x.s.cores| == 2
    requires HasTarget(x.s.pc) && Target(x.s.pc) == 1 && x.boot.Nothing?
    ensures MachineReachable(x') && |x'.s.cores| == 2 && x'.aps == x.aps
    ensures x'.boot == if BootUnlocks(x.s.pc) then Owed(1) else Nothing
    ensures var b := BootStep(x.s.cores[1], x.s.pc, ch);
            x'.s.cores[1] == b.core && x'.s.pc == b.pc && x'.s.answers == x.s.answers + b.answers
  {
    x' := Then(x, BootAction(ch));
  }

  /** A step of core 1, which owes nothing. */
  lemma ApThen(x: Machine, ch: ApChoice) returns (x': Machine)
    requires MachineReachable(x) && |x.s.cores| == 2 && 1 !in x.aps
    ensures MachineReachable(x') && |x'.s.cores| == 2 && x'.boot == x.boot
    ensures x'.aps == if ApUnlocks(x.s.cores[1].ap.pc) then x.aps + {1} else x.aps
    ensures x'.s.cores[1] == ApStep(x.s.cores[1], ch) && x'.s.pc == x.s.pc && x'.s.answers == x.s.answers
  {
    x' := Then(x, ApAction(1, ch));
  }

  /** The second half of a release of core 0. */
  lemma HalfThen(x: Machine) returns (x': Machine)
    requires MachineReachable(x) && |x.s.cores| == 2 && x.boot == Owed(1)
    ensures MachineReachable(x') && |x'.s.cores| == 2 && x'.boot == Nothing && x'.aps == x.aps
    ensures x'.s.cores[1] == x.s.cores[1].(ctx := x.s.cores[1].ctx.(lock := false))
    ensures x'.s.pc == x.s.pc && x'.s.answers == x.s.answers
  {
    x' := Then(x, BootAction(Proceed));
  }

  /** What can be seen of core 1: its place and its flags, whether its record is marked, and how many jobs
      it has accepted. */
  datatype Side = Side(ap: ApPc, started: bool, ready: bool, queued: bool, lock: bool, marked: bool, accepted: nat)

  /** Core 1's functions are those of a job: from the last store of a job to their being called. */
  predicate CallsReady(pc: BootPc, o: Side) { pc == Writing(Q, 3) || pc == Queue(Q) || NeedsCalls(o) }

  predicate NeedsCalls(o: Side) { o.queued || o.ap.CheckFault? || o.ap.NextCall? }

  /** Two cores; core 0 is at pc and core 1 looks like o, and has not finished any job. */
  predicate Is(x: Machine, pc: BootPc, boot: Half, o: Side) {
    && |x.s.cores| == 2 && x.s.pc == pc && x.boot == boot && x.aps == {}
    && var k := x.s.cores[1];
    && k.ctx.present
    && o == Side(k.ap.pc, k.ctx.started, k.ctx.ready, k.ctx.jobQueued, k.ctx.lock, k.ctx.fault.occurred,
                 |k.hist.accepted|)
    && k.hist.completed == []
    && |k.ctx.functions| == CORE_FUNCTION_SLOTS && (CallsReady(pc, o) ==> k.ctx.functions[0].Call?)
  }

  const Q := Request(1, ReadMsr(0x1B), 1)

  /** Core 0 starts core 1. */
  lemma Launching() returns (x: Machine)
    ensures MachineReachable(x) && Is(x, Idle, Nothing, Side(SaveRsp, false, false, false, true, false, 0))
  {
    hide ApStep, DoStore, Stores;
    x := Started([true, true]);
    assert x == MachineRun(Started([true, true]), []);
    x := Then(x, BootAction(Start(1)));
    assert Is(x, StartPresent(1), Nothing, Side(Off, false, false, false, false, false, 0));
    x := Launched(x);
  }

  lemma Launched(x0: Machine) returns (x: Machine)
    requires MachineReachable(x0) && Is(x0, StartPresent(1), Nothing, Side(Off, false, false, false, false, false, 0))
    ensures MachineReachable(x) && Is(x, Idle, Nothing, Side(SaveRsp, false, false, false, true, false, 0))
  {
    hide MachineStep, MachineReachable, ApStep, DoStore, Stores;
    x := BootThen(x0, Proceed);
    x := BootThen(x, Proceed);
    x := BootThen(x, Proceed);
    x := BootThen(x, Proceed);
    x := BootThen(x, Launch(true, 0));
  }

  /** Core 1 comes up. */
  lemma Booting(x0: Machine) returns (x: Machine)
    requires MachineReachable(x0) && Is(x0, Idle, Nothing, Side(SaveRsp, false, false, false, true, false, 0))
    ensures MachineReachable(x) && Is(x, Idle, Nothing, Side(MainQueued, true, true, false, true, false, 0))
  {
    hide MachineStep, MachineReachable, BootStep, Finish;
    x := ApThen(x0, Go);
    x := ApThen(x, Go);
    x := ApThen(x, Go);
  }

  lemma Booted(x0: Machine) returns (x: Machine)
    requires MachineReachable(x0) && Is(x0, Idle, Nothing, Side(MainQueued, true, true, false, true, false, 0))
    ensures MachineReachable(x) && Is(x, Idle, Nothing, Side(SpinLock, true, true, false, false, false, 0))
  {
    hide BootStep;
    x := ApThen(x0, Go);
    x := ApThen(x, Go);
    x := Then(x, ApAction(1, Go));
  }

  /** A request for core 1 arrives while core 0 has nothing to do. */
  lemma Asked(x: Machine, o: Side) returns (x': Machine)
    requires MachineReachable(x) && Is(x, Idle, Nothing, o)
    ensures MachineReachable(x') && Is(x', AcqPresent(Q), Nothing, o)
  {
    hide ApStep, BootStep;
    x' := Then(x, BootAction(Submit(Q)));
  }

  lemma Locked(x0: Machine, o: Side) returns (x: Machine)
    requires MachineReachable(x0) && Is(x0, AcqPresent(Q), Nothing, o) && o.started && !o.lock
    ensures MachineReachable(x) && Is(x, AcqReady(Q), Nothing, o.(lock := true))
  {
    hide MachineStep, MachineReachable, ApStep, DoStore, Stores;
    x := BootThen(x0, Proceed);
    x := BootThen(x, Proceed);
    x := BootThen(x, Proceed);
  }

  /** Core 0 takes the lock for a job, and finds the core ready for it. */
  lemma JobAsked(x0: Machine, o: Side) returns (x: Machine)
    requires MachineReachable(x0) && Is(x0, Idle, Nothing, o) && o.started && o.ready && !o.queued && !o.lock
    ensures MachineReachable(x) && Is(x, Writing(Q, 0), Nothing, o.(lock := true))
  {
    hide MachineStep, MachineReachable, ApStep, DoStore, Stores;
    x := Asked(x0, o);
    x := Locked(x, o);
    x := BootThen(x, Proceed);
    x := BootThen(x, Proceed);
  }

  /** It writes and flags the job. */
  lemma JobStored(x0: Machine, o: Side) returns (x: Machine)
    requires MachineReachable(x0) && Is(x0, Writing(Q, 0), Nothing, o) && !NeedsCalls(o)
    ensures MachineReachable(x) && Is(x, UnlockJob(Q), Nothing, o.(queued := true))
  {
    hide MachineStep, MachineReachable, ApStep, BootStep, DoStore, Stores, Is;
    x := OneStore(x0, 0, o);
    x := OneStore(x, 1, o);
    x := OneStore(x, 2, o);
    x := Written(x, o);
    x := Flagged(x, o);
  }

  lemma OneStore(x0: Machine, n: nat, o: Side) returns (x: Machine)
    requires MachineReachable(x0) && Is(x0, Writing(Q, n), Nothing, o) && n < 3 && !NeedsCalls(o)
    ensures MachineReachable(x) && Is(x, Writing(Q, n + 1), Nothing, o)
  {
    hide MachineStep, MachineReachable, ApStep;
    x := BootThen(x0, Proceed);
  }

  lemma Written(x0: Machine, o: Side) returns (x: Machine)
    requires MachineReachable(x0) && Is(x0, Writing(Q, 3), Nothing, o)
    ensures MachineReachable(x) && Is(x, Queue(Q), Nothing, o)
  {
    hide MachineStep, MachineReachable, ApStep, DoStore;
    x := BootThen(x0, Proceed);
  }

  lemma Flagged(x0: Machine, o: Side) returns (x: Machine)
    requires MachineReachable(x0) && Is(x0, Queue(Q), Nothing, o)
    ensures MachineReachable(x) && Is(x, UnlockJob(Q), Nothing, o.(queued := true))
  {
    hide MachineStep, MachineReachable, ApStep, DoStore, Stores;
    x := BootThen(x0, Proceed);
  }

  /** The store that opens the release of the job. */
  lemma HalfReleased(x0: Machine) returns (x: Machine)
    requires MachineReachable(x0) && Is(x0, UnlockJob(Q), Nothing, Side(SpinLock, true, true, true, true, false, 0))
    ensures MachineReachable(x) && Is(x, WaitLock(Q, 0), Owed(1), Side(SpinLock, true, true, true, false, false, 0))
  {
    hide MachineStep, MachineReachable, ApStep, DoStore, Stores;
    x := BootThen(x0, Proceed);
  }

  lemma Grabbed(x0: Machine) returns (x: Machine)
    requires MachineReachable(x0) && Is(x0, WaitLock(Q, 0), Owed(1), Side(SpinLock, true, true, true, false, false, 0))
    ensures MachineReachable(x) && Is(x, WaitLock(Q, 0), Owed(1), Side(Recheck, true, true, true, true, false, 0))
  {
    hide MachineStep, MachineReachable, BootStep, Finish;
    x := ApThen(x0, Go);
    x := ApThen(x, Go);
    x := ApThen(x, Go);
  }

  /** Before core 0 comes to the other half, core 1 sees the job and takes the lock. */
  lemma Taken() returns (x: Machine)
    ensures MachineReachable(x) && Is(x, WaitLock(Q, 0), Owed(1), Side(Recheck, true, true, true, true, false, 0))
  {
    hide MachineStep, MachineReachable, BootStep, Finish;
    x := Launching();
    x := Booting(x);
    x := Booted(x);
    x := JobAsked(x, Side(SpinLock, true, true, false, false, false, 0));
    x := JobStored(x, Side(SpinLock, true, true, false, true, false, 0));
    x := HalfReleased(x);
    x := Grabbed(x);
  }

  // ---- a lock without an owner, an owner without a lock ----

  /** There is such a run, with two cores and one job: mutual exclusion is lost. */
  lemma ReleaseCollides()
    ensures exists x: Machine, a: Action :: MachineReachable(x) && Collides(x, a) && !Exclusive(MachineStep(x, a).s)
  {
    var x := Taken();
    var a := BootAction(Proceed);
    assert Collides(x, a) && !OwnedOnce(MachineStep(x, a).s, 1);
  }

  // ---- status 0x205 ----

  /** Core 0 frees the lock under the job's feet. */
  lemma Freed(x0: Machine) returns (x: Machine)
    requires MachineReachable(x0) && Is(x0, WaitLock(Q, 0), Owed(1), Side(Recheck, true, true, true, true, false, 0))
    ensures MachineReachable(x) && Is(x, WaitLock(Q, 0), Nothing, Side(ClearQueued, true, false, true, false, false, 0))
  {
    hide MachineStep, MachineReachable, BootStep, Finish;
    x := HalfThen(x0);
    x := ApThen(x, Go);
    x := ApThen(x, Go);
  }

  /** Its wait finds a core that is not ready. */
  lemma NotReadyYet(x0: Machine) returns (x: Machine)
    requires MachineReachable(x0) && Is(x0, WaitLock(Q, 0), Owed(1), Side(Recheck, true, true, true, true, false, 0))
    ensures MachineReachable(x) && Is(x, WaitReady(Q, 0), Nothing, Side(ClearQueued, true, false, true, true, false, 0))
  {
    hide MachineStep, MachineReachable, ApStep, DoStore, Stores;
    x := Freed(x0);
    x := BootThen(x, Proceed);
    x := BootThen(x, Proceed);
  }

  lemma GivingUp(x0: Machine) returns (x: Machine)
    requires MachineReachable(x0)
    requires Is(x0, WaitReady(Q, 0), Nothing, Side(ClearQueued, true, false, true, true, false, 0))
    ensures MachineReachable(x)
    ensures Is(x, ReplyFlags(Q, true), Nothing, Side(ClearQueued, true, false, true, false, false, 0))
  {
    hide MachineStep, MachineReachable, ApStep, DoStore, Stores;
    x := BootThen(x0, Proceed);
    assert Is(x, WaitUnlock(Q, 0, false), Nothing, Side(ClearQueued, true, false, true, true, false, 0));
    x := LettingGo(x);
  }

  lemma LettingGo(x0: Machine) returns (x: Machine)
    requires MachineReachable(x0)
    requires Is(x0, WaitUnlock(Q, 0, false), Nothing, Side(ClearQueued, true, false, true, true, false, 0))
    ensures MachineReachable(x)
    ensures Is(x, ReplyFlags(Q, true), Nothing, Side(ClearQueued, true, false, true, false, false, 0))
  {
    hide MachineStep, MachineReachable, ApStep, DoStore, Stores, DoStores;
    x := BootThen(x0, Proceed);
    x := HalfThen(x);
    x := BootThen(x, Proceed);
  }

  lemma AskingAgain(x0: Machine) returns (x: Machine)
    requires MachineReachable(x0)
    requires Is(x0, ReplyFlags(Q, true), Nothing, Side(ClearQueued, true, false, true, false, false, 0))
    ensures MachineReachable(x) && Is(x, AcqReady(Q), Nothing, Side(ClearQueued, true, false, true, true, false, 0))
  {
    hide MachineStep, MachineReachable, ApStep, DoStore, Stores;
    x := BootThen(x0, Proceed);
    x := Asked(x, Side(ClearQueued, true, false, true, false, false, 0));
    x := Locked(x, Side(ClearQueued, true, false, true, false, false, 0));
  }

  /** In its continuation core 0 gives up waiting, and its next request takes the lock of a core that is
      not ready: status 0x205 is sent. */
  lemma NotReadySent()
    ensures exists x: Machine :: MachineReachable(x) && Rejected(1, 0x205) in x.s.answers
  {
    hide MachineStep, MachineReachable, ApStep, DoStore, Stores;
    var x := Taken();
    x := NotReadyYet(x);
    x := GivingUp(x);
    x := AskingAgain(x);
    x := BootThen(x, Proceed);
    x := BootThen(x, Proceed);
    assert x.s.answers[|x.s.answers| - 1] == Rejected(1, 0x205);
  }

  // ---- a reply to a job that is not done ----

  /** Core 0 frees the lock, takes it for its wait, and finds the core ready. */
  lemma StillReady(x0: Machine) returns (x: Machine)
    requires MachineReachable(x0) && Is(x0, WaitLock(Q, 0), Owed(1), Side(Recheck, true, true, true, true, false, 0))
    ensures MachineReachable(x) && Is(x, WaitQueued(Q, 0), Nothing, Side(Recheck, true, true, true, true, false, 0))
  {
    hide MachineStep, MachineReachable, ApStep, DoStore, Stores;
    x := HalfThen(x0);
    x := BootThen(x, Proceed);
    x := BootThen(x, Proceed);
    x := BootThen(x, Proceed);
  }

  /** Core 1 has accepted the job but called none of its functions; core 0 is at pc. */
  predicate Unstarted(x: Machine, pc: BootPc, boot: Half) {
    && |x.s.cores| == 2 && x.s.pc == pc && x.boot == boot
    && var k := x.s.cores[1];
    && k.ap.pc == CheckFault && !k.ctx.jobQueued && k.hist.calls == [] && k.hist.completed == []
  }

  /** Before core 0 looks at job_queued, core 1 accepts the job. */
  lemma Accepted(x0: Machine) returns (x: Machine)
    requires MachineReachable(x0) && Is(x0, WaitQueued(Q, 0), Nothing, Side(Recheck, true, true, true, true, false, 0))
    ensures MachineReachable(x) && Unstarted(x, WaitQueued(Q, 0), Nothing)
  {
    hide MachineStep, MachineReachable, BootStep, Finish;
    x := ApThen(x0, Go);
    x := ApThen(x, Go);
    x := ApThen(x, Go);
  }

  lemma SeemsDone(x0: Machine) returns (x: Machine)
    requires MachineReachable(x0) && Unstarted(x0, WaitQueued(Q, 0), Nothing)
    ensures MachineReachable(x) && Unstarted(x, ReplyFlags(Q, false), Nothing)
  {
    hide MachineStep, MachineReachable, ApStep, DoStore, Stores;
    x := BootThen(x0, Proceed);
    x := BootThen(x, Proceed);
    x := HalfThen(x);
  }

  /** The wait reports completion, and the reply is sent, although no function of the job has been
      called. */
  lemma RepliesTooEarly()
    ensures exists x: Machine, a: Answer ::
              && MachineReachable(x) && |x.s.cores| == 2 && a in x.s.answers
              && IsReply(a) && !TimedOut(a) && a.core == 1
              && x.s.cores[1].ap.pc == CheckFault && x.s.cores[1].hist.calls == [] && x.s.cores[1].hist.completed == []
  {
    hide MachineStep, MachineReachable, ApStep, DoStore, Stores;
    var x := Taken();
    x := StillReady(x);
    x := Accepted(x);
    x := SeemsDone(x);
    x := BootThen(x, Proceed);
    x := BootThen(x, Proceed);
    var a := x.s.answers[|x.s.answers| - 1];
    assert a.MsrReply? && a.core == 1 && a in x.s.answers;
  }

  // ---- a job that is dropped ----

  /** After core 0 has given up waiting, the job begins, */
  lemma Begun(x0: Machine) returns (x: Machine)
    requires MachineReachable(x0)
    requires Is(x0, ReplyFlags(Q, true), Nothing, Side(ClearQueued, true, false, true, false, false, 0))
    ensures MachineReachable(x)
    ensures Is(x, ReplyFlags(Q, true), Nothing, Side(InCall(0), true, false, false, false, false, 1))
  {
    hide MachineStep, MachineReachable, BootStep, Finish;
    x := ApThen(x0, Go);
    x := ApThen(x, Go);
    x := ApThen(x, Go);
  }

  /** faults, */
  lemma Faulted(x0: Machine) returns (x: Machine)
    requires MachineReachable(x0)
    requires Is(x0, ReplyFlags(Q, true), Nothing, Side(InCall(0), true, false, false, false, false, 1))
    ensures MachineReachable(x)
    ensures Is(x, ReplyFlags(Q, true), Nothing, Side(RestoreRsp, true, false, false, false, true, 1))
  {
    hide MachineStep, MachineReachable, BootStep, Finish;
    x := ApThen(x0, Raise(Recovers));
    x := ApThen(x, Go);
    x := ApThen(x, Go);
  }

  /** and recovers until the core looks ready, in a context that is not locked. */
  lemma Recovered(x0: Machine) returns (x: Machine)
    requires MachineReachable(x0)
    requires Is(x0, ReplyFlags(Q, true), Nothing, Side(RestoreRsp, true, false, false, false, true, 1))
    ensures MachineReachable(x)
    ensures Is(x, ReplyFlags(Q, true), Nothing, Side(MainQueued, true, true, false, false, true, 1))
  {
    hide MachineStep, MachineReachable, BootStep, Finish;
    x := ApThen(x0, Go);
    x := ApThen(x, Go);
    x := ApThen(x, Go);
  }

  /** Core 0 reports the timeout, and flags a second job. */
  lemma FlaggedAgain(x0: Machine) returns (x: Machine)
    requires MachineReachable(x0)
    requires Is(x0, ReplyFlags(Q, true), Nothing, Side(MainQueued, true, true, false, false, true, 1))
    ensures MachineReachable(x) && Is(x, UnlockJob(Q), Nothing, Side(MainQueued, true, true, true, true, true, 1))
  {
    hide MachineStep, MachineReachable, ApStep, DoStore, Stores;
    x := BootThen(x0, Proceed);
    x := JobAsked(x, Side(MainQueued, true, true, false, false, true, 1));
    x := JobStored(x, Side(MainQueued, true, true, false, true, true, 1));
  }

  /** The next store of core_main_loop clears its flag: a job that was submitted is never accepted. */
  lemma JobDropped()
    ensures exists x: Machine, a: Action ::
              && MachineReachable(x) && |x.s.cores| == |MachineStep(x, a).s.cores| == 2
              && var k, k' := x.s.cores[1], MachineStep(x, a).s.cores[1];
              && k.ctx.jobQueued && !k'.ctx.jobQueued && k'.hist.accepted == k.hist.accepted
              && 1 in MachineStep(x, a).lost
  {
    var x := Dropping();
    var a := ApAction(1, Go);
    assert MachineStep(x, a).s.cores[1] == ApStep(x.s.cores[1], Go);
  }

  lemma Dropping() returns (x: Machine)
    ensures MachineReachable(x) && Is(x, UnlockJob(Q), Nothing, Side(MainQueued, true, true, true, true, true, 1))
  {
    hide MachineStep, MachineReachable, ApStep, BootStep, Is;
    x := Taken();
    x := NotReadyYet(x);
    x := GivingUp(x);
    x := Begun(x);
    x := Faulted(x);
    x := Recovered(x);
    x := FlaggedAgain(x);
  }
}
