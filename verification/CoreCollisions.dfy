/** What split releases do to runs in which they collide. Two invariants survive every collision: what
    the ready flag says, and how many jobs of a core are done. They give the exact conditions under which
    core 0 answers 0x205, and under which its wait reports a job that is not done; runs in which both
    happen are exhibited. */
module CoreCollisions {
  import opened CoreContexts
  import opened CoreSteps
  import opened CoreInvariant
  import opened CoreBounds
  import opened CoreRelease

  // ---- what no collision destroys ----

  /** An AP is coming up, or inside a job: from clearing ready to setting it. */
  predicate NotReadyAt(pc: ApPc) {
    || pc.Off? || pc.SaveRsp? || pc.MainStarted? || pc.MainReady?
    || pc.ClearQueued? || InJob(pc) || pc.RestoreRsp? || pc.SetReady? || pc.DeadLoop?
  }

  /** An AP has accepted a job and not yet given the context back. */
  predicate HasJob(pc: ApPc) {
    InJob(pc) || pc.RestoreRsp? || pc.SetReady? || pc.DeadLoop? || (pc.Unlock? && pc.ran)
  }

  /** It has not; in core_main_loop itself that depends on how it got there. */
  predicate HasNoJob(pc: ApPc) { !HasJob(pc) && !InMain(pc) }

  /** It has one, on its way through core_main_loop only if it is there for a recovery: that is, if it
      has ever accepted one. */
  predicate InsideJob(k: Core) { HasJob(k.ap.pc) || (InMain(k.ap.pc) && k.hist.accepted != []) }

  /** The context of an AP, whoever has meanwhile taken or freed its lock. */
  predicate Steady(k: Core, lost: bool) {
    var h := k.hist;
    && (k.ctx.ready <==> !NotReadyAt(k.ap.pc))
    && |h.completed| <= |h.accepted| <= |h.completed| + 1
    && (HasJob(k.ap.pc) ==> Busy(h)) && (HasNoJob(k.ap.pc) ==> !Busy(h))
    && (InMain(k.ap.pc) ==> (Busy(h) <==> h.accepted != []))
    && (k.ap.pc.Off? || k.ap.pc.SaveRsp? ==> h.accepted == [])
    && (k.ap.pc.ClearReady? || k.ap.pc.ClearQueued? ==> k.ctx.jobQueued)
    && var known := |h.accepted| + if k.ctx.jobQueued then 1 else 0;
    if lost then |h.submitted| > known else |h.submitted| == known
  }

  /** Core 0 writes a job only where none is flagged, and executes jobs only on its own context. */
  predicate BootSteady(k: Core, v: BootPc) { v.Writing? || v.Queue? ==> !k.ctx.jobQueued }

  predicate Executing(pc: BootPc) { pc.SyncClear? || pc.SyncNext? || pc.SyncIn? || pc.SyncSet? }

  /** Between the two halves of a release core 0 has gone on to one of these places. */
  predicate OwingAt(pc: BootPc) { pc.Idle? || pc.WaitLock? || pc.WaitTick? || pc.ReplyFlags? || pc.ReplyRead? }

  /** Core 0 waits for other cores only, and executes jobs on its own context only. */
  predicate RightTarget(pc: BootPc) {
    && (InSync(pc) ==> Target(pc) == 0)
    && (pc.UnlockJob? || InWait(pc) ==> Target(pc) > 0)
  }

  predicate MachineInv(x: Machine) {
    && RightTarget(x.s.pc)
    && (x.boot.Owed? ==> x.boot.t < |x.s.cores| && OwingAt(x.s.pc))
    && (|x.s.cores| > 0 ==> (x.s.cores[0].ctx.ready <==> !Executing(x.s.pc)))
    && forall t :: 0 < t < |x.s.cores| ==>
         Steady(x.s.cores[t], t in x.lost) && BootSteady(x.s.cores[t], View(x.s.pc, t))
  }

  lemma ApSteady(k: Core, lost: bool, ch: ApChoice)
    requires Steady(k, lost)
    ensures Steady(ApStep(k, ch), lost || Loses(k))
    ensures ApStep(k, ch).ctx.jobQueued ==> k.ctx.jobQueued
  {
    hide ApStep, Steady, Loses;
    if InJob(k.ap.pc) {
      ApJobSteady(k, lost, ch);
    } else if InMain(k.ap.pc) {
      ApMainSteady(k, lost, ch);
    } else if k.ap.pc.SaveRsp? || k.ap.pc.RestoreRsp? {
      ApEntrySteady(k, lost, ch);
    } else {
      ApLoopSteady(k, lost, ch);
    }
  }

  lemma ApJobSteady(k: Core, lost: bool, ch: ApChoice)
    requires Steady(k, lost) && InJob(k.ap.pc)
    ensures Steady(ApStep(k, ch), lost || Loses(k))
    ensures ApStep(k, ch).ctx.jobQueued ==> k.ctx.jobQueued
  {
    hide CleanRecord, Called, Matches, Truthful;
  }

  lemma ApMainSteady(k: Core, lost: bool, ch: ApChoice)
    requires Steady(k, lost) && InMain(k.ap.pc)
    ensures Steady(ApStep(k, ch), lost || Loses(k))
    ensures ApStep(k, ch).ctx.jobQueued ==> k.ctx.jobQueued
  {
    hide CleanRecord, Called, Matches, Truthful;
  }

  lemma ApEntrySteady(k: Core, lost: bool, ch: ApChoice)
    requires Steady(k, lost) && (k.ap.pc.SaveRsp? || k.ap.pc.RestoreRsp?)
    ensures Steady(ApStep(k, ch), lost || Loses(k))
    ensures ApStep(k, ch).ctx.jobQueued ==> k.ctx.jobQueued
  {
    hide CleanRecord, Called, Matches, Truthful;
  }

  lemma ApLoopSteady(k: Core, lost: bool, ch: ApChoice)
    requires Steady(k, lost) && !InJob(k.ap.pc) && !InMain(k.ap.pc) && !k.ap.pc.SaveRsp? && !k.ap.pc.RestoreRsp?
    ensures Steady(ApStep(k, ch), lost || Loses(k))
    ensures ApStep(k, ch).ctx.jobQueued ==> k.ctx.jobQueued
  {
    hide CleanRecord, Called, Matches, Truthful;
  }

  lemma StoreFlags(w: Store, c: Context)
    ensures var c' := DoStore(w, c); c'.ready == c.ready && c'.jobQueued == c.jobQueued
  {
  }

  /** A request to start a core. */
  predicate Starts(pc: BootPc) {
    pc.StartPresent? || pc.StartStarted? || pc.StartTryLock? || pc.StartInit? || pc.StartLaunch? || pc.StartUnlock?
  }

  /** A request for a job, before the job is written. */
  predicate Asks(pc: BootPc) {
    pc.AcqPresent? || pc.AcqStarted? || pc.AcqTryLock? || pc.AcqReady? || pc.AcqQueued? || pc.AcqUnlock?
  }

  /** What a step of core 0 outside the synchronous execution of a job leaves of the flags. */
  lemma FlagsLeft(k: Core, pc: BootPc, ch: BootChoice)
    requires HasTarget(pc) && !InSync(pc) && RightTarget(pc)
    ensures var b := BootStep(k, pc, ch);
            && b.core.ctx.ready == k.ctx.ready && (HasTarget(b.pc) ==> Target(b.pc) == Target(pc))
            && RightTarget(b.pc) && !Executing(b.pc)
            && (BootUnlocks(pc) ==> OwingAt(b.pc))
  {
    hide BootStep;
    if Starts(pc) {
      StartingFlags(k, pc, ch);
    } else if Asks(pc) {
      AskingFlags(k, pc, ch);
    } else {
      OtherFlags(k, pc, ch);
    }
  }

  lemma StartingFlags(k: Core, pc: BootPc, ch: BootChoice)
    requires Starts(pc)
    ensures var b := BootStep(k, pc, ch);
            && b.core.ctx.ready == k.ctx.ready && (HasTarget(b.pc) ==> Target(b.pc) == Target(pc))
            && !InSync(b.pc) && !b.pc.UnlockJob? && !InWait(b.pc) && (BootUnlocks(pc) ==> OwingAt(b.pc))
  {
    hide DoStore, Stores, CleanRecord, Finish, SeenIn;
  }

  lemma AskingFlags(k: Core, pc: BootPc, ch: BootChoice)
    requires Asks(pc)
    ensures var b := BootStep(k, pc, ch);
            && b.core.ctx.ready == k.ctx.ready && (HasTarget(b.pc) ==> Target(b.pc) == Target(pc))
            && !InSync(b.pc) && !b.pc.UnlockJob? && !InWait(b.pc) && (BootUnlocks(pc) ==> OwingAt(b.pc))
  {
    hide DoStore, Stores, CleanRecord, Finish, SeenIn;
  }

  lemma OtherFlags(k: Core, pc: BootPc, ch: BootChoice)
    requires HasTarget(pc) && !InSync(pc) && !Starts(pc) && !Asks(pc) && RightTarget(pc)
    ensures var b := BootStep(k, pc, ch);
            && b.core.ctx.ready == k.ctx.ready && (HasTarget(b.pc) ==> Target(b.pc) == Target(pc))
            && RightTarget(b.pc) && !Executing(b.pc) && (BootUnlocks(pc) ==> OwingAt(b.pc))
  {
    hide DoStore, Stores, CleanRecord, Finish, SeenIn;
    if pc.Writing? && pc.k < |Stores(pc.q.job)| {
      StoreFlags(Stores(pc.q.job)[pc.k], k.ctx);
    }
  }

  /** And of what is flagged, submitted and launched: that changes in two places only. */
  lemma QueueLeft(k: Core, pc: BootPc, ch: BootChoice)
    requires HasTarget(pc) && !InSync(pc) && !pc.StartLaunch? && !pc.Queue?
    ensures var b := BootStep(k, pc, ch);
            b.core.hist == k.hist && b.core.ap == k.ap && b.core.ctx.jobQueued == k.ctx.jobQueued
    ensures BootStep(k, pc, ch).pc.Writing? || BootStep(k, pc, ch).pc.Queue? ==>
              pc.Writing? || (pc.AcqQueued? && !k.ctx.jobQueued)
  {
    hide DoStore, Stores, CleanRecord, Finish, SeenIn;
    if pc.Writing? && pc.k < |Stores(pc.q.job)| {
      StoreFlags(Stores(pc.q.job)[pc.k], k.ctx);
    }
  }

  lemma BootStepSteady(k: Core, lost: bool, pc: BootPc, ch: BootChoice)
    requires HasTarget(pc) && Target(pc) > 0 && RightTarget(pc)
    requires Steady(k, lost) && BootSteady(k, pc)
    ensures var b := BootStep(k, pc, ch);
            && Steady(b.core, lost) && BootSteady(b.core, b.pc)
            && (HasTarget(b.pc) ==> Target(b.pc) == Target(pc)) && RightTarget(b.pc)
            && !Executing(b.pc) && (BootUnlocks(pc) ==> OwingAt(b.pc))
  {
    hide BootStep, NotReadyAt, HasJob, HasNoJob;
    FlagsLeft(k, pc, ch);
    if pc.StartLaunch? || pc.Queue? {
      FlaggingSteady(k, lost, pc, ch);
    } else {
      QueueLeft(k, pc, ch);
    }
  }

  lemma FlaggingSteady(k: Core, lost: bool, pc: BootPc, ch: BootChoice)
    requires (pc.StartLaunch? || pc.Queue?) && Steady(k, lost) && BootSteady(k, pc)
    ensures var b := BootStep(k, pc, ch); Steady(b.core, lost) && BootSteady(b.core, b.pc)
  {
    hide DoStore, Stores, CleanRecord, Finish, SeenIn;
  }

  lemma OwnContext(k: Core, pc: BootPc, ch: BootChoice)
    requires HasTarget(pc) && Target(pc) == 0 && RightTarget(pc) && (k.ctx.ready <==> !Executing(pc))
    ensures var b := BootStep(k, pc, ch);
            && (b.core.ctx.ready <==> !Executing(b.pc)) && (HasTarget(b.pc) ==> Target(b.pc) == 0)
            && RightTarget(b.pc) && (BootUnlocks(pc) ==> OwingAt(b.pc))
  {
    hide BootStep;
    if pc.SyncNext? {
      OwnCalls(k, pc, ch);
    } else if InSync(pc) {
      OwnFlags(k, pc, ch);
    } else {
      FlagsLeft(k, pc, ch);
    }
  }

  lemma OwnFlags(k: Core, pc: BootPc, ch: BootChoice)
    requires InSync(pc) && !pc.SyncNext? && Target(pc) == 0 && (k.ctx.ready <==> !Executing(pc))
    ensures var b := BootStep(k, pc, ch);
            && (b.core.ctx.ready <==> !Executing(b.pc)) && (HasTarget(b.pc) ==> Target(b.pc) == 0)
            && RightTarget(b.pc) && (BootUnlocks(pc) ==> OwingAt(b.pc))
  {
    hide DoStore, Stores, CleanRecord, Finish, SeenIn;
  }

  lemma OwnCalls(k: Core, pc: BootPc, ch: BootChoice)
    requires pc.SyncNext? && Target(pc) == 0 && (k.ctx.ready <==> !Executing(pc))
    ensures var b := BootStep(k, pc, ch);
            && (b.core.ctx.ready <==> !Executing(b.pc)) && (HasTarget(b.pc) ==> Target(b.pc) == 0)
            && RightTarget(b.pc) && (BootUnlocks(pc) ==> OwingAt(b.pc))
  {
    hide DoStore, Stores, CleanRecord, Finish, SeenIn;
  }

  lemma ExchangeKeeps(x: Machine, a: Action)
    requires MachineInv(x) && SecondHalf(x, a)
    ensures MachineInv(MachineStep(x, a))
  {
    hide NotReadyAt, HasJob, HasNoJob, InSync, Executing;
    var x', u := MachineStep(x, a), LockOf(x, a);
    assert x'.s.cores[u] == x.s.cores[u].(ctx := x'.s.cores[u].ctx);
    forall t | 0 < t < |x'.s.cores|
      ensures Steady(x'.s.cores[t], t in x'.lost) && BootSteady(x'.s.cores[t], View(x'.s.pc, t))
    {
      assert Steady(x.s.cores[t], t in x.lost) && BootSteady(x.s.cores[t], View(x.s.pc, t));
    }
  }

  lemma ApKeepsMachine(x: Machine, u: nat, ch: ApChoice)
    requires MachineInv(x) && !SecondHalf(x, ApAction(u, ch))
    ensures MachineInv(MachineStep(x, ApAction(u, ch)))
  {
    hide ApStep, Steady, InSync, Executing, Releases;
    var x' := MachineStep(x, ApAction(u, ch));
    forall t | 0 < t < |x'.s.cores|
      ensures Steady(x'.s.cores[t], t in x'.lost) && BootSteady(x'.s.cores[t], View(x'.s.pc, t))
    {
      assert Steady(x.s.cores[t], t in x.lost) && BootSteady(x.s.cores[t], View(x.s.pc, t));
      if t == u {
        ApSteady(x.s.cores[t], t in x.lost, ch);
      }
    }
  }

  lemma BootKeepsMachine(x: Machine, ch: BootChoice)
    requires MachineInv(x) && !SecondHalf(x, BootAction(ch))
    ensures MachineInv(MachineStep(x, BootAction(ch)))
  {
    hide BootStep, Steady, NotReadyAt, HasJob;
    var s, x' := x.s, MachineStep(x, BootAction(ch));
    if HasTarget(s.pc) && Target(s.pc) < |s.cores| {
      var u := Target(s.pc);
      if u == 0 {
        OwnContext(s.cores[0], s.pc, ch);
      } else {
        assert Steady(s.cores[u], u in x.lost) && BootSteady(s.cores[u], View(s.pc, u));
        BootStepSteady(s.cores[u], u in x.lost, s.pc, ch);
      }
    }
    forall t | 0 < t < |x'.s.cores|
      ensures Steady(x'.s.cores[t], t in x'.lost) && BootSteady(x'.s.cores[t], View(x'.s.pc, t))
    {
      assert Steady(s.cores[t], t in x.lost) && BootSteady(s.cores[t], View(s.pc, t));
    }
  }

  /** Both invariants hold in every state of every run, however often releases have collided. */
  lemma {:induction false} MachineRunInv(present: seq<bool>, acts: seq<Action>)
    ensures MachineInv(MachineRun(Started(present), acts))
  {
    if acts != [] {
      var n := |acts| - 1;
      MachineRunInv(present, acts[..n]);
      var x := MachineRun(Started(present), acts[..n]);
      hide MachineInv, MachineStep, SecondHalf, Started, Step;
      if SecondHalf(x, acts[n]) {
        ExchangeKeeps(x, acts[n]);
      } else if acts[n].ApAction? {
        ApKeepsMachine(x, acts[n].core, acts[n].choice);
      } else {
        BootKeepsMachine(x, acts[n].boot);
      }
    }
  }

  lemma ReachableMachineInv(x: Machine)
    requires MachineReachable(x)
    ensures MachineInv(x)
  {
    var present: seq<bool>, acts: seq<Action> :| x == MachineRun(Started(present), acts);
    MachineRunInv(present, acts);
  }

  // ---- exactly when 0x205 is sent ----

  lemma {:induction false} ApsLeaveBoot(x: Machine, acts: seq<Action>)
    requires OnlyAps(acts)
    ensures var y := MachineRun(x, acts);
            y.s.pc == x.s.pc && y.boot == x.boot && y.s.answers == x.s.answers && |y.s.cores| == |x.s.cores|
  {
    hide ApStep;
    if acts != [] {
      var n := |acts| - 1;
      ApsLeaveBoot(x, acts[..n]);
      assert acts[n] in acts;
    }
  }

  /** Whatever has happened before: a job request that has taken the lock is answered 0x205 iff at its
      look at the ready flag the AP is coming up or inside a job. The answer leaves with core 0's next
      step, whatever the APs do in between; otherwise that step says nothing. */
  lemma NotReadyIff(x: Machine, ch: BootChoice, acts: seq<Action>, ch': BootChoice)
    requires MachineReachable(x) && x.s.pc.AcqReady? && x.s.pc.q.core < |x.s.cores| && OnlyAps(acts)
    ensures var t := x.s.pc.q.core;
            var z := MachineStep(MachineRun(MachineStep(x, BootAction(ch)), acts), BootAction(ch'));
            var notReady := t > 0 && NotReadyAt(x.s.cores[t].ap.pc);
            && (z.s.answers == x.s.answers + [Rejected(t, 0x205)] <==> notReady)
            && (z.s.answers == x.s.answers <==> !notReady)
  {
    hide MachineRun, MachineStep, MachineReachable, NotReadyAt;
    var y := MachineStep(x, BootAction(ch));
    LooksAtReady(x, ch);
    ApsLeaveBoot(y, acts);
    Speaks(MachineRun(y, acts), ch');
  }

  lemma LooksAtReady(x: Machine, ch: BootChoice)
    requires MachineReachable(x) && x.s.pc.AcqReady? && x.s.pc.q.core < |x.s.cores|
    ensures var q := x.s.pc.q;
            var y := MachineStep(x, BootAction(ch));
            && (y.s.pc == if q.core > 0 && NotReadyAt(x.s.cores[q.core].ap.pc) then AcqUnlock(q, 0x205)
                          else AcqQueued(q))
            && y.boot.Nothing? && y.s.answers == x.s.answers && |y.s.cores| == |x.s.cores|
  {
    hide NotReadyAt, HasJob, DoStore, Stores;
    ReachableMachineInv(x);
    var q := x.s.pc.q;
    assert q.core > 0 ==> Steady(x.s.cores[q.core], q.core in x.lost);
  }

  lemma Speaks(x: Machine, ch: BootChoice)
    requires (x.s.pc.AcqUnlock? || x.s.pc.AcqQueued?) && x.s.pc.q.core < |x.s.cores| && x.boot.Nothing?
    ensures MachineStep(x, BootAction(ch)).s.answers ==
            x.s.answers + if x.s.pc.AcqUnlock? then [Rejected(x.s.pc.q.core, x.s.pc.status)] else []
  {
    hide DoStore, Stores;
  }

  // ---- exactly when the wait reports a job that is not done ----

  /** The last look of wait_on_ap_exec, whatever has happened before. It reports completion iff job_queued
      is clear. Then every job submitted to the core has finished iff the AP is not inside a job just
      now, and no recovery has ever cleared the flag of a job that was not accepted. */
  lemma ReportsDoneIff(x: Machine, ch: BootChoice)
    requires MachineReachable(x) && x.s.pc.WaitQueued? && x.s.pc.q.core < |x.s.cores|
    ensures var q := x.s.pc.q;
            var k := x.s.cores[q.core];
            && MachineStep(x, BootAction(ch)).s.pc == WaitUnlock(q, x.s.pc.n, !k.ctx.jobQueued)
            && (!k.ctx.jobQueued ==>
                  (|k.hist.completed| == |k.hist.submitted| <==> !InsideJob(k) && q.core !in x.lost))
  {
    hide HasJob, NotReadyAt, DoStore, Stores;
    ReachableMachineInv(x);
    assert Steady(x.s.cores[x.s.pc.q.core], x.s.pc.q.core in x.lost);
  }
}
