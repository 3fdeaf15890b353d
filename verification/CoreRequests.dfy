/** How core 0 answers a request at each of its guards; that every request is answered once; and that a
    request to an idle core is served. */
module CoreRequests {
  import opened CoreContexts
  import opened CoreSteps
  import opened CoreInvariant
  import opened CoreMailbox
  import opened CoreTheorems
  import opened CoreBounds
  import opened CoreCollisions
  import opened CoreProgress

  // ---- the guards of a start request ----

  predicate StartAnswer(a: Answer) { a.StartOk? || a.StartFailed? }

  /** What each guard does with its answer and without. */
  lemma StartGuards(k: Core, pc: BootPc, ch: BootChoice)
    requires Starts(pc)
    ensures var t := pc.c;
            var b := BootStep(k, pc, ch);
            && (pc.StartPresent? ==>
                  b == if k.ctx.present then Boot(k, StartStarted(t), []) else Boot(k, Idle, [StartFailed(t, 0x3)]))
            && (pc.StartStarted? ==>
                  b == if k.ctx.started then Boot(k, Idle, [StartFailed(t, 0x4)]) else Boot(k, StartTryLock(t), []))
            && (pc.StartTryLock? ==>
                  b == if k.ctx.lock then Boot(k, Idle, [StartFailed(t, 0x5)])
                       else Boot(k.(ctx := k.ctx.(lock := true)), StartInit(t), []))
            && (pc.StartInit? ==>
                  b == Boot(k.(ctx := k.ctx.(fault := FaultRecord(false, Zeros(26)))), StartLaunch(t), []))
  {
    hide DoStore, Stores, Finish, SeenIn;
  }

  lemma OthersDoNotStart(k: Core, pc: BootPc, ch: BootChoice)
    requires HasTarget(pc) && !Starts(pc)
    ensures forall a :: a in BootStep(k, pc, ch).answers ==> !StartAnswer(a)
  {
    hide DoStore, Stores, CleanRecord, Finish, SeenIn;
  }

  /** The record that core 0 replaces is all zero, whether the core is stopped or has come up after all. */
  lemma StartFindsCleanRecord(s: State)
    requires Reachable(s) && s.pc.StartInit? && s.pc.c < |s.cores|
    ensures s.cores[s.pc.c].ctx.fault == CleanRecord()
  {
    hide Matches, Truthful, Called, StackInv, CleanRecord;
    ReachableInv(s);
    assert CoreInv(s.pc.c == 0, s.cores[s.pc.c], View(s.pc, s.pc.c));
    FaultRecordLifetime(s, s.pc.c);
  }

  /** The core is told to be started iff its mailbox goes from Stopped to Starting; otherwise status 0x6
      is sent and the lock freed, for a core that is stopped, or one that is up after all: it was still
      coming up when core 0 looked at started, and done by the time of the lock. */
  lemma LaunchIsAnswered(s: State, ch: BootChoice)
    requires Reachable(s) && (s.pc.StartLaunch? || s.pc.StartUnlock?) && Target(s.pc) < |s.cores|
    ensures var t := Target(s.pc);
            var k := s.cores[t];
            var b := BootStep(k, s.pc, ch);
            && t != 0 && HistoryInv(k) && HistoryInv(b.core)
            && (s.pc.StartLaunch? ==>
                  && (b.answers == [StartOk(t)] <==> PhaseOf(false, k).Stopped? && PhaseOf(false, b.core).Starting?)
                  && (b.answers == [StartOk(t)] <==> ch.Launch? && ch.ok && k.ap.pc.Off?)
                  && (b.answers == [StartOk(t)] || b == Boot(k, StartUnlock(t), [])))
            && (s.pc.StartUnlock? ==>
                  && b.answers == [StartFailed(t, 0x6)] && b.pc.Idle? && !b.core.ctx.lock
                  && b.core == k.(ctx := k.ctx.(lock := false)) && k.hist.submitted == []
                  && PhaseOf(false, b.core) == if k.ap.pc.Off? then Stopped else Ready)
  {
    hide Matches, Truthful, Called, RestInv, StackInv;
    ReachableInv(s);
    assert CoreInv(Target(s.pc) == 0, s.cores[Target(s.pc)], View(s.pc, Target(s.pc)));
  }

  /** Each answer to a start request is sent iff its guard says so at that moment, and what core 0 may
      conclude about the mailbox of the core: the counterpart of RefusalsMean. */
  lemma StartsMean(s: State, ch: BootChoice)
    requires Reachable(s) && HasTarget(s.pc) && Target(s.pc) < |s.cores|
    ensures var t := Target(s.pc);
            var k := s.cores[t];
            var b := BootStep(k, s.pc, ch);
            && HistoryInv(k) && HistoryInv(b.core)
            && var phase, phase' := PhaseOf(t == 0, k), PhaseOf(t == 0, b.core);
            && (StartFailed(t, 0x3) in b.answers <==> s.pc.StartPresent? && !k.ctx.present)
            && (StartFailed(t, 0x4) in b.answers <==> s.pc.StartStarted? && k.ctx.started)
            && (StartFailed(t, 0x5) in b.answers <==> s.pc.StartTryLock? && k.ctx.lock)
            && (StartFailed(t, 0x6) in b.answers <==> s.pc.StartUnlock?)
            && (StartOk(t) in b.answers <==> s.pc.StartLaunch? && phase.Stopped? && phase'.Starting?)
            && (StartFailed(t, 0x3) in b.answers ==> phase.Stopped?)
            && (StartFailed(t, 0x4) in b.answers ==> !phase.Stopped?)
            && (StartFailed(t, 0x5) in b.answers ==> !phase.Stopped? && !phase.Ready?)
            && (StartFailed(t, 0x6) in b.answers ==> !b.core.ctx.lock && (phase'.Stopped? || phase'.Ready?))
            && (forall a :: a in b.answers && StartAnswer(a) ==>
                  a in {StartOk(t), StartFailed(t, 0x3), StartFailed(t, 0x4), StartFailed(t, 0x5), StartFailed(t, 0x6)})
  {
    hide BootStep, PhaseInv, RestInv, StackInv, LockInv, ShapeInv, HistoryInv, BootInv, PhaseOf, AnswerOk;
    ReachableInv(s);
    var t := Target(s.pc);
    var k := s.cores[t];
    assert CoreInv(t == 0, k, View(s.pc, t));
    BootKeeps(t == 0, k, s.pc, ch);
    if Starts(s.pc) {
      StartGuards(k, s.pc, ch);
    } else {
      OthersDoNotStart(k, s.pc, ch);
    }
    if s.pc.StartLaunch? || s.pc.StartUnlock? {
      LaunchIsAnswered(s, ch);
    } else if s.pc.StartPresent? && !k.ctx.present {
      AbsentMeansStopped(t == 0, k);
    } else if s.pc.StartStarted? && k.ctx.started {
      StartedMeansUp(t == 0, k, s.pc);
    } else if s.pc.StartTryLock? && k.ctx.lock {
      LockedMeansOccupied(t == 0, k, s.pc);
    }
  }

  lemma StartedMeansUp(boot: bool, k: Core, v: BootPc)
    requires HistoryInv(k) && PhaseInv(boot, k, v) && k.ctx.started
    ensures !PhaseOf(boot, k).Stopped?
  {
  }

  // ---- which cores there are ----

  lemma FinishLeavesContext(k: Core, recovered: bool)
    ensures Finish(k, recovered).ctx == k.ctx && Finish(k, recovered).ap == k.ap
  {
  }

  lemma ApLeavesPresent(k: Core, ch: ApChoice)
    ensures ApStep(k, ch).ctx.present == k.ctx.present
  {
    hide ApStep;
    if InJob(k.ap.pc) {
      JobLeavesPresent(k, ch);
    } else {
      LoopLeavesPresent(k, ch);
    }
  }

  lemma JobLeavesPresent(k: Core, ch: ApChoice)
    requires InJob(k.ap.pc)
    ensures ApStep(k, ch).ctx.present == k.ctx.present
  {
    hide CleanRecord, SeenIn, Finish;
  }

  lemma LoopLeavesPresent(k: Core, ch: ApChoice)
    requires !InJob(k.ap.pc)
    ensures ApStep(k, ch).ctx.present == k.ctx.present
  {
    hide CleanRecord, SeenIn, Finish;
    FinishLeavesContext(k, false);
    FinishLeavesContext(k, true);
  }

  lemma BootLeavesPresent(k: Core, pc: BootPc, ch: BootChoice)
    requires HasTarget(pc)
    ensures BootStep(k, pc, ch).core.ctx.present == k.ctx.present
  {
    hide BootStep;
    if Starts(pc) || Asks(pc) || InWait(pc) {
      GuardsLeavePresent(k, pc, ch);
    } else {
      WorkLeavesPresent(k, pc, ch);
    }
  }

  lemma GuardsLeavePresent(k: Core, pc: BootPc, ch: BootChoice)
    requires Starts(pc) || Asks(pc) || InWait(pc)
    ensures BootStep(k, pc, ch).core.ctx.present == k.ctx.present
  {
    hide DoStore, Stores, CleanRecord, SeenIn, Finish;
  }

  lemma WorkLeavesPresent(k: Core, pc: BootPc, ch: BootChoice)
    requires HasTarget(pc) && !Starts(pc) && !Asks(pc) && !InWait(pc)
    ensures BootStep(k, pc, ch).core.ctx.present == k.ctx.present
  {
    hide Stores, CleanRecord, SeenIn, Finish;
    FinishLeavesContext(k, false);
  }

  /** A request finds the cores that were there at the beginning, and core 0. */
  lemma {:induction false} PresentIsConstant(present: seq<bool>, acts: seq<Action>, t: nat)
    requires t < |present|
    ensures var s := Run(Initial(present), acts);
            |s.cores| == |present| && s.cores[t].ctx.present == (t == 0 || present[t])
  {
    hide ApStep, BootStep;
    if acts != [] {
      var n := |acts| - 1;
      PresentIsConstant(present, acts[..n], t);
      var m := Run(Initial(present), acts[..n]);
      if acts[n].ApAction? {
        ApLeavesPresent(m.cores[t], acts[n].choice);
      } else if HasTarget(m.pc) {
        BootLeavesPresent(m.cores[t], m.pc, acts[n].boot);
      }
    }
  }

  // ---- a core that is up, and refused with 0x6 ----

  /** Two cores; core 1 is at ap, has never had a job, and has these flags. */
  ghost predicate At(s: State, pc: BootPc, ap: ApPc, started: bool, ready: bool, lock: bool) {
    && Reachable(s) && |s.cores| == 2 && s.pc == pc
    && var k := s.cores[1];
    && k.ap.pc == ap && k.ctx.present && k.ctx.started == started && k.ctx.ready == ready && k.ctx.lock == lock
    && !k.ctx.jobQueued && k.hist.submitted == [] && k.hist.accepted == [] && k.hist.completed == []
  }

  lemma BootMoves(s: State, ch: BootChoice) returns (s': State)
    requires Reachable(s) && |s.cores| == 2 && HasTarget(s.pc) && Target(s.pc) == 1
    ensures Reachable(s') && |s'.cores| == 2
    ensures var b := BootStep(s.cores[1], s.pc, ch);
            s'.cores[1] == b.core && s'.pc == b.pc && s'.answers == s.answers + b.answers
  {
    hide BootStep;
    s' := Step(s, BootAction(ch));
    ReachableStep(s, BootAction(ch));
  }

  lemma ApMoves(s: State) returns (s': State)
    requires Reachable(s) && |s.cores| == 2
    ensures Reachable(s') && |s'.cores| == 2 && s'.cores[1] == ApStep(s.cores[1], Go) && s'.pc == s.pc
  {
    hide ApStep;
    s' := Step(s, ApAction(1, Go));
    ReachableStep(s, ApAction(1, Go));
  }

  lemma StartBegins(s: State, ap: ApPc, lock: bool) returns (s': State)
    requires At(s, Idle, ap, false, false, lock)
    ensures At(s', StartPresent(1), ap, false, false, lock)
  {
    hide Reachable;
    s' := Step(s, BootAction(Start(1)));
    ReachableStep(s, BootAction(Start(1)));
  }

  lemma InitialReachable(present: seq<bool>)
    ensures Reachable(Initial(present))
  {
    assert Initial(present) == Run(Initial(present), []);
  }

  lemma Launching() returns (s: State)
    ensures At(s, Idle, SaveRsp, false, false, true)
  {
    hide Reachable, ApStep, DoStore, Stores;
    s := Initial([true, true]);
    InitialReachable([true, true]);
    s := StartBegins(s, Off, false);
    s := BootMoves(s, Proceed);
    s := BootMoves(s, Proceed);
    s := BootMoves(s, Proceed);
    s := BootMoves(s, Proceed);
    s := BootMoves(s, Launch(true, 0));
  }

  lemma ComesUp(s0: State) returns (s: State)
    requires At(s0, StartTryLock(1), SaveRsp, false, false, true)
    ensures At(s, StartTryLock(1), SpinLock, true, true, false)
  {
    hide Reachable, BootStep;
    s := ApMoves(s0);
    s := ApMoves(s);
    s := ApMoves(s);
    s := ApMoves(s);
    s := ApMoves(s);
  }

  /** Core 1 is asked to start twice, and comes up between the second request's look at started and its
      attempt to lock: it is up and ready, and the second request is answered 0x6. */
  lemma UpAndRefused() returns (s: State, s': State)
    ensures Reachable(s) && s.pc == StartUnlock(1) && s' == Step(s, BootAction(Proceed))
    ensures |s'.cores| == 2 && HistoryInv(s'.cores[1]) && PhaseOf(false, s'.cores[1]).Ready?
    ensures s'.answers == s.answers + [StartFailed(1, 0x6)]
  {
    hide Reachable, ApStep, DoStore, Stores;
    s := Launching();
    s := StartBegins(s, SaveRsp, true);
    s := BootMoves(s, Proceed);
    s := BootMoves(s, Proceed);
    s := ComesUp(s);
    s := BootMoves(s, Proceed);
    s := BootMoves(s, Proceed);
    s := BootMoves(s, Launch(true, 0));
    s' := Step(s, BootAction(Proceed));
  }

  // ---- the guards of a job request ----

  /** The same for each status that refuses a job. */
  lemma AcquireIsAnswered(k: Core, pc: BootPc, ch: BootChoice)
    requires HasTarget(pc)
    ensures var b := BootStep(k, pc, ch);
            && (pc.AcqPresent? ==>
                  b == if k.ctx.present then Boot(k, AcqStarted(pc.q), [])
                       else Boot(k, Idle, [Rejected(pc.q.core, 0x202)]))
            && (pc.AcqStarted? ==>
                  b == if k.ctx.started then Boot(k, AcqTryLock(pc.q), [])
                       else Boot(k, Idle, [Rejected(pc.q.core, 0x203)]))
            && (pc.AcqTryLock? ==>
                  if k.ctx.lock then b == Boot(k, Idle, [Rejected(pc.q.core, 0x204)])
                  else b.answers == [] && b.pc == AcqReady(pc.q) && b.core == k.(ctx := k.ctx.(lock := true)))
            && (pc.AcqReady? ==>
                  b == Boot(k, if k.ctx.ready then AcqQueued(pc.q) else AcqUnlock(pc.q, 0x205), []))
            && (pc.AcqQueued? ==>
                  b == Boot(k, if k.ctx.jobQueued then AcqUnlock(pc.q, 0x206) else Writing(pc.q, 0), []))
            && (pc.AcqUnlock? ==>
                  && b.answers == [Rejected(pc.q.core, pc.status)] && b.pc.Idle?
                  && b.core == k.(ctx := k.ctx.(lock := false)))
            && (!Asks(pc) ==> forall a :: a in b.answers ==> !a.Rejected?)
  {
    hide DoStore, Stores, CleanRecord, Finish, SeenIn;
  }

  /** A request for a core that does not exist is refused at once; any other goes to the first guard. */
  lemma RequestIsTaken(s: State, q: Request)
    requires s.pc.Idle? && !(q.core == 0 && q.job.ReadMsr?)
    ensures Step(s, BootAction(Submit(q))) ==
            if q.core < |s.cores| then s.(pc := AcqPresent(q))
            else s.(answers := s.answers + [Rejected(q.core, 0x201)])
  {
  }

  /** A request to start a core goes to its first guard; one that asks how a core is changes nothing. */
  lemma StartIsTaken(s: State, t: nat)
    requires s.pc.Idle? && 0 < t < |s.cores|
    ensures Step(s, BootAction(Start(t))) == s.(pc := StartPresent(t))
    ensures Step(s, BootAction(Poll(t))) == s
  {
  }

  // ---- every request is answered once ----

  /** How many more steps core 0 takes at most until it has answered, if its wait has a timeout. */
  function Rank(pc: BootPc): int
    requires HasTarget(pc)
  {
    if InWait(pc) then 4 + WaitRank(pc) else if Starts(pc) || Asks(pc) then AskRank(pc) else WorkRank(pc)
  }

  function AskRank(pc: BootPc): int {
    match pc
    case StartPresent(_) => 6
    case StartStarted(_) => 5
    case StartTryLock(_) => 4
    case StartInit(_) => 3
    case StartLaunch(_) => 2
    case AcqPresent(q) => 29 + 6 * q.timeout
    case AcqStarted(q) => 28 + 6 * q.timeout
    case AcqTryLock(q) => 27 + 6 * q.timeout
    case AcqReady(q) => 26 + 6 * q.timeout
    case AcqQueued(q) => 25 + 6 * q.timeout
    case _ => 1
  }

  function WorkRank(pc: BootPc): int {
    match pc
    case Writing(q, n) => 16 + 6 * q.timeout + if n <= |Stores(q.job)| then |Stores(q.job)| - n else 0
    case Queue(q) => 15 + 6 * q.timeout
    case SyncReady(_) => 14
    case SyncClear(_) => 13
    case SyncNext(_, i) => if i < CORE_FUNCTION_SLOTS then 6 + 2 * (CORE_FUNCTION_SLOTS - i) else 6
    case SyncIn(_, i) => if i < CORE_FUNCTION_SLOTS then 5 + 2 * (CORE_FUNCTION_SLOTS - i) else 7
    case SyncSet(_) => 5
    case SyncUnlock(_) => 4
    case UnlockJob(q) => 5 + 6 * q.timeout
    case ReplyFlags(_, _) => 4
    case ReplyRead(_, _, _, n, _) => if n <= 2 then 3 - n else 1
    case _ => 1
  }

  /** If core 0 is going to wait for an AP, or does so, the wait has a timeout, and is not beyond it. */
  predicate HasTimeout(pc: BootPc)
    requires HasTarget(pc)
  {
    && (!Starts(pc) && pc.q.core > 0 ==> pc.q.timeout != 0)
    && (pc.UnlockJob? ==> pc.q.timeout != 0)
    && (InWait(pc) ==> pc.n < pc.q.timeout)
  }

  /** Either the step answers the request, with one message, or it says nothing and there is less to do; as
      much as before, if it is a report that a function of core 0's own job writes. */
  predicate Onward(pc: BootPc, b: Boot, ch: BootChoice)
    requires HasTarget(pc) && HasTimeout(pc)
  {
    if b.pc.Idle? then |b.answers| == 1 && b.answers[0].core == Target(pc)
    else
      && b.answers == [] && Target(b.pc) == Target(pc) && HasTimeout(b.pc)
      && 1 <= Rank(b.pc) <= if pc.SyncIn? && ch.BootReport? then Rank(pc) else Rank(pc) - 1
  }

  lemma RequestAdvances(k: Core, pc: BootPc, ch: BootChoice)
    requires HasTarget(pc) && HasTimeout(pc)
    ensures Rank(pc) >= 1 && Onward(pc, BootStep(k, pc, ch), ch)
  {
    hide BootStep, Onward, Rank, HasTimeout;
    if Starts(pc) || Asks(pc) {
      AskingAdvances(k, pc, ch);
    } else if InWait(pc) {
      WaitingAdvances(k, pc, ch);
    } else if InSync(pc) {
      OwnJobAdvances(k, pc, ch);
    } else {
      WorkAdvances(k, pc, ch);
    }
  }

  lemma AskingAdvances(k: Core, pc: BootPc, ch: BootChoice)
    requires (Starts(pc) || Asks(pc)) && HasTimeout(pc)
    ensures Rank(pc) >= 1 && Onward(pc, BootStep(k, pc, ch), ch)
  {
    hide DoStore, CleanRecord, Finish, SeenIn;
  }

  lemma WaitingAdvances(k: Core, pc: BootPc, ch: BootChoice)
    requires InWait(pc) && HasTimeout(pc)
    ensures Rank(pc) >= 1 && Onward(pc, BootStep(k, pc, ch), ch)
  {
    hide DoStore, Stores, CleanRecord, Finish, SeenIn;
  }

  lemma OwnJobAdvances(k: Core, pc: BootPc, ch: BootChoice)
    requires InSync(pc) && HasTimeout(pc)
    ensures Rank(pc) >= 1 && Onward(pc, BootStep(k, pc, ch), ch)
  {
    hide DoStore, Stores, CleanRecord, Finish, SeenIn;
  }

  lemma WorkAdvances(k: Core, pc: BootPc, ch: BootChoice)
    requires HasTarget(pc) && !Starts(pc) && !Asks(pc) && !InWait(pc) && !InSync(pc) && HasTimeout(pc)
    ensures Rank(pc) >= 1 && Onward(pc, BootStep(k, pc, ch), ch)
  {
    hide DoStore, Stores, CleanRecord, Finish, SeenIn;
  }

  /** The steps of core 0 in a run, but for the reports that its own job writes. */
  function Moves(acts: seq<Action>): nat {
    if acts == [] then 0
    else
      var a := acts[|acts| - 1];
      Moves(acts[..|acts| - 1]) + if IsMove(a) then 1 else 0
  }

  predicate IsMove(a: Action) { a.BootAction? && !a.boot.BootReport? }

  /** Core 0 has sent exactly one message since s, to the request it was working on, and is idle. */
  predicate AnsweredSince(s: State, s': State)
    requires HasTarget(s.pc)
  {
    && s'.pc.Idle? && |s'.answers| == |s.answers| + 1 && s.answers < s'.answers
    && Last(s'.answers).core == Target(s.pc)
  }

  /** It has sent none, and has at least n steps less to take. */
  predicate NotYet(s: State, s': State, n: nat)
    requires HasTarget(s.pc)
  {
    && HasTarget(s'.pc) && Target(s'.pc) == Target(s.pc) && HasTimeout(s'.pc) && |s'.cores| == |s.cores|
    && s'.answers == s.answers && 1 <= Rank(s'.pc) <= Rank(s.pc) - n
  }

  lemma OneMove(s: State, m: State, n: nat, a: Action)
    requires HasTarget(s.pc) && Target(s.pc) < |s.cores| && NotYet(s, m, n)
    ensures AnsweredSince(s, Step(m, a)) || NotYet(s, Step(m, a), n + if IsMove(a) then 1 else 0)
  {
    hide BootStep, ApStep, Rank, HasTimeout;
    if a.BootAction? {
      RequestAdvances(m.cores[Target(m.pc)], m.pc, a.boot);
    }
  }

  /** Every request is answered, by one message, whatever the APs do meanwhile: with a timeout, at the latest
      after Rank steps of core 0. */
  lemma {:induction false} AnsweredOnce(s: State, acts: seq<Action>)
    requires HasTarget(s.pc) && Target(s.pc) < |s.cores| && HasTimeout(s.pc)
    ensures || (exists i :: 0 <= i <= |acts| && AnsweredSince(s, Run(s, acts[..i])))
            || NotYet(s, Run(s, acts), Moves(acts))
    ensures Moves(acts) >= Rank(s.pc) ==> exists i :: 0 <= i <= |acts| && AnsweredSince(s, Run(s, acts[..i]))
  {
    hide Step, Rank, HasTimeout, AnsweredSince;
    if acts == [] {
      RequestAdvances(s.cores[Target(s.pc)], s.pc, Proceed);
    } else {
      var n := |acts| - 1;
      AnsweredOnce(s, acts[..n]);
      if i: nat :| i <= n && AnsweredSince(s, Run(s, acts[..n][..i])) {
        assert acts[..n][..i] == acts[..i];
      } else {
        OneMove(s, Run(s, acts[..n]), Moves(acts[..n]), acts[n]);
        assert acts[..|acts|] == acts;
      }
    }
  }

  /** From the request on that is 29 steps, and 6 for each iteration of the wait. */
  lemma RequestRank(s: State, q: Request)
    requires s.pc.Idle? && q.core < |s.cores| && !(q.core == 0 && q.job.ReadMsr?) && (q.core > 0 ==> q.timeout != 0)
    ensures var s' := Step(s, BootAction(Submit(q)));
            && HasTarget(s'.pc) && Target(s'.pc) == q.core && HasTimeout(s'.pc) && Rank(s'.pc) == 29 + 6 * q.timeout
            && s'.answers == s.answers && s'.cores == s.cores
  {
  }

  // ---- a request that is served ----

  ghost predicate Reaches(s: State, s': State) { exists acts: seq<Action> :: s' == Run(s, acts) }

  /** One more step of a run. */
  lemma Continued(s0: State, s: State, a: Action) returns (s': State)
    requires Reachable(s) && Reaches(s0, s)
    ensures s' == Step(s, a) && Reachable(s') && Reaches(s0, s')
  {
    s' := Step(s, a);
    ReachableStep(s, a);
    var acts: seq<Action> :| s == Run(s0, acts);
    assert (acts + [a])[..|acts|] == acts;
    assert s' == Run(s0, acts + [a]);
  }

  /** In a run from s0, core 0 is at pc and has not answered anything; core t, which is not core 0, has been
      given these jobs, has these flags and is in its spin loop. */
  ghost predicate On(s0: State, s: State, pc: BootPc, t: nat, jobs: seq<Job>, queued: bool, lock: bool) {
    && Reachable(s) && Reaches(s0, s) && s.pc == pc && s.answers == s0.answers
    && 0 < t < |s.cores| == |s0.cores|
    && var k := s.cores[t];
    && InSpin(k.ap.pc) && k.hist.submitted == jobs && k.ctx.present && k.ctx.started && k.ctx.ready
    && k.ctx.jobQueued == queued && k.ctx.lock == lock
  }

  /** A step of core 0 on that core's context. */
  lemma BootGo(s0: State, s: State, pc: BootPc, t: nat, jobs: seq<Job>, queued: bool, lock: bool) returns (s': State)
    requires On(s0, s, pc, t, jobs, queued, lock) && HasTarget(pc) && Target(pc) == t
    ensures Reachable(s') && Reaches(s0, s') && |s'.cores| == |s0.cores|
    ensures var b := BootStep(s.cores[t], pc, Proceed);
            s'.cores[t] == b.core && s'.pc == b.pc && s'.answers == s0.answers + b.answers
  {
    hide BootStep;
    s' := Continued(s0, s, BootAction(Proceed));
  }

  /** From the request to the first store of the job. */
  lemma Acquired(s: State, q: Request) returns (s': State)
    requires Reachable(s) && s.pc.Idle? && 0 < q.core < |s.cores| && AtRest(s.cores[q.core])
    ensures On(s, s', Writing(q, 0), q.core, s.cores[q.core].hist.submitted, false, true)
  {
    hide BootStep, ApStep, PhaseInv, RestInv, StackInv, LockInv, ShapeInv, HistoryInv, BootInv, AnswerOk, AtRest;
    var t, jobs := q.core, s.cores[q.core].hist.submitted;
    RestFlags(s, t);
    assert Run(s, []) == s;
    s' := Continued(s, s, BootAction(Submit(q)));
    RequestIsTaken(s, q);
    AcquireIsAnswered(s'.cores[t], s'.pc, Proceed);
    s' := BootGo(s, s', AcqPresent(q), t, jobs, false, false);
    AcquireIsAnswered(s'.cores[t], s'.pc, Proceed);
    s' := BootGo(s, s', AcqStarted(q), t, jobs, false, false);
    AcquireIsAnswered(s'.cores[t], s'.pc, Proceed);
    s' := BootGo(s, s', AcqTryLock(q), t, jobs, false, false);
    AcquireIsAnswered(s'.cores[t], s'.pc, Proceed);
    s' := BootGo(s, s', AcqReady(q), t, jobs, false, true);
    AcquireIsAnswered(s'.cores[t], s'.pc, Proceed);
    s' := BootGo(s, s', AcqQueued(q), t, jobs, false, true);
  }

  lemma RestFlags(s: State, t: nat)
    requires Reachable(s) && !BootHolds(View(s.pc, t)) && 0 < t < |s.cores| && AtRest(s.cores[t])
    ensures var k := s.cores[t];
            InSpin(k.ap.pc) && k.ctx.present && k.ctx.started && k.ctx.ready && !k.ctx.jobQueued && !k.ctx.lock
  {
    hide Matches, Truthful, Called, RestInv, StackInv;
    ReachableInv(s);
    assert CoreInv(t == 0, s.cores[t], View(s.pc, t));
  }

  /** The stores of the job. */
  lemma {:induction false} Stored(s0: State, s: State, q: Request, jobs: seq<Job>, n: nat) returns (s': State)
    requires On(s0, s, Writing(q, n), q.core, jobs, false, true) && n <= |Stores(q.job)|
    ensures On(s0, s', Queue(q), q.core, jobs, false, true)
    decreases |Stores(q.job)| - n
  {
    hide Stores, DoStore, Reaches, Reachable;
    s' := BootGo(s0, s, Writing(q, n), q.core, jobs, false, true);
    if n < |Stores(q.job)| {
      StoreLeaves(s, q.core, Stores(q.job)[n]);
      s' := Stored(s0, s', q, jobs, n + 1);
    }
  }

  lemma StoreLeaves(s: State, t: nat, w: Store)
    requires Reachable(s) && t < |s.cores|
    ensures SameButJob(s.cores[t].ctx, DoStore(w, s.cores[t].ctx))
  {
    hide DoStore, PhaseInv, RestInv, StackInv, LockInv, HistoryInv, BootInv, AnswerOk;
    ReachableInv(s);
    assert CoreInv(t == 0, s.cores[t], View(s.pc, t));
    StoreScope(w, s.cores[t].ctx);
  }

  /** The job is flagged and the lock released; core 0 begins to wait. */
  lemma Published(s0: State, s: State, q: Request, jobs: seq<Job>) returns (s': State)
    requires On(s0, s, Queue(q), q.core, jobs, false, true)
    ensures On(s0, s', WaitLock(q, 0), q.core, jobs + [q.job], true, false)
  {
    hide Stores, DoStore, Reaches, Reachable;
    s' := BootGo(s0, s, Queue(q), q.core, jobs, false, true);
    s' := BootGo(s0, s', UnlockJob(q), q.core, jobs + [q.job], true, true);
  }

  /** The core runs the job; core 0 does nothing meanwhile. */
  lemma Executed(s0: State, s: State, q: Request, jobs: seq<Job>) returns (s': State)
    requires On(s0, s, WaitLock(q, 0), q.core, jobs, true, false)
    ensures On(s0, s', WaitLock(q, 0), q.core, jobs, false, false)
  {
    hide Reachable, AtRest, Reaches, Run, Alone, InSpin;
    FinishesAlone(s, q.core) by { SpinsAlive(s.cores[q.core].ap.pc); }
    var n: nat :| Finished(Run(s, Alone(q.core, n)), q.core);
    s' := Run(s, Alone(q.core, n));
    AloneLeaves(s, q.core, n);
    FurtherReached(s0, s, Alone(q.core, n));
    assert !BootHolds(View(s'.pc, q.core));
    assert Finished(s', q.core);
    RestFlags(s', q.core);
  }

  lemma SpinsAlive(pc: ApPc)
    requires InSpin(pc)
    ensures Alive(pc)
  {
  }

  lemma FurtherReached(s0: State, s: State, more: seq<Action>)
    requires Reaches(s0, s)
    ensures Reaches(s0, Run(s, more))
  {
    var acts: seq<Action> :| s == Run(s0, acts);
    RunAppend(s0, acts, more);
  }

  lemma {:induction false} AloneLeaves(s: State, t: nat, n: nat)
    requires Reachable(s) && 0 < t < |s.cores|
    ensures var s' := Run(s, Alone(t, n));
            && Reachable(s') && s'.pc == s.pc && s'.answers == s.answers && |s'.cores| == |s.cores|
            && s'.cores[t].hist.submitted == s.cores[t].hist.submitted
  {
    hide ApStep, Reachable;
    if n > 0 {
      AloneLeaves(s, t, n - 1);
      var m := Run(s, Alone(t, n - 1));
      assert Alone(t, n)[..n - 1] == Alone(t, n - 1);
      ReachableStep(m, ApAction(t, Go));
      ApSubmitsNothing(m.cores[t]);
    }
  }

  lemma ApSubmitsNothing(k: Core)
    ensures ApStep(k, Go).hist.submitted == k.hist.submitted
  {
    hide CleanRecord;
  }

  /** Core 0 finds the job done. */
  lemma Noticed(s0: State, s: State, q: Request, jobs: seq<Job>) returns (s': State)
    requires On(s0, s, WaitLock(q, 0), q.core, jobs, false, false)
    ensures On(s0, s', ReplyFlags(q, false), q.core, jobs, false, false)
  {
    hide BootStep, Reaches, Reachable;
    DoneIsSeen(s.cores[q.core], q);
    s' := BootGo(s0, s, WaitLock(q, 0), q.core, jobs, false, false);
    s' := BootGo(s0, s', WaitTry(q, 0), q.core, jobs, false, false);
    DoneIsChecked(s'.cores[q.core], q);
    s' := BootGo(s0, s', WaitReady(q, 0), q.core, jobs, false, true);
    s' := BootGo(s0, s', WaitQueued(q, 0), q.core, jobs, false, true);
    s' := BootGo(s0, s', WaitUnlock(q, 0, true), q.core, jobs, false, true);
  }

  /** The wait, on a core that is ready, with a free lock and no job flagged. */
  lemma DoneIsSeen(k: Core, q: Request)
    requires k.ctx.ready && !k.ctx.jobQueued && !k.ctx.lock
    ensures var held := k.(ctx := k.ctx.(lock := true));
            && BootStep(k, WaitLock(q, 0), Proceed) == Boot(k, WaitTry(q, 0), [])
            && BootStep(k, WaitTry(q, 0), Proceed) == Boot(held, WaitReady(q, 0), [])
            && BootStep(held, WaitUnlock(q, 0, true), Proceed) == Boot(k, ReplyFlags(q, false), [])
  {
    hide DoStore, Stores, CleanRecord, Finish, SeenIn;
  }

  lemma DoneIsChecked(k: Core, q: Request)
    requires k.ctx.ready && !k.ctx.jobQueued
    ensures BootStep(k, WaitReady(q, 0), Proceed) == Boot(k, WaitQueued(q, 0), [])
    ensures BootStep(k, WaitQueued(q, 0), Proceed) == Boot(k, WaitUnlock(q, 0, true), [])
  {
    hide DoStore, Stores, CleanRecord, Finish, SeenIn;
  }

  /** And replies. */
  lemma Replied(s0: State, s: State, q: Request, jobs: seq<Job>) returns (s': State, a: Answer)
    requires On(s0, s, ReplyFlags(q, false), q.core, jobs, false, false)
    ensures Reachable(s') && Reaches(s0, s') && s'.pc.Idle? && |s'.cores| == |s0.cores|
    ensures s'.cores[q.core].hist.submitted == jobs && s'.answers == s0.answers + [a]
    ensures IsReply(a) && !TimedOut(a) && a.core == q.core && a.job == q.job && a.index == |jobs| - 1
  {
    hide Stores, DoStore, Reaches, Reachable;
    s' := BootGo(s0, s, ReplyFlags(q, false), q.core, jobs, false, false);
    if !q.job.ReadMsr? {
      s' := BootGo(s0, s', s'.pc, q.core, jobs, false, false);
      s' := BootGo(s0, s', s'.pc, q.core, jobs, false, false);
    }
    var m := s';
    a := BootStep(m.cores[q.core], m.pc, Proceed).answers[0];
    s' := BootGo(s0, m, m.pc, q.core, jobs, false, false);
  }

  /** A request to a core at rest is served: there is a continuation in which it is answered by exactly
      one message, which reports no timeout, and is about that very job, done, with its report. */
  lemma Served(s: State, q: Request)
    requires Reachable(s) && s.pc.Idle? && 0 < q.core < |s.cores| && AtRest(s.cores[q.core])
    ensures exists acts: seq<Action> :: IsServed(s, Run(s, acts), q)
  {
    hide On, Reachable, AtRest, DoneAndReported, IsReply, TimedOut;
    var jobs := s.cores[q.core].hist.submitted;
    var s1 := Acquired(s, q);
    var s2 := Stored(s, s1, q, jobs, 0);
    var s3 := Published(s, s2, q, jobs);
    var s4 := Executed(s, s3, q, jobs + [q.job]);
    var s5 := Noticed(s, s4, q, jobs + [q.job]);
    var s6, a := Replied(s, s5, q, jobs + [q.job]);
    RepliesAreSound(s6, a);
    var acts: seq<Action> :| s6 == Run(s, acts);
    assert IsServed(s, Run(s, acts), q);
  }

  ghost predicate IsServed(s: State, s': State, q: Request)
    requires q.core < |s.cores|
  {
    && s'.pc.Idle? && |s'.cores| == |s.cores|
    && var h, h' := s.cores[q.core].hist, s'.cores[q.core].hist;
    && h'.submitted == h.submitted + [q.job]
    && |s'.answers| == |s.answers| + 1 && s.answers < s'.answers
    && var a := Last(s'.answers);
    && IsReply(a) && !TimedOut(a) && a.core == q.core && a.job == q.job && a.index == |h.submitted|
    && DoneAndReported(h', a)
  }

  // ---- a core that is started ----

  lemma OffFlags(s: State, t: nat)
    requires Reachable(s) && s.pc.Idle? && 0 < t < |s.cores| && s.cores[t].ap.pc.Off?
    ensures !s.cores[t].ctx.started && !s.cores[t].ctx.lock
  {
    hide Matches, Truthful, Called, RestInv, StackInv;
    ReachableInv(s);
    assert CoreInv(t == 0, s.cores[t], View(s.pc, t));
  }

  /** In a run from s0, core 0 is at pc and has not answered anything; core t is not running yet. */
  ghost predicate NotUp(s0: State, s: State, pc: BootPc, t: nat, lock: bool) {
    && Reachable(s) && Reaches(s0, s) && s.pc == pc && s.answers == s0.answers && 0 < t < |s.cores| == |s0.cores|
    && var k := s.cores[t];
    k.ap.pc.Off? && k.ctx.present && !k.ctx.started && k.ctx.lock == lock
  }

  lemma OffGo(s0: State, s: State, pc: BootPc, t: nat, lock: bool, ch: BootChoice) returns (s': State)
    requires NotUp(s0, s, pc, t, lock) && HasTarget(pc) && Target(pc) == t
    ensures Reachable(s') && Reaches(s0, s') && |s'.cores| == |s0.cores|
    ensures var b := BootStep(s.cores[t], pc, ch);
            s'.cores[t] == b.core && s'.pc == b.pc && s'.answers == s0.answers + b.answers
  {
    hide BootStep;
    s' := Continued(s0, s, BootAction(ch));
  }

  lemma Launched(s: State, t: nat, rsp: int) returns (s': State)
    requires Reachable(s) && s.pc.Idle? && 0 < t < |s.cores| && s.cores[t].ap.pc.Off? && s.cores[t].ctx.present
    ensures Reachable(s') && Reaches(s, s') && s'.pc.Idle? && |s'.cores| == |s.cores|
    ensures s'.answers == s.answers + [StartOk(t)] && s'.cores[t].ap == Ap(SaveRsp, rsp)
  {
    hide DoStore, Stores, Finish, SeenIn, Reaches, Reachable;
    OffFlags(s, t);
    ReachesItself(s);
    s' := Continued(s, s, BootAction(Start(t)));
    s' := OffGo(s, s', StartPresent(t), t, false, Proceed);
    s' := OffGo(s, s', StartStarted(t), t, false, Proceed);
    s' := OffGo(s, s', StartTryLock(t), t, false, Proceed);
    s' := OffGo(s, s', StartInit(t), t, true, Proceed);
    s' := OffGo(s, s', StartLaunch(t), t, true, Launch(true, rsp));
  }

  lemma ReachesItself(s: State)
    ensures Reaches(s, s)
  {
    assert s == Run(s, []);
  }

  /** A request to start a core that is there and not running is served: there is a continuation in which it
      is answered by StartOk, and the core comes to rest: ready, with a free lock, and so open to the
      requests that Served speaks of. */
  lemma StartServed(s: State, t: nat, rsp: int)
    requires Reachable(s) && s.pc.Idle? && 0 < t < |s.cores| && s.cores[t].ap.pc.Off? && s.cores[t].ctx.present
    ensures exists acts: seq<Action> :: IsUp(s, Run(s, acts), t)
  {
    hide Reachable, AtRest, Reaches, Run, Alone;
    var s1 := Launched(s, t, rsp);
    FinishesAlone(s1, t);
    var n: nat :| Finished(Run(s1, Alone(t, n)), t);
    AloneLeaves(s1, t, n);
    FurtherReached(s, s1, Alone(t, n));
    var s2 := Run(s1, Alone(t, n));
    assert Finished(s2, t);
    UpReached(s, s2, t);
  }

  lemma UpReached(s: State, s': State, t: nat)
    requires Reaches(s, s') && IsUp(s, s', t)
    ensures exists acts: seq<Action> :: IsUp(s, Run(s, acts), t)
  {
    hide IsUp;
    var acts: seq<Action> :| s' == Run(s, acts);
  }

  ghost predicate IsUp(s: State, s': State, t: nat) {
    && s'.pc.Idle? && |s'.cores| == |s.cores| && t < |s'.cores| && s'.answers == s.answers + [StartOk(t)]
    && Finished(s', t)
  }
}
