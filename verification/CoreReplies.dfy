/** What core 0 sends back once a job request has got as far as a job: one reply, with which flags, and
    with what in it. The first part speaks about every run with split releases. */
module CoreReplies {
  import opened CoreContexts
  import opened CoreSteps
  import opened CoreInvariant
  import opened CoreTheorems
  import opened CoreBounds
  import opened CoreRelease
  import opened CoreCollisions

  // ---- from the end of the wait to the reply ----

  /** Three more steps of core 0 read the report, one field each, and send the reply. */
  lemma ReadsAndSends(x: Machine, q: Request, timedOut: bool, bit: bool, got: Result,
                      w1: seq<Action>, c1: BootChoice, w2: seq<Action>, c2: BootChoice, w3: seq<Action>, c3: BootChoice)
    requires x.s.pc == ReplyRead(q, timedOut, bit, 0, got) && q.core < |x.s.cores| && x.boot.Nothing?
    requires OnlyAps(w1) && OnlyAps(w2) && OnlyAps(w3)
    ensures var x1 := MachineRun(x, w1);
            var x2 := MachineRun(MachineStep(x1, BootAction(c1)), w2);
            var x3 := MachineRun(MachineStep(x2, BootAction(c2)), w3);
            var y := MachineStep(x3, BootAction(c3));
            && |x1.s.cores| == |x2.s.cores| == |x3.s.cores| == |x.s.cores|
            && x1.s.answers == x2.s.answers == x3.s.answers == x.s.answers && y.s.pc.Idle?
            && y.s.answers == x.s.answers +
                 [Reply(q.core, |x3.s.cores[q.core].hist.submitted| - 1, q.job, timedOut, bit,
                        x1.s.cores[q.core].ctx.result.rdtsc, x2.s.cores[q.core].ctx.result.gpf,
                        x3.s.cores[q.core].ctx.result.buffer)]
  {
    hide MachineRun, MachineStep;
    var x1 := MachineRun(x, w1);
    ApsLeaveBoot(x, w1);
    ReplyStep(x1, c1);
    var y1 := MachineStep(x1, BootAction(c1));
    var x2 := MachineRun(y1, w2);
    ApsLeaveBoot(y1, w2);
    ReplyStep(x2, c2);
    var y2 := MachineStep(x2, BootAction(c2));
    var x3 := MachineRun(y2, w3);
    ApsLeaveBoot(y2, w3);
    ReplyStep(x3, c3);
  }

  /** One step of core 0 while it replies. */
  lemma ReplyStep(x: Machine, ch: BootChoice)
    requires x.s.pc.ReplyFlags? || x.s.pc.ReplyRead? || x.s.pc.ReplyMsr?
    requires x.s.pc.q.core < |x.s.cores| && x.boot.Nothing?
    ensures var b := BootStep(x.s.cores[x.s.pc.q.core], x.s.pc, ch);
            var y := MachineStep(x, BootAction(ch));
            && y.s.pc == b.pc && y.s.answers == x.s.answers + b.answers && y.boot.Nothing? && |y.s.cores| == |x.s.cores|
  {
    hide DoStore, Stores;
  }

  /** If core 0 still owes the second half of its release, that comes first, and changes nothing here. */
  lemma OwedFirst(x: Machine, ch: BootChoice)
    requires MachineReachable(x) && x.boot.Owed?
    ensures var y := MachineStep(x, BootAction(ch));
            && y.s.pc == x.s.pc && y.boot.Nothing? && y.s.answers == x.s.answers && |y.s.cores| == |x.s.cores|
  {
    ReachableMachineInv(x);
  }

  /** The end of an execute job: whatever the wait said, core 0's next four steps, with any steps of APs
      before each, send exactly one reply. Bit 0x1 is set iff the wait timed out; bit 0x2 and the three
      fields of the report are what the context holds when each of them is read. */
  lemma ExecuteIsAnswered(x: Machine, q: Request, timedOut: bool,
                          w0: seq<Action>, c0: BootChoice, w1: seq<Action>, c1: BootChoice,
                          w2: seq<Action>, c2: BootChoice, w3: seq<Action>, c3: BootChoice)
    requires x.s.pc == ReplyFlags(q, timedOut) && !q.job.ReadMsr? && q.core < |x.s.cores| && x.boot.Nothing?
    requires OnlyAps(w0) && OnlyAps(w1) && OnlyAps(w2) && OnlyAps(w3)
    ensures var x0 := MachineRun(x, w0);
            var x1 := MachineRun(MachineStep(x0, BootAction(c0)), w1);
            var x2 := MachineRun(MachineStep(x1, BootAction(c1)), w2);
            var x3 := MachineRun(MachineStep(x2, BootAction(c2)), w3);
            var y := MachineStep(x3, BootAction(c3));
            && |x0.s.cores| == |x1.s.cores| == |x2.s.cores| == |x3.s.cores| == |x.s.cores|
            && x0.s.answers == x1.s.answers == x2.s.answers == x3.s.answers == x.s.answers && y.s.pc.Idle?
            && y.s.answers == x.s.answers +
                 [Reply(q.core, |x3.s.cores[q.core].hist.submitted| - 1, q.job, timedOut,
                        x0.s.cores[q.core].ctx.fault.occurred, x1.s.cores[q.core].ctx.result.rdtsc,
                        x2.s.cores[q.core].ctx.result.gpf, x3.s.cores[q.core].ctx.result.buffer)]
  {
    hide MachineRun, MachineStep, BootStep;
    var x0 := MachineRun(x, w0);
    ApsLeaveBoot(x, w0);
    FlagsRead(x0, q, timedOut, c0);
    var y0 := MachineStep(x0, BootAction(c0));
    ReadsAndSends(y0, q, timedOut, x0.s.cores[q.core].ctx.fault.occurred, EmptyResult(), w1, c1, w2, c2, w3, c3);
  }

  lemma FlagsRead(x: Machine, q: Request, timedOut: bool, c: BootChoice)
    requires x.s.pc == ReplyFlags(q, timedOut) && !q.job.ReadMsr? && q.core < |x.s.cores| && x.boot.Nothing?
    ensures var y := MachineStep(x, BootAction(c));
            && y.s.pc == ReplyRead(q, timedOut, x.s.cores[q.core].ctx.fault.occurred, 0, EmptyResult())
            && y.s.answers == x.s.answers && y.boot.Nothing? && |y.s.cores| == |x.s.cores|
  {
    hide MachineStep, DoStore, Stores;
    ReplyStep(x, c);
  }

  /** The end of a register read: status 0x2 if the wait timed out, and otherwise the two words that the
      context holds then. */
  lemma ReadIsAnswered(x: Machine, q: Request, timedOut: bool,
                       w0: seq<Action>, c0: BootChoice, w1: seq<Action>, c1: BootChoice)
    requires x.s.pc == ReplyFlags(q, timedOut) && q.job.ReadMsr? && q.core < |x.s.cores| && x.boot.Nothing?
    requires OnlyAps(w0) && OnlyAps(w1)
    ensures var x0 := MachineRun(x, w0);
            var y0 := MachineStep(x0, BootAction(c0));
            var x1 := MachineRun(y0, w1);
            var y1 := MachineStep(x1, BootAction(c1));
            && |x0.s.cores| == |x1.s.cores| == |x.s.cores|
            && if timedOut then
                 && y0.s.pc.Idle?
                 && y0.s.answers == x.s.answers +
                      [MsrTimedOut(q.core, |x0.s.cores[q.core].hist.submitted| - 1, q.job)]
               else
                 && y0.s.answers == x.s.answers && y1.s.pc.Idle?
                 && y1.s.answers == x.s.answers +
                      [MsrReply(q.core, |x1.s.cores[q.core].hist.submitted| - 1, q.job,
                                x1.s.cores[q.core].ctx.result.msr)]
  {
    hide MachineRun, MachineStep;
    var x0 := MachineRun(x, w0);
    ApsLeaveBoot(x, w0);
    ReplyStep(x0, c0);
    var y0 := MachineStep(x0, BootAction(c0));
    ApsLeaveBoot(y0, w1);
    if !timedOut {
      ReplyStep(MachineRun(y0, w1), c1);
    }
  }

  /** The end of a job that core 0 has run itself: after the unlock and its second half one reply, with
      neither flag, and with the report that its context holds. */
  lemma OwnJobIsAnswered(x: Machine, q: Request, c: BootChoice, w: seq<Action>, h: BootChoice,
                         w1: seq<Action>, c1: BootChoice, w2: seq<Action>, c2: BootChoice, w3: seq<Action>,
                         c3: BootChoice)
    requires MachineReachable(x) && x.s.pc == SyncUnlock(q) && q.core < |x.s.cores|
    requires OnlyAps(w) && OnlyAps(w1) && OnlyAps(w2) && OnlyAps(w3)
    ensures var x0 := MachineStep(MachineRun(MachineStep(x, BootAction(c)), w), BootAction(h));
            var x1 := MachineRun(x0, w1);
            var x2 := MachineRun(MachineStep(x1, BootAction(c1)), w2);
            var x3 := MachineRun(MachineStep(x2, BootAction(c2)), w3);
            var y := MachineStep(x3, BootAction(c3));
            var k := x.s.cores[0];
            && q.core == 0 && y.s.pc.Idle?
            && y.s.answers == x.s.answers +
                 [Reply(0, |k.hist.submitted| - 1, q.job, false, false, k.ctx.result.rdtsc, k.ctx.result.gpf,
                        k.ctx.result.buffer)]
  {
    hide MachineRun, MachineStep, MachineReachable;
    var y0 := MachineStep(x, BootAction(c));
    UnlocksOwn(x, q, c);
    MachineReachableStep(x, BootAction(c));
    var z0 := MachineRun(y0, w);
    ApsLeaveOwn(y0, w);
    MachineReachableRun(y0, w);
    OwedFirst(z0, h);
    HalfLeavesReport(z0, h);
    var x0 := MachineStep(z0, BootAction(h));
    ReadsAndSends(x0, q, false, false, EmptyResult(), w1, c1, w2, c2, w3, c3);
    OwnContextKept(x0, q, w1, c1, w2, c2, w3);
  }

  /** What AP steps and core 0's own reading leave of core 0's context: all but the lock. */
  predicate SameReport(k: Core, k': Core) {
    k'.ctx.result == k.ctx.result && k'.hist.submitted == k.hist.submitted
  }

  lemma UnlocksOwn(x: Machine, q: Request, c: BootChoice)
    requires MachineReachable(x) && x.s.pc == SyncUnlock(q) && q.core < |x.s.cores|
    ensures q.core == 0
    ensures var y := MachineStep(x, BootAction(c));
            && y.s.pc == ReplyRead(q, false, false, 0, EmptyResult()) && y.boot == Owed(0)
            && y.s.answers == x.s.answers && |y.s.cores| == |x.s.cores| && SameReport(x.s.cores[0], y.s.cores[0])
  {
    hide DoStore, Stores;
    ReachableMachineInv(x);
  }

  lemma {:induction false} ApsLeaveOwn(x: Machine, acts: seq<Action>)
    requires OnlyAps(acts) && 0 < |x.s.cores|
    ensures var y := MachineRun(x, acts);
            && y.s.pc == x.s.pc && y.boot == x.boot && y.s.answers == x.s.answers && |y.s.cores| == |x.s.cores|
            && y.s.cores[0] == x.s.cores[0]
  {
    hide ApStep;
    if acts != [] {
      var n := |acts| - 1;
      ApsLeaveOwn(x, acts[..n]);
      assert acts[n] in acts;
    }
  }

  lemma HalfLeavesReport(x: Machine, h: BootChoice)
    requires x.boot == Owed(0) && 0 < |x.s.cores|
    ensures var y := MachineStep(x, BootAction(h)); 0 < |y.s.cores| && SameReport(x.s.cores[0], y.s.cores[0])
  {
  }

  lemma OwnContextKept(x: Machine, q: Request, w1: seq<Action>, c1: BootChoice, w2: seq<Action>, c2: BootChoice,
                       w3: seq<Action>)
    requires x.s.pc.ReplyRead? && x.s.pc.q == q && x.s.pc.k == 0 && q.core == 0 < |x.s.cores| && x.boot.Nothing?
    requires OnlyAps(w1) && OnlyAps(w2) && OnlyAps(w3)
    ensures var x1 := MachineRun(x, w1);
            var x2 := MachineRun(MachineStep(x1, BootAction(c1)), w2);
            var x3 := MachineRun(MachineStep(x2, BootAction(c2)), w3);
            && 0 < |x1.s.cores| == |x2.s.cores| == |x3.s.cores|
            && x1.s.cores[0] == x2.s.cores[0] == x3.s.cores[0] == x.s.cores[0]
  {
    hide MachineRun, MachineStep;
    var x1 := MachineRun(x, w1);
    ApsLeaveOwn(x, w1);
    ReplyStep(x1, c1);
    ReadsOnlyOwn(x1, c1);
    var y1 := MachineStep(x1, BootAction(c1));
    var x2 := MachineRun(y1, w2);
    ApsLeaveOwn(y1, w2);
    ReplyStep(x2, c2);
    ReadsOnlyOwn(x2, c2);
    ApsLeaveOwn(MachineStep(x2, BootAction(c2)), w3);
  }

  lemma ReadsOnlyOwn(x: Machine, c: BootChoice)
    requires x.s.pc.ReplyRead? && x.s.pc.q.core == 0 < |x.s.cores| && x.boot.Nothing?
    ensures |MachineStep(x, BootAction(c)).s.cores| == |x.s.cores|
    ensures MachineStep(x, BootAction(c)).s.cores[0] == x.s.cores[0]
  {
    hide DoStore, Stores;
  }

  lemma MachineReachableStep(x: Machine, a: Action)
    requires MachineReachable(x)
    ensures MachineReachable(MachineStep(x, a))
  {
    var x' := Then(x, a);
  }

  lemma {:induction false} MachineReachableRun(x: Machine, acts: seq<Action>)
    requires MachineReachable(x)
    ensures MachineReachable(MachineRun(x, acts))
  {
    hide MachineStep, MachineReachable;
    if acts != [] {
      MachineReachableRun(x, acts[..|acts| - 1]);
      MachineReachableStep(MachineRun(x, acts[..|acts| - 1]), acts[|acts| - 1]);
    }
  }

  // ---- which requests can time out ----

  /** A reply that reports a timeout answers a request to another core, with a timeout; a reply of any
      kind is about the request at hand, and about the job submitted last. */
  lemma TimeoutsMean(s: State, ch: BootChoice)
    requires Reachable(s) && HasTarget(s.pc) && Target(s.pc) < |s.cores|
    ensures forall a :: a in BootStep(s.cores[Target(s.pc)], s.pc, ch).answers && IsReply(a) ==>
              && (s.pc.ReplyFlags? || s.pc.ReplyRead? || s.pc.ReplyMsr?)
              && a.core == s.pc.q.core && a.job == s.pc.q.job
              && a.index == |s.cores[a.core].hist.submitted| - 1
              && (TimedOut(a) <==> s.pc.ReplyFlags? || (s.pc.ReplyRead? && s.pc.timedOut))
              && (TimedOut(a) ==> a.core != 0 && s.pc.q.timeout != 0)
  {
    hide BootStep, HistoryInv, PhaseInv, RestInv, StackInv, LockInv, ShapeInv, BootInv;
    ReachableInv(s);
    var k := s.cores[Target(s.pc)];
    assert CoreInv(Target(s.pc) == 0, k, View(s.pc, Target(s.pc)));
    if s.pc.ReplyFlags? || s.pc.ReplyRead? || s.pc.ReplyMsr? {
      RepliesAre(Target(s.pc) == 0, k, s.pc, ch);
    } else {
      OthersDoNotReply(k, s.pc, ch);
    }
  }

  lemma RepliesAre(boot: bool, k: Core, pc: BootPc, ch: BootChoice)
    requires (pc.ReplyFlags? || pc.ReplyRead? || pc.ReplyMsr?) && BootInv(boot, k, pc) && boot == (Target(pc) == 0)
    ensures forall a :: a in BootStep(k, pc, ch).answers && IsReply(a) ==>
              && a.core == pc.q.core && a.job == pc.q.job && a.index == |k.hist.submitted| - 1
              && (TimedOut(a) <==> pc.ReplyFlags? || (pc.ReplyRead? && pc.timedOut))
              && (TimedOut(a) ==> a.core != 0 && pc.q.timeout != 0)
  {
    hide DoStore, Stores, Matches, Truthful, Called, CleanRecord;
  }

  lemma OthersDoNotReply(k: Core, pc: BootPc, ch: BootChoice)
    requires HasTarget(pc) && !pc.ReplyFlags? && !pc.ReplyRead? && !pc.ReplyMsr?
    ensures forall a :: a in BootStep(k, pc, ch).answers ==> !IsReply(a)
  {
    hide DoStore, Stores, CleanRecord, Finish, SeenIn;
  }

  // ---- cores that have locked up ----

  /** A core that is about to lock up has its record marked, and keeps it so. */
  lemma LockUpMarks(s: State, t: nat)
    requires Reachable(s) && 0 < t < |s.cores|
    requires s.cores[t].ap.pc.InHandler? && s.cores[t].ap.pc.kind.LocksUp? && s.cores[t].ap.pc.marked
    ensures var s' := Step(s, ApAction(t, Go));
            |s'.cores| == |s.cores| && s'.cores[t].ap.pc.DeadLoop? && s'.cores[t].ctx.fault.occurred
  {
    hide Matches, Truthful, Called, CleanRecord;
    ReachableInv(s);
    assert CoreInv(t == 0, s.cores[t], View(s.pc, t));
  }

  /** Core 0 has not yet looked at the mark, or has seen it. */
  predicate MarkSeen(pc: BootPc, t: nat) { pc.ReplyRead? && pc.q.core == t ==> pc.faultBit }

  predicate SaysFaulted(a: Answer) { a.Reply? ==> a.timedOut && a.faultBit }

  /** Every reply that core 0 sends about an execute job on such a core reports the timeout, and the
      fault. */
  lemma {:induction false} LockedUpIsReported(s: State, acts: seq<Action>, t: nat)
    requires Reachable(s) && t < |s.cores| && s.cores[t].ap.pc.DeadLoop? && s.cores[t].ctx.fault.occurred
    requires MarkSeen(s.pc, t)
    ensures var s' := Run(s, acts);
            && s.answers <= s'.answers && MarkSeen(s'.pc, t) && |s'.cores| == |s.cores| && s'.cores[t] == s.cores[t]
            && forall i :: |s.answers| <= i < |s'.answers| && s'.answers[i].core == t ==> SaysFaulted(s'.answers[i])
  {
    hide Step;
    DeadForever(s, acts, t);
    if acts == [] {
      assert Run(s, []) == s;
    } else {
      var n := |acts| - 1;
      LockedUpIsReported(s, acts[..n], t);
      DeadForever(s, acts[..n], t);
      LockedUpStep(Run(s, acts[..n]), acts[n], t);
    }
  }

  lemma LockedUpStep(s: State, a: Action, t: nat)
    requires Reachable(s) && t < |s.cores| && s.cores[t].ap.pc.DeadLoop? && s.cores[t].ctx.fault.occurred
    requires MarkSeen(s.pc, t)
    ensures var s' := Step(s, a);
            && s.answers <= s'.answers && MarkSeen(s'.pc, t)
            && forall i :: |s.answers| <= i < |s'.answers| && s'.answers[i].core == t ==> SaysFaulted(s'.answers[i])
  {
    hide ApStep, BootStep, PhaseInv, RestInv, StackInv, LockInv, ShapeInv, HistoryInv, BootInv, AnswerOk, SaysFaulted,
      AboutDead;
    ReachableInv(s);
    DeadStep(s, a, t);
    if a.BootAction? && HasTarget(s.pc) && Target(s.pc) < |s.cores| {
      var u := Target(s.pc);
      var b := BootStep(s.cores[u], s.pc, a.boot);
      assert CoreInv(u == 0, s.cores[u], View(s.pc, u));
      assert CoreInv(t == 0, s.cores[t], View(s.pc, t));
      NotCore0(s.cores[t], View(s.pc, t), t == 0);
      AnswersGiven(u == 0, s.cores[u], s.pc, a.boot);
      BootKeeps(u == 0, s.cores[u], s.pc, a.boot);
      if u == t {
        MarkIsRead(s.cores[t], s.pc, a.boot);
      }
      forall i | |s.answers| <= i < |s.answers + b.answers| && (s.answers + b.answers)[i].core == t
        ensures SaysFaulted((s.answers + b.answers)[i])
      {
        assert (s.answers + b.answers)[i] == b.answers[i - |s.answers|];
        assert b.answers[i - |s.answers|] in b.answers;
      }
    }
  }

  lemma MarkIsRead(k: Core, pc: BootPc, ch: BootChoice)
    requires HasTarget(pc) && Target(pc) > 0 && k.ap.pc.DeadLoop? && k.ctx.fault.occurred
    requires ShapeInv(false, k) && LockInv(k, pc) && HistoryInv(k) && PhaseInv(false, k, pc) && BootInv(false, k, pc)
    requires MarkSeen(pc, Target(pc))
    ensures var b := BootStep(k, pc, ch);
            MarkSeen(b.pc, Target(pc)) && forall a :: a in b.answers ==> SaysFaulted(a)
  {
    hide DoStore, Stores, Matches, Truthful, Called, CleanRecord;
  }
}
