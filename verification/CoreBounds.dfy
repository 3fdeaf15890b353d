/** Cores that never come back, and how long core 0 waits for one. */
module CoreBounds {
  import opened CoreContexts
  import opened CoreSteps
  import opened CoreInvariant
  import opened CoreTheorems

  // ---- dead cores ----

  /** Core 0 is not in the middle of anything with core t but asking whether it takes a job, or
      whether it can be started. */
  predicate NoneUnderWay(pc: BootPc, t: nat) {
    HasTarget(pc) && Target(pc) == t ==>
      pc.StartPresent? || pc.StartStarted? || pc.AcqPresent? || pc.AcqStarted? || pc.AcqTryLock?
  }

  /** The only things core 0 ever says about a dead core: refusals; and that a wait which was already
      under way when the core died timed out. */
  predicate AboutDead(a: Answer, underWay: bool) {
    || (a.Rejected? && a.status == 0x204)
    || (a.StartFailed? && a.status == 0x4)
    || (underWay && IsReply(a) && TimedOut(a))
  }

  lemma DeadCoreStep(k: Core, pc: BootPc, ch: BootChoice)
    requires HasTarget(pc) && k.ap.pc.DeadLoop?
    requires ShapeInv(false, k) && LockInv(k, pc) && HistoryInv(k) && PhaseInv(false, k, pc) && BootInv(false, k, pc)
    ensures BootStep(k, pc, ch).core == k
    ensures forall a :: a in BootStep(k, pc, ch).answers ==> AboutDead(a, !NoneUnderWay(pc, Target(pc)))
    ensures NoneUnderWay(pc, Target(pc)) ==> NoneUnderWay(BootStep(k, pc, ch).pc, Target(pc))
  {
    hide Matches, Truthful, Called;
    assert k.ctx.lock && !BootHolds(pc);
  }

  lemma DeadStep(s: State, a: Action, t: nat)
    requires StateInv(s) && t < |s.cores| && s.cores[t].ap.pc.DeadLoop?
    ensures var s' := Step(s, a);
            && |s'.cores| == |s.cores| && s'.cores[t] == s.cores[t]
            && s.answers <= s'.answers
            && (NoneUnderWay(s.pc, t) ==> NoneUnderWay(s'.pc, t))
            && forall i :: |s.answers| <= i < |s'.answers| && s'.answers[i].core == t ==>
                 AboutDead(s'.answers[i], !NoneUnderWay(s.pc, t))
  {
    hide PhaseInv, RestInv, StackInv, LockInv, ShapeInv, HistoryInv, BootInv, AboutDead, AnswerOk, BootStep;
    assert CoreInv(t == 0, s.cores[t], View(s.pc, t));
    NotCore0(s.cores[t], View(s.pc, t), t == 0);
    if a.BootAction? && HasTarget(s.pc) {
      var u := Target(s.pc);
      var b := BootStep(s.cores[u], s.pc, a.boot);
      if u == t {
        DeadCoreStep(s.cores[t], s.pc, a.boot);
      } else {
        assert CoreInv(u == 0, s.cores[u], View(s.pc, u));
        AnswersGiven(u == 0, s.cores[u], s.pc, a.boot);
        BootKeeps(u == 0, s.cores[u], s.pc, a.boot);
      }
      forall i | |s.answers| <= i < |s.answers + b.answers| && (s.answers + b.answers)[i].core == t
        ensures AboutDead((s.answers + b.answers)[i], !NoneUnderWay(s.pc, t))
      {
        assert (s.answers + b.answers)[i] == b.answers[i - |s.answers|];
        assert b.answers[i - |s.answers|] in b.answers;
      }
    }
  }

  lemma NotCore0(k: Core, v: BootPc, boot: bool)
    requires ShapeInv(boot, k) && k.ap.pc.DeadLoop?
    ensures !boot
  {
  }

  /** Once a core is locked up, or runs a job that never ends, nothing any core does changes its
      context again. Whatever core 0 still says about it is a refusal: 0x204 for a job, 0x4 for a
      start; only a wait that was under way may end, in a timeout. */
  lemma {:induction false} DeadForever(s: State, acts: seq<Action>, t: nat)
    requires Reachable(s) && t < |s.cores| && s.cores[t].ap.pc.DeadLoop?
    ensures var s' := Run(s, acts);
            && Reachable(s')
            && |s'.cores| == |s.cores| && s'.cores[t] == s.cores[t]
            && s.answers <= s'.answers
            && (NoneUnderWay(s.pc, t) ==> NoneUnderWay(s'.pc, t))
            && forall i :: |s.answers| <= i < |s'.answers| && s'.answers[i].core == t ==>
                 AboutDead(s'.answers[i], !NoneUnderWay(s.pc, t))
  {
    hide StateInv, Step;
    if acts != [] {
      var n := |acts| - 1;
      DeadForever(s, acts[..n], t);
      var m := Run(s, acts[..n]);
      ReachableInv(m);
      DeadStep(m, acts[n], t);
      ReachableStep(m, acts[n]);
      if !NoneUnderWay(s.pc, t) {
        UnderWayAllowsMore();
      }
    }
  }

  lemma UnderWayAllowsMore()
    ensures forall a, u :: AboutDead(a, u) ==> AboutDead(a, true)
  {
  }

  function BootActions(acts: seq<Action>): nat {
    if acts == [] then 0 else BootActions(acts[..|acts| - 1]) + if acts[|acts| - 1].BootAction? then 1 else 0
  }

  /** Where core 0 is after n steps of a job request to a dead core. */
  function Refusal(q: Request, n: nat): BootPc {
    if n == 0 then AcqPresent(q) else if n == 1 then AcqStarted(q) else if n == 2 then AcqTryLock(q) else Idle
  }

  lemma RefusalStep(k: Core, q: Request, n: nat, ch: BootChoice)
    requires ShapeInv(false, k) && LockInv(k, Refusal(q, n)) && PhaseInv(false, k, Refusal(q, n))
    requires k.ap.pc.DeadLoop? && n < 3
    ensures BootStep(k, Refusal(q, n), ch) ==
            Boot(k, Refusal(q, n + 1), if n == 2 then [Rejected(q.core, 0x204)] else [])
  {
    hide HistoryInv, SyncInv, CallsSoFar;
  }

  /** A job request to a dead core is answered 0x204: after three steps of core 0, however many steps
      the APs take in between, by exactly that one message. */
  lemma {:induction false} DeadAnswers(s: State, q: Request, acts: seq<Action>)
    requires Reachable(s) && s.pc.Idle? && q.core < |s.cores| && s.cores[q.core].ap.pc.DeadLoop?
    requires BootActions(acts) <= 3
    ensures var s' := Run(Step(s, BootAction(Submit(q))), acts);
            && s'.pc == Refusal(q, BootActions(acts))
            && s'.answers == s.answers + if BootActions(acts) == 3 then [Rejected(q.core, 0x204)] else []
  {
    hide StateInv, PhaseInv, RestInv, StackInv, LockInv, ShapeInv, HistoryInv, BootInv, BootStep, ApStep, AboutDead;
    var submit := BootAction(Submit(q));
    var s0 := Step(s, submit);
    ReachableStep(s, submit);
    DeadOnSubmit(s, q);
    if acts != [] {
      var n := |acts| - 1;
      DeadAnswers(s, q, acts[..n]);
      DeadForever(s0, acts[..n], q.core);
      var m := Run(s0, acts[..n]);
      if acts[n].BootAction? {
        DeadParts(m, q.core);
        RefusalStep(m.cores[q.core], q, BootActions(acts[..n]), acts[n].boot);
      }
    }
  }

  lemma DeadOnSubmit(s: State, q: Request)
    requires Reachable(s) && s.pc.Idle? && q.core < |s.cores| && s.cores[q.core].ap.pc.DeadLoop?
    ensures Step(s, BootAction(Submit(q))) == s.(pc := AcqPresent(q))
  {
    DeadParts(s, q.core);
  }

  lemma DeadParts(s: State, t: nat)
    requires Reachable(s) && t < |s.cores| && s.cores[t].ap.pc.DeadLoop?
    ensures t != 0 && ShapeInv(false, s.cores[t])
    ensures LockInv(s.cores[t], View(s.pc, t)) && PhaseInv(false, s.cores[t], View(s.pc, t))
  {
    hide PhaseInv, RestInv, StackInv, LockInv, HistoryInv, BootInv, AnswerOk;
    ReachableInv(s);
    assert CoreInv(t == 0, s.cores[t], View(s.pc, t));
  }

  // ---- bounded waiting ----

  /** Steps of APs, between two steps of core 0. */
  predicate OnlyAps(acts: seq<Action>) { forall a :: a in acts ==> a.ApAction? }

  predicate InWait(pc: BootPc) {
    pc.WaitLock? || pc.WaitTry? || pc.WaitReady? || pc.WaitQueued? || pc.WaitUnlock? || pc.WaitTick?
  }

  /** How many more steps core 0 can take before wait_on_ap_exec gives up. */
  function WaitRank(pc: BootPc): int
    requires InWait(pc)
  {
    6 * (pc.q.timeout - pc.n - 1) +
    (match pc
     case WaitLock(_, _) => 6
     case WaitTry(_, _) => 5
     case WaitReady(_, _) => 4
     case WaitQueued(_, _) => 3
     case WaitUnlock(_, _, _) => 2
     case _ => 1)
  }

  lemma WaitAdvances(k: Core, pc: BootPc, ch: BootChoice)
    requires InWait(pc) && pc.q.timeout != 0 && pc.n < pc.q.timeout
    ensures var pc' := BootStep(k, pc, ch).pc;
            || (pc'.ReplyFlags? && pc'.q == pc.q)
            || (InWait(pc') && pc'.q == pc.q && pc'.n < pc'.q.timeout && 1 <= WaitRank(pc') < WaitRank(pc))
  {
  }

  /** With a timeout, core 0 leaves wait_on_ap_exec after finitely many of its own steps, whatever
      the APs do: at the latest after WaitRank steps, at most 6 for each of timeout iterations. */
  lemma {:induction false} WaitReturns(s: State, acts: seq<Action>)
    requires InWait(s.pc) && s.pc.q.core < |s.cores| && s.pc.q.timeout != 0 && s.pc.n < s.pc.q.timeout
    ensures var s' := Run(s, acts);
            || (exists i :: 0 <= i <= |acts| && Run(s, acts[..i]).pc.ReplyFlags? && Run(s, acts[..i]).pc.q == s.pc.q)
            || (&& InWait(s'.pc) && s'.pc.q == s.pc.q && s'.pc.n < s'.pc.q.timeout && |s'.cores| == |s.cores|
                && 1 <= WaitRank(s'.pc) <= WaitRank(s.pc) - BootActions(acts))
  {
    if acts != [] {
      var n := |acts| - 1;
      WaitReturns(s, acts[..n]);
      var m := Run(s, acts[..n]);
      if i: nat :| i <= n && Run(s, acts[..n][..i]).pc.ReplyFlags? && Run(s, acts[..n][..i]).pc.q == s.pc.q {
        assert acts[..n][..i] == acts[..i];
      } else {
        if acts[n].BootAction? {
          WaitAdvances(m.cores[Target(m.pc)], m.pc, acts[n].boot);
        }
        assert acts[..|acts|] == acts;
      }
    }
  }

  /** Hence WaitRank steps of core 0 are always enough: 6 * timeout from the start of the wait. */
  lemma WaitIsBounded(s: State, acts: seq<Action>)
    requires InWait(s.pc) && s.pc.q.core < |s.cores| && s.pc.q.timeout != 0 && s.pc.n < s.pc.q.timeout
    requires BootActions(acts) >= WaitRank(s.pc)
    ensures exists i :: 0 <= i <= |acts| && Run(s, acts[..i]).pc.ReplyFlags? && Run(s, acts[..i]).pc.q == s.pc.q
    ensures s.pc.WaitLock? && s.pc.n == 0 ==> WaitRank(s.pc) == 6 * s.pc.q.timeout
  {
    WaitReturns(s, acts);
  }
}
