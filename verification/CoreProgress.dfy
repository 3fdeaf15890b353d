/** No hand-off of the lock leaves a core stuck: an AP that is left alone finishes whatever it has
    been given, from every reachable state. */
module CoreProgress {
  import opened CoreContexts
  import opened CoreSteps
  import opened CoreInvariant
  import opened CoreTheorems

  /** Started, and neither locked up nor about to be. */
  predicate Alive(pc: ApPc) { !pc.Off? && !pc.DeadLoop? && !(pc.InHandler? && pc.kind.LocksUp?) }

  /** Back in the spin loop with nothing left to do. */
  predicate AtRest(k: Core) {
    InSpin(k.ap.pc) && !k.ctx.jobQueued && |k.hist.completed| == |k.hist.accepted| == |k.hist.submitted|
  }

  /** Steps an AP needs from pc to the unlock of a job, if its functions return. */
  function StepsLeft(pc: ApPc): (n: nat)
    ensures n <= 17
  {
    match pc
    case SpinLock => 17
    case SpinQueued => 16
    case TryLock => 15
    case Recheck => 14
    case ClearReady => 13
    case ClearQueued => 12
    case CheckFault => 11
    case InHandler(_, _, marked) => if marked then 9 else 10
    case ZeroFault => 10
    case NextCall(i) => if i < CORE_FUNCTION_SLOTS then 3 + 2 * (CORE_FUNCTION_SLOTS - i) else 3
    case InCall(i) => if i < CORE_FUNCTION_SLOTS then 2 + 2 * (CORE_FUNCTION_SLOTS - i) else 4
    case SaveRsp => 6
    case RestoreRsp => 6
    case MainStarted => 5
    case MainReady => 4
    case MainQueued => 3
    case SetReady => 2
    case MainUnlock => 2
    case Unlock(_) => 1
    case _ => 0
  }

  lemma GoAdvances(boot: bool, k: Core, v: BootPc)
    requires LockInv(k, v) && HistoryInv(k) && PhaseInv(boot, k, v)
    requires !BootHolds(v) && Alive(k.ap.pc) && !AtRest(k)
    ensures var k' := ApStep(k, Go);
            Alive(k'.ap.pc) && (AtRest(k') || StepsLeft(k'.ap.pc) < StepsLeft(k.ap.pc))
  {
    hide Matches, Truthful, Called, SyncInv, CleanRecord;
  }

  function Alone(t: nat, n: nat): seq<Action> { seq(n, i => ApAction(t, Go)) }

  lemma {:induction false} RunAppend(s: State, first: seq<Action>, later: seq<Action>)
    ensures Run(s, first + later) == Run(Run(s, first), later)
  {
    if later == [] {
      assert first + later == first;
    } else {
      var n := |later| - 1;
      assert (first + later)[..|first + later| - 1] == first + later[..n];
      RunAppend(s, first, later[..n]);
    }
  }

  function Work(k: Core): nat { if AtRest(k) then 0 else StepsLeft(k.ap.pc) }

  ghost predicate Finished(s: State, t: nat) {
    t < |s.cores| && AtRest(s.cores[t]) && s.cores[t].ctx.ready && !s.cores[t].ctx.lock
  }

  lemma RestIsFinished(boot: bool, k: Core, v: BootPc)
    requires LockInv(k, v) && PhaseInv(boot, k, v) && !BootHolds(v) && AtRest(k)
    ensures k.ctx.ready && !k.ctx.lock
  {
  }

  /** From every reachable state in which core 0 does not own the context of a live core, at most 17
      steps of that core, with its functions returning, complete every job submitted to it and leave
      the context free and ready for the next. */
  lemma {:induction false} FinishesAlone(s: State, t: nat)
    requires Reachable(s) && 0 < t < |s.cores|
    requires Alive(s.cores[t].ap.pc) && !BootHolds(View(s.pc, t))
    ensures exists n: nat :: n <= Work(s.cores[t]) <= 17 && Finished(Run(s, Alone(t, n)), t)
    decreases Work(s.cores[t])
  {
    hide ApStep, HistoryInv, LockInv, PhaseInv, RestInv, StackInv, ShapeInv, BootInv, AtRest, BootHolds;
    ReachableInv(s);
    var k, v := s.cores[t], View(s.pc, t);
    assert CoreInv(t == 0, k, v);
    if AtRest(k) {
      RestIsFinished(false, k, v);
      assert Alone(t, 0) == [] && Finished(Run(s, Alone(t, 0)), t);
    } else {
      var a := ApAction(t, Go);
      GoAdvances(false, k, v);
      ReachableStep(s, a);
      var s' := Step(s, a);
      FinishesAlone(s', t);
      var n: nat :| n <= Work(s'.cores[t]) && Finished(Run(s', Alone(t, n)), t);
      assert Run(s, [a]) == s' by { assert [a][..0] == []; }
      RunAppend(s, [a], Alone(t, n));
      assert [a] + Alone(t, n) == Alone(t, n + 1);
      assert Finished(Run(s, Alone(t, n + 1)), t);
    }
  }
}
