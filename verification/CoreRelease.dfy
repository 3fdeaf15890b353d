/** The same machine with unlock_context as the two accesses it is: a store, and later, with anything
    in between, a compare-exchange from 1 to 0. Exactly the runs in which no such exchange meets a lock
    that has been taken again are runs of CoreSteps; in any other, mutual exclusion is lost. */
module CoreRelease {
  import opened CoreSteps
  import opened CoreTheorems
  import CoreLock

  /** Whether core 0 owes the second half of a release, and of which lock. */
  datatype Half = Nothing | Owed(t: nat)

  /** aps are the APs that owe the second half of releasing their own lock; lost are those whose
      core_main_loop has, after a recovery, cleared job_queued of a job that was never accepted. */
  datatype Machine = Machine(s: State, boot: Half, aps: set<nat>, lost: set<nat>)

  predicate ApUnlocks(pc: ApPc) { pc.MainUnlock? || pc.Unlock? }

  predicate BootUnlocks(pc: BootPc) {
    pc.StartUnlock? || pc.AcqUnlock? || pc.SyncUnlock? || pc.UnlockJob? || pc.WaitUnlock?
  }

  predicate Releases(s: State, a: Action) {
    match a
    case ApAction(t, _) => 0 < t < |s.cores| && ApUnlocks(s.cores[t].ap.pc)
    case BootAction(_) => HasTarget(s.pc) && Target(s.pc) < |s.cores| && BootUnlocks(s.pc)
  }

  predicate Loses(k: Core) { k.ap.pc.MainQueued? && k.ctx.jobQueued }

  predicate SecondHalf(x: Machine, a: Action) {
    match a
    case ApAction(t, _) => t in x.aps && 0 < t < |x.s.cores|
    case BootAction(_) => x.boot.Owed? && x.boot.t < |x.s.cores|
  }

  function LockOf(x: Machine, a: Action): (t: nat)
    requires SecondHalf(x, a)
    ensures t < |x.s.cores|
  {
    match a
    case ApAction(t, _) => t
    case BootAction(_) => x.boot.t
  }

  /** The second half: interlocked_compare_exchange_64(&context->lock, 1, 0). */
  function Exchange(s: State, t: nat): State
    requires t < |s.cores|
  {
    var k := s.cores[t];
    var word := CoreLock.CompareExchange(if k.ctx.lock then 1 else 0, 1, 0).0;
    s.(cores := s.cores[t := k.(ctx := k.ctx.(lock := word == 1))])
  }

  /** Whoever owes the second half of a release does that next. */
  function MachineStep(x: Machine, a: Action): Machine {
    match a
    case ApAction(t, _) =>
      if SecondHalf(x, a) then x.(s := Exchange(x.s, t), aps := x.aps - {t})
      else
        Machine(Step(x.s, a), x.boot, if Releases(x.s, a) then x.aps + {t} else x.aps,
                if 0 < t < |x.s.cores| && Loses(x.s.cores[t]) then x.lost + {t} else x.lost)
    case BootAction(_) =>
      if SecondHalf(x, a) then x.(s := Exchange(x.s, x.boot.t), boot := Nothing)
      else x.(s := Step(x.s, a), boot := if Releases(x.s, a) then Owed(Target(x.s.pc)) else x.boot)
  }

  function MachineRun(x: Machine, acts: seq<Action>): Machine {
    if acts == [] then x else MachineStep(MachineRun(x, acts[..|acts| - 1]), acts[|acts| - 1])
  }

  function Started(present: seq<bool>): Machine { Machine(Initial(present), Nothing, {}, {}) }

  // ---- when the two halves amount to one step ----

  /** The second half of a release finds the lock taken again, by somebody else. */
  predicate Collides(x: Machine, a: Action) { SecondHalf(x, a) && x.s.cores[LockOf(x, a)].ctx.lock }

  predicate Clean(x: Machine, acts: seq<Action>) {
    acts == [] ||
    (Clean(x, acts[..|acts| - 1]) && !Collides(MachineRun(x, acts[..|acts| - 1]), acts[|acts| - 1]))
  }

  lemma CleanStep(x: Machine, a: Action)
    requires !Collides(x, a)
    ensures MachineStep(x, a).s == if SecondHalf(x, a) then x.s else Step(x.s, a)
  {
    if SecondHalf(x, a) {
      var t := LockOf(x, a);
      assert x.s.cores[t := x.s.cores[t]] == x.s.cores;
    }
  }

  /** Without a collision a run with split releases goes through states of the step system only, so
      everything that is proved of reachable states holds in all of them. */
  lemma {:induction false} CleanRunsProject(present: seq<bool>, acts: seq<Action>)
    requires Clean(Started(present), acts)
    ensures var x := MachineRun(Started(present), acts); Reachable(x.s) && |x.s.cores| == |present|
  {
    if acts == [] {
      assert Run(Initial(present), []) == Initial(present);
    } else {
      var n := |acts| - 1;
      CleanRunsProject(present, acts[..n]);
      var x := MachineRun(Started(present), acts[..n]);
      CleanStep(x, acts[n]);
      ReachableStep(x.s, acts[n]);
      StepKeepsCores(x.s, acts[n]);
    }
  }

  lemma StepKeepsCores(s: State, a: Action)
    ensures |Step(s, a).cores| == |s.cores|
  {
  }

  /** The first collision leaves a context with an owner but without a lock. */
  lemma CollisionBreaks(x: Machine, a: Action)
    requires Reachable(x.s) && Collides(x, a)
    ensures |MachineStep(x, a).s.cores| == |x.s.cores| && !OwnedOnce(MachineStep(x, a).s, LockOf(x, a))
  {
    MutualExclusion(x.s, LockOf(x, a));
  }

  /** The lock of every context is set iff it has exactly one owner. */
  predicate Exclusive(s: State) { forall t :: 0 <= t < |s.cores| ==> OwnedOnce(s, t) }

  predicate ExclusiveThroughout(x: Machine, acts: seq<Action>) {
    Exclusive(MachineRun(x, acts).s) && (acts == [] || ExclusiveThroughout(x, acts[..|acts| - 1]))
  }

  /** Mutual exclusion holds throughout a run with split releases iff no second half of a release finds
      the lock taken again. */
  lemma {:induction false} ExclusiveIffClean(present: seq<bool>, acts: seq<Action>)
    ensures ExclusiveThroughout(Started(present), acts) <==> Clean(Started(present), acts)
  {
    var x := Started(present);
    if acts != [] {
      var n := |acts| - 1;
      ExclusiveIffClean(present, acts[..n]);
      if Clean(x, acts[..n]) {
        CleanRunsProject(present, acts[..n]);
        var m := MachineRun(x, acts[..n]);
        if Collides(m, acts[n]) {
          CollisionBreaks(m, acts[n]);
        }
      }
    }
    if Clean(x, acts) {
      CleanRunsProject(present, acts);
      ReachableExclusive(MachineRun(x, acts).s);
    }
  }

  lemma ReachableExclusive(s: State)
    requires Reachable(s)
    ensures Exclusive(s)
  {
    forall t | 0 <= t < |s.cores|
      ensures OwnedOnce(s, t)
    {
      MutualExclusion(s, t);
    }
  }

  /** Status 0x205 is not sent in a run without a collision. */
  lemma No205WhenClean(present: seq<bool>, acts: seq<Action>)
    requires Clean(Started(present), acts)
    ensures forall a :: a in MachineRun(Started(present), acts).s.answers && a.Rejected? ==> a.status != 0x205
  {
    CleanRunsProject(present, acts);
    ReachableInv(MachineRun(Started(present), acts).s);
  }

  /** Nor does core 0 in such a run ever answer for a job that is not done. */
  lemma CleanRepliesAreSound(present: seq<bool>, acts: seq<Action>)
    requires Clean(Started(present), acts)
    ensures var s := MachineRun(Started(present), acts).s;
            forall a :: a in s.answers && IsReply(a) && !TimedOut(a) ==>
              a.core < |s.cores| && DoneAndReported(s.cores[a.core].hist, a)
  {
    hide DoneAndReported;
    CleanRunsProject(present, acts);
    var s := MachineRun(Started(present), acts).s;
    forall a | a in s.answers && IsReply(a) && !TimedOut(a)
      ensures a.core < |s.cores| && DoneAndReported(s.cores[a.core].hist, a)
    {
      RepliesAreSound(s, a);
    }
  }

  // ---- all runs ----

  ghost predicate MachineReachable(x: Machine) {
    exists present: seq<bool>, acts: seq<Action> :: x == MachineRun(Started(present), acts)
  }

  lemma Then(x: Machine, a: Action) returns (x': Machine)
    requires MachineReachable(x)
    ensures x' == MachineStep(x, a) && MachineReachable(x')
  {
    var present: seq<bool>, acts: seq<Action> :| x == MachineRun(Started(present), acts);
    x' := MachineStep(x, a);
    assert (acts + [a])[..|acts|] == acts;
    assert x' == MachineRun(Started(present), acts + [a]);
  }
}
