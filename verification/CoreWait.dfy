/** wait_on_ap_exec as the loop it is, with the APs interfering between any two of its accesses; but a
    release is one access here, as in CoreSteps. What comes of its two halves is in CoreRelease and
    CoreCollisions. */
module CoreWait {
  import opened CoreContexts
  import opened CoreSteps
  import opened CoreInvariant
  import opened CoreMailbox
  import opened CoreTheorems
  import opened CoreBounds

  lemma {:induction false} ApsRun(s: State, acts: seq<Action>)
    requires Reachable(s) && OnlyAps(acts)
    ensures var s' := Run(s, acts); Reachable(s') && s'.pc == s.pc && |s'.cores| == |s.cores|
  {
    if acts != [] {
      ApsRun(s, acts[..|acts| - 1]);
      ReachableStep(Run(s, acts[..|acts| - 1]), acts[|acts| - 1]);
    }
  }

  /** Returned is FALSE of the source (the job is done), TimedOut is TRUE; StillWaiting means that
      the given interference is used up, which with timeout 0 may go on forever. */
  datatype Outcome = Returned | TimedOut | StillWaiting

  /** Where core 0 goes from a program counter inside the wait, given the context it looks at. */
  function WaitNext(c: Context, pc: BootPc): BootPc
    requires InWait(pc)
  {
    match pc
    case WaitLock(q, n) => if c.lock then WaitTick(q, n) else WaitTry(q, n)
    case WaitTry(q, n) => if c.lock then WaitTick(q, n) else WaitReady(q, n)
    case WaitReady(q, n) => if c.ready then WaitQueued(q, n) else WaitUnlock(q, n, false)
    case WaitQueued(q, n) => WaitUnlock(q, n, !c.jobQueued)
    case WaitUnlock(q, n, done) => if done then ReplyFlags(q, false) else WaitTick(q, n)
    case WaitTick(q, n) =>
      if q.timeout == 0 then WaitLock(q, n) else if n + 1 >= q.timeout then ReplyFlags(q, true) else WaitLock(q, n + 1)
  }

  lemma WaitNextIsStep(k: Core, pc: BootPc, ch: BootChoice)
    requires InWait(pc)
    ensures BootStep(k, pc, ch).pc == WaitNext(k.ctx, pc)
  {
  }

  /** The APs move, then core 0 makes one access to the context it waits for. */
  method Access(s: State, interference: seq<Action>) returns (before: Context, s': State)
    requires Reachable(s) && InWait(s.pc) && s.pc.q.core < |s.cores| && OnlyAps(interference)
    ensures Reachable(s') && |s'.cores| == |s.cores| && s'.pc == WaitNext(before, s.pc)
  {
    ApsRun(s, interference);
    var r := Run(s, interference);
    before := r.cores[s.pc.q.core].ctx;
    s' := Step(r, BootAction(Proceed));
    ReachableStep(r, BootAction(Proceed));
    WaitNextIsStep(r.cores[s.pc.q.core], s.pc, Proceed);
  }

  /** The job submitted last is job; it has finished, and the context holds its report. */
  predicate JobDone(k: Core, job: Job) {
    var h := k.hist;
    && h.submitted != [] && Last(h.submitted) == job
    && |h.completed| == |h.submitted| == |h.accepted|
    && Matches(Last(h.completed).seen, job) && Truthful(Last(h.completed))
    && k.ctx.result == Last(h.completed).result
    && k.ctx.fault == Last(h.completed).fault
  }

  lemma DoneMeansDone(s: State, q: Request)
    requires Reachable(s) && s.pc == ReplyFlags(q, false) && q.core < |s.cores|
    ensures JobDone(s.cores[q.core], q.job)
  {
    ReachableInv(s);
    assert CoreInv(q.core == 0, s.cores[q.core], View(s.pc, q.core));
  }

  /** One look at the context: the part of the loop body before the timeout handling. */
  method Look(s: State, env: seq<seq<Action>>) returns (s': State, finished: bool)
    requires Reachable(s) && s.pc.WaitLock? && s.pc.q.core < |s.cores|
    requires |env| == 5 && forall e :: e in env ==> OnlyAps(e)
    ensures Reachable(s') && |s'.cores| == |s.cores|
    ensures s'.pc == if finished then ReplyFlags(s.pc.q, false) else WaitTick(s.pc.q, s.pc.n)
  {
    finished := false;
    var c: Context;
    c, s' := Access(s, env[0]);
    if !c.lock {
      c, s' := Access(s', env[1]);
      if !c.lock {
        c, s' := Access(s', env[2]);
        if c.ready {
          c, s' := Access(s', env[3]);
          finished := !c.jobQueued;
        }
        c, s' := Access(s', env[4]);
      }
    }
  }

  method WaitOnApExec(s0: State, q: Request, env: seq<seq<Action>>)
    returns (s: State, outcome: Outcome, iterations: nat)
    requires Reachable(s0) && s0.pc == WaitLock(q, 0) && q.core < |s0.cores|
    requires forall e :: e in env ==> OnlyAps(e)
    ensures Reachable(s) && q.core < |s.cores|
    ensures outcome.Returned? ==>
              s.pc == ReplyFlags(q, false) && JobDone(s.cores[q.core], q.job)
    ensures outcome.TimedOut? ==> q.timeout != 0 && iterations == q.timeout && s.pc == ReplyFlags(q, true)
    ensures q.timeout != 0 ==> iterations <= q.timeout
    ensures q.timeout != 0 && |env| >= 6 * q.timeout ==> !outcome.StillWaiting?
  {
    s, iterations := s0, 0;
    var used := 0;
    while used + 6 <= |env|
      invariant Reachable(s) && |s.cores| == |s0.cores|
      invariant s.pc == WaitLock(q, iterations)
      invariant used <= |env|
      invariant if q.timeout == 0 then iterations == 0 else used == 6 * iterations && iterations < q.timeout
    {
      var finished;
      s, finished := Look(s, env[used..used + 5]);
      if finished {
        DoneMeansDone(s, q);
        return s, Returned, iterations;
      }
      var c;
      c, s := Access(s, env[used + 5]);
      used := used + 6;
      if q.timeout != 0 {
        iterations := iterations + 1;
        if iterations >= q.timeout {
          return s, TimedOut, iterations;
        }
      }
    }
    outcome := StillWaiting;
  }
}
