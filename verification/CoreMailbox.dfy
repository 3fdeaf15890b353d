/** The specification of the job protocol: one mailbox per core with room for one job. The step
    system of CoreSteps refines it. */
module CoreMailbox {
  import opened CoreContexts
  import opened CoreSteps
  import opened CoreInvariant

  datatype Phase =
    | Stopped | Starting | Ready
    | Queued(job: Job) | Running(job: Job) | Dead(job: Job)

  /** A mailbox, with everything that ever went in, was taken out, and was reported back. */
  datatype Box = Box(phase: Phase, submitted: seq<Job>, accepted: seq<Seen>, completed: seq<Completion>)

  function Last<T>(s: seq<T>): T
    requires s != []
  {
    s[|s| - 1]
  }

  // ---- the six moves of a mailbox ----

  predicate Launches(b: Box, b': Box) { b.phase.Stopped? && b' == b.(phase := Starting) }

  predicate ComesUp(b: Box, b': Box) { b.phase.Starting? && b' == b.(phase := Ready) }

  predicate Receives(b: Box, b': Box) {
    b.phase.Ready? && b'.phase.Queued? && b' == b.(phase := b'.phase, submitted := b.submitted + [b'.phase.job])
  }

  predicate Accepts(b: Box, b': Box) {
    && b.phase.Queued? && b'.accepted != []
    && b' == b.(phase := Running(b.phase.job), accepted := b.accepted + [Last(b'.accepted)])
    && Matches(Last(b'.accepted), b.phase.job)
  }

  predicate Finishes(b: Box, b': Box) {
    && b.phase.Running? && b'.completed != [] && b.accepted != []
    && b' == b.(phase := Ready, completed := b.completed + [Last(b'.completed)])
    && Truthful(Last(b'.completed)) && Last(b'.completed).seen == Last(b.accepted)
  }

  predicate Dies(b: Box, b': Box) { b.phase.Running? && b' == b.(phase := Dead(b.phase.job)) }

  predicate Moves(b: Box, b': Box) {
    Launches(b, b') || ComesUp(b, b') || Receives(b, b') || Accepts(b, b') || Finishes(b, b') || Dies(b, b')
  }

  // ---- the mailbox a context implements ----

  function PhaseOf(boot: bool, k: Core): Phase
    requires HistoryInv(k)
  {
    var h := k.hist;
    if k.ap.pc.Off? && !boot then Stopped
    else if Busy(h) then
      (if k.ap.pc.DeadLoop? then Dead(h.submitted[|h.accepted| - 1]) else Running(h.submitted[|h.accepted| - 1]))
    else if k.ctx.jobQueued then Queued(h.submitted[|h.accepted|])
    else if k.ap.pc.SaveRsp? || InMain(k.ap.pc) then Starting
    else Ready
  }

  function BoxOf(boot: bool, k: Core): Box
    requires HistoryInv(k)
  {
    Box(PhaseOf(boot, k), k.hist.submitted, k.hist.accepted, k.hist.completed)
  }

  predicate Follows(b: Box, b': Box) { b == b' || Moves(b, b') }

  /** The steps of an AP that move its mailbox. */
  predicate ApMoves(k: Core, ch: ApChoice) {
    || k.ap.pc.MainUnlock? || k.ap.pc.ClearQueued? || k.ap.pc.Unlock?
    || (k.ap.pc.InCall? && ch.Hang?)
    || (k.ap.pc.InHandler? && k.ap.pc.kind.LocksUp?)
  }

  predicate SameLists(h: History, h': History) {
    h'.submitted == h.submitted && h'.accepted == h.accepted && h'.completed == h.completed
  }

  lemma QuietHistory(k: Core, ch: ApChoice)
    requires !ApMoves(k, ch)
    ensures var k' := ApStep(k, ch); SameLists(k.hist, k'.hist)
    ensures !k.ap.pc.MainQueued? && !k.ap.pc.ClearQueued? ==> ApStep(k, ch).ctx.jobQueued == k.ctx.jobQueued
  {
  }

  lemma QuietPc(k: Core, ch: ApChoice)
    requires !ApMoves(k, ch)
    ensures var k' := ApStep(k, ch); (k'.ap.pc.Off? == k.ap.pc.Off?) && (k'.ap.pc.DeadLoop? == k.ap.pc.DeadLoop?)
    ensures var k' := ApStep(k, ch);
            (k'.ap.pc.SaveRsp? || InMain(k'.ap.pc)) == (k.ap.pc.SaveRsp? || k.ap.pc.RestoreRsp? || InMain(k.ap.pc))
  {
  }

  lemma ApQuietRefines(boot: bool, k: Core, v: BootPc, ch: ApChoice)
    requires PhaseInv(boot, k, v) && HistoryInv(k) && HistoryInv(ApStep(k, ch)) && !ApMoves(k, ch)
    ensures BoxOf(boot, k) == BoxOf(boot, ApStep(k, ch))
  {
    QuietHistory(k, ch);
    QuietPc(k, ch);
  }

  lemma ApEndsRefine(boot: bool, k: Core, v: BootPc, ch: ApChoice)
    requires PhaseInv(boot, k, v) && HistoryInv(k) && HistoryInv(ApStep(k, ch)) && ApMoves(k, ch)
    requires !boot && (k.ap.pc.MainUnlock? || k.ap.pc.Unlock?)
    ensures Follows(BoxOf(boot, k), BoxOf(boot, ApStep(k, ch)))
  {
  }

  lemma ApAcceptRefines(boot: bool, k: Core, v: BootPc, ch: ApChoice)
    requires PhaseInv(boot, k, v) && HistoryInv(k) && HistoryInv(ApStep(k, ch))
    requires !boot && k.ap.pc.ClearQueued?
    ensures Follows(BoxOf(boot, k), BoxOf(boot, ApStep(k, ch)))
  {
  }

  lemma ApDeathRefines(boot: bool, k: Core, v: BootPc, ch: ApChoice)
    requires PhaseInv(boot, k, v) && HistoryInv(k) && HistoryInv(ApStep(k, ch)) && ApMoves(k, ch)
    requires !boot && (k.ap.pc.InCall? || k.ap.pc.InHandler?)
    ensures Follows(BoxOf(boot, k), BoxOf(boot, ApStep(k, ch)))
  {
    hide Matches, Truthful, Called, CallsSoFar, RecordAgrees;
  }

  /** Every step of an AP is a move of its mailbox or leaves it as it is. */
  lemma ApRefines(boot: bool, k: Core, v: BootPc, ch: ApChoice)
    requires CoreInv(boot, k, v) && HistoryInv(ApStep(k, ch)) && (boot ==> k.ap.pc.Off?)
    ensures Follows(BoxOf(boot, k), BoxOf(boot, ApStep(k, ch)))
  {
    var pc := k.ap.pc;
    if !ApMoves(k, ch) {
      ApQuietRefines(boot, k, v, ch);
    } else if pc.MainUnlock? || pc.Unlock? {
      ApEndsRefine(boot, k, v, ch);
    } else if pc.ClearQueued? {
      ApAcceptRefines(boot, k, v, ch);
    } else {
      ApDeathRefines(boot, k, v, ch);
    }
  }

  predicate BootMoves(pc: BootPc) { pc.StartLaunch? || pc.Queue? || pc.SyncClear? || pc.SyncUnlock? }

  lemma BootQuietRefines(boot: bool, k: Core, pc: BootPc, ch: BootChoice)
    requires HasTarget(pc) && !BootMoves(pc)
    requires HistoryInv(k) && HistoryInv(BootStep(k, pc, ch).core)
    ensures BoxOf(boot, k) == BoxOf(boot, BootStep(k, pc, ch).core)
  {
    BootQuiet(k, pc, ch);
  }

  lemma BootQuiet(k: Core, pc: BootPc, ch: BootChoice)
    requires HasTarget(pc) && !BootMoves(pc)
    ensures var k' := BootStep(k, pc, ch).core;
            SameLists(k.hist, k'.hist) && k'.ap == k.ap && k'.ctx.jobQueued == k.ctx.jobQueued
  {
    hide SeenIn;
    if pc.Writing? && pc.k < |Stores(pc.q.job)| {
      match Stores(pc.q.job)[pc.k]
      case _ =>
    }
  }

  lemma BootLaunchRefines(boot: bool, k: Core, pc: BootPc, ch: BootChoice)
    requires pc.StartLaunch? && LockInv(k, pc) && PhaseInv(boot, k, pc) && BootInv(boot, k, pc) && HistoryInv(k)
    requires HistoryInv(BootStep(k, pc, ch).core)
    ensures Follows(BoxOf(boot, k), BoxOf(boot, BootStep(k, pc, ch).core))
  {
  }

  lemma BootQueueRefines(boot: bool, k: Core, pc: BootPc, ch: BootChoice)
    requires pc.Queue? && LockInv(k, pc) && PhaseInv(boot, k, pc) && BootInv(boot, k, pc) && HistoryInv(k)
    requires HistoryInv(BootStep(k, pc, ch).core)
    ensures Follows(BoxOf(boot, k), BoxOf(boot, BootStep(k, pc, ch).core))
  {
  }

  lemma BootClearRefines(boot: bool, k: Core, pc: BootPc, ch: BootChoice)
    requires pc.SyncClear? && LockInv(k, pc) && PhaseInv(boot, k, pc) && BootInv(boot, k, pc) && HistoryInv(k)
    requires HistoryInv(BootStep(k, pc, ch).core)
    ensures Follows(BoxOf(boot, k), BoxOf(boot, BootStep(k, pc, ch).core))
  {
  }

  lemma BootFinishRefines(boot: bool, k: Core, pc: BootPc, ch: BootChoice)
    requires pc.SyncUnlock? && LockInv(k, pc) && PhaseInv(boot, k, pc) && BootInv(boot, k, pc) && HistoryInv(k)
    requires HistoryInv(BootStep(k, pc, ch).core)
    ensures Follows(BoxOf(boot, k), BoxOf(boot, BootStep(k, pc, ch).core))
  {
  }

  /** The same for every step of core 0. */
  lemma BootRefines(boot: bool, k: Core, pc: BootPc, ch: BootChoice)
    requires HasTarget(pc) && CoreInv(boot, k, pc) && HistoryInv(BootStep(k, pc, ch).core)
    ensures Follows(BoxOf(boot, k), BoxOf(boot, BootStep(k, pc, ch).core))
  {
    hide BoxOf;
    if pc.StartLaunch? {
      BootLaunchRefines(boot, k, pc, ch);
    } else if pc.Queue? {
      BootQueueRefines(boot, k, pc, ch);
    } else if pc.SyncClear? {
      BootClearRefines(boot, k, pc, ch);
    } else if pc.SyncUnlock? {
      BootFinishRefines(boot, k, pc, ch);
    } else {
      BootQuietRefines(boot, k, pc, ch);
    }
  }
}
