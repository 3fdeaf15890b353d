/** The fault handlers as the step system sees them: a fault in a job function is a sequence of the steps
    of CoreSteps that ends in the same place, with the same record, on the same stack. */
module CoreFaults {
  import C = CoreContexts
  import S = CoreSteps
  import F = FaultHandlers

  /** The record behind its flag, word by word. */
  function Words(i: F.FaultInfo): (r: seq<int>)
    ensures |r| == C.FAULT_FIELDS
  {
    [i.number, i.errorCode, i.rip, i.rax, i.rbx, i.rcx, i.rdx, i.rsi, i.rdi, i.rsp, i.rbp,
     i.r8, i.r9, i.r10, i.r11, i.r12, i.r13, i.r14, i.r15, i.rflags, i.cr0, i.cr2, i.cr3, i.cr4, i.cs, i.originalRsp]
  }

  /** All of it. */
  function Record(info: F.FaultInfo): (r: seq<int>)
    ensures |r| == 27
  {
    [info.occurred] + Words(info)
  }

  /** Byte offset 8 * n of the record is its word n, the flag being word 0, and no store reaches two. */
  lemma StoreHitsOneWord(info: F.FaultInfo, n: nat, v: int)
    ensures Record(F.WithField(info, 8 * n, v)) == if n < 27 then Record(info)[n := v] else Record(info)
  {
    if n < 9 {
      FirstWords(info, n, v);
    } else if n < 18 {
      MiddleWords(info, n, v);
    } else {
      LastWords(info, n, v);
    }
  }

  lemma FirstWords(info: F.FaultInfo, n: nat, v: int)
    requires n < 9
    ensures Record(F.WithField(info, 8 * n, v)) == Record(info)[n := v]
  {
  }

  lemma MiddleWords(info: F.FaultInfo, n: nat, v: int)
    requires 9 <= n < 18
    ensures Record(F.WithField(info, 8 * n, v)) == Record(info)[n := v]
  {
  }

  lemma LastWords(info: F.FaultInfo, n: nat, v: int)
    requires 18 <= n
    ensures Record(F.WithField(info, 8 * n, v)) == if n < 27 then Record(info)[n := v] else Record(info)
  {
  }

  /** The processor and the step system hold the same record and the same recovery_rsp. */
  predicate Agrees(l: F.Layout, c: F.Cpu, k: S.Core) {
    && k.ctx.fault == C.FaultRecord(c.info.occurred != 0, Words(c.info))
    && k.ctx.recoveryRsp == F.Read(c.mem, l.context + 80)
  }

  /** How a fault of this vector ends: the one outcome that the step system has for it. */
  function KindOf(s: F.Segments, c: F.Cpu, vector: int): S.FaultKind {
    if vector == 13 then S.Resumes
    else if vector == 8 && F.DoubleFaultVector(s, c) == F.NO_FAULT then S.LocksUp
    else S.Recovers
  }

  // ---- the side of the step system ----

  function Steps(k: S.Core, chs: seq<S.ApChoice>): S.Core {
    if chs == [] then k else S.ApStep(Steps(k, chs[..|chs| - 1]), chs[|chs| - 1])
  }

  function Writing(words: seq<int>, n: nat): (r: seq<S.ApChoice>)
    requires n <= |words|
    ensures |r| == n
  {
    if n == 0 then [] else Writing(words, n - 1) + [S.StoreField(n - 1, words[n - 1])]
  }

  lemma {:induction false} WritingFills(k: S.Core, words: seq<int>, n: nat)
    requires n <= |words| == |k.ctx.fault.fields| && k.ap.pc.InHandler?
    ensures Steps(k, Writing(words, n)) ==
            k.(ctx := k.ctx.(fault := k.ctx.fault.(fields := words[..n] + k.ctx.fault.fields[n..])))
  {
    if n == 0 {
      assert words[..0] + k.ctx.fault.fields[0..] == k.ctx.fault.fields;
    } else {
      WritingFills(k, words, n - 1);
      assert Writing(words, n)[..n - 1] == Writing(words, n - 1);
      var before := words[..n - 1] + k.ctx.fault.fields[n - 1..];
      assert before[n - 1 := words[n - 1]] == words[..n] + k.ctx.fault.fields[n..];
    }
  }

  lemma {:induction false} StepsAppend(k: S.Core, first: seq<S.ApChoice>, later: seq<S.ApChoice>)
    ensures Steps(k, first + later) == Steps(Steps(k, first), later)
  {
    if later == [] {
      assert first + later == first;
    } else {
      var n := |later| - 1;
      assert (first + later)[..|first + later| - 1] == first + later[..n];
      StepsAppend(k, first, later[..n]);
    }
  }

  lemma OneStep(k: S.Core, ch: S.ApChoice)
    ensures Steps(k, [ch]) == S.ApStep(k, ch)
  {
    assert [ch][..|[ch]| - 1] == [];
  }

  /** A fault, its record written word by word and marked, and the way out of the handler; a recovering
      core also loads its stack pointer. */
  function Fault(kind: S.FaultKind, words: seq<int>): seq<S.ApChoice> {
    [S.Raise(kind)] + Writing(words, |words|) + [S.Go, S.Go] + if kind.Recovers? then [S.Go] else []
  }

  /** Where a core is after a fault in job function i: in the function, at the start of core_main_loop on
      the saved stack, or nowhere. */
  predicate Landed(k: S.Core, k': S.Core, i: nat, kind: S.FaultKind) {
    match kind
    case Resumes => k'.ap == k.ap && k'.ap.pc == S.InCall(i)
    case Recovers => k'.ap == S.Ap(S.MainStarted, k.ctx.recoveryRsp)
    case LocksUp => k'.ap.pc == S.DeadLoop
  }

  lemma FaultSteps(k: S.Core, i: nat, kind: S.FaultKind, words: seq<int>)
    requires k.ap.pc == S.InCall(i) && |words| == |k.ctx.fault.fields|
    ensures var k' := Steps(k, Fault(kind, words));
            && k'.ctx == k.ctx.(fault := C.FaultRecord(true, words)) && k'.hist.faulted
            && Landed(k, k', i, kind)
  {
    var raised := Steps(k, [S.Raise(kind)]);
    OneStep(k, S.Raise(kind));
    WritingFills(raised, words, |words|);
    StepsAppend(k, [S.Raise(kind)], Writing(words, |words|));
    var written := Steps(k, [S.Raise(kind)] + Writing(words, |words|));
    assert written.ctx.fault.fields == words;
    var out := [S.Go, S.Go] + if kind.Recovers? then [S.Go] else [];
    StepsAppend(k, [S.Raise(kind)] + Writing(words, |words|), out);
    assert Fault(kind, words) == [S.Raise(kind)] + Writing(words, |words|) + out;
    LeavesHandler(written, i, kind, out);
  }

  lemma LeavesHandler(k: S.Core, i: nat, kind: S.FaultKind, out: seq<S.ApChoice>)
    requires k.ap.pc == S.InHandler(i, kind, false)
    requires out == [S.Go, S.Go] + if kind.Recovers? then [S.Go] else []
    ensures var k' := Steps(k, out);
            && k'.ctx == k.ctx.(fault := k.ctx.fault.(occurred := true)) && k'.hist.faulted == k.hist.faulted
            && Landed(k.(ap := k.ap.(pc := S.InCall(i))), k', i, kind)
  {
    OneStep(k, S.Go);
    var marked := S.ApStep(k, S.Go);
    OneStep(marked, S.Go);
    var left := S.ApStep(marked, S.Go);
    StepsAppend(k, [S.Go], [S.Go]);
    if kind.Recovers? {
      OneStep(left, S.Go);
      StepsAppend(k, [S.Go] + [S.Go], [S.Go]);
      assert out == [S.Go] + [S.Go] + [S.Go];
    } else {
      assert out == [S.Go] + [S.Go];
    }
  }

  // ---- both sides ----

  /** A fault in job function i, of any vector from 1 to 20: whatever the processor and the handlers do
      is a run of the step system. It ends with the same record, in the place that belongs to the one
      kind of fault this is, and on the stack pointer that the processor has there, or that recovery
      loads there. */
  method FaultIsRun(l: F.Layout, s: F.Segments, c: F.Cpu, vector: int, errorCode: int,
                    rflags8: int, error8: int, rflags9: int, error9: int, k: S.Core, i: nat)
    returns (c': F.Cpu, k': S.Core)
    requires 1 <= vector <= 20 && l.dummyLoop != l.recovery
    requires F.Linked(l, c.mem) && F.StackFree(l, F.FrameTop(c.rsp), 128)
    requires F.InUse(s, c.flow.cs, c.flow.ss) && F.InUse(s, l.codeSegment, c.flow.ss)
    requires Agrees(l, c, k) && k.ap == S.Ap(S.InCall(i), c.rsp)
    ensures var kind := KindOf(s, c, vector);
            && k' == Steps(k, Fault(kind, Words(c'.info))) && Agrees(l, c', k') && k'.ctx.fault.occurred
            && Landed(k, k', i, kind)
            && (kind.Resumes? ==> c'.flow == c.flow.(rip := (c.flow.rip + 2) % F.WORD) && c'.rsp == k'.ap.rsp)
            && (kind.Recovers? ==> F.Recovers(l, c, c') && F.Read(c'.mem, c'.g.rdi + 80) == k'.ap.rsp)
            && (kind.LocksUp? ==> c'.flow.rip == l.dummyLoop)
  {
    hide F.FrameTop, F.Recorded, F.EntryRsp, F.SameOutside, F.SegmentFault, F.Linked, F.StackFree, F.InUse;
    if vector == 8 {
      c' := F.TakeDoubleFault(l, s, c, errorCode, rflags8, error8, rflags9, error9);
      Decided(s, c);
    } else {
      StackIsFree(l, c.rsp);
      c' := F.TakeFault(l, s, c, vector, errorCode);
      Marked(c, vector, errorCode);
    }
    FaultSteps(k, i, KindOf(s, c, vector), Words(c'.info));
    k' := Steps(k, Fault(KindOf(s, c, vector), Words(c'.info)));
  }

  lemma Decided(s: F.Segments, c: F.Cpu)
    ensures F.DoubleFaultVector(s, c) == F.NO_FAULT <==>
              F.Selector(c.flow.rip) in s.code && F.Selector(c.rsp) in s.stack
  {
  }

  lemma StackIsFree(l: F.Layout, rsp: int)
    requires F.StackFree(l, F.FrameTop(rsp), 128)
    ensures F.StackFree(l, F.FrameTop(rsp), 80)
  {
    hide F.FrameTop;
  }

  lemma Marked(c: F.Cpu, vector: int, errorCode: int)
    ensures F.Recorded(c, vector, errorCode).occurred == 1
  {
  }
}
