/** The fault handlers of an AP, instruction by instruction, on the part of an x86-64 core they use:
    registers, control registers, and memory. Memory is a map of 8-byte cells at multiples of 8, plus
    one block for the CoreFaultInfo record, which nothing else overlaps. Each macro or subroutine of
    the assembly file is a method, each instruction a statement on its local registers. */
module FaultHandlers {

  const WORD := 0x1_0000_0000_0000_0000

  type Memory = map<int, int>

  function Read(mem: Memory, a: int): int { if a in mem then mem[a] else 0 }

  /** CoreFaultInfo as the C code declares it. */
  datatype FaultInfo = FaultInfo(
    occurred: int, number: int, errorCode: int, rip: int,
    rax: int, rbx: int, rcx: int, rdx: int, rsi: int, rdi: int, rsp: int, rbp: int,
    r8: int, r9: int, r10: int, r11: int, r12: int, r13: int, r14: int, r15: int,
    rflags: int, cr0: int, cr2: int, cr3: int, cr4: int, cs: int, originalRsp: int)

  /** A store at a byte offset into the record. */
  function WithField(info: FaultInfo, offset: int, v: int): FaultInfo {
    if offset == 0x0 then info.(occurred := v)
    else if offset == 0x8 then info.(number := v)
    else if offset == 0x10 then info.(errorCode := v)
    else if offset == 0x18 then info.(rip := v)
    else if offset == 0x20 then info.(rax := v)
    else if offset == 0x28 then info.(rbx := v)
    else if offset == 0x30 then info.(rcx := v)
    else if offset == 0x38 then info.(rdx := v)
    else if offset == 0x40 then info.(rsi := v)
    else if offset == 0x48 then info.(rdi := v)
    else if offset == 0x50 then info.(rsp := v)
    else if offset == 0x58 then info.(rbp := v)
    else if offset == 0x60 then info.(r8 := v)
    else if offset == 0x68 then info.(r9 := v)
    else if offset == 0x70 then info.(r10 := v)
    else if offset == 0x78 then info.(r11 := v)
    else if offset == 0x80 then info.(r12 := v)
    else if offset == 0x88 then info.(r13 := v)
    else if offset == 0x90 then info.(r14 := v)
    else if offset == 0x98 then info.(r15 := v)
    else if offset == 0xA0 then info.(rflags := v)
    else if offset == 0xA8 then info.(cr0 := v)
    else if offset == 0xB0 then info.(cr2 := v)
    else if offset == 0xB8 then info.(cr3 := v)
    else if offset == 0xC0 then info.(cr4 := v)
    else if offset == 0xC8 then info.(cs := v)
    else if offset == 0xD0 then info.(originalRsp := v)
    else info
  }

  /** [x, x + n) and [y, y + k) do not overlap. */
  predicate Apart(x: int, n: int, y: int, k: int) { x + n <= y || y + k <= x }

  /** Memory is the same outside [low, high). */
  ghost predicate SameOutside(mem: Memory, mem': Memory, low: int, high: int) {
    forall a :: !(low <= a < high) ==> Read(mem', a) == Read(mem, a)
  }

  /** Vectors 0 to 20 for which the processor pushes an error code (section 8.2 of the AMD64
      Architecture Programmer's Manual Volume 2). */
  predicate PushesErrorCode(vector: int) { vector in {8, 10, 11, 12, 13, 14, 17} }

  /** Where this core's copies live, and the code segment of its IDT entries. */
  datatype Layout = Layout(
    context: int,   // CoreContext
    record: int,    // CoreFaultInfo
    stub: int,      // proto_fault_stub_context_ptr, followed by recovery_address
    recovery: int,  // core_main_loop_stub_recovery
    dummyLoop: int,
    iretq8: int,    // the iretq that ends proto_handler_8, and the one that ends proto_handler_9
    iretq9: int,
    codeSegment: int)

  /** What the descriptor table holds: selectors that iretq accepts for CS and for SS, and selectors
      of segments that are marked not present. Any other selector is refused with #GP. */
  datatype Segments = Segments(code: set<int>, stack: set<int>, absentCode: set<int>, absentStack: set<int>)

  /** A selector register has 16 bits. */
  function Selector(cell: int): int { cell % 0x1_0000 }

  /** The selectors that code runs with have been accepted. */
  predicate InUse(s: Segments, cs: int, ss: int) {
    0 <= cs < 0x1_0000 && 0 <= ss < 0x1_0000 && cs in s.code && ss in s.stack
  }

  const NO_FAULT := 0
  const NOT_PRESENT := 11
  const STACK_FAULT := 12
  const PROTECTION := 13

  /** The fault that loading CS and SS from these cells raises (section 8.2 of the AMD64 Architecture
      Programmer's Manual Volume 2). */
  function SegmentFault(s: Segments, cs: int, ss: int): int {
    if Selector(cs) !in s.code then (if Selector(cs) in s.absentCode then NOT_PRESENT else PROTECTION)
    else if Selector(ss) !in s.stack then (if Selector(ss) in s.absentStack then STACK_FAULT else PROTECTION)
    else NO_FAULT
  }

  /** The general registers that the handlers never use as scratch. */
  datatype General = General(
    rdx: int, rsi: int, rdi: int, rbp: int,
    r8: int, r9: int, r10: int, r11: int, r12: int, r13: int, r14: int, r15: int)

  datatype Control = Control(cr0: int, cr2: int, cr3: int, cr4: int)

  /** What an interrupt frame holds, apart from the stack pointer. */
  datatype Flow = Flow(rip: int, cs: int, rflags: int, ss: int)

  datatype Cpu = Cpu(
    rax: int, rbx: int, rcx: int, g: General, rsp: int, flow: Flow, cr: Control, mem: Memory, info: FaultInfo)

  /** Memory after the one cell a was set to v. */
  ghost predicate Wrote(mem: Memory, mem': Memory, a: int, v: int) {
    forall x :: Read(mem', x) == if x == a then v else Read(mem, x)
  }

  /** Pointers are as init_fault_handlers_on_core left them. */
  predicate Linked(l: Layout, mem: Memory) {
    Read(mem, l.stub) == l.context && Read(mem, l.stub + 8) == l.recovery && Read(mem, l.context + 72) == l.record
  }

  /** The n bytes below top are free for stack use: neither the stub's cells, nor the record pointer
      and recovery_rsp in the context, are among them. */
  predicate StackFree(l: Layout, top: int, n: int) {
    Apart(top - n, n, l.stub, 16) && Apart(top - n, n, l.context + 72, 16)
  }

  // ---- instructions ----

  method Push(rsp: int, mem: Memory, v: int) returns (rsp': int, mem': Memory)
    ensures rsp' == rsp - 8 && Wrote(mem, mem', rsp', v)
  {
    rsp', mem' := rsp - 8, mem[rsp - 8 := v];
  }

  method Pop(rsp: int, mem: Memory) returns (v: int, rsp': int)
    ensures v == Read(mem, rsp) && rsp' == rsp + 8
  {
    v, rsp' := Read(mem, rsp), rsp + 8;
  }

  /** A store at offset(%rax) while RAX points to the record. */
  method StoreField(l: Layout, rax: int, info: FaultInfo, offset: int, v: int) returns (info': FaultInfo)
    requires rax == l.record
    ensures info' == WithField(info, offset, v)
  {
    info' := WithField(info, offset, v);
  }

  /** Pops RIP, CS, RFLAGS, RSP and SS (section 8.9 of the AMD64 Architecture Programmer's Manual
      Volume 2). Of the cells for CS and SS only the low 16 bits count. If one of the segments cannot
      be loaded, nothing is popped and a fault is raised instead. */
  method Iretq(s: Segments, c: Cpu) returns (c': Cpu, fault: int)
    ensures fault == SegmentFault(s, Read(c.mem, c.rsp + 8), Read(c.mem, c.rsp + 32))
    ensures fault != NO_FAULT ==> c' == c
    ensures fault == NO_FAULT ==> c' == Returned(c)
  {
    var sp, rip, cs, rflags, rsp, ss;
    rip, sp := Pop(c.rsp, c.mem);
    cs, sp := Pop(sp, c.mem);
    rflags, sp := Pop(sp, c.mem);
    rsp, sp := Pop(sp, c.mem);
    ss, sp := Pop(sp, c.mem);
    fault := SegmentFault(s, cs, ss);
    c' := if fault != NO_FAULT then c else c.(flow := Flow(rip, Selector(cs), rflags, Selector(ss)), rsp := rsp);
  }

  /** The state behind an iretq that succeeds. */
  function Returned(c: Cpu): Cpu {
    c.(rsp := Read(c.mem, c.rsp + 24),
       flow := Flow(Read(c.mem, c.rsp), Selector(Read(c.mem, c.rsp + 8)), Read(c.mem, c.rsp + 16),
                    Selector(Read(c.mem, c.rsp + 32))))
  }

  // ---- subroutines of the stub; ret stands for the return address pushed by the call ----

  method GetCoreCtxPtr(l: Layout, rsp: int, mem: Memory, ret: int) returns (rax: int, mem': Memory)
    requires Linked(l, mem) && StackFree(l, rsp, 8)
    ensures rax == l.context && Wrote(mem, mem', rsp - 8, ret) && Linked(l, mem')
  {
    var sp, back;
    sp, mem' := Push(rsp, mem, ret);
    rax := Read(mem', l.stub);
    back, sp := Pop(sp, mem');
    assert back == ret && sp == rsp;
  }

  method GetReturnPtr(l: Layout, rsp: int, mem: Memory, ret: int) returns (rax: int, mem': Memory)
    requires Linked(l, mem) && StackFree(l, rsp, 8)
    ensures rax == l.recovery && Wrote(mem, mem', rsp - 8, ret) && Linked(l, mem')
  {
    var sp, back;
    sp, mem' := Push(rsp, mem, ret);
    rax := Read(mem', l.stub + 8);
    back, sp := Pop(sp, mem');
    assert back == ret && sp == rsp;
  }

  /** Registers that still hold what they held at the fault. */
  method StoreGeneral(l: Layout, rax: int, g: General, info: FaultInfo) returns (info': FaultInfo)
    requires rax == l.record
    ensures info' == info.(
              rdx := g.rdx, rsi := g.rsi, rdi := g.rdi, rbp := g.rbp,
              r8 := g.r8, r9 := g.r9, r10 := g.r10, r11 := g.r11,
              r12 := g.r12, r13 := g.r13, r14 := g.r14, r15 := g.r15)
  {
    info' := StoreField(l, rax, info, 0x38, g.rdx);
    info' := StoreField(l, rax, info', 0x40, g.rsi);
    info' := StoreField(l, rax, info', 0x48, g.rdi);
    info' := StoreField(l, rax, info', 0x58, g.rbp);
    info' := StoreField(l, rax, info', 0x60, g.r8);
    info' := StoreField(l, rax, info', 0x68, g.r9);
    info' := StoreField(l, rax, info', 0x70, g.r10);
    info' := StoreField(l, rax, info', 0x78, g.r11);
    info' := StoreField(l, rax, info', 0x80, g.r12);
    info' := StoreField(l, rax, info', 0x88, g.r13);
    info' := StoreField(l, rax, info', 0x90, g.r14);
    info' := StoreField(l, rax, info', 0x98, g.r15);
  }

  /** Expects CoreFaultInfo* in RAX and old RBX, old RAX, old RSP on the stack. Clobbers RBX and RCX. */
  method StoreRegisters(l: Layout, rax: int, rcx: int, rsp: int, g: General, cr: Control, mem: Memory,
                        info: FaultInfo, ret: int)
    returns (rbx': int, rcx': int, mem': Memory, info': FaultInfo)
    requires rax == l.record
    ensures Wrote(mem, mem', rsp - 8, ret) && rcx' == Read(mem, rsp + 16)
    ensures info' == info.(
              rax := Read(mem, rsp + 8), rbx := Read(mem, rsp), rcx := rcx, rsp := Read(mem, rsp + 16),
              rdx := g.rdx, rsi := g.rsi, rdi := g.rdi, rbp := g.rbp,
              r8 := g.r8, r9 := g.r9, r10 := g.r10, r11 := g.r11,
              r12 := g.r12, r13 := g.r13, r14 := g.r14, r15 := g.r15,
              cr0 := cr.cr0, cr2 := cr.cr2, cr3 := cr.cr3, cr4 := cr.cr4)
  {
    var sp, back;
    sp, mem' := Push(rsp, mem, ret);
    // RCX carries the words that the caller pushed into the record, once it is saved itself
    info' := StoreField(l, rax, info, 0x30, rcx);
    rcx' := Read(mem', sp + 0x10);
    info' := StoreField(l, rax, info', 0x20, rcx');
    rcx' := Read(mem', sp + 0x8);
    info' := StoreField(l, rax, info', 0x28, rcx');
    rcx' := Read(mem', sp + 0x18);
    info' := StoreField(l, rax, info', 0x50, rcx');
    info' := StoreGeneral(l, rax, g, info');
    rbx' := cr.cr0;
    info' := StoreField(l, rax, info', 0xA8, rbx');
    rbx' := cr.cr2;
    info' := StoreField(l, rax, info', 0xB0, rbx');
    rbx' := cr.cr3;
    info' := StoreField(l, rax, info', 0xB8, rbx');
    rbx' := cr.cr4;
    info' := StoreField(l, rax, info', 0xC0, rbx');
    back, sp := Pop(sp, mem');
    assert back == ret && sp == rsp;
  }

  // ---- the handler macros ----

  /** The record once the registers of c are saved in it. */
  function Saved(c: Cpu, number: int): FaultInfo {
    c.info.(occurred := 1, number := number,
            rax := c.rax, rbx := c.rbx, rcx := c.rcx, rsp := c.rsp,
            rdx := c.g.rdx, rsi := c.g.rsi, rdi := c.g.rdi, rbp := c.g.rbp,
            r8 := c.g.r8, r9 := c.g.r9, r10 := c.g.r10, r11 := c.g.r11,
            r12 := c.g.r12, r13 := c.g.r13, r14 := c.g.r14, r15 := c.g.r15,
            cr0 := c.cr.cr0, cr2 := c.cr.cr2, cr3 := c.cr.cr3, cr4 := c.cr.cr4)
  }

  /** m_handler_inner: saves the registers. RCX is the only register it does not put back. */
  method HandlerInner(l: Layout, c: Cpu, number: int)
    returns (rax: int, rbx: int, rcx: int, rsp: int, mem: Memory, info: FaultInfo)
    requires Linked(l, c.mem) && StackFree(l, c.rsp, 32)
    ensures rax == c.rax && rbx == c.rbx && rcx == rsp == c.rsp
    ensures info == Saved(c, number)
    ensures Linked(l, mem) && SameOutside(c.mem, mem, rsp - 32, rsp)
  {
    // the cell of RSP comes first, so that it can be popped last
    rsp, mem := Push(c.rsp, c.mem, c.rsp);
    rsp, mem := Push(rsp, mem, c.rax);
    rsp, mem := Push(rsp, mem, c.rbx);
    rax, mem := GetCoreCtxPtr(l, rsp, mem, 1);
    rax := Read(mem, rax + 72);
    rbx, rcx, mem, info := StoreRegisters(l, rax, c.rcx, rsp, c.g, c.cr, mem, c.info, 2);
    info := StoreField(l, rax, info, 0x0, 1);
    info := StoreField(l, rax, info, 0x8, number);
    rbx, rsp := Pop(rsp, mem);
    rax, rsp := Pop(rsp, mem);
    rsp := Read(mem, rsp);
  }

  /** The interrupt frame at a, copied into the record. */
  function WithFrame(info: FaultInfo, mem: Memory, a: int): FaultInfo {
    info.(rip := Read(mem, a), cs := Read(mem, a + 8), rflags := Read(mem, a + 16), originalRsp := Read(mem, a + 24))
  }

  /** The loads and stores that all handlers share: the frame starts at cell a. */
  method StoreFrame(l: Layout, rax: int, a: int, mem: Memory, info: FaultInfo) returns (rcx: int, info': FaultInfo)
    requires rax == l.record
    ensures rcx == Read(mem, a + 24)
    ensures info' == WithFrame(info, mem, a)
  {
    rcx := Read(mem, a);
    info' := StoreField(l, rax, info, 0x18, rcx);
    rcx := Read(mem, a + 0x8);
    info' := StoreField(l, rax, info', 0xC8, rcx);
    rcx := Read(mem, a + 0x10);
    info' := StoreField(l, rax, info', 0xA0, rcx);
    rcx := Read(mem, a + 0x18);
    info' := StoreField(l, rax, info', 0xD0, rcx);
  }

  /** What handlers with an error code share: the error code and then the frame start at rsp. */
  method StoreErrorFrame(l: Layout, rax: int, rsp: int, mem: Memory, info: FaultInfo)
    returns (rcx: int, info': FaultInfo)
    requires rax == l.record
    ensures rcx == Read(mem, rsp + 32)
    ensures info' == WithFrame(info.(errorCode := Read(mem, rsp)), mem, rsp + 8)
  {
    rcx := Read(mem, rsp);
    info' := StoreField(l, rax, info, 0x10, rcx);
    rcx, info' := StoreFrame(l, rax, rsp + 0x8, mem, info');
  }

  /** m_handler_no_error_code, up to its iretq: the frame is where it was, except that it leads to
      recovery. */
  method HandlerNoErrorCode(l: Layout, c: Cpu, number: int) returns (c': Cpu)
    requires Linked(l, c.mem) && StackFree(l, c.rsp + 8, 40)
    ensures c' == Cpu(l.recovery, c.rbx, Read(c.mem, c.rsp + 24), c.g.(rdi := l.context), c.rsp, c.flow, c.cr,
                      c'.mem, WithFrame(Saved(c, number), c.mem, c.rsp))
    ensures Read(c'.mem, c'.rsp) == l.recovery
    ensures Linked(l, c'.mem) && SameOutside(c.mem, c'.mem, c.rsp - 32, c.rsp + 8)
  {
    var rax, rbx, rcx, rsp, mem, info := HandlerInner(l, c, number);
    rax, mem := GetCoreCtxPtr(l, rsp, mem, 3);
    rax := Read(mem, rax + 72);
    rcx, info := StoreFrame(l, rax, rsp, mem, info);
    rax, mem := GetCoreCtxPtr(l, rsp, mem, 4);
    var rdi := rax;
    rax, mem := GetReturnPtr(l, rsp, mem, 5);
    mem := mem[rsp := rax];
    c' := Cpu(rax, rbx, rcx, c.g.(rdi := rdi), rsp, c.flow, c.cr, mem, info);
  }

  /** m_handler_with_error_code, up to its iretq: the error code is removed. */
  method HandlerWithErrorCode(l: Layout, c: Cpu, number: int) returns (c': Cpu)
    requires Linked(l, c.mem) && StackFree(l, c.rsp + 16, 48)
    ensures c' == Cpu(l.recovery, c.rbx, Read(c.mem, c.rsp + 32), c.g.(rdi := l.context), c.rsp + 8, c.flow, c.cr,
                      c'.mem, WithFrame(Saved(c, number).(errorCode := Read(c.mem, c.rsp)), c.mem, c.rsp + 8))
    ensures Read(c'.mem, c'.rsp) == l.recovery
    ensures Linked(l, c'.mem) && SameOutside(c.mem, c'.mem, c.rsp - 32, c.rsp + 16)
  {
    var rax, rbx, rcx, rsp, mem, info := HandlerInner(l, c, number);
    rax, mem := GetCoreCtxPtr(l, rsp, mem, 6);
    rax := Read(mem, rax + 72);
    rcx, info := StoreErrorFrame(l, rax, rsp, mem, info);
    rax, rsp := Pop(rsp, mem);
    rax, mem := GetCoreCtxPtr(l, rsp, mem, 7);
    var rdi := rax;
    rax, mem := GetReturnPtr(l, rsp, mem, 8);
    mem := mem[rsp := rax];
    c' := Cpu(rax, rbx, rcx, c.g.(rdi := rdi), rsp, c.flow, c.cr, mem, info);
  }

  /** Vector 8, up to its iretq. The error code is still there and overwritten as if it were RIP, so
      every word of the frame is taken from one cell too far down. */
  method HandlerDoubleFault(l: Layout, c: Cpu) returns (c': Cpu)
    requires Linked(l, c.mem) && StackFree(l, c.rsp + 8, 40)
    ensures c' == Cpu(l.dummyLoop, c.rbx, Read(c.mem, c.rsp + 32), c.g, c.rsp, c.flow, c.cr,
                      c'.mem, WithFrame(Saved(c, 8).(errorCode := Read(c.mem, c.rsp)), c.mem, c.rsp + 8))
    ensures Read(c'.mem, c'.rsp) == l.dummyLoop
    ensures Linked(l, c'.mem) && SameOutside(c.mem, c'.mem, c.rsp - 32, c.rsp + 8)
  {
    var rax, rbx, rcx, rsp, mem, info := HandlerInner(l, c, 8);
    rax, mem := GetCoreCtxPtr(l, rsp, mem, 9);
    rax := Read(mem, rax + 72);
    rcx, info := StoreErrorFrame(l, rax, rsp, mem, info);
    rax := l.dummyLoop;
    mem := mem[rsp := rax];
    c' := Cpu(rax, rbx, rcx, c.g, rsp, c.flow, c.cr, mem, info);
  }

  /** Vector 13, up to its iretq: a rejected microcode update raises #GP in a two-byte wrmsr, so the
      frame leads two bytes on. */
  method HandlerGpf(l: Layout, c: Cpu) returns (c': Cpu)
    requires Linked(l, c.mem) && StackFree(l, c.rsp + 16, 48)
    ensures c' == Cpu(0xDEAD, c.rbx, c.rsp, c.g, c.rsp + 8, c.flow, c.cr,
                      c'.mem, WithFrame(Saved(c, 13).(errorCode := Read(c.mem, c.rsp)), c.mem, c.rsp + 8))
    ensures Read(c'.mem, c'.rsp) == (Read(c.mem, c.rsp + 8) + 2) % WORD
    ensures Linked(l, c'.mem) && SameOutside(c.mem, c'.mem, c.rsp - 32, c.rsp + 16)
  {
    var rax, rbx, rcx, rsp, mem, info := HandlerInner(l, c, 13);
    rsp, mem := Push(rsp, mem, rcx);
    rsp, mem := Push(rsp, mem, rax);
    rax, mem := GetCoreCtxPtr(l, rsp, mem, 10);
    rax := Read(mem, rax + 72);
    rcx, info := StoreErrorFrame(l, rax, rsp + 0x10, mem, info);
    rax, rsp := Pop(rsp, mem);
    rcx, rsp := Pop(rsp, mem);
    // the third pop drops the error code, the fourth takes RIP out of the frame to move it on
    rax, rsp := Pop(rsp, mem);
    rax, rsp := Pop(rsp, mem);
    rax := (rax + 2) % WORD;
    rsp, mem := Push(rsp, mem, rax);
    rax := 0xDEAD;
    c' := Cpu(rax, rbx, rcx, c.g, rsp, c.flow, c.cr, mem, info);
  }

  // ---- from the interrupted instruction to the end of the handler ----

  /** The stack pointer is aligned to 16 bytes before the frame is pushed. */
  function FrameTop(rsp: int): int { rsp - rsp % 16 }

  lemma FrameTopIsAligned(rsp: int)
    ensures FrameTop(rsp) % 16 == 0 && FrameTop(FrameTop(rsp) - 48) == FrameTop(rsp) - 48
  {
  }

  function EntryRsp(rsp: int, vector: int): int { FrameTop(rsp) - if PushesErrorCode(vector) then 48 else 40 }

  /** Delivery of a fault on the current stack: SS, RSP, RFLAGS, CS, RIP, and maybe an error code. */
  method Deliver(c: Cpu, vector: int, errorCode: int) returns (c': Cpu)
    ensures c' == c.(rsp := EntryRsp(c.rsp, vector), mem := c'.mem)
    ensures SameOutside(c.mem, c'.mem, FrameTop(c.rsp) - 48, FrameTop(c.rsp))
    ensures PushesErrorCode(vector) ==> Read(c'.mem, c'.rsp) == errorCode
    ensures FrameOf(c, c'.mem)
  {
    var sp, mem := FrameTop(c.rsp), c.mem;
    sp, mem := Push(sp, mem, c.flow.ss);
    sp, mem := Push(sp, mem, c.rsp);
    sp, mem := Push(sp, mem, c.flow.rflags);
    sp, mem := Push(sp, mem, c.flow.cs);
    sp, mem := Push(sp, mem, c.flow.rip);
    if PushesErrorCode(vector) {
      sp, mem := Push(sp, mem, errorCode);
    }
    c' := c.(rsp := sp, mem := mem);
  }

  /** The five words that the processor pushed for a fault in state c. */
  predicate FrameOf(c: Cpu, mem: Memory) {
    var f := FrameTop(c.rsp) - 40;
    && Read(mem, f) == c.flow.rip && Read(mem, f + 8) == c.flow.cs && Read(mem, f + 16) == c.flow.rflags
    && Read(mem, f + 24) == c.rsp && Read(mem, f + 32) == c.flow.ss
  }

  /** The complete record of a fault that interrupted c: what the processor pushed and every register
      as it was at the faulting instruction. Without an error code that word keeps its old content. */
  function Recorded(c: Cpu, vector: int, errorCode: int): FaultInfo {
    FaultInfo(1, vector, if PushesErrorCode(vector) then errorCode else c.info.errorCode, c.flow.rip,
              c.rax, c.rbx, c.rcx, c.g.rdx, c.g.rsi, c.g.rdi, EntryRsp(c.rsp, vector), c.g.rbp,
              c.g.r8, c.g.r9, c.g.r10, c.g.r11, c.g.r12, c.g.r13, c.g.r14, c.g.r15,
              c.flow.rflags, c.cr.cr0, c.cr.cr2, c.cr.cr3, c.cr.cr4, c.flow.cs, c.rsp)
  }

  /** Recovery is about to run, with its context in RDI and all it needs in memory. */
  ghost predicate Recovers(l: Layout, c: Cpu, c': Cpu) {
    && c'.flow.rip == l.recovery && c'.g.rdi == l.context && Linked(l, c'.mem)
    && Read(c'.mem, l.context + 80) == Read(c.mem, l.context + 80)
  }

  /** The handlers installed for vectors 1 to 20 other than 8, each entered as the processor enters it.
      The contract is the same for all of them: the record is complete, the context pointers and
      recovery_rsp survive, and control goes on where the vector says. */
  method TakeFault(l: Layout, s: Segments, c: Cpu, vector: int, errorCode: int) returns (c': Cpu)
    requires 1 <= vector <= 20 && vector != 8
    requires Linked(l, c.mem) && StackFree(l, FrameTop(c.rsp), 80) && InUse(s, c.flow.cs, c.flow.ss)
    ensures c'.info == Recorded(c, vector, errorCode)
    ensures Linked(l, c'.mem) && SameOutside(c.mem, c'.mem, FrameTop(c.rsp) - 80, FrameTop(c.rsp))
    ensures Read(c'.mem, l.context + 80) == Read(c.mem, l.context + 80)
    ensures vector != 13 ==>
              c' == Cpu(l.recovery, c.rbx, c.rsp, c.g.(rdi := l.context), c.rsp,
                        c.flow.(rip := l.recovery), c.cr, c'.mem, c'.info)
    ensures vector == 13 ==>
              c' == c.(rax := 0xDEAD, rcx := EntryRsp(c.rsp, 13), flow := c.flow.(rip := (c.flow.rip + 2) % WORD),
                       mem := c'.mem, info := c'.info)
  {
    hide FrameTop, Selector, StackFree, Linked;
    if vector == 13 {
      c' := TakeGpf(l, s, c, errorCode);
    } else if vector == 10 || vector == 11 || vector == 12 || vector == 14 || vector == 17 {
      c' := TakeWithErrorCode(l, s, c, vector, errorCode);
    } else {
      c' := TakeNoErrorCode(l, s, c, vector, errorCode);
    }
  }

  method TakeGpf(l: Layout, s: Segments, c: Cpu, errorCode: int) returns (c': Cpu)
    requires Linked(l, c.mem) && StackFree(l, FrameTop(c.rsp), 80) && InUse(s, c.flow.cs, c.flow.ss)
    ensures c' == c.(rax := 0xDEAD, rcx := EntryRsp(c.rsp, 13), flow := c.flow.(rip := (c.flow.rip + 2) % WORD),
                     mem := c'.mem, info := Recorded(c, 13, errorCode))
    ensures Linked(l, c'.mem) && SameOutside(c.mem, c'.mem, FrameTop(c.rsp) - 80, FrameTop(c.rsp))
    ensures Read(c'.mem, l.context + 80) == Read(c.mem, l.context + 80)
  {
    hide FrameTop;
    var d := Deliver(c, 13, errorCode);
    c' := HandlerGpf(l, d);
    var fault;
    c', fault := Iretq(s, c');
  }

  method TakeWithErrorCode(l: Layout, s: Segments, c: Cpu, vector: int, errorCode: int) returns (c': Cpu)
    requires PushesErrorCode(vector)
    requires Linked(l, c.mem) && StackFree(l, FrameTop(c.rsp), 80) && InUse(s, c.flow.cs, c.flow.ss)
    ensures c' == Cpu(l.recovery, c.rbx, c.rsp, c.g.(rdi := l.context), c.rsp, c.flow.(rip := l.recovery), c.cr,
                      c'.mem, Recorded(c, vector, errorCode))
    ensures Linked(l, c'.mem) && SameOutside(c.mem, c'.mem, FrameTop(c.rsp) - 80, FrameTop(c.rsp))
    ensures Read(c'.mem, l.context + 80) == Read(c.mem, l.context + 80)
  {
    hide FrameTop;
    var d := Deliver(c, vector, errorCode);
    c' := HandlerWithErrorCode(l, d, vector);
    var fault;
    c', fault := Iretq(s, c');
  }

  method TakeNoErrorCode(l: Layout, s: Segments, c: Cpu, vector: int, errorCode: int) returns (c': Cpu)
    requires !PushesErrorCode(vector)
    requires Linked(l, c.mem) && StackFree(l, FrameTop(c.rsp), 80) && InUse(s, c.flow.cs, c.flow.ss)
    ensures c' == Cpu(l.recovery, c.rbx, c.rsp, c.g.(rdi := l.context), c.rsp, c.flow.(rip := l.recovery), c.cr,
                      c'.mem, Recorded(c, vector, errorCode))
    ensures Linked(l, c'.mem) && SameOutside(c.mem, c'.mem, FrameTop(c.rsp) - 80, FrameTop(c.rsp))
    ensures Read(c'.mem, l.context + 80) == Read(c.mem, l.context + 80)
  {
    hide FrameTop;
    var d := Deliver(c, vector, errorCode);
    c' := HandlerNoErrorCode(l, d, vector);
    var fault;
    c', fault := Iretq(s, c');
  }

  // ---- the double fault ----

  /** What the handler of vector 8 loads CS and SS from: the cells of RIP and RSP. */
  function DoubleFaultVector(s: Segments, c: Cpu): int { SegmentFault(s, c.flow.rip, c.rsp) }

  /** The processor's state in an iretq of the handlers that cannot be carried out: it runs in the
      segment of the IDT entry, with the interrupted SS. */
  function Stuck(l: Layout, c: Cpu, iretq: int, rflags: int): Cpu {
    c.(flow := Flow(iretq, l.codeSegment, rflags, c.flow.ss))
  }

  /** proto_handler_8 up to its iretq, entered by the processor. */
  method EnterDoubleFault(l: Layout, c: Cpu, errorCode: int) returns (h: Cpu)
    requires Linked(l, c.mem) && StackFree(l, FrameTop(c.rsp), 80)
    ensures h == Cpu(l.dummyLoop, c.rbx, c.rsp, c.g, FrameTop(c.rsp) - 48, c.flow, c.cr, h.mem,
                     Recorded(c, 8, errorCode))
    ensures Read(h.mem, h.rsp) == l.dummyLoop && FrameOf(c, h.mem)
    ensures Linked(l, h.mem) && Read(h.mem, l.context + 80) == Read(c.mem, l.context + 80)
  {
    var d := Deliver(c, 8, errorCode);
    h := HandlerDoubleFault(l, d);
  }

  /** The end of a double fault when the iretq of handler 8 raises #GP. Handler 13 resumes two bytes on,
      which is behind the iretq: through the padding into proto_handler_9. That finds the same frame,
      and its iretq fails in the same way; behind it lies proto_handler_10, which takes the stale cell
      for an error code, removes it, and so reaches recovery. */
  method SlideToRecovery(l: Layout, s: Segments, h: Cpu, rflags8: int, error8: int, rflags9: int, error9: int)
    returns (c': Cpu)
    requires Linked(l, h.mem) && StackFree(l, h.rsp + 48, 128) && FrameTop(h.rsp) == h.rsp
    requires InUse(s, l.codeSegment, h.flow.ss) && InUse(s, Read(h.mem, h.rsp + 16), Read(h.mem, h.rsp + 40))
    requires SegmentFault(s, Read(h.mem, h.rsp + 8), Read(h.mem, h.rsp + 32)) == PROTECTION
    ensures Recovers(l, h, c')
    ensures c'.rsp == Read(h.mem, h.rsp + 32)
    ensures c'.flow == Flow(l.recovery, Read(h.mem, h.rsp + 16), Read(h.mem, h.rsp + 24), Read(h.mem, h.rsp + 40))
    ensures c'.info.occurred == 1 && c'.info.number == 10 && c'.info.errorCode == l.recovery
    ensures c'.info.rax == 0xDEAD && c'.info.rdi == l.context
    ensures c'.info == WithFrame(c'.info, h.mem, h.rsp + 8)
  {
    hide FrameTop;
    var g8 := TakeFault(l, s, Stuck(l, h, l.iretq8, rflags8), PROTECTION, error8);
    assert g8.flow.rip == (l.iretq8 + 2) % WORD && g8.rsp == h.rsp;
    var h9 := HandlerNoErrorCode(l, g8, 9);
    var fault;
    h9, fault := Iretq(s, h9);
    assert fault == PROTECTION;
    var g9 := TakeFault(l, s, Stuck(l, h9, l.iretq9, rflags9), PROTECTION, error9);
    assert g9.flow.rip == (l.iretq9 + 2) % WORD && g9.rsp == h.rsp;
    var h10 := HandlerWithErrorCode(l, g9, 10);
    c', fault := Iretq(s, h10);
  }

  /** A double fault locks the core up in dummy_loop iff the low 16 bits of the interrupted RIP happen
      to select a code segment and those of the interrupted RSP a stack segment. Otherwise the core
      recovers, with fault number 11 or 12 if such a segment is marked not present, and 10 if not. */
  method TakeDoubleFault(l: Layout, s: Segments, c: Cpu, errorCode: int,
                         rflags8: int, error8: int, rflags9: int, error9: int)
    returns (c': Cpu)
    requires Linked(l, c.mem) && StackFree(l, FrameTop(c.rsp), 128)
    requires InUse(s, c.flow.cs, c.flow.ss) && InUse(s, l.codeSegment, c.flow.ss) && l.dummyLoop != l.recovery
    ensures var locked := Selector(c.flow.rip) in s.code && Selector(c.rsp) in s.stack;
            && (c'.flow.rip == l.dummyLoop <==> locked)
            && (Recovers(l, c, c') <==> !locked)
    ensures c'.flow.rip == l.dummyLoop ==>
              && c'.flow == Flow(l.dummyLoop, Selector(c.flow.rip), c.flow.cs, Selector(c.rsp))
              && c'.rsp == c.flow.rflags && c'.info == Recorded(c, 8, errorCode)
    ensures Linked(l, c'.mem) && Read(c'.mem, l.context + 80) == Read(c.mem, l.context + 80)
    ensures c'.info.occurred == 1
    ensures c'.info.number == var v := DoubleFaultVector(s, c);
                              if v == NO_FAULT then 8 else if v == PROTECTION then 10 else v
    ensures DoubleFaultVector(s, c) == PROTECTION ==>
              && c'.rsp == c.rsp && c'.flow == c.flow.(rip := l.recovery)
              && c'.info.rip == c.flow.rip && c'.info.cs == c.flow.cs && c'.info.rflags == c.flow.rflags
              && c'.info.originalRsp == c.rsp && c'.info.errorCode == l.recovery
  {
    hide FrameTop;
    var h := EnterDoubleFault(l, c, errorCode);
    FrameTopIsAligned(c.rsp);
    var fault;
    c', fault := Iretq(s, h);
    if fault == PROTECTION {
      c' := SlideToRecovery(l, s, h, rflags8, error8, rflags9, error9);
    } else if fault != NO_FAULT {
      c' := TakeFault(l, s, Stuck(l, h, l.iretq8, rflags8), fault, error8);
    }
  }

  /** An example of memory in which a core's fault handlers are linked: context, record and stub lie
      apart from each other and from the stack. */
  const SAMPLE := Layout(0x1000, 0x2000, 0x3000, 0x4000, 0x5000, 0x6000, 0x6010, 0x38)

  function SampleCpu(rip: int, rsp: int): Cpu {
    Cpu(0, 0, 0, General(0, 0, 0, 0, 0, 0, 0, 0, 0, 0, 0, 0), rsp, Flow(rip, 0x38, 0x202, 0x30), Control(0, 0, 0, 0),
        map[0x3000 := 0x1000, 0x3008 := 0x4000, 0x1048 := 0x2000],
        FaultInfo(0, 0, 0, 0, 0, 0, 0, 0, 0, 0, 0, 0, 0, 0, 0, 0, 0, 0, 0, 0, 0, 0, 0, 0, 0, 0, 0))
  }

  /** Where 0x38 is the only code segment, an ordinary double fault does not lock the core up: it
      recovers, with fault number 10. */
  method OrdinaryDoubleFault(stack: set<int>) returns (c': Cpu)
    requires 0x30 in stack
    ensures c'.flow.rip == SAMPLE.recovery && c'.g.rdi == SAMPLE.context
    ensures c'.info.occurred == 1 && c'.info.number == 10 && c'.info.rip == 0x7E51_2340
  {
    var s := Segments({0x38}, stack, {}, {});
    c' := TakeDoubleFault(SAMPLE, s, SampleCpu(0x7E51_2340, 0x7E60_0030), 0, 0, 0, 0, 0);
  }

  /** One that does, which a comparison of all 64 bits of RIP with CS would miss. */
  method ExtraordinaryDoubleFault(stack: set<int>) returns (c': Cpu)
    requires 0x30 in stack
    ensures c'.flow.rip == SAMPLE.dummyLoop && c'.info.number == 8 && c'.info.rip != c'.info.cs
  {
    var s := Segments({0x38}, stack, {}, {});
    c' := TakeDoubleFault(SAMPLE, s, SampleCpu(0x7E51_0038, 0x7E60_0030), 0, 0, 0, 0, 0);
  }

  // ---- recovery ----

  /** core_main_loop_stub_wrapper: remembers the stack the core was started on. */
  method StubWrapper(context: int, rsp: int, mem: Memory) returns (mem': Memory)
    ensures Wrote(mem, mem', context + 80, rsp)
  {
    mem' := mem[context + 80 := rsp];
  }

  /** core_main_loop_stub_recovery: RDI is the context. */
  method StubRecovery(rdi: int, mem: Memory) returns (rsp: int)
    ensures rsp == Read(mem, rdi + 80)
  {
    rsp := Read(mem, rdi + 80);
  }

  /** A stretch of job code that ends in a fault: registers are anything, and the job has written
      some cells, but neither the stub, the record pointer nor recovery_rsp. */
  datatype Episode = Episode(cpu: Cpu, writes: Memory, vector: int, errorCode: int)

  /** The fault is one that recovers: any of vectors 1 to 20 but 13, and a double fault unless it
      really locks the core up. */
  ghost predicate Tame(l: Layout, s: Segments, e: Episode) {
    && 1 <= e.vector <= 20 && e.vector != 13
    && (e.vector == 8 ==> DoubleFaultVector(s, e.cpu) != NO_FAULT)
    && InUse(s, e.cpu.flow.cs, e.cpu.flow.ss) && InUse(s, l.codeSegment, e.cpu.flow.ss)
    && StackFree(l, FrameTop(e.cpu.rsp), 128)
    && forall a :: a in e.writes ==> !(l.stub <= a < l.stub + 16) && !(l.context + 72 <= a < l.context + 88)
  }

  /** The processor where an episode is interrupted, if it began with this memory. */
  function Interrupted(mem: Memory, e: Episode): Cpu { e.cpu.(mem := mem + e.writes) }

  /** A core about to run recovery after an episode: the record is marked, and complete. */
  ghost predicate Recovered(l: Layout, s: Segments, mem: Memory, e: Episode, c: Cpu) {
    && Recovers(l, Interrupted(mem, e), c)
    && c.info.occurred == 1
    && (e.vector != 8 ==> c.info == Recorded(Interrupted(mem, e), e.vector, e.errorCode))
    && (e.vector == 8 ==>
          var v := DoubleFaultVector(s, e.cpu); c.info.number == if v == PROTECTION then 10 else v)
  }

  /** Memory when episode i begins. */
  function MemoryBefore(first: Memory, states: seq<Cpu>, i: nat): Memory
    requires i <= |states|
  {
    if i == 0 then first else states[i - 1].mem
  }

  lemma BeforeFirst(first: Memory)
    ensures MemoryBefore(first, [], 0) == first
  {
  }

  lemma BeforeKept(first: Memory, states: seq<Cpu>, c: Cpu)
    ensures forall i: nat :: i <= |states| ==> MemoryBefore(first, states + [c], i) == MemoryBefore(first, states, i)
    ensures MemoryBefore(first, states + [c], |states| + 1) == c.mem
  {
  }

  lemma StillLinked(l: Layout, mem: Memory, mem': Memory, v: int)
    requires Linked(l, mem) && Wrote(mem, mem', l.context + 80, v) && Apart(l.context + 80, 8, l.stub, 16)
    ensures Linked(l, mem')
  {
  }

  /** However many faults a core recovers from, and wherever the stack was when they struck: after each
      the state is that of a recovered core, recovery loads its stack pointer from there, and this is
      always the one of the first start. first is memory after the first start. */
  method RecoverAll(l: Layout, s: Segments, startRsp: int, start: Memory, episodes: seq<Episode>)
    returns (first: Memory, states: seq<Cpu>, entries: seq<int>)
    requires Linked(l, start) && Apart(l.context + 80, 8, l.stub, 16) && l.dummyLoop != l.recovery
    requires forall e :: e in episodes ==> Tame(l, s, e)
    ensures Wrote(start, first, l.context + 80, startRsp)
    ensures |states| == |episodes| && |entries| == |episodes| + 1
    ensures forall i :: 0 <= i < |episodes| ==>
              Recovered(l, s, MemoryBefore(first, states, i), episodes[i], states[i])
    ensures forall i :: 0 <= i < |states| ==> entries[i + 1] == Read(states[i].mem, states[i].g.rdi + 80)
    ensures forall i :: 0 <= i < |entries| ==> entries[i] == startRsp
  {
    hide Tame, Recovered, Linked, MemoryBefore;
    first := StubWrapper(l.context, startRsp, start);
    states, entries := [], [startRsp];
    StillLinked(l, start, first, startRsp);
    assert MemoryBefore(first, states, 0) == first by { BeforeFirst(first); }
    var mem := first;
    for n := 0 to |episodes|
      invariant Linked(l, mem) && Read(mem, l.context + 80) == startRsp
      invariant |states| == n && |entries| == n + 1 && mem == MemoryBefore(first, states, n)
      invariant forall i :: 0 <= i < n ==>
                  Recovered(l, s, MemoryBefore(first, states, i), episodes[i], states[i])
      invariant forall i :: 0 <= i < n ==> entries[i + 1] == Read(states[i].mem, states[i].g.rdi + 80)
      invariant forall i :: 0 <= i <= n ==> entries[i] == startRsp
    {
      var c := RecoverOnce(l, s, mem, episodes[n]);
      mem := c.mem;
      var rsp := StubRecovery(c.g.rdi, mem);
      BeforeKept(first, states, c);
      states, entries := states + [c], entries + [rsp];
    }
  }

  method RecoverOnce(l: Layout, s: Segments, mem: Memory, e: Episode) returns (c': Cpu)
    requires Linked(l, mem) && l.dummyLoop != l.recovery && Tame(l, s, e)
    ensures Recovered(l, s, mem, e, c')
    ensures c'.g.rdi == l.context && Linked(l, c'.mem) && Read(c'.mem, l.context + 80) == Read(mem, l.context + 80)
  {
    hide FrameTop;
    var c := Interrupted(mem, e);
    if e.vector == 8 {
      c' := TakeDoubleFault(l, s, c, e.errorCode, 0, 0, 0, 0);
    } else {
      c' := TakeFault(l, s, c, e.vector, e.errorCode);
    }
  }
}
