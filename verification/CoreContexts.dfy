/** The control structure that core 0 and one application processor (AP) share, the jobs
    that core 0 writes into it, and the history variables used to talk about whole runs. */
module CoreContexts {

  // ---- jobs ----

  /** A request to run something on a core, one constructor per message that queues a job. */
  datatype Job =
    | ExecuteMachineCode(code: int)
    | ApplyUcodeTest(ucode: int, code: int, restore: bool)
    | ReadMsr(msr: int)

  datatype Func = MachineCodeFn | PrepareUcodeFn | ApplySimpleFn | ApplyRestoreFn | ReadMsrFn

  /** One entry of core_functions. */
  datatype Slot = Empty | Call(func: Func)

  const CORE_FUNCTION_SLOTS := 3

  /** The function slots that a job is meant to run. */
  function Slots(job: Job): (r: seq<Slot>)
    ensures |r| == CORE_FUNCTION_SLOTS
  {
    match job
    case ExecuteMachineCode(_) => [Call(MachineCodeFn), Empty, Empty]
    case ApplyUcodeTest(_, _, restore) =>
      [Call(PrepareUcodeFn), Call(if restore then ApplyRestoreFn else ApplySimpleFn), Empty]
    case ReadMsr(_) => [Call(ReadMsrFn), Empty, Empty]
  }

  /** The functions called when the slots are walked in order. */
  function Called(slots: seq<Slot>): seq<Func> {
    if slots == [] then []
    else
      var last := slots[|slots| - 1];
      Called(slots[..|slots| - 1]) + if last.Empty? then [] else [last.func]
  }

  // ---- the shared structure ----

  /** The fields a job reports back through; msr is the two-word buffer passed to read_msr. */
  datatype Result = Result(rdtsc: int, gpf: int, buffer: seq<int>, msr: seq<int>)

  const RESULT_BUFFER_SIZE := 1024

  function Zeros(n: nat): seq<int> { seq(n, i => 0) }

  predicate ResultZeroed(r: Result) {
    r.rdtsc == 0 && r.gpf == 0 && r.buffer == Zeros(RESULT_BUFFER_SIZE)
  }

  /** CoreFaultInfo: the flag, and the 26 words behind it. */
  datatype FaultRecord = FaultRecord(occurred: bool, fields: seq<int>)

  const FAULT_FIELDS := 26

  function CleanRecord(): FaultRecord { FaultRecord(false, Zeros(FAULT_FIELDS)) }

  datatype Context = Context(
    present: bool, started: bool, ready: bool, jobQueued: bool, lock: bool,
    functions: seq<Slot>, code: int, ucode: int, result: Result,
    fault: FaultRecord, recoveryRsp: int)

  /** What an AP finds in the context at the moment it accepts a job. */
  datatype Seen = Seen(functions: seq<Slot>, code: int, ucode: int, result: Result)

  function SeenIn(c: Context): Seen { Seen(c.functions, c.code, c.ucode, c.result) }

  /** The context content s is exactly what core 0 was asked to hand over for job. */
  predicate Matches(s: Seen, job: Job) {
    && s.functions == Slots(job)
    && (job.ExecuteMachineCode? ==> s.code == job.code && ResultZeroed(s.result))
    && (job.ApplyUcodeTest? ==> s.code == job.code && s.ucode == job.ucode && ResultZeroed(s.result))
    && (job.ReadMsr? ==> s.result.msr == [job.msr, 0])
  }

  // ---- core 0 writing a job, one store at a time ----

  datatype Store =
    | ClearFunctions
    | SetFunction(i: nat, func: Func)
    | SetCode(a: int)
    | SetUcode(a: int)
    | ZeroGpf
    | ZeroRdtsc
    | ZeroBuffer
    | SetMsrBuffer(msr: int)

  function DoStore(w: Store, c: Context): Context {
    match w
    case ClearFunctions => c.(functions := [Empty, Empty, Empty])
    case SetFunction(i, func) => if i < |c.functions| then c.(functions := c.functions[i := Call(func)]) else c
    case SetCode(a) => c.(code := a)
    case SetUcode(a) => c.(ucode := a)
    case ZeroGpf => c.(result := c.result.(gpf := 0))
    case ZeroRdtsc => c.(result := c.result.(rdtsc := 0))
    case ZeroBuffer => c.(result := c.result.(buffer := Zeros(RESULT_BUFFER_SIZE)))
    case SetMsrBuffer(msr) => c.(result := c.result.(msr := [msr, 0]))
  }

  /** The stores of the three producers, in the order of the source. */
  function Stores(job: Job): seq<Store> {
    match job
    case ExecuteMachineCode(code) =>
      [ClearFunctions, ZeroGpf, ZeroRdtsc, SetFunction(0, MachineCodeFn), SetCode(code), ZeroBuffer]
    case ApplyUcodeTest(ucode, code, restore) =>
      [ZeroBuffer, SetCode(code), SetUcode(ucode), ZeroGpf, ZeroRdtsc, ClearFunctions,
       SetFunction(0, PrepareUcodeFn), SetFunction(1, if restore then ApplyRestoreFn else ApplySimpleFn)]
    case ReadMsr(msr) =>
      [SetMsrBuffer(msr), ClearFunctions, SetFunction(0, ReadMsrFn)]
  }

  function DoStores(ws: seq<Store>, c: Context): Context {
    if ws == [] then c else DoStores(ws[1..], DoStore(ws[0], c))
  }

  /** Whatever a previous job left behind, the stores of a producer hand over exactly the new job. */
  lemma {:induction false} StoresDeliver(job: Job, c: Context)
    ensures Matches(SeenIn(DoStores(Stores(job), c)), job)
  {
    var ws := Stores(job);
    var d := c;
    for k := 0 to |ws|
      invariant DoStores(ws[k..], d) == DoStores(ws, c)
      invariant d == DoPrefix(ws, k, c)
    {
      assert ws[k..][1..] == ws[k + 1..];
      d := DoStore(ws[k], d);
    }
    assert ws[|ws|..] == [];
    DeliveredPrefix(job, c);
  }

  function DoPrefix(ws: seq<Store>, k: nat, c: Context): Context
    requires k <= |ws|
  {
    if k == 0 then c else DoStore(ws[k - 1], DoPrefix(ws, k - 1, c))
  }

  lemma DeliveredPrefix(job: Job, c: Context)
    ensures Matches(SeenIn(DoPrefix(Stores(job), |Stores(job)|, c)), job)
  {
    var ws := Stores(job);
    var c1 := DoPrefix(ws, 1, c);
    var c2 := DoPrefix(ws, 2, c);
    var c3 := DoPrefix(ws, 3, c);
    if !job.ReadMsr? {
      var c4 := DoPrefix(ws, 4, c);
      var c5 := DoPrefix(ws, 5, c);
      var c6 := DoPrefix(ws, 6, c);
      if job.ApplyUcodeTest? {
        var c7 := DoPrefix(ws, 7, c);
        var c8 := DoPrefix(ws, 8, c);
      }
    }
  }

  // ---- history ----

  /** A finished job: what was seen when it was accepted, how many slots were entered, the
      functions really called, and the report left in the context. */
  datatype Completion = Completion(
    seen: Seen, depth: nat, calls: seq<Func>, recovered: bool, faulted: bool,
    result: Result, fault: FaultRecord)

  datatype History = History(
    submitted: seq<Job>,        // jobs core 0 has flagged with job_queued = 1
    accepted: seq<Seen>,        // contents found at each job_queued = 0 by the executing core
    completed: seq<Completion>, // reports left at each unlock after a job
    depth: nat, calls: seq<Func>, faulted: bool, // the current job so far
    entries: seq<int>)          // RSP at each entry to core_main_loop

  predicate Busy(h: History) { |h.accepted| == |h.completed| + 1 }

  predicate Pending(h: History) { |h.submitted| == |h.accepted| + 1 }

  /** A completion is a truthful report about the job that was accepted. */
  predicate Truthful(d: Completion) {
    && |d.seen.functions| == CORE_FUNCTION_SLOTS
    && d.depth <= CORE_FUNCTION_SLOTS
    && d.calls == Called(d.seen.functions[..d.depth])
    && (if d.recovered then d.faulted && 0 < d.depth && d.seen.functions[d.depth - 1].Call?
        else d.depth == CORE_FUNCTION_SLOTS)
    && d.fault.occurred == d.faulted
    && (!d.faulted ==> d.fault == CleanRecord())
  }
}
