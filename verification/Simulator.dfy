/** cpu_routine and ld_routine of src/os.c, with run of src/cpu.c, as programs of the devices of
    the time-slot barrier.

    The loader is device 0 and CPU number c is device c + 1. A device takes a step of its own
    program only while its thread is outside next_slot and detach_event; these steps interleave
    with all steps of the barrier. Processes are named by their position in the configuration.

    The ready queue is a bag: what get_proc returns is either NULL or any member, and put_proc
    and add_proc insert or lose the process. This covers the queue operations the repository
    leaves unwritten, whatever they will do. */
module Simulator {
  import opened Barrier

  datatype Option<T> = None | Some(value: T)

  // time_slot, and for every process its start time and its number of instructions.
  datatype Config = Config(timeSlot: int, starts: seq<nat>, sizes: seq<nat>)

  datatype CpuPc =
    | Top             // head of the loop
    | GetIdle         // get_proc after finding no process
    | GetAfterFinish  // get_proc after a process has finished
    | GetAfterPut     // get_proc after a process was put back
    | Recheck         // status after loading a new process
    | Execute         // run
    | Yield           // next_slot at the end of the loop
    | Stopped         // left the loop

  /** The locals of cpu_routine. The last two fields record history: the program counter of the
      held process at its dispatch, and the slot of the last get_proc. */
  datatype Cpu = Cpu(pc: CpuPc, held: Option<nat>, timeLeft: int, from: nat, gotSlot: nat)

  datatype LdPc = LdTop | LdWait | LdAdd | LdYield | LdFinish | LdDetach | LdStopped

  // One executed instruction: process, position in its code, slot, CPU.
  datatype Entry = Entry(proc: nat, index: nat, slot: nat, cpu: nat)

  /** All threads. `next` is the loader's `i`, `done` the flag of src/os.c. History: finished
      and lost processes, the slot of every add_proc, every executed instruction, and the
      processes that run has been called with. */
  datatype Os = Os(
    bar: State,
    cpus: seq<Cpu>,
    ld: LdPc,
    next: nat,
    done: bool,
    ready: multiset<nat>,
    pcs: map<nat, nat>,
    finished: multiset<nat>,
    lost: multiset<nat>,
    addedAt: seq<nat>,
    log: seq<Entry>,
    tried: set<nat>)

  datatype OsAction =
    | Bar(a: Action)
    | CpuGo(c: nat, got: Option<nat>, lose: bool)
    | LdGo(lose: bool)

  function Boot(cpus: nat): Os {
    Os(Init(cpus + 1), seq(cpus, _ => Cpu(Top, None, 0, 0, 0)), LdTop, 0, false,
       multiset{}, map[], multiset{}, multiset{}, [], [], {})
  }

  // load sets proc->pc to 0.
  function PcOf(pcs: map<nat, nat>, p: nat): nat {
    if p in pcs then pcs[p] else 0
  }

  function SizeOf(cfg: Config, p: nat): nat {
    if p < |cfg.sizes| then cfg.sizes[p] else 0
  }

  // ---------- calls into the barrier ----------

  function EnterNextSlot(s: Os, i: nat): Os
    requires Enabled(s.bar, CallNextSlot(i))
  {
    s.(bar := Do(s.bar, CallNextSlot(i)))
  }

  function EnterDetachEvent(s: Os, i: nat): Os
    requires Enabled(s.bar, CallDetach(i))
  {
    s.(bar := Do(s.bar, CallDetach(i)))
  }

  function SetCpu(s: Os, c: nat, u: Cpu): Os
    requires c < |s.cpus|
  {
    s.(cpus := s.cpus[c := u])
  }

  // ---------- cpu_routine ----------

  predicate IsGet(pc: CpuPc) {
    pc.GetIdle? || pc.GetAfterFinish? || pc.GetAfterPut?
  }

  predicate CpuEnabled(s: Os, c: nat, got: Option<nat>) {
    && c < |s.cpus|
    && Enabled(s.bar, CallNextSlot(c + 1))
    && var u := s.cpus[c];
    && !u.pc.Stopped?
    && (u.pc.Execute? ==> u.held.Some?)
    && (if IsGet(u.pc) then got.Some? ==> got.value in s.ready else got.None?)
  }

  function CpuDo(cfg: Config, s: Os, c: nat, got: Option<nat>, lose: bool): Os
    requires CpuEnabled(s, c, got)
  {
    match s.cpus[c].pc
    case Top => LookAtCurrent(cfg, s, c, lose)
    case GetIdle =>
      if got.None? then EnterNextSlot(TakeNext(s, c, None, s.cpus[c].timeLeft, Top), c + 1)
      else TakeNext(s, c, got, s.cpus[c].timeLeft, Recheck)
    case GetAfterFinish => TakeNext(s, c, got, 0, Recheck)
    case GetAfterPut => TakeNext(s, c, got, s.cpus[c].timeLeft, Recheck)
    case Recheck => LookAgain(cfg, s, c)
    case Execute => RunOne(cfg, s, c)
    case Yield => EnterNextSlot(SetCpu(s, c, s.cpus[c].(pc := Top)), c + 1)
  }

  /** Check the status of the current process. */
  function LookAtCurrent(cfg: Config, s: Os, c: nat, lose: bool): Os
    requires c < |s.cpus|
  {
    var u := s.cpus[c];
    if u.held.None? then SetCpu(s, c, u.(pc := GetIdle))
    else
      var p := u.held.value;
      if PcOf(s.pcs, p) == SizeOf(cfg, p) then
        SetCpu(s, c, u.(pc := GetAfterFinish, held := None)).(finished := s.finished + multiset{p})
      else if u.timeLeft == 0 then
        Offer(SetCpu(s, c, u.(pc := GetAfterPut, held := None)), p, lose)
      else SetCpu(s, c, u.(pc := Recheck))
  }

  // put_proc and add_proc.
  function Offer(s: Os, p: nat, lose: bool): Os {
    if lose then s.(lost := s.lost + multiset{p}) else s.(ready := s.ready + multiset{p})
  }

  // get_proc.
  function TakeNext(s: Os, c: nat, got: Option<nat>, timeLeft: int, pc: CpuPc): Os
    requires c < |s.cpus|
  {
    SetCpu(s, c, s.cpus[c].(pc := pc, held := got, timeLeft := timeLeft, gotSlot := s.bar.time))
      .(ready := if got.Some? then s.ready - multiset{got.value} else s.ready)
  }

  /** Recheck the status after loading a new process. */
  function LookAgain(cfg: Config, s: Os, c: nat): Os
    requires c < |s.cpus| && Enabled(s.bar, CallNextSlot(c + 1))
  {
    var u := s.cpus[c];
    match u.held
    case None =>
      if s.done then EnterDetachEvent(SetCpu(s, c, u.(pc := Stopped)), c + 1)
      else EnterNextSlot(SetCpu(s, c, u.(pc := Top)), c + 1)
    case Some(p) =>
      if u.timeLeft == 0
      then SetCpu(s, c, u.(pc := Execute, timeLeft := cfg.timeSlot, from := PcOf(s.pcs, p)))
      else SetCpu(s, c, u.(pc := Execute))
  }

  /** run, which refuses when the program counter is past the code, and time_left--. */
  function RunOne(cfg: Config, s: Os, c: nat): Os
    requires c < |s.cpus| && s.cpus[c].held.Some?
  {
    var u := s.cpus[c];
    var p := u.held.value;
    var i := PcOf(s.pcs, p);
    var t := SetCpu(s, c, u.(pc := Yield, timeLeft := u.timeLeft - 1)).(tried := s.tried + {p});
    if i >= SizeOf(cfg, p) then t
    else t.(pcs := s.pcs[p := i + 1], log := s.log + [Entry(p, i, s.bar.time, c)])
  }

  // ---------- ld_routine ----------

  predicate LdEnabled(s: Os) {
    Enabled(s.bar, CallNextSlot(0)) && !s.ld.LdStopped?
  }

  function LdDo(cfg: Config, s: Os, lose: bool): Os
    requires LdEnabled(s)
  {
    match s.ld
    case LdTop => s.(ld := if s.next < |cfg.starts| then LdWait else LdFinish)
    case LdWait =>
      if s.next < |cfg.starts| && s.bar.time < cfg.starts[s.next] then EnterNextSlot(s, 0)
      else s.(ld := LdAdd)
    case LdAdd =>
      Offer(s, s.next, lose).(addedAt := s.addedAt + [s.bar.time], next := s.next + 1, ld := LdYield)
    case LdYield => EnterNextSlot(s.(ld := LdTop), 0)
    case LdFinish => s.(done := true, ld := LdDetach)
    case LdDetach => EnterDetachEvent(s.(ld := LdStopped), 0)
  }

  // ---------- runs ----------

  predicate OsEnabled(s: Os, a: OsAction) {
    match a
    case Bar(b) => !b.CallNextSlot? && !b.CallDetach? && Enabled(s.bar, b)
    case CpuGo(c, got, lose) => CpuEnabled(s, c, got)
    case LdGo(lose) => LdEnabled(s)
  }

  function OsDo(cfg: Config, s: Os, a: OsAction): Os
    requires OsEnabled(s, a)
  {
    match a
    case Bar(b) => s.(bar := Do(s.bar, b))
    case CpuGo(c, got, lose) => CpuDo(cfg, s, c, got, lose)
    case LdGo(lose) => LdDo(cfg, s, lose)
  }

  predicate OsValid(cfg: Config, s: Os, run: seq<OsAction>)
    decreases |run|
  {
    run == [] || (OsEnabled(s, run[0]) && OsValid(cfg, OsDo(cfg, s, run[0]), run[1..]))
  }

  function OsExec(cfg: Config, s: Os, run: seq<OsAction>): Os
    requires OsValid(cfg, s, run)
    decreases |run|
  {
    if run == [] then s else OsExec(cfg, OsDo(cfg, s, run[0]), run[1..])
  }
}
