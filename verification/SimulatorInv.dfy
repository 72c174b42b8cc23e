/** What every step of the simulator keeps. */
module SimulatorInv {
  import opened Barrier
  import opened BarrierSafety
  import opened Simulator
  import opened Numbers

  predicate Leaving(pc: DevPc) {
    pc.EnterDetach? || pc.SetFsh? || Detached(pc)
  }

  /** The slot in which a device next executes its own program. */
  function FreeSlot(d: Device): nat {
    if d.pc.Working? then d.slots else d.slots + 1
  }

  // As FreeSlot, but after the instruction of this slot has run.
  function NextRun(u: Cpu, d: Device): nat {
    if u.pc.Yield? then d.slots + 1 else FreeSlot(d)
  }

  // ---------- one CPU ----------

  predicate PlaceOkCpu(u: Cpu, d: Device) {
    && (!u.pc.Top? && !u.pc.Stopped? ==> d.pc.Working?)
    && (u.pc.Stopped? <==> Leaving(d.pc))
    && (IsGet(u.pc) || u.pc.Stopped? ==> u.held.None?)
    && (u.pc.Execute? || u.pc.Yield? ==> u.held.Some?)
  }

  predicate QuantumOk(cfg: Config, u: Cpu, pcs: map<nat, nat>) {
    && (u.held.None? && !u.pc.GetAfterFinish? ==> u.timeLeft == 0)
    && (u.held.Some? ==>
         var p := u.held.value;
         var i := PcOf(pcs, p);
         i < SizeOf(cfg, p) && !(u.pc.Recheck? && u.timeLeft == 0) ==>
           u.from <= i && u.timeLeft == cfg.timeSlot - (i - u.from))
  }

  // A CPU that has just failed to get a process did so in the current slot.
  predicate StopOk(time: nat, u: Cpu, done: bool, addedAt: seq<nat>) {
    && (u.pc.Recheck? && u.held.None? ==> u.gotSlot == time)
    && (u.pc.Stopped? ==> done && AllBefore(addedAt, u.gotSlot))
  }

  predicate AllBefore(times: seq<nat>, t: nat) {
    forall k :: 0 <= k < |times| ==> times[k] < t
  }

  predicate CpuOk(cfg: Config, s: Os, c: nat)
    requires c < |s.cpus| && c + 1 < |s.bar.devs|
  {
    && PlaceOkCpu(s.cpus[c], s.bar.devs[c + 1])
    && QuantumOk(cfg, s.cpus[c], s.pcs)
    && StopOk(s.bar.time, s.cpus[c], s.done, s.addedAt)
  }

  // ---------- the loader ----------

  /** The slot in which process `i` is due: not before its start time, and one slot after its
      predecessor at the earliest. */
  function Due(cfg: Config, i: nat): nat
    requires i < |cfg.starts|
  {
    if i == 0 then cfg.starts[0]
    else if cfg.starts[i] > Due(cfg, i - 1) + 1 then cfg.starts[i]
    else Due(cfg, i - 1) + 1
  }

  function Earliest(cfg: Config, i: nat): nat
    requires i <= |cfg.starts|
  {
    if i == 0 then 0 else Due(cfg, i - 1) + 1
  }

  predicate LdOk(cfg: Config, ld: LdPc, next: nat, done: bool, addedAt: seq<nat>, d: Device) {
    var n := |cfg.starts|;
    && (!ld.LdTop? && !ld.LdWait? && !ld.LdStopped? ==> d.pc.Working?)
    && (ld.LdStopped? <==> Leaving(d.pc))
    && next <= n
    && (ld.LdWait? || ld.LdAdd? ==> next < n)
    && (ld.LdFinish? || ld.LdDetach? || ld.LdStopped? ==> next == n)
    && (done <==> ld.LdDetach? || ld.LdStopped?)
    && |addedAt| == next
    && (forall k :: 0 <= k < next ==> addedAt[k] == Due(cfg, k))
    && (ld.LdTop? ==> FreeSlot(d) == Earliest(cfg, next))
    && (ld.LdWait? ==> Earliest(cfg, next) <= FreeSlot(d) <= Due(cfg, next))
    && (ld.LdAdd? ==> d.slots == Due(cfg, next))
    && (ld.LdYield? ==> d.slots + 1 == Earliest(cfg, next))
    && (ld.LdFinish? || ld.LdDetach? || ld.LdStopped? ==> d.slots == Earliest(cfg, next))
  }

  lemma {:induction false} DueIncreases(cfg: Config, i: nat, j: nat)
    requires i < j < |cfg.starts|
    ensures Due(cfg, i) < Due(cfg, j)
    decreases j
  {
    if i == j - 1 {
    } else {
      DueIncreases(cfg, i, j - 1);
    }
  }

  // ---------- where every process is ----------

  function Holders(cpus: seq<Cpu>, p: nat): nat {
    if cpus == [] then 0 else Holds(cpus[0], p) + Holders(cpus[1..], p)
  }

  function Holds(u: Cpu, p: nat): nat {
    if u.held == Some(p) then 1 else 0
  }

  function Copies(s: Os, p: nat): nat {
    s.ready[p] + Holders(s.cpus, p) + s.finished[p] + s.lost[p]
  }

  /** Every process added so far is in exactly one place: the queue, the hands of one CPU, the
      finished ones or the lost ones. */
  ghost predicate Conserved(s: Os) {
    forall p: nat :: Copies(s, p) == if p < s.next then 1 else 0
  }

  ghost predicate FinishedOk(cfg: Config, s: Os) {
    && (forall p: nat :: PcOf(s.pcs, p) <= SizeOf(cfg, p))
    && forall p: nat :: p in s.finished ==> PcOf(s.pcs, p) == SizeOf(cfg, p)
  }

  // ---------- the executed instructions ----------

  /** The positions of the instructions that process `p` has executed, in order. */
  function Trace(log: seq<Entry>, p: nat): seq<nat> {
    if log == [] then []
    else
      var last := log[|log| - 1];
      Trace(log[..|log| - 1], p) + if last.proc == p then [last.index] else []
  }

  ghost predicate TraceOk(s: Os) {
    forall p: nat :: Trace(s.log, p) == UpTo(PcOf(s.pcs, p))
  }

  // Where a process is bounds the slots of the instructions it has executed.
  predicate LogBounded(s: Os)
    requires |s.bar.devs| == |s.cpus| + 1
  {
    forall k :: 0 <= k < |s.log| ==>
      && s.log[k].proc < s.next
      && (s.log[k].proc in s.ready ==> s.log[k].slot < s.bar.time)
      && (forall c :: 0 <= c < |s.cpus| && s.cpus[c].held == Some(s.log[k].proc) ==>
           s.log[k].slot < NextRun(s.cpus[c], s.bar.devs[c + 1]))
  }

  // And so does the CPU that executed them.
  predicate RunnersBounded(s: Os)
    requires |s.bar.devs| == |s.cpus| + 1
  {
    forall k :: 0 <= k < |s.log| ==>
      && s.log[k].cpu < |s.cpus|
      && s.log[k].slot < NextRun(s.cpus[s.log[k].cpu], s.bar.devs[s.log[k].cpu + 1])
  }

  predicate LogOrdered(log: seq<Entry>) {
    forall j, k :: 0 <= j < k < |log| && (log[j].proc == log[k].proc || log[j].cpu == log[k].cpu) ==>
      log[j].slot < log[k].slot
  }

  predicate CpusOk(cfg: Config, s: Os)
    requires |s.bar.devs| == |s.cpus| + 1
  {
    forall c :: 0 <= c < |s.cpus| ==> CpuOk(cfg, s, c)
  }

  ghost predicate OsInv(cfg: Config, s: Os) {
    && Inv(s.bar)
    && |s.bar.devs| == |s.cpus| + 1
    && CpusOk(cfg, s)
    && LdOk(cfg, s.ld, s.next, s.done, s.addedAt, s.bar.devs[0])
    && Conserved(s)
    && FinishedOk(cfg, s)
    && TraceOk(s)
    && LogBounded(s)
    && RunnersBounded(s)
    && LogOrdered(s.log)
  }
}
