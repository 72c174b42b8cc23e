/** The instructions of one quantum: they run on one CPU, in consecutive slots, and there are at
    most time_slot of them before the CPU gives the process back. */
module SimulatorQuantum {
  import opened Barrier
  import opened BarrierSafety
  import opened Simulator
  import opened SimulatorInv
  import opened SimulatorSteps
  import opened SimulatorSafety
  import opened Numbers

  // Counting back from where CPU `c` is now, entry `e` has its slot, if it is of this quantum.
  predicate EntryOk(cfg: Config, u: Cpu, d: Device, c: nat, pcs: map<nat, nat>, e: Entry) {
    var i := PcOf(pcs, e.proc);
    u.held == Some(e.proc) && i < SizeOf(cfg, e.proc) && !(u.pc.Recheck? && u.timeLeft == 0) && u.from <= e.index ==>
      e.cpu == c && e.slot + (i - e.index) == NextRun(u, d)
  }

  predicate EntriesOk(cfg: Config, u: Cpu, d: Device, c: nat, pcs: map<nat, nat>, log: seq<Entry>) {
    forall k :: 0 <= k < |log| ==> EntryOk(cfg, u, d, c, pcs, log[k])
  }

  predicate Unbroken(cfg: Config, s: Os)
    requires |s.bar.devs| == |s.cpus| + 1
  {
    forall c :: 0 <= c < |s.cpus| ==> EntriesOk(cfg, s.cpus[c], s.bar.devs[c + 1], c, s.pcs, s.log)
  }

  // ---------- entries and traces ----------

  lemma {:induction false} EntryInTrace(log: seq<Entry>, k: nat)
    requires k < |log|
    ensures log[k].index in Trace(log, log[k].proc)
    decreases |log|
  {
    var front := log[..|log| - 1];
    if k == |front| {
    } else {
      EntryInTrace(front, k);
      assert front[k] == log[k];
    }
  }

  lemma {:induction false} TraceHasEntry(log: seq<Entry>, p: nat, i: nat) returns (k: nat)
    requires i in Trace(log, p)
    ensures k < |log| && log[k].proc == p && log[k].index == i
    decreases |log|
  {
    var front := log[..|log| - 1];
    if log[|log| - 1].proc == p && log[|log| - 1].index == i {
      k := |log| - 1;
    } else {
      k := TraceHasEntry(front, p, i);
      assert front[k] == log[k];
    }
  }

  lemma EntriesBelow(s: Os)
    requires TraceOk(s)
    ensures forall k :: 0 <= k < |s.log| ==> s.log[k].index < PcOf(s.pcs, s.log[k].proc)
  {
    forall k | 0 <= k < |s.log| ensures s.log[k].index < PcOf(s.pcs, s.log[k].proc) {
      EntryInTrace(s.log, k);
      assert Trace(s.log, s.log[k].proc) == UpTo(PcOf(s.pcs, s.log[k].proc));
    }
  }

  // ---------- every step keeps it ----------

  // What a step that runs nothing may do to a CPU and its process.
  predicate SameQuantum(u: Cpu, d: Device, u': Cpu, d': Device, pcs: map<nat, nat>) {
    || u'.held.None?
    || (u'.pc.Recheck? && u'.timeLeft == 0)
    || u'.from == PcOf(pcs, u'.held.value)
    || (u'.held == u.held && u'.from == u.from && NextRun(u', d') == NextRun(u, d)
        && !(u.pc.Recheck? && u.timeLeft == 0))
  }

  lemma SameQuantumKeepsEntries(cfg: Config, u: Cpu, d: Device, u': Cpu, d': Device, c: nat,
                                pcs: map<nat, nat>, log: seq<Entry>)
    requires EntriesOk(cfg, u, d, c, pcs, log) && SameQuantum(u, d, u', d', pcs)
    requires forall k :: 0 <= k < |log| ==> log[k].index < PcOf(pcs, log[k].proc)
    ensures EntriesOk(cfg, u', d', c, pcs, log)
  {
    forall k | 0 <= k < |log| ensures EntryOk(cfg, u', d', c, pcs, log[k]) {
      assert EntryOk(cfg, u, d, c, pcs, log[k]);
    }
  }

  lemma TopSameQuantum(cfg: Config, s: Os, c: nat, lose: bool)
    requires CpuReady(cfg, s, c, None) && s.cpus[c].pc.Top?
    ensures var s' := LookAtCurrent(cfg, s, c, lose);
      && |s'.cpus| == |s.cpus| && |s'.bar.devs| == |s.bar.devs|
      && SameQuantum(s.cpus[c], s.bar.devs[c + 1], s'.cpus[c], s'.bar.devs[c + 1], s.pcs)
  {
  }

  lemma RecheckSameQuantum(cfg: Config, s: Os, c: nat)
    requires CpuReady(cfg, s, c, None) && s.cpus[c].pc.Recheck?
    ensures var s' := LookAgain(cfg, s, c);
      && |s'.cpus| == |s.cpus| && |s'.bar.devs| == |s.bar.devs|
      && SameQuantum(s.cpus[c], s.bar.devs[c + 1], s'.cpus[c], s'.bar.devs[c + 1], s.pcs)
  {
  }

  lemma YieldSameQuantum(cfg: Config, s: Os, c: nat, lose: bool)
    requires CpuReady(cfg, s, c, None) && s.cpus[c].pc.Yield?
    ensures var s' := CpuDo(cfg, s, c, None, lose);
      && |s'.cpus| == |s.cpus| && |s'.bar.devs| == |s.bar.devs|
      && SameQuantum(s.cpus[c], s.bar.devs[c + 1], s'.cpus[c], s'.bar.devs[c + 1], s.pcs)
  {
  }

  lemma GetSameQuantum(cfg: Config, s: Os, c: nat, got: Option<nat>, lose: bool)
    requires CpuReady(cfg, s, c, got) && IsGet(s.cpus[c].pc)
    ensures var s' := CpuDo(cfg, s, c, got, lose);
      && |s'.cpus| == |s.cpus| && |s'.bar.devs| == |s.bar.devs|
      && SameQuantum(s.cpus[c], s.bar.devs[c + 1], s'.cpus[c], s'.bar.devs[c + 1], s.pcs)
  {
    match s.cpus[c].pc {
      case GetIdle =>
      case GetAfterFinish =>
      case GetAfterPut =>
    }
  }

  lemma QuietSameQuantum(cfg: Config, s: Os, c: nat, got: Option<nat>, lose: bool)
    requires CpuReady(cfg, s, c, got) && !s.cpus[c].pc.Execute?
    ensures var s' := CpuDo(cfg, s, c, got, lose);
      && |s'.cpus| == |s.cpus| && |s'.bar.devs| == |s.bar.devs|
      && SameQuantum(s.cpus[c], s.bar.devs[c + 1], s'.cpus[c], s'.bar.devs[c + 1], s.pcs)
  {
    match s.cpus[c].pc {
      case Top => TopSameQuantum(cfg, s, c, lose);
      case Recheck => RecheckSameQuantum(cfg, s, c);
      case Yield => YieldSameQuantum(cfg, s, c, lose);
      case GetIdle | GetAfterFinish | GetAfterPut => GetSameQuantum(cfg, s, c, got, lose);
    }
  }

  lemma FrameKeepsUnbroken(cfg: Config, s: Os, s': Os, c: nat)
    requires |s.bar.devs| == |s.cpus| + 1 && CpuFrame(s, s', c) && Unbroken(cfg, s)
    requires s'.pcs == s.pcs && s'.log == s.log
    requires EntriesOk(cfg, s'.cpus[c], s'.bar.devs[c + 1], c, s'.pcs, s'.log)
    ensures Unbroken(cfg, s')
  {
    forall e | 0 <= e < |s.cpus| ensures EntriesOk(cfg, s'.cpus[e], s'.bar.devs[e + 1], e, s'.pcs, s'.log) {
      if e != c { assert EntriesOk(cfg, s.cpus[e], s.bar.devs[e + 1], e, s.pcs, s.log); }
    }
  }

  lemma QuietEntries(cfg: Config, s: Os, c: nat, got: Option<nat>, lose: bool)
    requires CpuReady(cfg, s, c, got) && !s.cpus[c].pc.Execute? && TraceOk(s)
    requires EntriesOk(cfg, s.cpus[c], s.bar.devs[c + 1], c, s.pcs, s.log)
    ensures var s' := CpuDo(cfg, s, c, got, lose);
      && |s'.cpus| == |s.cpus| && |s'.bar.devs| == |s.bar.devs|
      && EntriesOk(cfg, s'.cpus[c], s'.bar.devs[c + 1], c, s.pcs, s.log)
  {
    var s' := CpuDo(cfg, s, c, got, lose);
    QuietSameQuantum(cfg, s, c, got, lose);
    EntriesBelow(s);
    SameQuantumKeepsEntries(cfg, s.cpus[c], s.bar.devs[c + 1], s'.cpus[c], s'.bar.devs[c + 1], c, s.pcs, s.log);
  }

  lemma QuietKeepsUnbroken(cfg: Config, s: Os, c: nat, got: Option<nat>, lose: bool)
    requires OsInv(cfg, s) && Unbroken(cfg, s) && CpuEnabled(s, c, got) && !s.cpus[c].pc.Execute?
    ensures var s' := CpuDo(cfg, s, c, got, lose); |s'.bar.devs| == |s'.cpus| + 1 && Unbroken(cfg, s')
  {
    WorkingIsInStep(s.bar, c + 1);
    CpuStepIsQuiet(cfg, s, c, got, lose);
    CpuKeepsFinished(cfg, s, c, got, lose);
    QuietEntries(cfg, s, c, got, lose);
    FrameKeepsUnbroken(cfg, s, CpuDo(cfg, s, c, got, lose), c);
  }

  // Running one instruction moves the CPU one slot on and adds the entry of this slot.
  lemma RunExtendsEntries(cfg: Config, u: Cpu, d: Device, u': Cpu, c: nat,
                          pcs: map<nat, nat>, log: seq<Entry>, e: Entry)
    requires EntriesOk(cfg, u, d, c, pcs, log) && u.held == Some(e.proc) && u.pc.Execute?
    requires e.index == PcOf(pcs, e.proc) < SizeOf(cfg, e.proc) && e.slot == NextRun(u, d) && e.cpu == c
    requires u'.held == u.held && u'.from == u.from && NextRun(u', d) == NextRun(u, d) + 1
    ensures EntriesOk(cfg, u', d, c, pcs[e.proc := e.index + 1], log + [e])
  {
    forall k | 0 <= k < |log + [e]|
      ensures EntryOk(cfg, u', d, c, pcs[e.proc := e.index + 1], (log + [e])[k])
    {
      if k < |log| { assert EntryOk(cfg, u, d, c, pcs, log[k]); }
    }
  }

  lemma RunLeavesEntries(cfg: Config, u: Cpu, d: Device, c: nat, pcs: map<nat, nat>, log: seq<Entry>, e: Entry)
    requires EntriesOk(cfg, u, d, c, pcs, log) && u.held != Some(e.proc)
    ensures EntriesOk(cfg, u, d, c, pcs[e.proc := e.index + 1], log + [e])
  {
    forall k | 0 <= k < |log + [e]|
      ensures EntryOk(cfg, u, d, c, pcs[e.proc := e.index + 1], (log + [e])[k])
    {
      if k < |log| { assert EntryOk(cfg, u, d, c, pcs, log[k]); }
    }
  }

  lemma RunOwnEntries(cfg: Config, s: Os, c: nat)
    requires CpuReady(cfg, s, c, None) && s.cpus[c].pc.Execute?
    requires EntriesOk(cfg, s.cpus[c], s.bar.devs[c + 1], c, s.pcs, s.log)
    ensures var s' := RunOne(cfg, s, c); EntriesOk(cfg, s'.cpus[c], s.bar.devs[c + 1], c, s'.pcs, s'.log)
  {
    var p := s.cpus[c].held.value;
    if PcOf(s.pcs, p) < SizeOf(cfg, p) {
      RunExtendsEntries(cfg, s.cpus[c], s.bar.devs[c + 1], RunOne(cfg, s, c).cpus[c], c, s.pcs, s.log,
                        Entry(p, PcOf(s.pcs, p), s.bar.time, c));
    }
  }

  lemma RunOtherEntries(cfg: Config, s: Os, c: nat, u: Cpu, d: Device, f: nat)
    requires c < |s.cpus| && s.cpus[c].held.Some? && u.held != s.cpus[c].held
    requires EntriesOk(cfg, u, d, f, s.pcs, s.log)
    ensures var s' := RunOne(cfg, s, c); EntriesOk(cfg, u, d, f, s'.pcs, s'.log)
  {
    var p := s.cpus[c].held.value;
    if PcOf(s.pcs, p) < SizeOf(cfg, p) {
      RunLeavesEntries(cfg, u, d, f, s.pcs, s.log, Entry(p, PcOf(s.pcs, p), s.bar.time, c));
    }
  }

  lemma RunKeepsUnbroken(cfg: Config, s: Os, c: nat)
    requires Conserved(s) && CpuReady(cfg, s, c, None) && s.cpus[c].pc.Execute? && Unbroken(cfg, s)
    ensures var s' := RunOne(cfg, s, c); |s'.bar.devs| == |s'.cpus| + 1 && Unbroken(cfg, s')
  {
    var s' := RunOne(cfg, s, c);
    HeldNowhereElse(s, c, s.cpus[c].held.value);
    forall f | 0 <= f < |s.cpus| ensures EntriesOk(cfg, s'.cpus[f], s'.bar.devs[f + 1], f, s'.pcs, s'.log) {
      assert EntriesOk(cfg, s.cpus[f], s.bar.devs[f + 1], f, s.pcs, s.log);
      if f == c { RunOwnEntries(cfg, s, c); } else { RunOtherEntries(cfg, s, c, s.cpus[f], s.bar.devs[f + 1], f); }
    }
  }

  // A step that leaves all CPUs and what they have done alone.
  lemma OutsideKeepsUnbroken(cfg: Config, s: Os, s': Os)
    requires |s.bar.devs| == |s.cpus| + 1 && Unbroken(cfg, s)
    requires s'.cpus == s.cpus && s'.pcs == s.pcs && s'.log == s.log && |s'.bar.devs| == |s.bar.devs|
    requires forall c :: 0 <= c < |s.cpus| ==>
      NextRun(s'.cpus[c], s'.bar.devs[c + 1]) == NextRun(s.cpus[c], s.bar.devs[c + 1])
    ensures Unbroken(cfg, s')
  {
    forall c | 0 <= c < |s.cpus| ensures EntriesOk(cfg, s'.cpus[c], s'.bar.devs[c + 1], c, s'.pcs, s'.log) {
      assert EntriesOk(cfg, s.cpus[c], s.bar.devs[c + 1], c, s.pcs, s.log);
      forall k | 0 <= k < |s.log| ensures EntryOk(cfg, s'.cpus[c], s'.bar.devs[c + 1], c, s'.pcs, s'.log[k]) {
        assert EntryOk(cfg, s.cpus[c], s.bar.devs[c + 1], c, s.pcs, s.log[k]);
      }
    }
  }

  lemma CpuKeepsUnbroken(cfg: Config, s: Os, c: nat, got: Option<nat>, lose: bool)
    requires OsInv(cfg, s) && Unbroken(cfg, s) && CpuEnabled(s, c, got)
    ensures var s' := CpuDo(cfg, s, c, got, lose); |s'.bar.devs| == |s'.cpus| + 1 && Unbroken(cfg, s')
  {
    if s.cpus[c].pc.Execute? {
      WorkingIsInStep(s.bar, c + 1);
      RunKeepsUnbroken(cfg, s, c);
    } else {
      QuietKeepsUnbroken(cfg, s, c, got, lose);
    }
  }

  lemma StepKeepsUnbroken(cfg: Config, s: Os, a: OsAction)
    requires OsInv(cfg, s) && Unbroken(cfg, s) && OsEnabled(s, a)
    ensures OsInv(cfg, OsDo(cfg, s, a)) && Unbroken(cfg, OsDo(cfg, s, a))
  {
    OsStepKeepsInv(cfg, s, a);
    match a
    case Bar(b) =>
      BarKeepsFrame(cfg, s, b);
      OutsideKeepsUnbroken(cfg, s, OsDo(cfg, s, a));
    case LdGo(lose) =>
      LoaderKeepsFrame(cfg, s, lose);
      LoaderKeepsProgress(cfg, s, lose);
      OutsideKeepsUnbroken(cfg, s, OsDo(cfg, s, a));
    case CpuGo(c, got, lose) =>
      CpuKeepsUnbroken(cfg, s, c, got, lose);
  }

  lemma {:induction false} RunKeepsAllUnbroken(cfg: Config, s: Os, run: seq<OsAction>)
    requires OsInv(cfg, s) && Unbroken(cfg, s) && OsValid(cfg, s, run)
    ensures OsInv(cfg, OsExec(cfg, s, run)) && Unbroken(cfg, OsExec(cfg, s, run))
    decreases |run|
  {
    if run == [] {
    } else {
      StepKeepsUnbroken(cfg, s, run[0]);
      RunKeepsAllUnbroken(cfg, OsDo(cfg, s, run[0]), run[1..]);
    }
  }

  // ---------- a quantum ----------

  // Instruction `index` of process `p` was executed on CPU `cpu` in slot `slot`.
  predicate Executed(log: seq<Entry>, p: nat, index: int, slot: int, cpu: nat) {
    exists k :: 0 <= k < |log|
      && log[k].proc == p && log[k].index == index && log[k].slot == slot && log[k].cpu == cpu
  }

  lemma CountBack(cfg: Config, u: Cpu, d: Device, c: nat, pcs: map<nat, nat>, log: seq<Entry>, p: nat, i: nat)
    requires EntriesOk(cfg, u, d, c, pcs, log) && Trace(log, p) == UpTo(PcOf(pcs, p))
    requires u.pc.Top? && d.pc.Working? && u.held == Some(p)
    requires u.from <= i < PcOf(pcs, p) < SizeOf(cfg, p)
    ensures Executed(log, p, i, d.slots - (PcOf(pcs, p) - i), c)
  {
    assert Trace(log, p)[i] == i;
    var k := TraceHasEntry(log, p, i);
    assert EntryOk(cfg, u, d, c, pcs, log[k]);
  }

  lemma QuantumEnd(cfg: Config, s: Os, c: nat, p: nat, j: nat)
    requires OsInv(cfg, s) && Unbroken(cfg, s) && c < |s.cpus| && s.bar.devs[c + 1].pc.Working?
    requires s.cpus[c].pc.Top? && s.cpus[c].held == Some(p) && s.cpus[c].timeLeft == 0
    requires PcOf(s.pcs, p) != SizeOf(cfg, p) && j < cfg.timeSlot
    ensures Executed(s.log, p, |Trace(s.log, p)| - cfg.timeSlot + j, s.bar.time - cfg.timeSlot + j, c)
  {
    assert PcOf(s.pcs, p) <= SizeOf(cfg, p);
    WorkingIsInStep(s.bar, c + 1);
    assert QuantumOk(cfg, s.cpus[c], s.pcs) by { assert CpuOk(cfg, s, c); }
    assert Trace(s.log, p) == UpTo(PcOf(s.pcs, p));
    CountBack(cfg, s.cpus[c], s.bar.devs[c + 1], c, s.pcs, s.log, p, s.cpus[c].from + j);
  }

  lemma AfterRunUnbroken(cfg: Config, cpus: nat, run: seq<OsAction>)
    requires IsRun(cfg, cpus, run)
    ensures OsInv(cfg, AfterRun(cfg, cpus, run)) && Unbroken(cfg, AfterRun(cfg, cpus, run))
  {
    BootInv(cfg, cpus);
    RunKeepsAllUnbroken(cfg, Boot(cpus), run);
  }

  /** The last time_slot instructions of a process that a CPU puts back were executed on that CPU,
      one in each of the time_slot slots before this one. */
  lemma QuantumOnOneCpu(cfg: Config, cpus: nat, run: seq<OsAction>,
                        c: nat, got: Option<nat>, lose: bool, p: nat, j: nat)
    requires IsRun(cfg, cpus, run) && CpuEnabled(AfterRun(cfg, cpus, run), c, got)
    requires var s := AfterRun(cfg, cpus, run);
      var s' := CpuDo(cfg, s, c, got, lose);
      s'.ready[p] + s'.lost[p] > s.ready[p] + s.lost[p]
    requires j < cfg.timeSlot
    ensures var s := AfterRun(cfg, cpus, run);
      var n := |Trace(s.log, p)|;
      Executed(s.log, p, n - cfg.timeSlot + j, s.bar.time - cfg.timeSlot + j, c)
  {
    AfterRunInv(cfg, cpus, run);
    AfterRunUnbroken(cfg, cpus, run);
    OnlyQuantumEndPuts(cfg, AfterRun(cfg, cpus, run), c, got, lose, p);
    QuantumEnd(cfg, AfterRun(cfg, cpus, run), c, p, j);
  }

  // ---------- a quantum ends ----------

  // One more copy of the process is in the queue or has been lost, and the CPU is without it and
  // calls get_proc next.
  predicate GivesBack(s: Os, s': Os, c: nat, p: nat, lose: bool) {
    && c < |s'.cpus| && s'.cpus[c].held.None? && IsGet(s'.cpus[c].pc)
    && s'.ready[p] == s.ready[p] + (if lose then 0 else 1)
    && s'.lost[p] == s.lost[p] + (if lose then 1 else 0)
  }

  predicate Retires(s: Os, s': Os, c: nat, p: nat) {
    && c < |s'.cpus| && s'.cpus[c].held.None? && IsGet(s'.cpus[c].pc)
    && s'.finished[p] == s.finished[p] + 1
  }

  predicate Keeps(s: Os, s': Os, c: nat, p: nat) {
    && c < |s'.cpus| && s'.cpus[c].held == Some(p) && s'.cpus[c].pc.Recheck?
    && s'.ready == s.ready && s'.lost == s.lost && s'.finished == s.finished
  }

  lemma LoopHeadInState(cfg: Config, s: Os, c: nat, lose: bool, p: nat)
    requires OsInv(cfg, s) && CpuEnabled(s, c, None) && s.cpus[c].pc.Top? && s.cpus[c].held == Some(p)
    ensures var s', n := CpuDo(cfg, s, c, None, lose), PcOf(s.pcs, p);
      && n <= SizeOf(cfg, p)
      && (Retires(s, s', c, p) <==> n == SizeOf(cfg, p))
      && (GivesBack(s, s', c, p, lose) <==> n < SizeOf(cfg, p) && n == s.cpus[c].from + cfg.timeSlot)
      && (Keeps(s, s', c, p) <==> n < SizeOf(cfg, p) && n != s.cpus[c].from + cfg.timeSlot)
  {
    assert PcOf(s.pcs, p) <= SizeOf(cfg, p);
    assert QuantumOk(cfg, s.cpus[c], s.pcs) by { assert CpuOk(cfg, s, c); }
  }

  /** At the head of its loop a CPU retires its process exactly when that has executed everything,
      gives it back exactly when that has executed time_slot instructions since its dispatch and
      is not finished, and keeps it otherwise. */
  lemma LoopHeadDecides(cfg: Config, cpus: nat, run: seq<OsAction>, c: nat, lose: bool, p: nat)
    requires IsRun(cfg, cpus, run) && CpuEnabled(AfterRun(cfg, cpus, run), c, None)
    requires var u := AfterRun(cfg, cpus, run).cpus[c]; u.pc.Top? && u.held == Some(p)
    ensures var s := AfterRun(cfg, cpus, run);
      var s', n := CpuDo(cfg, s, c, None, lose), |Trace(s.log, p)|;
      && n <= SizeOf(cfg, p)
      && (Retires(s, s', c, p) <==> n == SizeOf(cfg, p))
      && (GivesBack(s, s', c, p, lose) <==> n < SizeOf(cfg, p) && n == s.cpus[c].from + cfg.timeSlot)
      && (Keeps(s, s', c, p) <==> n < SizeOf(cfg, p) && n != s.cpus[c].from + cfg.timeSlot)
  {
    AfterRunInv(cfg, cpus, run);
    var s := AfterRun(cfg, cpus, run);
    assert Trace(s.log, p) == UpTo(PcOf(s.pcs, p));
    LoopHeadInState(cfg, s, c, lose, p);
  }

  // ---------- and bounds the stay on a CPU ----------

  // time_left of a CPU with a process stays between 0 and time_slot, and run is called with some left.
  predicate TimeLeftOk(cfg: Config, u: Cpu) {
    u.held.Some? ==> 0 <= u.timeLeft <= cfg.timeSlot && (u.pc.Execute? ==> u.timeLeft > 0)
  }

  predicate TimesLeftOk(cfg: Config, s: Os) {
    forall c :: 0 <= c < |s.cpus| ==> TimeLeftOk(cfg, s.cpus[c])
  }

  lemma CpuKeepsTimeLeft(cfg: Config, s: Os, c: nat, got: Option<nat>, lose: bool)
    requires CpuEnabled(s, c, got) && QuantumOk(cfg, s.cpus[c], s.pcs) && cfg.timeSlot > 0
    requires TimeLeftOk(cfg, s.cpus[c]) && (IsGet(s.cpus[c].pc) ==> s.cpus[c].held.None?)
    ensures |CpuDo(cfg, s, c, got, lose).cpus| == |s.cpus|
    ensures TimeLeftOk(cfg, CpuDo(cfg, s, c, got, lose).cpus[c])
  {
    match s.cpus[c].pc {
      case Top =>
      case Recheck =>
      case Execute =>
      case Yield =>
      case GetIdle | GetAfterFinish | GetAfterPut =>
    }
  }

  lemma StepKeepsTimesLeft(cfg: Config, s: Os, a: OsAction)
    requires CpusInvOk(cfg, s) && TimesLeftOk(cfg, s) && OsEnabled(s, a) && cfg.timeSlot > 0
    ensures TimesLeftOk(cfg, OsDo(cfg, s, a))
  {
    match a
    case Bar(_) =>
    case LdGo(lose) => LoaderKeepsProgress(cfg, s, lose);
    case CpuGo(c, got, lose) =>
      assert CpuOk(cfg, s, c);
      CpuLeavesOthers(cfg, s, c, got, lose);
      CpuKeepsTimeLeft(cfg, s, c, got, lose);
  }

  predicate CpusInvOk(cfg: Config, s: Os) {
    |s.bar.devs| == |s.cpus| + 1 && CpusOk(cfg, s)
  }

  // The instructions a CPU may still execute of the process it has.
  function Allowed(cfg: Config, u: Cpu): int {
    if u.pc.Recheck? && u.timeLeft == 0 then cfg.timeSlot else u.timeLeft
  }

  lemma CpuSpendsAllowance(cfg: Config, s: Os, c: nat, lose: bool, p: nat)
    requires CpuEnabled(s, c, None) && s.cpus[c].held == Some(p) && TimeLeftOk(cfg, s.cpus[c])
    requires !IsGet(s.cpus[c].pc) && |CpuDo(cfg, s, c, None, lose).cpus| == |s.cpus|
    requires CpuDo(cfg, s, c, None, lose).cpus[c].held == Some(p)
    ensures var s' := CpuDo(cfg, s, c, None, lose);
      PcOf(s'.pcs, p) + Allowed(cfg, s'.cpus[c]) <= PcOf(s.pcs, p) + Allowed(cfg, s.cpus[c])
  {
    match s.cpus[c].pc {
      case Top =>
      case Recheck =>
      case Execute =>
      case Yield =>
    }
  }

  lemma OthersLeaveProcess(cfg: Config, s: Os, e: nat, got: Option<nat>, lose: bool, p: nat)
    requires CpuEnabled(s, e, got) && s.cpus[e].held != Some(p)
    ensures PcOf(CpuDo(cfg, s, e, got, lose).pcs, p) == PcOf(s.pcs, p)
  {
    match s.cpus[e].pc {
      case Top =>
      case Recheck =>
      case Execute =>
      case Yield =>
      case GetIdle | GetAfterFinish | GetAfterPut =>
    }
  }

  lemma StepSpendsAllowance(cfg: Config, s: Os, a: OsAction, c: nat, p: nat)
    requires OsInv(cfg, s) && TimesLeftOk(cfg, s) && OsEnabled(s, a)
    requires c < |s.cpus| && s.cpus[c].held == Some(p)
    requires |OsDo(cfg, s, a).cpus| == |s.cpus| && OsDo(cfg, s, a).cpus[c].held == Some(p)
    ensures var s' := OsDo(cfg, s, a);
      PcOf(s'.pcs, p) + Allowed(cfg, s'.cpus[c]) <= PcOf(s.pcs, p) + Allowed(cfg, s.cpus[c])
  {
    match a
    case Bar(_) =>
    case LdGo(lose) => LoaderKeepsProgress(cfg, s, lose);
    case CpuGo(e, got, lose) =>
      assert CpuOk(cfg, s, c);
      if e == c {
        CpuSpendsAllowance(cfg, s, c, lose, p);
      } else {
        HeldNowhereElse(s, c, p);
        CpuLeavesOthers(cfg, s, e, got, lose);
        OthersLeaveProcess(cfg, s, e, got, lose, p);
      }
  }

  // The CPU has the process before the run and after each of its steps.
  predicate StaysOn(cfg: Config, s: Os, run: seq<OsAction>, c: nat, p: nat)
    requires OsValid(cfg, s, run)
    decreases |run|
  {
    && c < |s.cpus| && s.cpus[c].held == Some(p)
    && (run == [] || StaysOn(cfg, OsDo(cfg, s, run[0]), run[1..], c, p))
  }

  lemma {:induction false} RunSpendsAllowance(cfg: Config, s: Os, run: seq<OsAction>, c: nat, p: nat)
    requires OsInv(cfg, s) && TimesLeftOk(cfg, s) && cfg.timeSlot > 0
    requires OsValid(cfg, s, run) && StaysOn(cfg, s, run, c, p)
    ensures PcOf(OsExec(cfg, s, run).pcs, p) <= PcOf(s.pcs, p) + Allowed(cfg, s.cpus[c])
    decreases |run|
  {
    if run == [] {
    } else {
      OsStepKeepsInv(cfg, s, run[0]);
      StepKeepsCpuCount(cfg, s, run[0]);
      StepKeepsTimesLeft(cfg, s, run[0]);
      StepSpendsAllowance(cfg, s, run[0], c, p);
      RunSpendsAllowance(cfg, OsDo(cfg, s, run[0]), run[1..], c, p);
    }
  }

  lemma {:induction false} RunKeepsTimesLeft(cfg: Config, s: Os, run: seq<OsAction>)
    requires OsInv(cfg, s) && TimesLeftOk(cfg, s) && OsValid(cfg, s, run) && cfg.timeSlot > 0
    ensures OsInv(cfg, OsExec(cfg, s, run)) && TimesLeftOk(cfg, OsExec(cfg, s, run))
    decreases |run|
  {
    if run == [] {
    } else {
      OsStepKeepsInv(cfg, s, run[0]);
      StepKeepsTimesLeft(cfg, s, run[0]);
      RunKeepsTimesLeft(cfg, OsDo(cfg, s, run[0]), run[1..]);
    }
  }

  /** Preemption: as long as a CPU keeps a process it executes at most time_slot instructions of it,
      whatever the other threads do. */
  lemma StayIsOneQuantum(cfg: Config, cpus: nat, run: seq<OsAction>, more: seq<OsAction>, c: nat, p: nat)
    requires IsRun(cfg, cpus, run) && cfg.timeSlot > 0
    requires OsValid(cfg, AfterRun(cfg, cpus, run), more)
    requires StaysOn(cfg, AfterRun(cfg, cpus, run), more, c, p)
    ensures var s := AfterRun(cfg, cpus, run);
      |Trace(OsExec(cfg, s, more).log, p)| <= |Trace(s.log, p)| + cfg.timeSlot
  {
    var s := AfterRun(cfg, cpus, run);
    var t := OsExec(cfg, s, more);
    BootInv(cfg, cpus);
    RunKeepsTimesLeft(cfg, Boot(cpus), run);
    RunSpendsAllowance(cfg, s, more, c, p);
    OsRunKeepsInv(cfg, s, more);
    assert Trace(s.log, p) == UpTo(PcOf(s.pcs, p));
    assert Trace(t.log, p) == UpTo(PcOf(t.pcs, p));
  }
}
