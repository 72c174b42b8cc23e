/** What holds after every run of the simulator, for any number of CPUs, any configuration and
    any behaviour of the ready queue. */
module SimulatorSafety {
  import opened Barrier
  import opened BarrierSafety
  import opened Simulator
  import opened SimulatorInv
  import opened SimulatorSteps
  import opened Numbers

  predicate IsRun(cfg: Config, cpus: nat, run: seq<OsAction>) {
    OsValid(cfg, Boot(cpus), run)
  }

  function AfterRun(cfg: Config, cpus: nat, run: seq<OsAction>): Os
    requires IsRun(cfg, cpus, run)
  {
    OsExec(cfg, Boot(cpus), run)
  }

  lemma AfterRunInv(cfg: Config, cpus: nat, run: seq<OsAction>)
    requires IsRun(cfg, cpus, run)
    ensures OsInv(cfg, AfterRun(cfg, cpus, run)) && |AfterRun(cfg, cpus, run).cpus| == cpus
  {
    BootInv(cfg, cpus);
    OsRunKeepsInv(cfg, Boot(cpus), run);
    RunKeepsCpuCount(cfg, Boot(cpus), run);
  }

  lemma StepKeepsCpuCount(cfg: Config, s: Os, a: OsAction)
    requires OsEnabled(s, a)
    ensures |OsDo(cfg, s, a).cpus| == |s.cpus|
  {
    if a.CpuGo? { CpuLeavesOthers(cfg, s, a.c, a.got, a.lose); }
  }

  lemma {:induction false} RunKeepsCpuCount(cfg: Config, s: Os, run: seq<OsAction>)
    requires OsValid(cfg, s, run)
    ensures |OsExec(cfg, s, run).cpus| == |s.cpus|
    decreases |run|
  {
    if run == [] {
    } else {
      StepKeepsCpuCount(cfg, s, run[0]);
      RunKeepsCpuCount(cfg, OsDo(cfg, s, run[0]), run[1..]);
    }
  }

  /** No process is ever in two places: two CPUs, a CPU and the queue, twice in the queue; and
      none that was added disappears from all of them. */
  lemma EachProcessInOnePlace(cfg: Config, cpus: nat, run: seq<OsAction>, p: nat)
    requires IsRun(cfg, cpus, run)
    ensures var s := AfterRun(cfg, cpus, run);
      && s.ready[p] + Holders(s.cpus, p) + s.finished[p] + s.lost[p] == (if p < s.next then 1 else 0)
      && (forall c, e | 0 <= c < |s.cpus| && 0 <= e < |s.cpus| ::
           s.cpus[c].held == s.cpus[e].held == Some(p) ==> c == e && p !in s.ready)
  {
    AfterRunInv(cfg, cpus, run);
    var s := AfterRun(cfg, cpus, run);
    assert Copies(s, p) == if p < s.next then 1 else 0;
    forall c, e | 0 <= c < |s.cpus| && 0 <= e < |s.cpus|
      && s.cpus[c].held == Some(p) && s.cpus[e].held == Some(p)
      ensures c == e && p !in s.ready
    {
      HeldNowhereElse(s, c, p);
    }
  }

  /** At most one instruction of a process runs in one time slot, on whatever CPUs, and at most
      one instruction on a CPU. */
  lemma OneInstructionPerSlot(cfg: Config, cpus: nat, run: seq<OsAction>, j: nat, k: nat)
    requires IsRun(cfg, cpus, run)
    ensures var log := AfterRun(cfg, cpus, run).log;
      j < k < |log| && (log[j].proc == log[k].proc || log[j].cpu == log[k].cpu) ==>
        log[j].slot < log[k].slot
  {
    AfterRunInv(cfg, cpus, run);
  }

  /** A process executes its instructions 0, 1, 2, ... in order and each once, however often it
      moves between CPUs; when it has finished it has executed all of them. */
  lemma InstructionsInOrder(cfg: Config, cpus: nat, run: seq<OsAction>, p: nat)
    requires IsRun(cfg, cpus, run)
    ensures var s := AfterRun(cfg, cpus, run);
      && |Trace(s.log, p)| <= SizeOf(cfg, p)
      && (forall i :: 0 <= i < |Trace(s.log, p)| ==> Trace(s.log, p)[i] == i)
      && (p in s.finished ==> |Trace(s.log, p)| == SizeOf(cfg, p))
  {
    AfterRunInv(cfg, cpus, run);
    var s := AfterRun(cfg, cpus, run);
    assert Trace(s.log, p) == UpTo(PcOf(s.pcs, p));
  }

  /** A CPU without a process has no time left over. */
  lemma IdleHasNoTimeLeft(cfg: Config, cpus: nat, run: seq<OsAction>, c: nat)
    requires IsRun(cfg, cpus, run) && c < cpus
    ensures var s := AfterRun(cfg, cpus, run);
      && |s.cpus| == cpus
      && (s.cpus[c].held.None? && !s.cpus[c].pc.GetAfterFinish? ==> s.cpus[c].timeLeft == 0)
  {
    AfterRunInv(cfg, cpus, run);
    var s := AfterRun(cfg, cpus, run);
    assert CpuOk(cfg, s, c);
  }

  /** Every process a CPU puts back has executed exactly time_slot instructions since that CPU
      dispatched it and still has instructions left. */
  lemma PutBackAfterFullQuantum(cfg: Config, cpus: nat, run: seq<OsAction>,
                                c: nat, got: Option<nat>, lose: bool, p: nat)
    requires IsRun(cfg, cpus, run) && CpuEnabled(AfterRun(cfg, cpus, run), c, got)
    requires var s := AfterRun(cfg, cpus, run);
      var s' := CpuDo(cfg, s, c, got, lose);
      s'.ready[p] + s'.lost[p] > s.ready[p] + s.lost[p]
    ensures var s := AfterRun(cfg, cpus, run);
      && s.cpus[c].held == Some(p)
      && |Trace(s.log, p)| < SizeOf(cfg, p)
      && |Trace(s.log, p)| == s.cpus[c].from + cfg.timeSlot
  {
    AfterRunInv(cfg, cpus, run);
    var s := AfterRun(cfg, cpus, run);
    assert CpuOk(cfg, s, c);
    assert Trace(s.log, p) == UpTo(PcOf(s.pcs, p));
    OnlyQuantumEndPuts(cfg, s, c, got, lose, p);
  }

  lemma OnlyTopPuts(cfg: Config, s: Os, c: nat, got: Option<nat>, lose: bool, p: nat)
    requires CpuEnabled(s, c, got) && !s.cpus[c].pc.Top?
    ensures var s' := CpuDo(cfg, s, c, got, lose); s'.lost == s.lost && s'.ready[p] <= s.ready[p]
  {
    match s.cpus[c].pc {
      case Recheck =>
      case Execute =>
      case Yield =>
      case GetIdle | GetAfterFinish | GetAfterPut =>
    }
  }

  lemma OnlyQuantumEndPuts(cfg: Config, s: Os, c: nat, got: Option<nat>, lose: bool, p: nat)
    requires CpuEnabled(s, c, got)
    requires var s' := CpuDo(cfg, s, c, got, lose);
      s'.ready[p] + s'.lost[p] > s.ready[p] + s.lost[p]
    ensures s.cpus[c].pc.Top? && s.cpus[c].held == Some(p) && s.cpus[c].timeLeft == 0
    ensures PcOf(s.pcs, p) != SizeOf(cfg, p)
  {
    if !s.cpus[c].pc.Top? {
      OnlyTopPuts(cfg, s, c, got, lose, p);
    }
  }

  /** `from` is what its name says: a dispatch, and nothing else, sets it, to the number of
      instructions the process has executed. */
  lemma DispatchMarksStart(cfg: Config, cpus: nat, run: seq<OsAction>, a: OsAction, c: nat)
    requires IsRun(cfg, cpus, run) && c < cpus
    requires OsEnabled(AfterRun(cfg, cpus, run), a)
    ensures var s := AfterRun(cfg, cpus, run);
      var s' := OsDo(cfg, s, a);
      && |s.cpus| == cpus && |s'.cpus| == cpus
      && (if a.CpuGo? && a.c == c && Dispatching(s.cpus[c])
          then s'.cpus[c].from == |Trace(s.log, s.cpus[c].held.value)| && s'.cpus[c].timeLeft == cfg.timeSlot
          else s'.cpus[c].from == s.cpus[c].from)
  {
    AfterRunInv(cfg, cpus, run);
    var s := AfterRun(cfg, cpus, run);
    StepKeepsCpuCount(cfg, s, a);
    if a.CpuGo? && a.c == c {
      CpuSetsFrom(cfg, s, c, a.got, a.lose);
      if s.cpus[c].held.Some? {
        var p := s.cpus[c].held.value;
        assert Trace(s.log, p) == UpTo(PcOf(s.pcs, p));
      }
    } else {
      OthersKeepFrom(cfg, s, a, c);
    }
  }

  predicate Dispatching(u: Cpu) {
    u.pc.Recheck? && u.held.Some? && u.timeLeft == 0
  }

  lemma CpuSetsFrom(cfg: Config, s: Os, c: nat, got: Option<nat>, lose: bool)
    requires CpuEnabled(s, c, got)
    ensures var u, s' := s.cpus[c], CpuDo(cfg, s, c, got, lose);
      && |s'.cpus| == |s.cpus|
      && (if Dispatching(u)
          then s'.cpus[c].from == PcOf(s.pcs, u.held.value) && s'.cpus[c].timeLeft == cfg.timeSlot
          else s'.cpus[c].from == u.from)
  {
    match s.cpus[c].pc {
      case Top =>
      case Recheck =>
      case Execute =>
      case Yield =>
      case GetIdle | GetAfterFinish | GetAfterPut =>
    }
  }

  lemma OthersKeepFrom(cfg: Config, s: Os, a: OsAction, c: nat)
    requires OsEnabled(s, a) && c < |s.cpus| && !(a.CpuGo? && a.c == c)
    ensures |OsDo(cfg, s, a).cpus| == |s.cpus| && OsDo(cfg, s, a).cpus[c] == s.cpus[c]
  {
    match a {
      case Bar(_) =>
      case CpuGo(e, got, lose) => CpuLeavesOthers(cfg, s, e, got, lose);
      case LdGo(_) =>
    }
  }

  lemma CpuLeavesOthers(cfg: Config, s: Os, c: nat, got: Option<nat>, lose: bool)
    requires CpuEnabled(s, c, got)
    ensures var s' := CpuDo(cfg, s, c, got, lose);
      |s'.cpus| == |s.cpus| && s'.cpus == s.cpus[c := s'.cpus[c]]
  {
    match s.cpus[c].pc {
      case Top =>
      case Recheck =>
      case Execute =>
      case Yield =>
      case GetIdle | GetAfterFinish | GetAfterPut =>
    }
  }

  // ---------- stopping ----------

  /** A CPU that stops failed to get a process in a slot later than that of every add_proc, and
      when it did so every process had been added. */
  lemma StopsAfterLastAdd(cfg: Config, cpus: nat, run: seq<OsAction>, c: nat)
    requires IsRun(cfg, cpus, run) && c < cpus
    ensures var s := AfterRun(cfg, cpus, run);
      && |s.cpus| == cpus
      && (s.cpus[c].pc.Stopped? ==>
           && s.next == |cfg.starts| == |s.addedAt|
           && forall k :: 0 <= k < |s.addedAt| ==> s.addedAt[k] < s.cpus[c].gotSlot)
  {
    AfterRunInv(cfg, cpus, run);
    var s := AfterRun(cfg, cpus, run);
    assert CpuOk(cfg, s, c);
    if s.cpus[c].pc.Stopped? { DoneIsLater(cfg, s); }
  }

  lemma DoneFixesAdditions(cfg: Config, s: Os, a: OsAction)
    requires OsInv(cfg, s) && s.done && OsEnabled(s, a)
    ensures var s' := OsDo(cfg, s, a); s'.done && s'.addedAt == s.addedAt && s'.next == s.next
    ensures OsInv(cfg, OsDo(cfg, s, a))
  {
    OsStepKeepsInv(cfg, s, a);
    if a.CpuGo? { CpuLeavesLoader(cfg, s, a.c, a.got, a.lose); }
  }

  lemma CpuLeavesLoader(cfg: Config, s: Os, c: nat, got: Option<nat>, lose: bool)
    requires CpuEnabled(s, c, got)
    ensures var s' := CpuDo(cfg, s, c, got, lose);
      s'.done == s.done && s'.addedAt == s.addedAt && s'.next == s.next
  {
    match s.cpus[c].pc {
      case Top =>
      case Recheck =>
      case Execute =>
      case Yield =>
      case GetIdle | GetAfterFinish | GetAfterPut =>
    }
  }

  /** And none is added behind its back: from then on the list of additions is fixed. */
  lemma {:induction false} NothingAddedAfterDone(cfg: Config, s: Os, run: seq<OsAction>)
    requires OsInv(cfg, s) && s.done && OsValid(cfg, s, run)
    ensures OsExec(cfg, s, run).addedAt == s.addedAt && OsExec(cfg, s, run).next == s.next
    decreases |run|
  {
    if run == [] {
    } else {
      DoneFixesAdditions(cfg, s, run[0]);
      NothingAddedAfterDone(cfg, OsDo(cfg, s, run[0]), run[1..]);
    }
  }

  // ---------- the loader's schedule ----------

  /** Process i is added exactly in slot Due(i), for any start times, sorted or not. */
  lemma LoaderSchedule(cfg: Config, cpus: nat, run: seq<OsAction>, i: nat)
    requires IsRun(cfg, cpus, run)
    ensures var s := AfterRun(cfg, cpus, run);
      && |s.addedAt| == s.next <= |cfg.starts|
      && (i < s.next ==> s.addedAt[i] == Due(cfg, i))
  {
    AfterRunInv(cfg, cpus, run);
  }

  /** Due in closed form: the greatest start(j) + (i - j) over the j up to i. */
  lemma {:induction false} DueClosedForm(cfg: Config, i: nat)
    requires i < |cfg.starts|
    ensures forall j :: 0 <= j <= i ==> cfg.starts[j] + (i - j) <= Due(cfg, i)
    ensures exists j :: 0 <= j <= i && cfg.starts[j] + (i - j) == Due(cfg, i)
  {
    if i == 0 {
      assert cfg.starts[0] + (i - 0) == Due(cfg, i);
    } else {
      DueClosedForm(cfg, i - 1);
      var j :| 0 <= j <= i - 1 && cfg.starts[j] + (i - 1 - j) == Due(cfg, i - 1);
      if cfg.starts[i] > Due(cfg, i - 1) + 1 {
        assert cfg.starts[i] + (i - i) == Due(cfg, i);
      } else {
        assert cfg.starts[j] + (i - j) == Due(cfg, i);
      }
    }
  }

  // ---------- the queue ----------

  /** get_proc may return any process of the queue, which leaves the queue for the CPU, or NULL,
      whatever the queue holds. */
  lemma GetReturnsAnything(cfg: Config, s: Os, c: nat, p: nat, lose: bool)
    requires CpuEnabled(s, c, None) && IsGet(s.cpus[c].pc)
    ensures CpuEnabled(s, c, Some(p)) <==> p in s.ready
    ensures p in s.ready ==>
      var s' := CpuDo(cfg, s, c, Some(p), lose);
      && s'.ready == s.ready[p := s.ready[p] - 1] && s'.lost == s.lost && s'.finished == s.finished
      && c < |s'.cpus| && s'.cpus[c].held == Some(p)
    ensures var s' := CpuDo(cfg, s, c, None, lose);
      && s'.ready == s.ready && s'.lost == s.lost && s'.finished == s.finished
      && c < |s'.cpus| && s'.cpus[c].held.None?
  {
    match s.cpus[c].pc {
      case GetIdle =>
      case GetAfterFinish =>
      case GetAfterPut =>
    }
  }

  /** add_proc and put_proc insert the process or lose it. */
  lemma OfferInsertsOrLoses(s: Os, p: nat, q: nat, lose: bool)
    ensures var s' := Offer(s, p, lose);
      && s'.ready[q] == s.ready[q] + (if q == p && !lose then 1 else 0)
      && s'.lost[q] == s.lost[q] + (if q == p && lose then 1 else 0)
  {
  }

  /** The loader adds process `next` in the slot it is due, which may be lost, and nothing else. */
  lemma LoaderAddsNext(cfg: Config, s: Os, q: nat, lose: bool)
    requires OsInv(cfg, s) && LdEnabled(s)
    ensures var s' := LdDo(cfg, s, lose);
      && s'.next == s.next + (if s.ld.LdAdd? then 1 else 0)
      && (s.ld.LdAdd? ==> s.next < |cfg.starts| && s.bar.time == Due(cfg, s.next))
      && s'.ready[q] == s.ready[q] + (if s.ld.LdAdd? && q == s.next && !lose then 1 else 0)
      && s'.lost[q] == s.lost[q] + (if s.ld.LdAdd? && q == s.next && lose then 1 else 0)
  {
    WorkingIsInStep(s.bar, 0);
    match s.ld {
      case LdTop =>
      case LdWait =>
      case LdAdd =>
      case LdYield =>
      case LdFinish =>
      case LdDetach =>
    }
  }

  // ---------- the barrier below ----------

  // A step of the program of device i does nothing to the barrier or calls it.
  predicate CallsOrNot(s: Os, s': Os, i: nat) {
    || s'.bar == s.bar
    || (Enabled(s.bar, CallNextSlot(i)) && s'.bar == Do(s.bar, CallNextSlot(i)))
    || (Enabled(s.bar, CallDetach(i)) && s'.bar == Do(s.bar, CallDetach(i)))
  }

  lemma RecheckCallsOrNot(cfg: Config, s: Os, c: nat)
    requires CpuEnabled(s, c, None) && s.cpus[c].pc.Recheck?
    ensures CallsOrNot(s, LookAgain(cfg, s, c), c + 1)
  {
  }

  lemma CpuCallsOrNot(cfg: Config, s: Os, c: nat, got: Option<nat>, lose: bool)
    requires CpuEnabled(s, c, got)
    ensures CallsOrNot(s, CpuDo(cfg, s, c, got, lose), c + 1)
  {
    match s.cpus[c].pc {
      case Top =>
      case Recheck => RecheckCallsOrNot(cfg, s, c);
      case Execute =>
      case Yield =>
      case GetIdle | GetAfterFinish | GetAfterPut =>
    }
  }

  lemma LdCallsOrNot(cfg: Config, s: Os, lose: bool)
    requires LdEnabled(s)
    ensures CallsOrNot(s, LdDo(cfg, s, lose), 0)
  {
    match s.ld {
      case LdTop =>
      case LdWait =>
      case LdAdd =>
      case LdYield =>
      case LdFinish =>
      case LdDetach =>
    }
  }

  // The steps of the barrier, none or one, that a step of the simulator makes.
  lemma BarSteps(cfg: Config, s: Os, a: OsAction) returns (bs: seq<Action>)
    requires OsEnabled(s, a)
    ensures Valid(s.bar, bs) && Exec(s.bar, bs) == OsDo(cfg, s, a).bar
  {
    var i := if a.CpuGo? then a.c + 1 else 0;
    match a {
      case Bar(_) =>
      case CpuGo(c, got, lose) => CpuCallsOrNot(cfg, s, c, got, lose);
      case LdGo(lose) => LdCallsOrNot(cfg, s, lose);
    }
    if a.Bar? {
      bs := [a.a];
    } else if OsDo(cfg, s, a).bar == s.bar {
      bs := [];
    } else if Enabled(s.bar, CallNextSlot(i)) && OsDo(cfg, s, a).bar == Do(s.bar, CallNextSlot(i)) {
      bs := [CallNextSlot(i)];
    } else {
      bs := [CallDetach(i)];
    }
    OneOrNone(s.bar, bs);
  }

  lemma OneOrNone(s: State, bs: seq<Action>)
    requires |bs| <= 1 && (bs != [] ==> Enabled(s, bs[0]))
    ensures Valid(s, bs) && Exec(s, bs) == if bs == [] then s else Do(s, bs[0])
  {
    if bs != [] { assert bs[1..] == []; }
  }

  lemma {:induction false} BarConcat(s: State, run: seq<Action>, more: seq<Action>)
    requires Valid(s, run) && Valid(Exec(s, run), more)
    ensures Valid(s, run + more) && Exec(s, run + more) == Exec(Exec(s, run), more)
    decreases |run|
  {
    if run == [] {
      assert run + more == more;
    } else {
      assert (run + more)[1..] == run[1..] + more;
      BarConcat(Do(s, run[0]), run[1..], more);
    }
  }

  lemma {:induction false} RunProjects(cfg: Config, s: Os, run: seq<OsAction>) returns (bs: seq<Action>)
    requires OsValid(cfg, s, run)
    ensures Valid(s.bar, bs) && Exec(s.bar, bs) == OsExec(cfg, s, run).bar
    decreases |run|
  {
    if run == [] {
      bs := [];
    } else {
      var first := BarSteps(cfg, s, run[0]);
      var rest := RunProjects(cfg, OsDo(cfg, s, run[0]), run[1..]);
      BarConcat(s.bar, first, rest);
      bs := first + rest;
    }
  }

  /** The programs only use the barrier: every run of the simulator is, seen from the barrier, a run
      of the barrier with one device for each CPU and one for the loader. */
  lemma SimulatorRunsOnBarrier(cfg: Config, cpus: nat, run: seq<OsAction>) returns (bs: seq<Action>)
    requires IsRun(cfg, cpus, run)
    ensures Valid(Init(cpus + 1), bs) && Exec(Init(cpus + 1), bs) == AfterRun(cfg, cpus, run).bar
  {
    bs := RunProjects(cfg, Boot(cpus), run);
  }

  /** And they restrict it in nothing but the calls: every other step of the barrier, spurious
      wake-ups included, is a step of the simulator, and leaves the programs alone. */
  lemma BarrierStepsAreFree(cfg: Config, s: Os, b: Action)
    requires Enabled(s.bar, b)
    ensures OsEnabled(s, Bar(b)) <==> !b.CallNextSlot? && !b.CallDetach?
    ensures OsEnabled(s, Bar(b)) ==> OsDo(cfg, s, Bar(b)) == s.(bar := Do(s.bar, b))
  {
  }

  /** A program takes a step exactly when its thread is outside the barrier, whatever the others do
      and whatever the queue makes of it. */
  lemma ProgramsAreFree(cfg: Config, s: Os, c: nat, got: Option<nat>, lose: bool)
    requires OsInv(cfg, s) && c < |s.cpus|
    ensures OsEnabled(s, LdGo(lose)) <==> s.bar.devs[0].pc.Working?
    ensures OsEnabled(s, CpuGo(c, got, lose)) <==>
      && s.bar.devs[c + 1].pc.Working?
      && (got.Some? ==> IsGet(s.cpus[c].pc) && got.value in s.ready)
  {
    assert CpuOk(cfg, s, c);
  }
}
