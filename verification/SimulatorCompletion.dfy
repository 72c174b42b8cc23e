/** When every CPU has stopped the work is done; and some CPUs never stop. */
module SimulatorCompletion {
  import opened Barrier
  import opened BarrierSafety
  import opened Simulator
  import opened SimulatorInv
  import opened SimulatorSteps
  import opened SimulatorSafety
  import opened Numbers

  /** What the queue operations have to do for the work to complete: get_proc returns NULL only
      when the queue is empty, and put_proc and add_proc lose nothing. */
  predicate Honest(s: Os, a: OsAction) {
    match a
    case CpuGo(c, got, lose) =>
      !lose && (c < |s.cpus| && IsGet(s.cpus[c].pc) && got.None? ==> s.ready == multiset{})
    case LdGo(lose) => !lose
    case Bar(_) => true
  }

  predicate HonestRun(cfg: Config, s: Os, run: seq<OsAction>)
    requires OsValid(cfg, s, run)
    decreases |run|
  {
    run == [] || (Honest(s, run[0]) && HonestRun(cfg, OsDo(cfg, s, run[0]), run[1..]))
  }

  // A CPU that will look at the queue again before it can stop.
  predicate Serving(u: Cpu) {
    !u.pc.Stopped? && !(u.pc.Recheck? && u.held.None?)
  }

  predicate SomeServing(cpus: seq<Cpu>) {
    exists c :: 0 <= c < |cpus| && Serving(cpus[c])
  }

  predicate JustAdded(s: Os) {
    |s.addedAt| > 0 && s.addedAt[|s.addedAt| - 1] == s.bar.time
  }

  /** A process left in the queue has a CPU to come back for it, or was added in this slot. */
  predicate Attended(s: Os) {
    s.lost == multiset{} && (s.ready != multiset{} ==> JustAdded(s) || SomeServing(s.cpus))
  }

  lemma TickLeavesServing(cfg: Config, s: Os, b: Action)
    requires OsInv(cfg, s) && OsEnabled(s, Bar(b)) && |s.cpus| > 0
    requires JustAdded(s) && Do(s.bar, b).time != s.bar.time
    ensures SomeServing(s.cpus)
  {
    assert CpuOk(cfg, s, 0);
    assert DeviceOk(s.bar.time, s.bar.clock, 1, s.bar.devs[1]);
    if s.done { DoneIsLater(cfg, s); }
    assert Serving(s.cpus[0]);
  }

  // A CPU that is not serving after a step is leaving for good or has seen an empty queue.
  predicate ServingStep(s: Os, s': Os, c: nat)
    requires c < |s.cpus|
  {
    && s'.lost == s.lost && |s'.cpus| == |s.cpus|
    && s'.cpus == s.cpus[c := s'.cpus[c]]
    && (s'.ready != multiset{} && !Serving(s'.cpus[c]) ==>
         s.done && !Serving(s.cpus[c]) && s'.ready == s.ready)
  }

  lemma TopServes(cfg: Config, s: Os, c: nat)
    requires c < |s.cpus|
    ensures ServingStep(s, LookAtCurrent(cfg, s, c, false), c)
  {
  }

  lemma RecheckServes(cfg: Config, s: Os, c: nat)
    requires CpuEnabled(s, c, None) && s.cpus[c].pc.Recheck?
    ensures ServingStep(s, LookAgain(cfg, s, c), c)
  {
  }

  lemma GetServes(cfg: Config, s: Os, c: nat, got: Option<nat>)
    requires CpuEnabled(s, c, got) && IsGet(s.cpus[c].pc) && Honest(s, CpuGo(c, got, false))
    ensures ServingStep(s, CpuDo(cfg, s, c, got, false), c)
  {
    match s.cpus[c].pc {
      case GetIdle =>
      case GetAfterFinish =>
      case GetAfterPut =>
    }
  }

  lemma CpuStaysServing(cfg: Config, s: Os, c: nat, got: Option<nat>)
    requires CpuEnabled(s, c, got) && Honest(s, CpuGo(c, got, false))
    ensures ServingStep(s, CpuDo(cfg, s, c, got, false), c)
  {
    match s.cpus[c].pc {
      case Top => TopServes(cfg, s, c);
      case Recheck => RecheckServes(cfg, s, c);
      case Execute =>
      case Yield =>
      case GetIdle | GetAfterFinish | GetAfterPut => GetServes(cfg, s, c, got);
    }
  }

  lemma CpuKeepsAttended(cfg: Config, s: Os, c: nat, got: Option<nat>)
    requires OsInv(cfg, s) && CpuEnabled(s, c, got) && Attended(s)
    requires Honest(s, CpuGo(c, got, false))
    ensures Attended(CpuDo(cfg, s, c, got, false))
  {
    var s' := CpuDo(cfg, s, c, got, false);
    CpuStaysServing(cfg, s, c, got);
    if s'.ready != multiset{} && !Serving(s'.cpus[c]) {
      CpuCallsBarrier(cfg, s, c, got, false);
      DoneIsLater(cfg, s);
      var e :| 0 <= e < |s.cpus| && Serving(s.cpus[e]);
      assert Serving(s'.cpus[e]);
    }
  }

  lemma StepKeepsAttended(cfg: Config, s: Os, a: OsAction)
    requires OsInv(cfg, s) && OsEnabled(s, a) && Attended(s) && Honest(s, a) && |s.cpus| > 0
    ensures Attended(OsDo(cfg, s, a)) && OsInv(cfg, OsDo(cfg, s, a))
    ensures |OsDo(cfg, s, a).cpus| == |s.cpus|
  {
    OsStepKeepsInv(cfg, s, a);
    StepKeepsCpuCount(cfg, s, a);
    match a
    case Bar(b) => if JustAdded(s) && Do(s.bar, b).time != s.bar.time { TickLeavesServing(cfg, s, b); }
    case CpuGo(c, got, lose) => CpuKeepsAttended(cfg, s, c, got);
    case LdGo(lose) => LoaderKeepsAttended(cfg, s);
  }

  lemma LoaderKeepsAttended(cfg: Config, s: Os)
    requires LdEnabled(s) && Attended(s)
    ensures Attended(LdDo(cfg, s, false))
  {
    assert LdDo(cfg, s, false).cpus == s.cpus;
  }

  lemma {:induction false} RunKeepsAttended(cfg: Config, s: Os, run: seq<OsAction>)
    requires OsInv(cfg, s) && OsValid(cfg, s, run) && HonestRun(cfg, s, run)
    requires Attended(s) && |s.cpus| > 0
    ensures Attended(OsExec(cfg, s, run))
    decreases |run|
  {
    if run == [] {
    } else {
      StepKeepsAttended(cfg, s, run[0]);
      RunKeepsAttended(cfg, OsDo(cfg, s, run[0]), run[1..]);
    }
  }

  predicate AllStopped(s: Os) {
    forall c :: 0 <= c < |s.cpus| ==> s.cpus[c].pc.Stopped?
  }

  lemma {:induction false} NobodyHolds(cpus: seq<Cpu>, p: nat)
    requires forall c :: 0 <= c < |cpus| ==> cpus[c].held.None?
    ensures Holders(cpus, p) == 0
    decreases |cpus|
  {
    if cpus == [] {
    } else {
      NobodyHolds(cpus[1..], p);
    }
  }

  /** If every CPU has stopped, every process of the configuration has been added, has finished
      and has executed each of its instructions, and the queue is empty. */
  lemma AllStoppedMeansAllFinished(cfg: Config, cpus: nat, run: seq<OsAction>, p: nat)
    requires IsRun(cfg, cpus, run) && HonestRun(cfg, Boot(cpus), run) && cpus > 0
    requires AllStopped(AfterRun(cfg, cpus, run)) && p < |cfg.starts|
    ensures var s := AfterRun(cfg, cpus, run);
      && s.ready == multiset{} && s.lost == multiset{}
      && s.finished[p] == 1
      && Trace(s.log, p) == UpTo(SizeOf(cfg, p))
  {
    AfterRunInv(cfg, cpus, run);
    BootInv(cfg, cpus);
    RunKeepsAttended(cfg, Boot(cpus), run);
    var s := AfterRun(cfg, cpus, run);
    forall c | 0 <= c < |s.cpus| ensures s.cpus[c].held.None? && s.done {
      assert CpuOk(cfg, s, c);
    }
    assert s.cpus[0].pc.Stopped?;
    DoneIsLater(cfg, s);
    NobodyHolds(s.cpus, p);
    OnlyFinishedLeft(cfg, s, p);
  }

  lemma OnlyFinishedLeft(cfg: Config, s: Os, p: nat)
    requires Conserved(s) && TraceOk(s) && FinishedOk(cfg, s)
    requires s.ready == multiset{} && s.lost == multiset{} && Holders(s.cpus, p) == 0 && p < s.next
    ensures s.finished[p] == 1 && Trace(s.log, p) == UpTo(SizeOf(cfg, p))
  {
    assert Copies(s, p) == 1;
    assert Trace(s.log, p) == UpTo(PcOf(s.pcs, p));
  }

  // ---------- idle CPUs ----------

  // In the branch of the loop that does not look at `done`.
  predicate Idle(u: Cpu) {
    u.held.None? && (u.pc.Top? || u.pc.GetIdle?)
  }

  /** Nothing is left to run and no CPU is between a failed get_proc and its recheck. */
  predicate NothingLeft(cfg: Config, s: Os) {
    && s.next == |cfg.starts| && s.ready == multiset{}
    && forall c :: 0 <= c < |s.cpus| ==> Idle(s.cpus[c]) || (s.cpus[c].pc.Stopped? && s.cpus[c].held.None?)
  }

  predicate SameStopped(s: Os, s': Os) {
    && |s'.cpus| == |s.cpus|
    && forall c :: 0 <= c < |s.cpus| ==> s'.cpus[c].pc.Stopped? == s.cpus[c].pc.Stopped?
  }

  lemma CpuKeepsIdle(cfg: Config, s: Os, c: nat, got: Option<nat>, lose: bool)
    requires NothingLeft(cfg, s) && CpuEnabled(s, c, got)
    ensures NothingLeft(cfg, CpuDo(cfg, s, c, got, lose))
    ensures SameStopped(s, CpuDo(cfg, s, c, got, lose))
  {
  }

  lemma StepKeepsIdle(cfg: Config, s: Os, a: OsAction)
    requires OsInv(cfg, s) && NothingLeft(cfg, s) && OsEnabled(s, a)
    ensures NothingLeft(cfg, OsDo(cfg, s, a)) && SameStopped(s, OsDo(cfg, s, a))
    ensures OsInv(cfg, OsDo(cfg, s, a))
  {
    OsStepKeepsInv(cfg, s, a);
    match a
    case CpuGo(c, got, lose) => CpuKeepsIdle(cfg, s, c, got, lose);
    case _ =>
  }

  /** A CPU that is idle at the head of its loop when nothing is left to run never stops: that
      branch does not look at `done`. */
  lemma {:induction false} IdleCpuNeverStops(cfg: Config, s: Os, run: seq<OsAction>, c: nat)
    requires OsInv(cfg, s) && NothingLeft(cfg, s) && OsValid(cfg, s, run)
    requires c < |s.cpus| && !s.cpus[c].pc.Stopped?
    ensures var s' := OsExec(cfg, s, run); c < |s'.cpus| && !s'.cpus[c].pc.Stopped?
    decreases |run|
  {
    if run == [] {
    } else {
      StepKeepsIdle(cfg, s, run[0]);
      IdleCpuNeverStops(cfg, OsDo(cfg, s, run[0]), run[1..], c);
    }
  }

  /** So with no process configured no CPU ever stops. */
  lemma EmptyWorkloadNeverStops(cfg: Config, cpus: nat, run: seq<OsAction>, c: nat)
    requires IsRun(cfg, cpus, run) && cfg.starts == [] && c < cpus
    ensures var s := AfterRun(cfg, cpus, run); c < |s.cpus| && !s.cpus[c].pc.Stopped?
  {
    BootInv(cfg, cpus);
    IdleCpuNeverStops(cfg, Boot(cpus), run, c);
  }

  // get_proc as src/sched.c has it: NULL, whatever was added.
  predicate AlwaysNull(run: seq<OsAction>) {
    forall k :: 0 <= k < |run| && run[k].CpuGo? ==> run[k].got.None?
  }

  predicate AllIdle(s: Os) {
    && s.log == []
    && forall c :: 0 <= c < |s.cpus| ==> Idle(s.cpus[c])
  }

  lemma NullKeepsIdle(cfg: Config, s: Os, a: OsAction)
    requires AllIdle(s) && OsEnabled(s, a) && (a.CpuGo? ==> a.got.None?)
    ensures AllIdle(OsDo(cfg, s, a)) && |OsDo(cfg, s, a).cpus| == |s.cpus|
  {
    StepKeepsCpuCount(cfg, s, a);
  }

  lemma {:induction false} NullRunKeepsIdle(cfg: Config, s: Os, run: seq<OsAction>)
    requires AllIdle(s) && OsValid(cfg, s, run) && AlwaysNull(run)
    ensures AllIdle(OsExec(cfg, s, run)) && |OsExec(cfg, s, run).cpus| == |s.cpus|
    decreases |run|
  {
    if run == [] {
    } else {
      NullKeepsIdle(cfg, s, run[0]);
      NullRunKeepsIdle(cfg, OsDo(cfg, s, run[0]), run[1..]);
    }
  }

  /** With get_proc as it stands, no instruction is ever executed and no CPU ever stops, so main
      never stops the timer. */
  lemma NullQueueRunsNothing(cfg: Config, cpus: nat, run: seq<OsAction>)
    requires IsRun(cfg, cpus, run) && AlwaysNull(run)
    ensures var s := AfterRun(cfg, cpus, run);
      && s.log == [] && |s.cpus| == cpus
      && (forall c :: 0 <= c < cpus ==> !s.cpus[c].pc.Stopped?)
      && (cpus > 0 ==> s.bar.main.Joining?)
  {
    NullRunKeepsIdle(cfg, Boot(cpus), run);
    AfterRunInv(cfg, cpus, run);
    var s := AfterRun(cfg, cpus, run);
    if cpus > 0 {
      assert CpuOk(cfg, s, 0);
      assert !s.bar.devs[1].pc.Gone?;
    }
  }
}
