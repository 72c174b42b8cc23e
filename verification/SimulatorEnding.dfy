/** When the simulation ends. It does not have to: a CPU that is idle at the head of its loop does
    not look at `done`. Once all work is done every CPU has stopped or is idle for good, and the
    simulation ends exactly when none is idle. */
module SimulatorEnding {
  import opened Barrier
  import opened BarrierSafety
  import opened BarrierProgress
  import opened Simulator
  import opened SimulatorInv
  import opened SimulatorSteps
  import opened SimulatorSafety
  import opened SimulatorCompletion
  import opened SimulatorProgress
  import opened SimulatorLiveness

  predicate NoneIdle(s: Os) {
    forall c :: 0 <= c < |s.cpus| ==> !Idle(s.cpus[c])
  }

  // ---------- past the deadline every CPU has stopped or is idle ----------

  lemma NothingHeld(cfg: Config, s: Os)
    requires Going(cfg, s) && s.bar.time >= Deadline(cfg)
    ensures s.next == |cfg.starts| && s.ready == multiset{}
    ensures forall c :: 0 <= c < |s.cpus| ==> s.cpus[c].held.None?
  {
    if s.next < |cfg.starts| { LoaderOnTime(cfg, s); }
    forall p: nat ensures s.ready[p] == 0 && Holders(s.cpus, p) == 0 {
      assert Copies(s, p) == if p < s.next then 1 else 0;
      if p < s.next { NoWorkLeft(cfg, s, p); }
    }
    forall c | 0 <= c < |s.cpus| ensures s.cpus[c].held.None? {
      if s.cpus[c].held.Some? { HoldersAtLeast(s.cpus, c, s.cpus[c].held.value); }
    }
  }

  lemma NothingLeftAtTick(cfg: Config, s: Os)
    requires Going(cfg, s) && s.bar.time >= Deadline(cfg) && s.bar.clock.Tick?
    ensures NothingLeft(cfg, s)
  {
    NothingHeld(cfg, s);
    forall c | 0 <= c < |s.cpus| && !s.cpus[c].pc.Stopped? ensures Idle(s.cpus[c]) {
      AtTopAtTick(cfg, s, c);
    }
  }

  ghost predicate Settled(cfg: Config, s: Os) {
    Going(cfg, s) && (s.bar.time > Deadline(cfg) ==> NothingLeft(cfg, s))
  }

  lemma StepKeepsSettled(cfg: Config, s: Os, a: OsAction)
    requires Settled(cfg, s) && OsEnabled(s, a) && Honest(s, a)
    ensures Settled(cfg, OsDo(cfg, s, a))
  {
    StepKeepsGoing(cfg, s, a);
    StepTicksOnce(cfg, s, a);
    if s.bar.time > Deadline(cfg) {
      StepKeepsIdle(cfg, s, a);
    } else if OsDo(cfg, s, a).bar.time > Deadline(cfg) {
      NothingLeftAtTick(cfg, s);
      StepKeepsIdle(cfg, s, a);
    }
  }

  lemma {:induction false} RunKeepsSettled(cfg: Config, s: Os, run: seq<OsAction>)
    requires Settled(cfg, s) && OsValid(cfg, s, run) && HonestRun(cfg, s, run)
    ensures Settled(cfg, OsExec(cfg, s, run))
    decreases |run|
  {
    if run == [] {
    } else {
      StepKeepsSettled(cfg, s, run[0]);
      RunKeepsSettled(cfg, OsDo(cfg, s, run[0]), run[1..]);
    }
  }

  lemma BootSettled(cfg: Config, cpus: nat)
    requires cpus > 0 && |cfg.starts| > 0
    ensures Settled(cfg, Boot(cpus))
  {
    BootInv(cfg, cpus);
  }

  // ---------- a CPU that is not idle when `done` is set ----------

  lemma CpuStaysNotIdle(cfg: Config, s: Os, c: nat, got: Option<nat>, lose: bool)
    requires CpuEnabled(s, c, got) && c + 1 < |s.bar.devs| && PlaceOkCpu(s.cpus[c], s.bar.devs[c + 1])
    requires s.done && !Idle(s.cpus[c])
    ensures |CpuDo(cfg, s, c, got, lose).cpus| == |s.cpus|
    ensures !Idle(CpuDo(cfg, s, c, got, lose).cpus[c])
  {
    CpuLeavesOthers(cfg, s, c, got, lose);
    match s.cpus[c].pc {
      case Top =>
      case Recheck =>
      case Execute =>
      case Yield =>
      case GetIdle | GetAfterFinish | GetAfterPut =>
    }
  }

  lemma StepKeepsNoneIdle(cfg: Config, s: Os, a: OsAction)
    requires OsInv(cfg, s) && s.done && NoneIdle(s) && OsEnabled(s, a)
    ensures var s' := OsDo(cfg, s, a); OsInv(cfg, s') && s'.done && NoneIdle(s')
  {
    DoneFixesAdditions(cfg, s, a);
    match a
    case Bar(_) =>
    case LdGo(lose) => assert LdDo(cfg, s, lose).cpus == s.cpus;
    case CpuGo(c, got, lose) =>
      assert CpuOk(cfg, s, c);
      CpuLeavesOthers(cfg, s, c, got, lose);
      CpuStaysNotIdle(cfg, s, c, got, lose);
  }

  lemma {:induction false} RunKeepsNoneIdle(cfg: Config, s: Os, run: seq<OsAction>)
    requires OsInv(cfg, s) && s.done && NoneIdle(s) && OsValid(cfg, s, run)
    ensures NoneIdle(OsExec(cfg, s, run))
    decreases |run|
  {
    if run == [] {
    } else {
      StepKeepsNoneIdle(cfg, s, run[0]);
      RunKeepsNoneIdle(cfg, OsDo(cfg, s, run[0]), run[1..]);
    }
  }

  /** If no CPU is idle at some moment after the loader has set `done`, then all CPUs have stopped
      past the deadline, in every honest continuation. */
  lemma NoneIdleWhenDoneStops(cfg: Config, cpus: nat, run: seq<OsAction>, more: seq<OsAction>)
    requires IsRun(cfg, cpus, run) && HonestRun(cfg, Boot(cpus), run) && cpus > 0 && |cfg.starts| > 0
    requires AfterRun(cfg, cpus, run).done && NoneIdle(AfterRun(cfg, cpus, run))
    requires OsValid(cfg, AfterRun(cfg, cpus, run), more)
    requires HonestRun(cfg, AfterRun(cfg, cpus, run), more)
    requires OsExec(cfg, AfterRun(cfg, cpus, run), more).bar.time > Deadline(cfg)
    ensures AllStopped(OsExec(cfg, AfterRun(cfg, cpus, run), more))
  {
    var s := AfterRun(cfg, cpus, run);
    BootSettled(cfg, cpus);
    RunKeepsSettled(cfg, Boot(cpus), run);
    RunKeepsSettled(cfg, s, more);
    RunKeepsNoneIdle(cfg, s, more);
  }

  // ---------- the loader has stopped by then ----------

  lemma TimeAtMostFree(s: State, i: nat)
    requires Inv(s) && i < |s.devs| && !Leaving(s.devs[i].pc)
    ensures s.time <= FreeSlot(s.devs[i])
  {
    assert DeviceOk(s.time, s.clock, i, s.devs[i]);
  }

  lemma EarliestIncreases(cfg: Config, i: nat, j: nat)
    requires i <= j <= |cfg.starts|
    ensures Earliest(cfg, i) <= Earliest(cfg, j)
  {
    if 0 < i < j { DueIncreases(cfg, i - 1, j - 1); }
  }

  lemma LoaderGone(cfg: Config, s: Os)
    requires OsInv(cfg, s) && s.bar.time > Earliest(cfg, |cfg.starts|)
    ensures s.ld.LdStopped? && s.done
  {
    if !s.ld.LdStopped? {
      TimeAtMostFree(s.bar, 0);
      EarliestIncreases(cfg, s.next, |cfg.starts|);
      if s.next < |cfg.starts| { EarliestIncreases(cfg, s.next + 1, |cfg.starts|); }
    }
  }

  // ---------- when all device programs have stopped the simulation ends ----------

  predicate Ended(s: Os) {
    AllStopped(s) && s.ld.LdStopped?
  }

  predicate AllLeaving(s: State) {
    forall i :: 0 <= i < |s.devs| ==> Leaving(s.devs[i].pc)
  }

  lemma EndedIsLeaving(cfg: Config, s: Os)
    requires OsInv(cfg, s) && Ended(s)
    ensures AllLeaving(s.bar)
  {
    forall i | 0 <= i < |s.bar.devs| ensures Leaving(s.bar.devs[i].pc) {
      if i > 0 { assert CpuOk(cfg, s, i - 1); }
    }
  }

  // The timer will find at the end of its round that every device has finished.
  predicate Closing(s: State) {
    s.clock.Exit? || ((AfterTick(s.clock) || s.clock.Judge?) && s.fshSeen == s.eventSeen)
  }

  lemma TickIsClosing(s: State, b: Action)
    requires Inv(s) && AllLeaving(s) && Enabled(s, b) && Do(s, b).time != s.time
    ensures !Closing(s) && Closing(Do(s, b))
  {
    OnlyTickMovesTime(s, b);
    forall i | 0 <= i < |s.devs| ensures s.devs[i].fsh {
      assert DeviceOk(s.time, s.clock, i, s.devs[i]);
    }
    assert AllFsh(s.devs, |s.devs|);
  }

  lemma ClosingStays(s: State, b: Action)
    requires Closing(s) && Enabled(s, b)
    ensures Closing(Do(s, b)) && Do(s, b).time == s.time
  {
  }

  lemma EndedStep(cfg: Config, s: Os, a: OsAction)
    requires OsInv(cfg, s) && Ended(s) && OsEnabled(s, a)
    ensures OsInv(cfg, OsDo(cfg, s, a)) && Ended(OsDo(cfg, s, a))
    ensures a.Bar? && |OsDo(cfg, s, a).cpus| == |s.cpus|
  {
    OsStepKeepsInv(cfg, s, a);
  }

  // Steps until main has freed the device list, an upper bound.
  function EndRank(s: Os): nat
    requires Sized(s)
  {
    OsRank(s) + if Closing(s.bar) then 0 else 40 * |s.cpus| + 47
  }

  lemma EndedStepShortens(cfg: Config, s: Os, a: OsAction)
    requires OsInv(cfg, s) && Ended(s) && OsEnabled(s, a) && Steady(a)
    ensures Sized(OsDo(cfg, s, a)) && EndRank(OsDo(cfg, s, a)) < EndRank(s)
  {
    EndedStep(cfg, s, a);
    SteadyStep(cfg, s, a);
    EndedIsLeaving(cfg, s);
    if Closing(s.bar) { ClosingStays(s.bar, a.a); }
    if OsDo(cfg, s, a).bar.time != s.bar.time { TickIsClosing(s.bar, a.a); }
  }

  ghost predicate CanGoOn(s: Os) {
    exists a :: Steady(a) && OsEnabled(s, a)
  }

  /** Then every continuation is bounded, spurious wake-ups aside, and one that cannot be extended
      has freed the device list. */
  lemma {:induction false} EndedRunEnds(cfg: Config, s: Os, run: seq<OsAction>)
    requires OsInv(cfg, s) && Ended(s) && OsValid(cfg, s, run) && AllSteady(run)
    ensures |run| <= EndRank(s) <= 80 * |s.cpus| + 93
    ensures OsExec(cfg, s, run).bar.main.Finished? || CanGoOn(OsExec(cfg, s, run))
    decreases |run|
  {
    RankLimit(s);
    if run == [] {
      if !s.bar.main.Finished? { var a := SomeoneGoesOn(cfg, s); }
    } else {
      EndedStep(cfg, s, run[0]);
      EndedStepShortens(cfg, s, run[0]);
      EndedRunEnds(cfg, OsDo(cfg, s, run[0]), run[1..]);
    }
  }

  // ---------- continuations exist ----------

  lemma {:induction false} RunConcat(cfg: Config, s: Os, run: seq<OsAction>, more: seq<OsAction>)
    requires OsValid(cfg, s, run) && OsValid(cfg, OsExec(cfg, s, run), more)
    ensures OsValid(cfg, s, run + more)
    ensures OsExec(cfg, s, run + more) == OsExec(cfg, OsExec(cfg, s, run), more)
    decreases |run|
  {
    if run == [] {
      assert run + more == more;
    } else {
      assert (run + more)[1..] == run[1..] + more;
      RunConcat(cfg, OsDo(cfg, s, run[0]), run[1..], more);
    }
  }

  lemma {:induction false} HonestConcat(cfg: Config, s: Os, run: seq<OsAction>, more: seq<OsAction>)
    requires OsValid(cfg, s, run) && OsValid(cfg, OsExec(cfg, s, run), more)
    requires OsValid(cfg, s, run + more)
    requires HonestRun(cfg, s, run) && HonestRun(cfg, OsExec(cfg, s, run), more)
    ensures HonestRun(cfg, s, run + more)
    decreases |run|
  {
    if run == [] {
      assert run + more == more;
    } else {
      assert (run + more)[1..] == run[1..] + more;
      HonestConcat(cfg, OsDo(cfg, s, run[0]), run[1..], more);
    }
  }

  /** From every state there is an honest run to any later slot, or to the end. */
  lemma ReachSlot(cfg: Config, s: Os, t: nat) returns (run: seq<OsAction>)
    requires OsInv(cfg, s)
    ensures OsValid(cfg, s, run) && HonestRun(cfg, s, run)
    ensures OsExec(cfg, s, run).bar.time >= t || OsExec(cfg, s, run).bar.main.Finished?
    decreases t - s.bar.time, OsRank(s)
  {
    if s.bar.time >= t || s.bar.main.Finished? {
      run := [];
    } else {
      var a := HonestGoesOn(cfg, s);
      SteadyStep(cfg, s, a);
      var rest := ReachSlot(cfg, OsDo(cfg, s, a), t);
      run := [a] + rest;
      assert run[1..] == rest;
    }
  }

  lemma ReachEnd(cfg: Config, s: Os) returns (run: seq<OsAction>)
    requires OsInv(cfg, s) && Ended(s)
    ensures OsValid(cfg, s, run) && HonestRun(cfg, s, run)
    ensures OsExec(cfg, s, run).bar.main.Finished?
    decreases EndRank(s)
  {
    if s.bar.main.Finished? {
      run := [];
    } else {
      var a := HonestGoesOn(cfg, s);
      EndedStep(cfg, s, a);
      EndedStepShortens(cfg, s, a);
      var rest := ReachEnd(cfg, OsDo(cfg, s, a));
      run := [a] + rest;
      assert run[1..] == rest;
    }
  }

  // ---------- exactly when it ends ----------

  ghost predicate CanFinish(cfg: Config, s: Os) {
    exists more :: OsValid(cfg, s, more) && OsExec(cfg, s, more).bar.main.Finished?
  }

  // Nothing is left to run and a CPU is idle.
  predicate Hung(cfg: Config, s: Os) {
    NothingLeft(cfg, s) && !NoneIdle(s)
  }

  lemma AliveCpuKeepsMain(cfg: Config, s: Os, c: nat)
    requires OsInv(cfg, s) && c < |s.cpus| && !s.cpus[c].pc.Stopped?
    ensures s.bar.main.Joining?
  {
    assert CpuOk(cfg, s, c);
    assert !s.bar.devs[c + 1].pc.Gone?;
  }

  /** From a hung state no run at all, honest or not, gets main past its joins. */
  lemma HungNeverEnds(cfg: Config, s: Os, more: seq<OsAction>)
    requires OsInv(cfg, s) && Hung(cfg, s) && OsValid(cfg, s, more)
    ensures OsExec(cfg, s, more).bar.main.Joining?
  {
    var c :| 0 <= c < |s.cpus| && Idle(s.cpus[c]);
    IdleCpuNeverStops(cfg, s, more, c);
    OsRunKeepsInv(cfg, s, more);
    AliveCpuKeepsMain(cfg, OsExec(cfg, s, more), c);
  }

  lemma SettledEnds(cfg: Config, s: Os)
    requires Settled(cfg, s) && s.bar.time > Deadline(cfg) && NoneIdle(s)
    ensures Ended(s)
  {
    LoaderGone(cfg, s);
  }

  /** Past the deadline of an honest run every CPU has stopped or is idle with nothing left to
      run, and the simulation can still end exactly when no CPU is idle. */
  lemma EndsExactlyWhenNoneIdle(cfg: Config, cpus: nat, run: seq<OsAction>)
    requires IsRun(cfg, cpus, run) && HonestRun(cfg, Boot(cpus), run)
    requires cpus > 0 && |cfg.starts| > 0 && AfterRun(cfg, cpus, run).bar.time > Deadline(cfg)
    ensures var s := AfterRun(cfg, cpus, run);
      NothingLeft(cfg, s) && (CanFinish(cfg, s) <==> NoneIdle(s))
  {
    var s := AfterRun(cfg, cpus, run);
    BootSettled(cfg, cpus);
    RunKeepsSettled(cfg, Boot(cpus), run);
    if NoneIdle(s) {
      SettledEnds(cfg, s);
      var more := ReachEnd(cfg, s);
    } else {
      forall more | OsValid(cfg, s, more) ensures !OsExec(cfg, s, more).bar.main.Finished? {
        HungNeverEnds(cfg, s, more);
      }
    }
  }

  /** And then it has to end: no continuation has more than 80 n + 93 steps for n CPUs, spurious
      wake-ups aside, and one that cannot be extended has freed the device list. */
  lemma NoneIdleHasToEnd(cfg: Config, cpus: nat, run: seq<OsAction>, more: seq<OsAction>)
    requires IsRun(cfg, cpus, run) && HonestRun(cfg, Boot(cpus), run)
    requires cpus > 0 && |cfg.starts| > 0 && AfterRun(cfg, cpus, run).bar.time > Deadline(cfg)
    requires NoneIdle(AfterRun(cfg, cpus, run))
    requires OsValid(cfg, AfterRun(cfg, cpus, run), more) && AllSteady(more)
    ensures |more| <= 80 * cpus + 93
    ensures var t := OsExec(cfg, AfterRun(cfg, cpus, run), more); t.bar.main.Finished? || CanGoOn(t)
  {
    AfterRunInv(cfg, cpus, run);
    BootSettled(cfg, cpus);
    RunKeepsSettled(cfg, Boot(cpus), run);
    SettledEnds(cfg, AfterRun(cfg, cpus, run));
    EndedRunEnds(cfg, AfterRun(cfg, cpus, run), more);
  }

  // ---------- with get_proc as it is written ----------

  lemma {:induction false} NoCpuSteps(cfg: Config, s: Os, run: seq<OsAction>)
    requires |s.cpus| == 0 && OsValid(cfg, s, run)
    ensures AlwaysNull(run)
    decreases |run|
  {
    if run == [] {
      assert AlwaysNull([]);
    } else {
      StepKeepsCpuCount(cfg, s, run[0]);
      NoCpuSteps(cfg, OsDo(cfg, s, run[0]), run[1..]);
      assert forall k :: 0 < k < |run| ==> run[k] == run[1..][k - 1];
    }
  }

  lemma NoCpusCanEnd(cfg: Config) returns (run: seq<OsAction>)
    ensures IsRun(cfg, 0, run) && AlwaysNull(run) && AfterRun(cfg, 0, run).bar.main.Finished?
  {
    BootInv(cfg, 0);
    run := ReachSlot(cfg, Boot(0), Earliest(cfg, |cfg.starts|) + 1);
    AfterRunInv(cfg, 0, run);
    var s := AfterRun(cfg, 0, run);
    if !s.bar.main.Finished? {
      LoaderGone(cfg, s);
      var more := ReachEnd(cfg, s);
      RunConcat(cfg, Boot(0), run, more);
      run := run + more;
    }
    NoCpuSteps(cfg, Boot(0), run);
  }

  ghost predicate NullQueueCanEnd(cfg: Config, cpus: nat) {
    exists run :: IsRun(cfg, cpus, run) && AlwaysNull(run) && AfterRun(cfg, cpus, run).bar.main.Finished?
  }

  ghost predicate NullQueueCanPassJoins(cfg: Config, cpus: nat) {
    exists run :: IsRun(cfg, cpus, run) && AlwaysNull(run) && !AfterRun(cfg, cpus, run).bar.main.Joining?
  }

  /** With get_proc as it stands the simulation can end exactly when there are no CPUs, and with a
      CPU main does not even get past its joins. */
  lemma NullQueueEndsExactlyWithoutCpus(cfg: Config, cpus: nat)
    ensures NullQueueCanEnd(cfg, cpus) <==> cpus == 0
    ensures NullQueueCanPassJoins(cfg, cpus) <==> cpus == 0
  {
    if cpus == 0 {
      var run := NoCpusCanEnd(cfg);
      assert NullQueueCanEnd(cfg, 0) && NullQueueCanPassJoins(cfg, 0);
    } else {
      forall run | IsRun(cfg, cpus, run) && AlwaysNull(run) ensures AfterRun(cfg, cpus, run).bar.main.Joining? {
        NullQueueRunsNothing(cfg, cpus, run);
      }
    }
  }
}
