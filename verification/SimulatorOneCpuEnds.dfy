/** For one CPU and an honest queue: which configurations have a run that hangs, and which have one
    that ends. */
module SimulatorOneCpuEnds {
  import opened Barrier
  import opened BarrierSafety
  import opened BarrierProgress
  import opened Simulator
  import opened SimulatorInv
  import opened SimulatorSteps
  import opened SimulatorSafety
  import opened SimulatorCompletion
  import opened SimulatorProgress
  import opened SimulatorLiveness
  import opened SimulatorEnding
  import opened SimulatorOneCpu

  // ---------- the plan: in every slot the loader goes first ----------

  // As long as the loader has not had the current slot the CPU has not started it.
  predicate LoaderFirst(s: Os)
    requires Pair(s)
  {
    FreeSlot(s.bar.devs[0]) == s.bar.time ==>
      s.cpus[0].pc.Top? && FreeSlot(s.bar.devs[1]) == s.bar.time
  }

  // Then the CPU misses nothing, and the backlog bounds the debt from above.
  predicate CeilingAt(cfg: Config, k: nat, t: nat, owes: nat, ran: nat) {
    if k == 0 then owes == 0
    else k <= |cfg.starts| ==> owes <= Positive(Share(cfg, k, t) - ran)
  }

  predicate Ceiling(cfg: Config, s: Os)
    requires Pair(s)
  {
    CeilingAt(cfg, s.next, s.bar.time, Owes(cfg, s), Ran(s))
  }

  predicate MissesNothing(cfg: Config, s: Os)
    requires Pair(s)
  {
    s.cpus[0].pc.Recheck? && s.cpus[0].held.None? ==> Owes(cfg, s) == 0
  }

  ghost predicate Planned(cfg: Config, s: Os) {
    && One(cfg, s) && !s.done
    && LoaderFirst(s) && Ceiling(cfg, s) && MissesNothing(cfg, s)
    && Floor(cfg, s) && KeptAt(cfg, s, LastDue(cfg))
  }

  lemma {:induction false} AddKeepsCeiling(cfg: Config, k: nat, owes: nat)
    requires k < |cfg.starts| && CeilingAt(cfg, k, Due(cfg, k), owes, 0)
    ensures CeilingAt(cfg, k + 1, Due(cfg, k), owes + Cost(cfg, k), 0)
  {
    ShareOfNext(cfg, k);
    if k > 0 { CarriedIsShare(cfg, k, Due(cfg, k), Due(cfg, k - 1)); }
  }

  // A CPU leaves the slot without running only when get_proc has failed in it.
  lemma OnlyFailedGetPasses(cfg: Config, s: Os, got: Option<nat>)
    requires CpuReady(cfg, s, 0, got) && Pair(s) && !s.cpus[0].pc.Execute?
    requires Pair(CpuDo(cfg, s, 0, got, false)) && Ran(CpuDo(cfg, s, 0, got, false)) > Ran(s)
    ensures (IsGet(s.cpus[0].pc) && got.None?) || (s.cpus[0].pc.Recheck? && s.cpus[0].held.None?)
  {
    match s.cpus[0].pc {
      case Top =>
      case Recheck =>
      case Yield =>
      case GetIdle | GetAfterFinish | GetAfterPut =>
    }
  }

  lemma OnlyFailedGetRechecks(cfg: Config, s: Os, got: Option<nat>)
    requires CpuReady(cfg, s, 0, got) && Pair(s)
    requires var s' := CpuDo(cfg, s, 0, got, false);
      |s'.cpus| == 1 && s'.cpus[0].pc.Recheck? && s'.cpus[0].held.None?
    ensures IsGet(s.cpus[0].pc) && got.None?
  {
    match s.cpus[0].pc {
      case Top =>
      case Recheck =>
      case Execute =>
      case Yield =>
      case GetIdle | GetAfterFinish | GetAfterPut =>
    }
  }

  lemma FailedGetOwesNothing(cfg: Config, s: Os)
    requires One(cfg, s) && CpuEnabled(s, 0, None) && Honest(s, CpuGo(0, None, false))
    requires IsGet(s.cpus[0].pc)
    ensures Owes(cfg, s) == 0
  {
    assert CpuOk(cfg, s, 0);
    NothingOwed(cfg, s);
  }

  lemma QuietKeepsCeiling(cfg: Config, s: Os, got: Option<nat>)
    requires Planned(cfg, s) && CpuEnabled(s, 0, got) && Honest(s, CpuGo(0, got, false))
    requires !s.cpus[0].pc.Execute?
    ensures var s' := CpuDo(cfg, s, 0, got, false); Pair(s') && Ceiling(cfg, s')
  {
    QuietEffect(cfg, s, got);
    if Ran(CpuDo(cfg, s, 0, got, false)) > Ran(s) {
      WorkingIsInStep(s.bar, 1);
      OnlyFailedGetPasses(cfg, s, got);
      if IsGet(s.cpus[0].pc) { FailedGetOwesNothing(cfg, s); }
    }
  }

  lemma CpuKeepsMissesNothing(cfg: Config, s: Os, got: Option<nat>)
    requires Planned(cfg, s) && CpuEnabled(s, 0, got) && Honest(s, CpuGo(0, got, false))
    ensures var s' := CpuDo(cfg, s, 0, got, false); Pair(s') && MissesNothing(cfg, s')
  {
    var s' := CpuDo(cfg, s, 0, got, false);
    StepKeepsOne(cfg, s, CpuGo(0, got, false));
    if s'.cpus[0].pc.Recheck? && s'.cpus[0].held.None? {
      WorkingIsInStep(s.bar, 1);
      OnlyFailedGetRechecks(cfg, s, got);
      FailedGetOwesNothing(cfg, s);
      QuietDebt(cfg, s, got);
    }
  }

  lemma CpuLeavesLoaderDevice(cfg: Config, s: Os, got: Option<nat>)
    requires CpuEnabled(s, 0, got) && |s.bar.devs| > 0
    ensures var s' := CpuDo(cfg, s, 0, got, false);
      |s'.bar.devs| == |s.bar.devs| && s'.bar.devs[0] == s.bar.devs[0]
  {
    match s.cpus[0].pc {
      case Top =>
      case Recheck =>
      case Execute =>
      case Yield =>
      case GetIdle | GetAfterFinish | GetAfterPut =>
    }
  }

  lemma CpuKeepsFirst(cfg: Config, s: Os, got: Option<nat>)
    requires Pair(s) && CpuEnabled(s, 0, got) && FreeSlot(s.bar.devs[0]) != s.bar.time
    requires Pair(CpuDo(cfg, s, 0, got, false))
    ensures LoaderFirst(CpuDo(cfg, s, 0, got, false))
    ensures CpuDo(cfg, s, 0, got, false).done == s.done
  {
    CpuLeavesLoader(cfg, s, 0, got, false);
    CpuLeavesLoaderDevice(cfg, s, got);
    ProgramKeepsTime(cfg, s, CpuGo(0, got, false));
  }

  lemma CpuKeepsBounds(cfg: Config, s: Os, got: Option<nat>)
    requires Planned(cfg, s) && CpuEnabled(s, 0, got) && Honest(s, CpuGo(0, got, false))
    ensures var s' := CpuDo(cfg, s, 0, got, false);
      Pair(s') && Ceiling(cfg, s') && Floor(cfg, s') && KeptAt(cfg, s', LastDue(cfg))
  {
    if s.cpus[0].pc.Execute? { RunEffect(cfg, s); } else { QuietKeepsCeiling(cfg, s, got); }
    CpuKeepsFloor(cfg, s, got);
    if s.next == |cfg.starts| { FloorOwes(cfg, s); }
    CpuKeepsKept(cfg, s, got, LastDue(cfg));
  }

  lemma CpuKeepsPlan(cfg: Config, s: Os, got: Option<nat>)
    requires Planned(cfg, s) && CpuEnabled(s, 0, got) && Honest(s, CpuGo(0, got, false))
    requires FreeSlot(s.bar.devs[0]) != s.bar.time
    ensures Planned(cfg, CpuDo(cfg, s, 0, got, false))
  {
    StepKeepsOne(cfg, s, CpuGo(0, got, false));
    CpuKeepsMissesNothing(cfg, s, got);
    CpuKeepsBounds(cfg, s, got);
    CpuKeepsFirst(cfg, s, got);
  }

  lemma LoaderKeepsFirst(cfg: Config, s: Os)
    requires LdEnabled(s) && Pair(s) && LoaderFirst(s) && s.bar.devs[0].slots == s.bar.time
    requires LdDo(cfg, s, false).cpus == s.cpus
    ensures var s' := LdDo(cfg, s, false); Pair(s') && LoaderFirst(s')
  {
    match s.ld {
      case LdTop =>
      case LdWait =>
      case LdAdd =>
      case LdYield =>
      case LdFinish =>
      case LdDetach =>
    }
  }

  lemma NotDoneBefore(cfg: Config, s: Os)
    requires OsInv(cfg, s) && LdEnabled(s) && !s.done && |cfg.starts| > 0 && s.bar.time <= LastDue(cfg)
    ensures !LdDo(cfg, s, false).done
  {
    WorkingIsInStep(s.bar, 0);
  }

  lemma LoaderKeepsBounds(cfg: Config, s: Os)
    requires Planned(cfg, s) && LdEnabled(s)
    requires s.cpus[0].pc.Top? && Ran(s) == 0
    ensures var s' := LdDo(cfg, s, false);
      Pair(s') && Ceiling(cfg, s') && Floor(cfg, s') && KeptAt(cfg, s', LastDue(cfg))
  {
    LoaderKeepsFloor(cfg, s);
    LoaderKeepsKept(cfg, s, LastDue(cfg));
    LoaderEffect(cfg, s);
    if s.ld.LdAdd? {
      AddIsDue(cfg, s);
      AddKeepsCeiling(cfg, s.next, Owes(cfg, s));
    }
  }

  lemma LoaderKeepsPlan(cfg: Config, s: Os)
    requires Planned(cfg, s) && LdEnabled(s) && s.bar.time <= LastDue(cfg)
    ensures Planned(cfg, LdDo(cfg, s, false))
  {
    WorkingIsInStep(s.bar, 0);
    LoaderKeepsProgress(cfg, s, false);
    LoaderKeepsBounds(cfg, s);
    LoaderKeepsFirst(cfg, s);
    NotDoneBefore(cfg, s);
    StepKeepsOne(cfg, s, LdGo(false));
  }

  // At a tick both threads have had their slot, and a new one begins for both.
  lemma TickStartsBoth(cfg: Config, s: Os, b: Action)
    requires OsInv(cfg, s) && Pair(s) && !s.done && OsEnabled(s, Bar(b))
    requires Do(s.bar, b).time != s.bar.time
    ensures var s' := s.(bar := Do(s.bar, b));
      && Pair(s') && s'.bar.time == s.bar.time + 1 && s.cpus[0].pc.Top? && Ran(s) == 1 && Ran(s') == 0
      && FreeSlot(s'.bar.devs[0]) == FreeSlot(s'.bar.devs[1]) == s'.bar.time
      && !s.bar.devs[0].pc.Working? && !Leaving(s.bar.devs[0].pc)
  {
    TickEffect(cfg, s, b);
    OnlyTickMovesTime(s.bar, b);
    assert CpuOk(cfg, s, 0);
    FreeAfterTick(s.bar, 0);
    FreeAfterTick(s.bar, 1);
    StepFollows(s.bar, b, 0);
    StepFollows(s.bar, b, 1);
  }

  lemma BarKeepsFirst(s: Os, b: Action)
    requires Pair(s) && LoaderFirst(s) && OsEnabled(s, Bar(b)) && Do(s.bar, b).time == s.bar.time
    ensures var s' := s.(bar := Do(s.bar, b)); Pair(s') && LoaderFirst(s')
  {
    StepFollows(s.bar, b, 0);
    StepFollows(s.bar, b, 1);
  }

  lemma BarKeepsPlan(cfg: Config, s: Os, b: Action)
    requires Planned(cfg, s) && OsEnabled(s, Bar(b))
    ensures Planned(cfg, s.(bar := Do(s.bar, b)))
  {
    StepKeepsOne(cfg, s, Bar(b));
    BarEffect(cfg, s, b);
    BarKeepsFloor(cfg, s, b);
    BarKeepsKept(cfg, s, b, LastDue(cfg));
    if Do(s.bar, b).time == s.bar.time { BarKeepsFirst(s, b); } else { TickStartsBoth(cfg, s, b); }
  }

  // ---------- following the plan ----------

  // A device that has not been released yet, or is on its way back, does not wait for a program.
  lemma BehindCanMove(s: State, i: nat) returns (a: Action)
    requires Inv(s) && i < |s.devs| && !s.devs[i].pc.Working? && !Leaving(s.devs[i].pc)
    requires FreeSlot(s.devs[i]) == s.time
    ensures Protocol(a) && Enabled(s, a) && Do(s, a).time == s.time
  {
    assert DeviceOk(s.time, s.clock, i, s.devs[i]);
    if s.clock.Tick? { FreeAfterTick(s, i); }
    if OwnerEnabled(s.devs[i]) {
      a := OwnerStep(i);
    } else if ClockEnabled(s) {
      a := ClockStep;
    } else {
      HolderGoesOn(s.time, s.clock, i, s.devs[i]);
      var k := s.clock.k;
      a := OwnerStep(k);
      ReleaseWaitsForOwner(s, k);
    }
  }

  lemma ReleaseWaitsForOwner(s: State, k: nat)
    requires Inv(s) && s.clock == Release(k) && k < |s.devs| && !ClockEnabled(s)
    ensures OwnerEnabled(s.devs[k])
  {
    assert DeviceOk(s.time, s.clock, k, s.devs[k]);
    MutexCases(s.devs[k].timerLock);
  }

  // The beginning of the slot after the last addition.
  ghost predicate AtStart(cfg: Config, s: Os) {
    && Planned(cfg, s)
    && s.bar.time == LastDue(cfg) + 1 && s.next == |cfg.starts|
    && FreeSlot(s.bar.devs[0]) == FreeSlot(s.bar.devs[1]) == s.bar.time && !Leaving(s.bar.devs[0].pc)
    && s.ld.LdTop? && s.cpus[0].pc.Top? && s.cpus[0].held.Some? && Ran(s) == 0
  }

  lemma TickIntoStart(cfg: Config, s: Os, b: Action)
    requires Planned(cfg, s) && OsEnabled(s, Bar(b)) && s.bar.time == LastDue(cfg)
    requires Do(s.bar, b).time != s.bar.time
    ensures AtStart(cfg, s.(bar := Do(s.bar, b)))
  {
    var s' := s.(bar := Do(s.bar, b));
    TickStartsBoth(cfg, s, b);
    BarKeepsPlan(cfg, s, b);
    StepFollows(s.bar, b, 0);
    if s'.next < |cfg.starts| { LoaderOnTime(cfg, s'); }
  }

  // A step by the plan: the loader's, if it can go, and the CPU's only after it.
  lemma PlannedStep(cfg: Config, s: Os) returns (a: OsAction)
    requires Planned(cfg, s)
    ensures Steady(a) && OsEnabled(s, a) && Honest(s, a) && (a.LdGo? ==> a == LdGo(false))
    ensures a.CpuGo? ==> FreeSlot(s.bar.devs[0]) != s.bar.time
  {
    assert !Leaving(s.bar.devs[0].pc);
    assert CpuOk(cfg, s, 0);
    AliveCpuKeepsMain(cfg, s, 0);
    if s.bar.devs[0].pc.Working? {
      WorkerGoesOn(cfg, s, 0);
      a := LdGo(false);
    } else if FreeSlot(s.bar.devs[0]) == s.bar.time {
      var b := BehindCanMove(s.bar, 0);
      a := Bar(b);
    } else {
      a := HonestGoesOn(cfg, s);
    }
  }

  lemma PlannedStepKeepsPlan(cfg: Config, s: Os, a: OsAction)
    requires Planned(cfg, s) && s.bar.time <= LastDue(cfg)
    requires OsEnabled(s, a) && Honest(s, a)
    requires a.CpuGo? ==> FreeSlot(s.bar.devs[0]) != s.bar.time
    ensures Planned(cfg, OsDo(cfg, s, a))
  {
    match a
    case Bar(b) => BarKeepsPlan(cfg, s, b);
    case LdGo(lose) => LoaderKeepsPlan(cfg, s);
    case CpuGo(c, got, lose) => CpuKeepsPlan(cfg, s, got);
  }

  lemma PlannedMove(cfg: Config, s: Os) returns (a: OsAction)
    requires Planned(cfg, s) && s.bar.time <= LastDue(cfg)
    ensures OsEnabled(s, a) && Honest(s, a) && Sized(s) && Sized(OsDo(cfg, s, a))
    ensures var s' := OsDo(cfg, s, a);
      || AtStart(cfg, s')
      || (Planned(cfg, s') && s.bar.time < s'.bar.time <= LastDue(cfg))
      || (Planned(cfg, s') && s'.bar.time == s.bar.time && OsRank(s') < OsRank(s))
  {
    a := PlannedStep(cfg, s);
    PlannedStepKeepsPlan(cfg, s, a);
    SteadyStep(cfg, s, a);
    StepTicksOnce(cfg, s, a);
    if OsDo(cfg, s, a).bar.time > LastDue(cfg) { TickIntoStart(cfg, s, a.a); }
  }

  lemma ReachStart(cfg: Config, s: Os) returns (run: seq<OsAction>)
    requires Planned(cfg, s) && s.bar.time <= LastDue(cfg)
    ensures OsValid(cfg, s, run) && HonestRun(cfg, s, run) && AtStart(cfg, OsExec(cfg, s, run))
    decreases LastDue(cfg) - s.bar.time, OsRank(s)
  {
    var a := PlannedMove(cfg, s);
    var rest := [];
    if !AtStart(cfg, OsDo(cfg, s, a)) { rest := ReachStart(cfg, OsDo(cfg, s, a)); }
    run := [a] + rest;
    assert run[1..] == rest;
  }

  /** Steps of the barrier alone bring a device that is behind back to its program, within the slot. */
  lemma ReachWork(cfg: Config, s: Os, i: nat) returns (run: seq<OsAction>)
    requires OsInv(cfg, s) && i < |s.bar.devs| && !Leaving(s.bar.devs[i].pc)
    requires FreeSlot(s.bar.devs[i]) == s.bar.time
    ensures OsValid(cfg, s, run) && HonestRun(cfg, s, run)
    ensures var s' := OsExec(cfg, s, run);
      && OsInv(cfg, s') && s' == s.(bar := s'.bar) && s'.bar.time == s.bar.time
      && i < |s'.bar.devs| && s'.bar.devs[i].pc.Working?
    decreases OsRank(s)
  {
    if s.bar.devs[i].pc.Working? {
      run := [];
    } else {
      var b := BehindCanMove(s.bar, i);
      SteadyStep(cfg, s, Bar(b));
      StepFollows(s.bar, b, i);
      var rest := ReachWork(cfg, OsDo(cfg, s, Bar(b)), i);
      run := [Bar(b)] + rest;
      assert run[1..] == rest;
    }
  }

  lemma BootPlanned(cfg: Config)
    requires |cfg.starts| > 0
    ensures Planned(cfg, Boot(1))
  {
    BootOne(cfg);
  }

  lemma Join(cfg: Config, s: Os, run: seq<OsAction>, more: seq<OsAction>)
    requires OsValid(cfg, s, run) && HonestRun(cfg, s, run)
    requires OsValid(cfg, OsExec(cfg, s, run), more) && HonestRun(cfg, OsExec(cfg, s, run), more)
    ensures OsValid(cfg, s, run + more) && HonestRun(cfg, s, run + more)
    ensures OsExec(cfg, s, run + more) == OsExec(cfg, OsExec(cfg, s, run), more)
  {
    RunConcat(cfg, s, run, more);
    HonestConcat(cfg, s, run, more);
  }

  // ---------- without a backlog the CPU can go first and hang ----------

  // A CPU whose process is at its end, with an empty queue and no `done`.
  predicate AboutToIdle(cfg: Config, s: Os) {
    && Pair(s) && s.bar.devs[1].pc.Working? && !s.done
    && s.next == |cfg.starts| && s.ready == multiset{}
    && Finishing(cfg, s, s.cpus[0])
  }

  // It finishes it, fails to get another one, and does not find `done` set.
  lemma FinishesAndHangs(cfg: Config, s: Os) returns (run: seq<OsAction>)
    requires AboutToIdle(cfg, s)
    ensures OsValid(cfg, s, run) && HonestRun(cfg, s, run) && Hung(cfg, OsExec(cfg, s, run))
  {
    var go := CpuGo(0, None, false);
    var s1 := OsDo(cfg, s, go);
    var s2 := OsDo(cfg, s1, go);
    var s3 := OsDo(cfg, s2, go);
    assert Idle(s3.cpus[0]);
    assert OsValid(cfg, s3, []) && OsExec(cfg, s3, []) == s3 && HonestRun(cfg, s3, []);
    OneStep(cfg, s2, go, []);
    OneStep(cfg, s1, go, [go]);
    OneStep(cfg, s, go, [go, go]);
    run := [go] + ([go] + ([go] + []));
  }

  lemma OneStep(cfg: Config, s: Os, a: OsAction, rest: seq<OsAction>)
    requires OsEnabled(s, a) && Honest(s, a)
    requires OsValid(cfg, OsDo(cfg, s, a), rest) && HonestRun(cfg, OsDo(cfg, s, a), rest)
    ensures OsValid(cfg, s, [a] + rest) && HonestRun(cfg, s, [a] + rest)
    ensures OsExec(cfg, s, [a] + rest) == OsExec(cfg, OsDo(cfg, s, a), rest)
  {
    assert ([a] + rest)[1..] == rest;
  }

  lemma StartWithoutBacklog(cfg: Config, s: Os)
    requires AtStart(cfg, s) && Backlog(cfg, |cfg.starts|) == 0
    ensures s.ready == multiset{} && Finishing(cfg, s, s.cpus[0])
  {
    assert Share(cfg, s.next, s.bar.time) == 0;
    NothingOwedNothingReady(cfg, s);
  }

  ghost predicate CanHang(cfg: Config) {
    exists run :: IsRun(cfg, 1, run) && HonestRun(cfg, Boot(1), run) && Hung(cfg, AfterRun(cfg, 1, run))
  }

  lemma StartHangs(cfg: Config, s: Os) returns (run: seq<OsAction>)
    requires AtStart(cfg, s) && Backlog(cfg, |cfg.starts|) == 0
    ensures OsValid(cfg, s, run) && HonestRun(cfg, s, run) && Hung(cfg, OsExec(cfg, s, run))
  {
    StartWithoutBacklog(cfg, s);
    assert CpuOk(cfg, s, 0);
    var back := ReachWork(cfg, s, 1);
    var last := FinishesAndHangs(cfg, OsExec(cfg, s, back));
    Join(cfg, s, back, last);
    run := back + last;
  }

  lemma HangsWithoutBacklog(cfg: Config)
    requires |cfg.starts| > 0 && Backlog(cfg, |cfg.starts|) == 0
    ensures CanHang(cfg)
  {
    BootPlanned(cfg);
    var run := ReachStart(cfg, Boot(1));
    var more := StartHangs(cfg, OsExec(cfg, Boot(1), run));
    Join(cfg, Boot(1), run, more);
  }

  lemma EmptyIsHung(cfg: Config)
    requires |cfg.starts| == 0
    ensures Hung(cfg, Boot(1))
  {
    assert Idle(Boot(1).cpus[0]);
  }

  /** With one CPU and an honest queue some run hangs exactly when there is no backlog at the end
      of the slot in which the last process is added. */
  lemma OneCpuHangsExactly(cfg: Config)
    ensures CanHang(cfg) <==> Backlog(cfg, |cfg.starts|) == 0
  {
    if |cfg.starts| == 0 {
      EmptyIsHung(cfg);
      assert IsRun(cfg, 1, []) && HonestRun(cfg, Boot(1), []) && Hung(cfg, AfterRun(cfg, 1, []));
    } else if Backlog(cfg, |cfg.starts|) == 0 {
      HangsWithoutBacklog(cfg);
    } else {
      BootOne(cfg);
      forall run | IsRun(cfg, 1, run) && HonestRun(cfg, Boot(1), run) ensures !Hung(cfg, AfterRun(cfg, 1, run)) {
        RunKeepsFull(cfg, Boot(1), run);
        FullNotHung(cfg, AfterRun(cfg, 1, run));
      }
    }
  }

  /** And with a backlog every honest run has stopped both threads past the deadline, so that it
      has to end. */
  lemma BacklogHasToEnd(cfg: Config, run: seq<OsAction>)
    requires IsRun(cfg, 1, run) && HonestRun(cfg, Boot(1), run) && Backlog(cfg, |cfg.starts|) > 0
    requires |cfg.starts| > 0 && AfterRun(cfg, 1, run).bar.time > Deadline(cfg)
    ensures Ended(AfterRun(cfg, 1, run))
  {
    var s := AfterRun(cfg, 1, run);
    BootOne(cfg);
    RunKeepsFull(cfg, Boot(1), run);
    FullNotHung(cfg, s);
    BootSettled(cfg, 1);
    RunKeepsSettled(cfg, Boot(1), run);
    SettledEnds(cfg, s);
  }

  // ---------- if the loader goes first the simulation ends ----------

  ghost predicate CanEnd(cfg: Config) {
    exists run ::
      IsRun(cfg, 1, run) && HonestRun(cfg, Boot(1), run) && AfterRun(cfg, 1, run).bar.main.Finished?
  }

  // The loader finds nothing more to add and sets `done`, while the CPU has a process.
  lemma LoaderSetsDone(cfg: Config, s: Os) returns (run: seq<OsAction>)
    requires LdEnabled(s) && s.ld.LdTop? && s.next == |cfg.starts| && NoneIdle(s)
    ensures OsValid(cfg, s, run) && HonestRun(cfg, s, run)
    ensures OsExec(cfg, s, run).done && NoneIdle(OsExec(cfg, s, run))
  {
    var go := LdGo(false);
    var s1 := OsDo(cfg, s, go);
    var s2 := OsDo(cfg, s1, go);
    assert s2.done && s2.cpus == s.cpus;
    assert OsValid(cfg, s2, []) && OsExec(cfg, s2, []) == s2 && HonestRun(cfg, s2, []);
    OneStep(cfg, s1, go, []);
    OneStep(cfg, s, go, [go]);
    run := [go] + ([go] + []);
  }

  // From there every way to the deadline leads to the end.
  lemma DoneLeadsToEnd(cfg: Config, s: Os) returns (run: seq<OsAction>)
    requires Settled(cfg, s) && s.done && NoneIdle(s)
    ensures OsValid(cfg, s, run) && HonestRun(cfg, s, run)
    ensures OsExec(cfg, s, run).bar.main.Finished?
  {
    run := ReachSlot(cfg, s, Deadline(cfg) + 1);
    var s' := OsExec(cfg, s, run);
    if !s'.bar.main.Finished? {
      RunKeepsSettled(cfg, s, run);
      RunKeepsNoneIdle(cfg, s, run);
      SettledEnds(cfg, s');
      var more := ReachEnd(cfg, s');
      Join(cfg, s, run, more);
      run := run + more;
    }
  }

  lemma LoaderFindsCpuBusy(cfg: Config, s: Os, s': Os)
    requires AtStart(cfg, s) && OsInv(cfg, s') && s' == s.(bar := s'.bar) && s'.bar.devs[0].pc.Working?
    ensures LdEnabled(s') && s'.ld.LdTop? && s'.next == |cfg.starts| && NoneIdle(s')
  {
    WorkerGoesOn(cfg, s', 0);
  }

  lemma LoaderFirstSetsDone(cfg: Config, s: Os) returns (run: seq<OsAction>)
    requires AtStart(cfg, s)
    ensures OsValid(cfg, s, run) && HonestRun(cfg, s, run)
    ensures OsExec(cfg, s, run).done && NoneIdle(OsExec(cfg, s, run))
  {
    var back := ReachWork(cfg, s, 0);
    LoaderFindsCpuBusy(cfg, s, OsExec(cfg, s, back));
    var done := LoaderSetsDone(cfg, OsExec(cfg, s, back));
    Join(cfg, s, back, done);
    run := back + done;
  }

  lemma StartEnds(cfg: Config, s: Os) returns (run: seq<OsAction>)
    requires AtStart(cfg, s)
    ensures OsValid(cfg, s, run) && HonestRun(cfg, s, run)
    ensures OsExec(cfg, s, run).bar.main.Finished?
  {
    var done := LoaderFirstSetsDone(cfg, s);
    RunKeepsSettled(cfg, s, done);
    var last := DoneLeadsToEnd(cfg, OsExec(cfg, s, done));
    Join(cfg, s, done, last);
    run := done + last;
  }

  lemma SomeRunEnds(cfg: Config)
    requires |cfg.starts| > 0
    ensures CanEnd(cfg)
  {
    BootPlanned(cfg);
    var run := ReachStart(cfg, Boot(1));
    var more := StartEnds(cfg, OsExec(cfg, Boot(1), run));
    Join(cfg, Boot(1), run, more);
  }

  /** With one CPU and an honest queue some run ends exactly when a process is configured. */
  lemma OneCpuEndsExactly(cfg: Config)
    ensures CanEnd(cfg) <==> |cfg.starts| > 0
  {
    if |cfg.starts| > 0 {
      SomeRunEnds(cfg);
    } else {
      forall run | IsRun(cfg, 1, run) ensures !AfterRun(cfg, 1, run).bar.main.Finished? {
        BootInv(cfg, 1);
        EmptyIsHung(cfg);
        HungNeverEnds(cfg, Boot(1), run);
      }
    }
  }

  /** One process of one instruction, added at once: whether the CPU stops is a race between its
      failing get_proc and the loader, and both outcomes exist. With two instructions it stops. */
  lemma TheSmallestRace(timeSlot: int)
    ensures CanHang(Config(timeSlot, [0], [1])) && CanEnd(Config(timeSlot, [0], [1]))
    ensures !CanHang(Config(timeSlot, [0], [2])) && CanEnd(Config(timeSlot, [0], [2]))
  {
    OneCpuHangsExactly(Config(timeSlot, [0], [1]));
    OneCpuEndsExactly(Config(timeSlot, [0], [1]));
    OneCpuHangsExactly(Config(timeSlot, [0], [2]));
    OneCpuEndsExactly(Config(timeSlot, [0], [2]));
  }

  // ---------- the backlog in closed form ----------

  // Slots that the processes i .. k - 1 occupy the CPU for.
  function Costs(cfg: Config, i: nat, k: nat): nat
    requires i <= k
  {
    if i == k then 0 else Costs(cfg, i, k - 1) + Cost(cfg, k - 1)
  }

  /** The backlog is the greatest excess, over the i below k, of what the processes from i on cost
      over the slots from the addition of process i to that of process k - 1. */
  lemma {:induction false} BacklogClosedForm(cfg: Config, k: nat)
    requires 0 < k <= |cfg.starts|
    ensures forall i | 0 <= i < k :: Costs(cfg, i, k) - (Due(cfg, k - 1) - Due(cfg, i) + 1) <= Backlog(cfg, k)
    ensures exists i | 0 <= i < k :: Costs(cfg, i, k) - (Due(cfg, k - 1) - Due(cfg, i) + 1) == Backlog(cfg, k)
  {
    assert Costs(cfg, k - 1, k) == Costs(cfg, k - 1, k - 1) + Cost(cfg, k - 1) == Cost(cfg, k - 1);
    if k == 1 {
    } else {
      BacklogClosedForm(cfg, k - 1);
      var d, e := Due(cfg, k - 1), Due(cfg, k - 2);
      CarriedIsShare(cfg, k - 1, d, e);
      forall i | 0 <= i < k ensures Costs(cfg, i, k) - (d - Due(cfg, i) + 1) <= Backlog(cfg, k) {
        if i < k - 1 { assert Costs(cfg, i, k - 1) - (e - Due(cfg, i) + 1) <= Backlog(cfg, k - 1); }
      }
      if Carried(cfg, k - 1) > 0 {
        var i :| 0 <= i < k - 1 && Costs(cfg, i, k - 1) - (e - Due(cfg, i) + 1) == Backlog(cfg, k - 1);
        assert Costs(cfg, i, k) - (d - Due(cfg, i) + 1) == Backlog(cfg, k);
      }
    }
  }
}
