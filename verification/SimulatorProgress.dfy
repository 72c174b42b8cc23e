/** The simulated clock never stalls: from every reachable state some thread can go on, and the
    clock ticks after a bounded number of steps of whatever threads. */
module SimulatorProgress {
  import opened Barrier
  import opened BarrierSafety
  import opened BarrierProgress
  import opened Simulator
  import opened SimulatorInv
  import opened SimulatorSteps
  import opened SimulatorSafety

  // Every step but a spurious wake-up.
  predicate Steady(a: OsAction) {
    a.Bar? ==> Protocol(a.a)
  }

  // ---------- some thread can go on ----------

  lemma WorkerGoesOn(cfg: Config, s: Os, i: nat)
    requires OsInv(cfg, s) && i < |s.bar.devs| && s.bar.devs[i].pc.Working?
    ensures if i == 0 then LdEnabled(s) else CpuEnabled(s, i - 1, None)
  {
    if i > 0 { assert CpuOk(cfg, s, i - 1); }
  }

  lemma SomeoneGoesOn(cfg: Config, s: Os) returns (a: OsAction)
    requires OsInv(cfg, s) && !s.bar.main.Finished?
    ensures Steady(a) && OsEnabled(s, a)
  {
    NoDeadlock(s.bar);
    if i :| 0 <= i < |s.bar.devs| && s.bar.devs[i].pc.Working? {
      WorkerGoesOn(cfg, s, i);
      a := if i == 0 then LdGo(false) else CpuGo(i - 1, None, false);
    } else if ClockEnabled(s.bar) {
      a := Bar(ClockStep);
    } else if Enabled(s.bar, MainStep) {
      a := Bar(MainStep);
    } else {
      var i :| 0 <= i < |s.bar.devs| && OwnerEnabled(s.bar.devs[i]);
      a := Bar(OwnerStep(i));
    }
  }

  // ---------- a bound on the steps between two ticks ----------

  function CpuRank(pc: CpuPc): nat {
    match pc
    case Top => 5
    case GetIdle | GetAfterFinish | GetAfterPut => 4
    case Recheck => 3
    case Execute => 2
    case Yield => 1
    case Stopped => 0
  }

  function LdRank(pc: LdPc): nat {
    match pc
    case LdTop => 4
    case LdWait => 3
    case LdAdd | LdFinish => 2
    case LdYield | LdDetach => 1
    case LdStopped => 0
  }

  /** Steps of a device until it has arrived for this slot and sleeps, or is gone, an upper
      bound. A device that arrived before the last tick (`due`) or has been released since
      still has its whole program for this slot before it. */
  function Lap(d: Device, due: bool, program: nat): nat {
    match d.pc
    case Working => 13 + program
    case EnterEvent => 12
    case SetDone => 11
    case SignalDone => 10
    case LeaveEvent => 9
    case EnterTimer => if d.done && !due then 8 else 28
    case TestDone => if !d.done then 22 else if due then 25 else 6
    case Parked =>
      if Owner in d.timerCond then (if d.done && !due then 5 else 24)
      else if !d.done then 23 else if due then 26 else 7
    case LeaveTimer => 21
    case EnterDetach => 4
    case SetFsh => 3
    case SignalFsh => 2
    case LeaveDetach => 1
    case Gone => 0
  }

  predicate IsDue(t: ClockPc, i: nat) {
    AfterTick(t) && Counted(t, i)
  }

  function Program(s: Os, i: nat): nat
    requires i <= |s.cpus|
  {
    if i == 0 then LdRank(s.ld) else CpuRank(s.cpus[i - 1].pc)
  }

  function Laps(s: Os): (laps: seq<nat>)
    requires |s.bar.devs| == |s.cpus| + 1
  {
    seq(|s.bar.devs|, i requires 0 <= i < |s.bar.devs| =>
      Lap(s.bar.devs[i], IsDue(s.bar.clock, i), Program(s, i)))
  }

  function Sum(xs: seq<nat>): nat {
    if xs == [] then 0 else xs[0] + Sum(xs[1..])
  }

  function OsRank(s: Os): nat
    requires |s.bar.devs| == |s.cpus| + 1 && PlaceOk(s.bar.clock, |s.bar.devs|)
  {
    TimerRank(s.bar) + Sum(Laps(s)) + MainRank(s.bar.main)
  }

  lemma {:induction false} SumLeq(xs: seq<nat>, ys: seq<nat>)
    requires |xs| == |ys| && forall i :: 0 <= i < |xs| ==> xs[i] <= ys[i]
    ensures Sum(xs) <= Sum(ys)
    decreases |xs|
  {
    if xs == [] {
    } else {
      SumLeq(xs[1..], ys[1..]);
    }
  }

  lemma {:induction false} SumLess(xs: seq<nat>, ys: seq<nat>, k: nat)
    requires |xs| == |ys| && forall i :: 0 <= i < |xs| ==> xs[i] <= ys[i]
    requires k < |xs| && xs[k] < ys[k]
    ensures Sum(xs) < Sum(ys)
    decreases |xs|
  {
    if k == 0 {
      SumLeq(xs[1..], ys[1..]);
    } else {
      SumLess(xs[1..], ys[1..], k - 1);
    }
  }

  lemma {:induction false} SumBound(xs: seq<nat>, b: nat)
    requires forall i :: 0 <= i < |xs| ==> xs[i] <= b
    ensures Sum(xs) <= b * |xs|
    decreases |xs|
  {
    if xs == [] {
    } else {
      SumBound(xs[1..], b);
    }
  }

  lemma OwnerLap(time: nat, t: ClockPc, i: nat, d: Device, program: nat)
    requires DeviceOk(time, t, i, d) && OwnerEnabled(d) && program <= 5
    ensures Lap(OwnerDo(d), IsDue(t, i), program) < Lap(d, IsDue(t, i), program)
  {
  }

  lemma VisitLap(time: nat, t: ClockPc, d: Device, program: nat)
    requires AtDevice(t) && DeviceOk(time, t, t.k, d) && VisitEnabled(t, d)
    ensures Lap(VisitDo(t, d), IsDue(VisitNext(t, d), t.k), program) <= Lap(d, IsDue(t, t.k), program)
  {
    match t {
      case Clear(k) =>
      case Wake(k) =>
      case _ =>
    }
  }

  // The timer's way past other devices changes nothing for them.
  lemma VisitLeavesDue(t: ClockPc, at: Device, i: nat)
    requires AtDevice(t) && t.k != i
    ensures IsDue(VisitNext(t, at), i) == IsDue(t, i)
  {
  }

  lemma ClockLap(s: State, i: nat, program: nat)
    requires Inv(s) && ClockEnabled(s) && !s.clock.Tick? && i < |s.devs|
    ensures var s' := ClockDo(s);
      && |s'.devs| == |s.devs|
      && Lap(s'.devs[i], IsDue(s'.clock, i), program) <= Lap(s.devs[i], IsDue(s.clock, i), program)
  {
    assert DeviceOk(s.time, s.clock, i, s.devs[i]);
    if AtDevice(s.clock) && s.clock.k < |s.devs| {
      if s.clock.k == i {
        VisitLap(s.time, s.clock, s.devs[i], program);
      } else {
        VisitLeavesDue(s.clock, s.devs[s.clock.k], i);
      }
    }
  }

  lemma ClockShortensTimer(s: State)
    requires Inv(s) && ClockEnabled(s) && !s.clock.Tick?
    ensures PlaceOk(ClockDo(s).clock, |s.devs|) && TimerRank(ClockDo(s)) < TimerRank(s)
  {
    if AtDevice(s.clock) && s.clock.k < |s.devs| {
      var k := s.clock.k;
      assert DeviceOk(s.time, s.clock, k, s.devs[k]);
      VisitRankDecreases(s.time, s.clock, s.devs[k], |s.devs|);
    }
  }

  predicate Sized(s: Os) {
    |s.bar.devs| == |s.cpus| + 1 && PlaceOk(s.bar.clock, |s.bar.devs|)
  }

  lemma ClockShortens(s: Os, s': Os)
    requires Sized(s) && Inv(s.bar) && ClockEnabled(s.bar) && !s.bar.clock.Tick?
    requires s' == s.(bar := ClockDo(s.bar))
    ensures Sized(s') && OsRank(s') < OsRank(s)
  {
    ClockShortensTimer(s.bar);
    forall i | 0 <= i < |s.bar.devs| ensures |Laps(s')| == |Laps(s)| && Laps(s')[i] <= Laps(s)[i] {
      ClockLap(s.bar, i, Program(s, i));
    }
    SumLeq(Laps(s'), Laps(s));
  }

  lemma OwnerShortens(s: Os, s': Os, i: nat)
    requires Sized(s) && Inv(s.bar) && Enabled(s.bar, OwnerStep(i))
    requires s' == s.(bar := Do(s.bar, OwnerStep(i)))
    ensures Sized(s') && OsRank(s') < OsRank(s)
  {
    assert DeviceOk(s.bar.time, s.bar.clock, i, s.bar.devs[i]);
    OwnerRankDecreases(s.bar.time, s.bar.clock, i, s.bar.devs[i], |s.bar.devs|);
    assert TimerRank(s'.bar) <= TimerRank(s.bar);
    OwnerLap(s.bar.time, s.bar.clock, i, s.bar.devs[i], Program(s, i));
    SumLess(Laps(s'), Laps(s), i);
  }

  /** The step of a device's own program, seen from the barrier: the program moves on, or the
      device enters next_slot or detach_event. */
  predicate ProgramStep(s: Os, s': Os, i: nat)
    requires Sized(s) && i < |s.bar.devs|
  {
    && Sized(s') && |s'.bar.devs| == |s.bar.devs|
    && s'.bar.clock == s.bar.clock && s'.bar.main == s.bar.main
    && s.bar.devs[i].pc.Working?
    && (|| (s'.bar.devs == s.bar.devs && Program(s', i) < Program(s, i))
        || s'.bar.devs == s.bar.devs[i := s.bar.devs[i].(pc := EnterEvent)]
        || s'.bar.devs == s.bar.devs[i := s.bar.devs[i].(pc := EnterDetach)])
    && (if i == 0 then s'.cpus == s.cpus
        else s'.ld == s.ld && s'.cpus == s.cpus[i - 1 := s'.cpus[i - 1]])
  }

  lemma ProgramShortens(s: Os, s': Os, i: nat)
    requires Sized(s) && i < |s.bar.devs| && ProgramStep(s, s', i)
    requires !s.bar.devs[i].done
    ensures OsRank(s') < OsRank(s)
  {
    TimerIgnoresProgram(s.bar, s'.bar, i);
    forall j | 0 <= j < |s.bar.devs| && j != i ensures Laps(s')[j] == Laps(s)[j] {
      assert Program(s', j) == Program(s, j);
    }
    assert Laps(s')[i] < Laps(s)[i];
    SumLess(Laps(s'), Laps(s), i);
  }

  lemma TimerIgnoresProgram(s: State, s': State, i: nat)
    requires i < |s.devs| && |s'.devs| == |s.devs| && s'.clock == s.clock && PlaceOk(s.clock, |s.devs|)
    requires s'.devs == s.devs || exists pc :: s'.devs == s.devs[i := s.devs[i].(pc := pc)]
    ensures TimerRank(s') == TimerRank(s)
  {
  }

  lemma RecheckProgramStep(cfg: Config, s: Os, c: nat)
    requires Sized(s) && CpuEnabled(s, c, None) && s.cpus[c].pc.Recheck?
    ensures ProgramStep(s, LookAgain(cfg, s, c), c + 1)
  {
  }

  lemma GetProgramStep(cfg: Config, s: Os, c: nat, p: nat, lose: bool)
    requires Sized(s) && CpuEnabled(s, c, Some(p)) && IsGet(s.cpus[c].pc)
    ensures ProgramStep(s, CpuDo(cfg, s, c, Some(p), lose), c + 1)
  {
  }

  lemma GetNothingProgramStep(cfg: Config, s: Os, c: nat, lose: bool)
    requires Sized(s) && CpuEnabled(s, c, None) && IsGet(s.cpus[c].pc)
    ensures ProgramStep(s, CpuDo(cfg, s, c, None, lose), c + 1)
  {
  }

  lemma TopProgramStep(cfg: Config, s: Os, c: nat, lose: bool)
    requires Sized(s) && CpuEnabled(s, c, None) && s.cpus[c].pc.Top?
    ensures ProgramStep(s, LookAtCurrent(cfg, s, c, lose), c + 1)
  {
  }

  lemma CpuProgramStep(cfg: Config, s: Os, c: nat, got: Option<nat>, lose: bool)
    requires Sized(s) && CpuEnabled(s, c, got)
    ensures ProgramStep(s, CpuDo(cfg, s, c, got, lose), c + 1)
  {
    match s.cpus[c].pc {
      case Top => TopProgramStep(cfg, s, c, lose);
      case Recheck => RecheckProgramStep(cfg, s, c);
      case Execute =>
      case Yield =>
      case GetIdle | GetAfterFinish | GetAfterPut =>
        match got {
          case None => GetNothingProgramStep(cfg, s, c, lose);
          case Some(p) => GetProgramStep(cfg, s, c, p, lose);
        }
    }
  }

  lemma LdProgramStep(cfg: Config, s: Os, lose: bool)
    requires Sized(s) && LdEnabled(s)
    ensures ProgramStep(s, LdDo(cfg, s, lose), 0)
  {
  }

  lemma WorkerNotDone(s: State, i: nat)
    requires Inv(s) && i < |s.devs| && s.devs[i].pc.Working?
    ensures !s.devs[i].done
  {
    assert DeviceOk(s.time, s.clock, i, s.devs[i]);
  }

  lemma BarRankDecreases(s: Os, b: Action, s': Os)
    requires Sized(s) && Inv(s.bar) && OsEnabled(s, Bar(b)) && Protocol(b)
    requires s' == s.(bar := Do(s.bar, b)) && s'.bar.time == s.bar.time
    ensures Sized(s') && OsRank(s') < OsRank(s)
  {
    match b
    case ClockStep => ClockShortens(s, s');
    case OwnerStep(i) => OwnerShortens(s, s', i);
    case MainStep => assert Laps(s') == Laps(s);
  }

  lemma ProgramRankDecreases(cfg: Config, s: Os, a: OsAction)
    requires Sized(s) && Inv(s.bar) && OsEnabled(s, a) && !a.Bar?
    ensures Sized(OsDo(cfg, s, a)) && OsRank(OsDo(cfg, s, a)) < OsRank(s)
  {
    var i := if a.CpuGo? then a.c + 1 else 0;
    WorkerNotDone(s.bar, i);
    match a {
      case CpuGo(c, got, lose) => CpuProgramStep(cfg, s, c, got, lose);
      case LdGo(lose) => LdProgramStep(cfg, s, lose);
    }
    ProgramShortens(s, OsDo(cfg, s, a), i);
  }

  /** Every step but the tick and the spurious wake-ups brings the tick nearer. */
  lemma OsRankDecreases(cfg: Config, s: Os, a: OsAction)
    requires OsInv(cfg, s) && OsEnabled(s, a) && Steady(a)
    ensures OsInv(cfg, OsDo(cfg, s, a))
    ensures OsDo(cfg, s, a).bar.time == s.bar.time ==> OsRank(OsDo(cfg, s, a)) < OsRank(s)
  {
    OsStepKeepsInv(cfg, s, a);
    if !a.Bar? {
      ProgramRankDecreases(cfg, s, a);
    } else if OsDo(cfg, s, a).bar.time == s.bar.time {
      BarRankDecreases(s, a.a, OsDo(cfg, s, a));
    }
  }

  predicate AllSteady(run: seq<OsAction>) {
    forall k :: 0 <= k < |run| ==> Steady(run[k])
  }

  lemma OsTimeNeverFalls(cfg: Config, s: Os, a: OsAction)
    requires OsEnabled(s, a)
    ensures s.bar.time <= OsDo(cfg, s, a).bar.time
  {
    match a {
      case Bar(b) => TimeNeverFalls(s.bar, b);
      case CpuGo(c, got, lose) =>
      case LdGo(lose) =>
    }
  }

  lemma {:induction false} OsRunTimeNeverFalls(cfg: Config, s: Os, run: seq<OsAction>)
    requires OsValid(cfg, s, run)
    ensures s.bar.time <= OsExec(cfg, s, run).bar.time
    decreases |run|
  {
    if run == [] {
    } else {
      OsTimeNeverFalls(cfg, s, run[0]);
      OsRunTimeNeverFalls(cfg, OsDo(cfg, s, run[0]), run[1..]);
    }
  }

  lemma {:induction false} SlotEnds(cfg: Config, s: Os, run: seq<OsAction>)
    requires OsInv(cfg, s) && OsValid(cfg, s, run) && AllSteady(run)
    ensures OsExec(cfg, s, run).bar.time == s.bar.time ==> |run| <= OsRank(s)
    decreases |run|
  {
    if run == [] {
    } else {
      var s' := OsDo(cfg, s, run[0]);
      OsRankDecreases(cfg, s, run[0]);
      OsTimeNeverFalls(cfg, s, run[0]);
      OsRunTimeNeverFalls(cfg, s', run[1..]);
      SlotEnds(cfg, s', run[1..]);
    }
  }

  lemma RankLimit(s: Os)
    requires Sized(s)
    ensures OsRank(s) <= 40 * |s.cpus| + 46
  {
    SumBound(Laps(s), 28);
  }

  /** The clock never stalls: after every run the simulation has finished or some thread can
      take a step, and any 40 n + 47 further steps of whatever threads, spurious wake-ups
      aside, contain a tick. */
  lemma ClockNeverStalls(cfg: Config, cpus: nat, run: seq<OsAction>, more: seq<OsAction>)
    requires IsRun(cfg, cpus, run)
    requires OsValid(cfg, AfterRun(cfg, cpus, run), more) && AllSteady(more)
    ensures var s := AfterRun(cfg, cpus, run);
      && (s.bar.main.Finished? || exists a :: Steady(a) && OsEnabled(s, a))
      && (|more| > 40 * cpus + 46 ==> s.bar.time < OsExec(cfg, s, more).bar.time)
  {
    AfterRunInv(cfg, cpus, run);
    var s := AfterRun(cfg, cpus, run);
    if !s.bar.main.Finished? {
      var a := SomeoneGoesOn(cfg, s);
    }
    RankLimit(s);
    SlotEnds(cfg, s, more);
    OsRunTimeNeverFalls(cfg, s, more);
  }
}
