/** The barrier never gets stuck, every round ends, and so does the shutdown. */
module BarrierProgress {
  import opened Barrier
  import opened BarrierSafety

  /** A step of the protocol itself: neither a spurious wake-up nor a device's own decision to
      call next_slot or detach_event. */
  predicate Protocol(a: Action) {
    a.ClockStep? || a.OwnerStep? || a.MainStep?
  }

  predicate SomeoneWorks(s: State) {
    exists i :: 0 <= i < |s.devs| && s.devs[i].pc.Working?
  }

  predicate Stuck(s: State) {
    && !ClockEnabled(s)
    && !Enabled(s, MainStep)
    && forall i :: 0 <= i < |s.devs| ==> !OwnerEnabled(s.devs[i])
  }

  // ---------- deadlock freedom ----------

  lemma MutexCases(m: Mutex)
    ensures m == Free || m == HeldBy(Clock) || m == HeldBy(Owner)
  {
    if m.HeldBy? {
      match m.party { case Clock => case Owner => }
    }
  }

  // Whoever holds a mutex of a device, other than the timer, can go on.
  lemma HolderGoesOn(time: nat, t: ClockPc, i: nat, d: Device)
    requires DeviceOk(time, t, i, d) && !OwnerEnabled(d)
    ensures d.eventLock == Free || d.eventLock == HeldBy(Clock)
    ensures d.timerLock == Free || d.timerLock == HeldBy(Clock)
  {
    MutexCases(d.eventLock);
    MutexCases(d.timerLock);
  }

  predicate TimerWaitsAt(t: ClockPc, k: nat, d: Device) {
    || (t == Scan(k) && OwnerHasEvent(d.pc))
    || (t == Dozing(k) && (Clock in d.eventCond || OwnerHasEvent(d.pc)))
    || (t == Release(k) && OwnerHasTimer(d.pc))
  }

  /** What a thread waits for. A device outside its own program stands still exactly when it asks
      for a mutex the timer has, or sleeps with no signal pending; ... */
  lemma OwnerBlockedExactly(n: nat, run: seq<Action>, i: nat)
    requires Valid(Init(n), run) && i < n
    ensures var s := After(n, run);
      && |s.devs| == n
      && var pc, t := s.devs[i].pc, s.clock;
      && (Enabled(s, CallNextSlot(i)) <==> pc.Working?)
      && (Enabled(s, CallDetach(i)) <==> pc.Working?)
      && (!Enabled(s, OwnerStep(i)) <==>
            || pc.Working? || pc.Gone?
            || ((pc.EnterEvent? || pc.EnterDetach?) && ClockHasEvent(t, i))
            || (pc.EnterTimer? && ClockHasTimer(t, i))
            || (pc.Parked? && (Owner in s.devs[i].timerCond || ClockHasTimer(t, i))))
  {
    AfterInv(n, run);
    var s := After(n, run);
    assert DeviceOk(s.time, s.clock, i, s.devs[i]);
    MutexCases(s.devs[i].eventLock);
    MutexCases(s.devs[i].timerLock);
  }

  /** ... and so does the timer, until it has left its loop. */
  lemma TimerBlockedExactly(n: nat, run: seq<Action>)
    requires Valid(Init(n), run)
    ensures var s := After(n, run);
      && |s.devs| == n
      && (!Enabled(s, ClockStep) <==>
            || s.clock.Exit?
            || exists k :: 0 <= k < n && TimerWaitsAt(s.clock, k, s.devs[k]))
  {
    AfterInv(n, run);
    var s := After(n, run);
    if AtDevice(s.clock) && s.clock.k < |s.devs| {
      var k := s.clock.k;
      assert DeviceOk(s.time, s.clock, k, s.devs[k]);
      MutexCases(s.devs[k].eventLock);
      MutexCases(s.devs[k].timerLock);
      assert VisitEnabled(s.clock, s.devs[k]) <==> !TimerWaitsAt(s.clock, k, s.devs[k]);
    }
  }

  // If the timer sleeps on a device that cannot move, that device is in its own code.
  lemma SleeperWaitsForWork(time: nat, i: nat, d: Device)
    requires DeviceOk(time, Dozing(i), i, d) && Clock in d.eventCond && !OwnerEnabled(d)
    ensures d.pc.Working?
  {
    HolderGoesOn(time, Dozing(i), i, d);
  }

  lemma StuckClock(s: State)
    requires Inv(s) && Stuck(s)
    ensures SomeoneWorks(s) || s.clock.Exit?
  {
    if !s.clock.Exit? {
      assert AtDevice(s.clock) && s.clock.k < |s.devs|;
      var k := s.clock.k;
      var d := s.devs[k];
      assert DeviceOk(s.time, s.clock, k, d);
      HolderGoesOn(s.time, s.clock, k, d);
      if s.clock.Dozing? && Clock in d.eventCond {
        SleeperWaitsForWork(s.time, k, d);
      }
    }
  }

  lemma StuckDeviceIsGone(time: nat, i: nat, d: Device)
    requires DeviceOk(time, Exit, i, d) && d.fsh && !OwnerEnabled(d)
    ensures d.pc.Gone?
  {
    HolderGoesOn(time, Exit, i, d);
  }

  /** No deadlock, not counting on spurious wake-ups: some protocol step is enabled unless a
      device is in its own code or everything has finished. */
  lemma NoDeadlock(s: State)
    requires Inv(s)
    ensures Stuck(s) ==> SomeoneWorks(s) || s.main.Finished?
  {
    if Stuck(s) && !SomeoneWorks(s) {
      StuckClock(s);
      forall i | 0 <= i < |s.devs| ensures s.devs[i].pc.Gone? {
        assert DeviceOk(s.time, s.clock, i, s.devs[i]);
        StuckDeviceIsGone(s.time, i, s.devs[i]);
      }
      assert AllGone(s);
    }
  }

  // ---------- a round ends ----------

  /** Steps of the timer until the next tick, an upper bound. What it still has to do at a
      device is less once the device has arrived or finished. */
  function ClockRank(t: ClockPc, n: nat, ready: bool, waiting: bool): nat
    requires PlaceOk(t, n)
  {
    match t
    case Exit => 0
    case Tick => 0
    case Scan(k) => 8 * (n - k) + 1
    case Leave(k) => 8 * (n - k) - 6
    case Count(k) => 8 * (n - k) - 5
    case Check(k) => 8 * (n - k) - (if ready then 4 else 1)
    case Dozing(k) => 8 * (n - k) - (if waiting then 2 else if ready then 3 else 0)
    case Head => 8 * n + 2
    case Judge => 8 * n + 3
    case Release(k) => 8 * n + 4 + 4 * (n - k)
    case Clear(k) => 8 * n + 3 + 4 * (n - k)
    case Wake(k) => 8 * n + 2 + 4 * (n - k)
    case Unlock(k) => 8 * n + 1 + 4 * (n - k)
  }

  /** Steps of a device until it is back in its own code or gone, an upper bound. */
  function DeviceRank(d: Device): nat {
    match d.pc
    case Working => 0
    case EnterEvent => 11
    case SetDone => 10
    case SignalDone => 9
    case LeaveEvent => 8
    case EnterTimer => 7
    case TestDone => if d.done then 5 else 2
    case Parked => if Owner in d.timerCond then 4 else if d.done then 6 else 3
    case LeaveTimer => 1
    case EnterDetach => 4
    case SetFsh => 3
    case SignalFsh => 2
    case LeaveDetach => 1
    case Gone => 0
  }

  function DevicesRank(devs: seq<Device>): nat {
    if devs == [] then 0 else DeviceRank(devs[0]) + DevicesRank(devs[1..])
  }

  function MainRank(m: MainPc): nat {
    match m
    case Joining => 2
    case Stopping => 1
    case Finished => 0
  }

  function TimerRank(s: State): nat
    requires PlaceOk(s.clock, |s.devs|)
  {
    if AtDevice(s.clock) && s.clock.k < |s.devs| then
      var d := s.devs[s.clock.k];
      ClockRank(s.clock, |s.devs|, d.done || d.fsh, Clock in d.eventCond)
    else ClockRank(s.clock, |s.devs|, false, false)
  }

  function Measure(s: State): nat
    requires PlaceOk(s.clock, |s.devs|)
  {
    TimerRank(s) + DevicesRank(s.devs) + MainRank(s.main)
  }

  lemma {:induction false} DevicesRankUpdate(devs: seq<Device>, i: nat, d: Device)
    requires i < |devs|
    ensures DevicesRank(devs[i := d]) == DevicesRank(devs) - DeviceRank(devs[i]) + DeviceRank(d)
    decreases |devs|
  {
    var devs' := devs[i := d];
    if i == 0 {
      assert devs'[1..] == devs[1..];
    } else {
      assert devs'[1..] == devs[1..][i - 1 := d];
      DevicesRankUpdate(devs[1..], i - 1, d);
    }
  }

  lemma OwnerRankDecreases(time: nat, t: ClockPc, i: nat, d: Device, n: nat)
    requires DeviceOk(time, t, i, d) && OwnerEnabled(d) && PlaceOk(t, n)
    ensures DeviceRank(OwnerDo(d)) < DeviceRank(d)
    ensures AtDevice(t) && t.k == i && i < n ==>
      var d' := OwnerDo(d);
      ClockRank(t, n, d'.done || d'.fsh, Clock in d'.eventCond)
        <= ClockRank(t, n, d.done || d.fsh, Clock in d.eventCond)
  {
  }

  lemma VisitRankDecreases(time: nat, t: ClockPc, d: Device, n: nat)
    requires AtDevice(t) && t.k < n && DeviceOk(time, t, t.k, d) && VisitEnabled(t, d)
    ensures PlaceOk(VisitNext(t, d), n)
    ensures DeviceRank(VisitDo(t, d)) <= DeviceRank(d)
    ensures var d', t' := VisitDo(t, d), VisitNext(t, d);
      forall ready, waiting ::
        (t'.k == t.k ==> ready == (d'.done || d'.fsh) && waiting == (Clock in d'.eventCond)) ==>
        ClockRank(t', n, ready, waiting) < ClockRank(t, n, d.done || d.fsh, Clock in d.eventCond)
  {
    match t {
      case Scan(k) =>
      case Check(k) =>
      case Dozing(k) =>
      case Count(k) =>
      case Leave(k) =>
      case Release(k) =>
      case Clear(k) =>
      case Wake(k) =>
      case Unlock(k) =>
    }
  }

  lemma VisitMeasureDecreases(s: State)
    requires DevicesOk(s) && PlaceOk(s.clock, |s.devs|) && ClockEnabled(s)
    requires AtDevice(s.clock) && s.clock.k < |s.devs|
    ensures PlaceOk(ClockDo(s).clock, |s.devs|) && Measure(ClockDo(s)) < Measure(s)
  {
    var k := s.clock.k;
    assert DeviceOk(s.time, s.clock, k, s.devs[k]);
    VisitRankDecreases(s.time, s.clock, s.devs[k], |s.devs|);
    DevicesRankUpdate(s.devs, k, VisitDo(s.clock, s.devs[k]));
    assert TimerRank(ClockDo(s)) < TimerRank(s);
  }

  lemma TurnMeasureDecreases(s: State)
    requires PlaceOk(s.clock, |s.devs|) && ClockEnabled(s) && !s.clock.Tick?
    requires !(AtDevice(s.clock) && s.clock.k < |s.devs|)
    ensures PlaceOk(ClockDo(s).clock, |s.devs|) && Measure(ClockDo(s)) < Measure(s)
  {
    assert ClockDo(s).devs == s.devs;
  }

  lemma OwnerMeasureDecreases(s: State, i: nat)
    requires Inv(s) && Enabled(s, OwnerStep(i))
    ensures PlaceOk(s.clock, |Do(s, OwnerStep(i)).devs|) && Measure(Do(s, OwnerStep(i))) < Measure(s)
  {
    assert DeviceOk(s.time, s.clock, i, s.devs[i]);
    OwnerRankDecreases(s.time, s.clock, i, s.devs[i], |s.devs|);
    DevicesRankUpdate(s.devs, i, OwnerDo(s.devs[i]));
  }

  /** Every protocol step but the tick brings the tick nearer. */
  lemma MeasureDecreases(s: State, a: Action)
    requires Inv(s) && Enabled(s, a) && Protocol(a)
    ensures Inv(Do(s, a))
    ensures Do(s, a).time == s.time ==> Measure(Do(s, a)) < Measure(s)
  {
    StepKeepsInv(s, a);
    if a.ClockStep? && !s.clock.Tick? {
      if AtDevice(s.clock) && s.clock.k < |s.devs| {
        VisitMeasureDecreases(s);
      } else {
        TurnMeasureDecreases(s);
      }
    } else if a.OwnerStep? {
      OwnerMeasureDecreases(s, a.i);
    }
  }

  predicate AllProtocol(run: seq<Action>) {
    forall j :: 0 <= j < |run| ==> Protocol(run[j])
  }

  lemma TimeNeverFalls(s: State, a: Action)
    requires Enabled(s, a)
    ensures s.time <= Do(s, a).time
  {
  }

  lemma {:induction false} RunTimeNeverFalls(s: State, run: seq<Action>)
    requires Valid(s, run)
    ensures s.time <= Exec(s, run).time
    decreases |run|
  {
    if run == [] {
    } else {
      TimeNeverFalls(s, run[0]);
      RunTimeNeverFalls(Do(s, run[0]), run[1..]);
    }
  }

  /** Round progress: protocol steps, however interleaved, cannot go on for longer than the
      measure without the clock ticking. */
  lemma {:induction false} RoundEnds(s: State, run: seq<Action>)
    requires Inv(s) && Valid(s, run) && AllProtocol(run)
    ensures Exec(s, run).time == s.time ==> |run| <= Measure(s)
    decreases |run|
  {
    if run == [] {
    } else {
      var s' := Do(s, run[0]);
      MeasureDecreases(s, run[0]);
      TimeNeverFalls(s, run[0]);
      RunTimeNeverFalls(s', run[1..]);
      RoundEnds(s', run[1..]);
    }
  }

  /** So once the devices stop deciding, the protocol runs on until the clock ticks, unless it
      is left waiting for a device in its own code or everything has finished. */
  lemma RoundTicks(s: State, run: seq<Action>)
    requires Inv(s) && Valid(s, run) && AllProtocol(run) && Stuck(Exec(s, run))
    ensures var s' := Exec(s, run); s.time < s'.time || SomeoneWorks(s') || s'.main.Finished?
    ensures var s' := Exec(s, run); s.time == s'.time ==> |run| <= Measure(s)
  {
    RunKeepsInv(s, run);
    NoDeadlock(Exec(s, run));
    RoundEnds(s, run);
  }

  // ---------- the shutdown ends ----------

  /** Steps of the timer until the end of its loop body when no device makes it wait. */
  function LapRank(t: ClockPc, n: nat): nat
    requires PlaceOk(t, n)
  {
    match t
    case Exit => 0
    case Judge => 1
    case Unlock(k) => 4 * (n - k) - 1
    case Wake(k) => 4 * (n - k)
    case Clear(k) => 4 * (n - k) + 1
    case Release(k) => 4 * (n - k) + 2
    case Tick => 4 * n + 3
    case Leave(k) => 4 * n + 5 * (n - k)
    case Count(k) => 4 * n + 5 * (n - k) + 1
    case Check(k) => 4 * n + 5 * (n - k) + 2
    case Dozing(k) => 4 * n + 5 * (n - k) + 3
    case Scan(k) => 4 * n + 5 * (n - k) + 4
    case Head => 9 * n + 5
  }

  /** At most one more lap is needed: the one that finds every device finished. */
  function ShutdownRank(s: State): nat
    requires PlaceOk(s.clock, |s.devs|)
  {
    var n := |s.devs|;
    var lap := LapRank(s.clock, n) + MainRank(s.main);
    if s.fshSeen != s.eventSeen && !s.clock.Head? && !s.clock.Exit? then lap + 9 * n + 5 else lap
  }

  // A finished device never makes the timer wait, nor anyone wake it.
  lemma GoneDeviceLetsPass(time: nat, t: ClockPc, i: nat, d: Device)
    requires DeviceOk(time, t, i, d) && d.pc.Gone?
    ensures d.fsh && !OwnerEnabled(d) && Clock !in d.eventCond && Owner !in d.timerCond
  {
  }

  lemma VisitShortensLap(t: ClockPc, d: Device, n: nat)
    requires AtDevice(t) && t.k < n && d.fsh
    ensures PlaceOk(VisitNext(t, d), n) && LapRank(VisitNext(t, d), n) < LapRank(t, n)
  {
  }

  lemma ShutdownVisit(s: State)
    requires PlaceOk(s.clock, |s.devs|) && ClockEnabled(s)
    requires AtDevice(s.clock) && s.clock.k < |s.devs| && s.devs[s.clock.k].fsh
    ensures PlaceOk(ClockDo(s).clock, |s.devs|) && ShutdownRank(ClockDo(s)) < ShutdownRank(s)
  {
    VisitShortensLap(s.clock, s.devs[s.clock.k], |s.devs|);
  }

  lemma ShutdownTurn(s: State)
    requires PlaceOk(s.clock, |s.devs|) && ClockEnabled(s)
    requires !(AtDevice(s.clock) && s.clock.k < |s.devs|)
    ensures PlaceOk(ClockDo(s).clock, |s.devs|) && ShutdownRank(ClockDo(s)) < ShutdownRank(s)
  {
  }

  lemma ShutdownKeepsGone(s: State, a: Action)
    requires Inv(s) && AllGone(s) && Enabled(s, a)
    ensures (a.ClockStep? || a.MainStep?) && AllGone(Do(s, a))
  {
    forall i | 0 <= i < |s.devs| ensures Clock !in s.devs[i].eventCond && !OwnerEnabled(s.devs[i]) {
      assert DeviceOk(s.time, s.clock, i, s.devs[i]);
      GoneDeviceLetsPass(s.time, s.clock, i, s.devs[i]);
    }
    if a.ClockStep? {
      assert forall i :: 0 <= i < |s.devs| ==> ClockDo(s).devs[i].pc == s.devs[i].pc;
    }
  }

  lemma ShutdownStep(s: State, a: Action)
    requires Inv(s) && AllGone(s) && Enabled(s, a)
    ensures Inv(Do(s, a)) && AllGone(Do(s, a)) && |Do(s, a).devs| == |s.devs|
    ensures ShutdownRank(Do(s, a)) < ShutdownRank(s)
  {
    StepKeepsInv(s, a);
    ShutdownKeepsGone(s, a);
    GoneIsFsh(s);
    if a.ClockStep? {
      if AtDevice(s.clock) && s.clock.k < |s.devs| { ShutdownVisit(s); } else { ShutdownTurn(s); }
    }
  }

  /** Once every device is gone, every interleaving, spurious wake-ups included, is at most
      18 n + 12 steps long, and one that cannot be extended has freed the device list. */
  lemma {:induction false} ShutdownEnds(s: State, run: seq<Action>)
    requires Inv(s) && AllGone(s) && Valid(s, run)
    ensures |run| <= ShutdownRank(s) <= 18 * |s.devs| + 12
    ensures Stuck(Exec(s, run)) ==> Exec(s, run).main.Finished?
    decreases |run|
  {
    if run == [] {
      NoDeadlock(s);
    } else {
      ShutdownStep(s, run[0]);
      ShutdownEnds(Do(s, run[0]), run[1..]);
    }
    RankBound(s.clock, |s.devs|);
  }

  lemma RankBound(t: ClockPc, n: nat)
    requires PlaceOk(t, n)
    ensures LapRank(t, n) <= 9 * n + 5
    ensures !t.Head? ==> LapRank(t, n) <= 9 * n + 4
  {
  }

  // ---------- stop_timer stops the timer ----------

  lemma StopKeepsGone(s: State, a: Action)
    requires Inv(s) && s.stop && Enabled(s, a)
    ensures Inv(Do(s, a)) && Do(s, a).stop && AllGone(s)
    ensures a.ClockStep? || (a.MainStep? && Do(s, a) == s.(main := Finished))
  {
    StepKeepsInv(s, a);
    ShutdownKeepsGone(s, a);
  }

  lemma NoScanStep(s: State, a: Action)
    requires Inv(s) && s.stop && !InScan(s.clock) && Enabled(s, a)
    ensures !InScan(Do(s, a).clock) && Do(s, a).time == s.time
    ensures s.clock.Head? || s.clock.Exit? ==>
      Do(s, a).devs == s.devs && (Do(s, a).clock.Head? || Do(s, a).clock.Exit?)
  {
    StopKeepsGone(s, a);
  }

  /** Once timer_stop is set the timer starts no new round: outside a scan it never scans or ticks
      again, and from the head of its loop it touches no device. */
  lemma {:induction false} NoRoundAfterStop(s: State, run: seq<Action>)
    requires Inv(s) && s.stop && !InScan(s.clock) && Valid(s, run)
    ensures var t := Exec(s, run);
      && !InScan(t.clock) && t.time == s.time
      && (s.clock.Head? || s.clock.Exit? ==> t.devs == s.devs && (t.clock.Head? || t.clock.Exit?))
    decreases |run|
  {
    if run == [] {
    } else {
      NoScanStep(s, run[0]);
      StopKeepsGone(s, run[0]);
      NoRoundAfterStop(Do(s, run[0]), run[1..]);
    }
  }

  lemma TickEndsScan(s: State, a: Action)
    requires Enabled(s, a) && Do(s, a).time != s.time
    ensures !InScan(Do(s, a).clock) && Do(s, a).time == s.time + 1
  {
  }

  /** So after timer_stop the clock ticks at most once more, and only to end the round it is in. */
  lemma {:induction false} OneTickAfterStop(s: State, run: seq<Action>)
    requires Inv(s) && s.stop && Valid(s, run)
    ensures s.time <= Exec(s, run).time <= s.time + if InScan(s.clock) then 1 else 0
    decreases |run|
  {
    if run == [] {
    } else if !InScan(s.clock) {
      NoRoundAfterStop(s, run);
    } else {
      var s' := Do(s, run[0]);
      StopKeepsGone(s, run[0]);
      if s'.time != s.time { TickEndsScan(s, run[0]); }
      OneTickAfterStop(s', run[1..]);
    }
  }

  // Steps until the timer is joined, once timer_stop is set: no lap is added.
  function StopRank(s: State): nat
    requires PlaceOk(s.clock, |s.devs|)
  {
    (if s.clock.Head? then 1 else if s.clock.Exit? then 0 else LapRank(s.clock, |s.devs|) + 1)
    + MainRank(s.main)
  }

  lemma StopVisit(s: State)
    requires PlaceOk(s.clock, |s.devs|) && ClockEnabled(s)
    requires AtDevice(s.clock) && s.clock.k < |s.devs| && s.devs[s.clock.k].fsh
    ensures PlaceOk(ClockDo(s).clock, |s.devs|) && StopRank(ClockDo(s)) < StopRank(s)
  {
    VisitShortensLap(s.clock, s.devs[s.clock.k], |s.devs|);
  }

  lemma StopTurn(s: State)
    requires PlaceOk(s.clock, |s.devs|) && ClockEnabled(s) && s.stop
    requires !(AtDevice(s.clock) && s.clock.k < |s.devs|)
    ensures PlaceOk(ClockDo(s).clock, |s.devs|) && StopRank(ClockDo(s)) < StopRank(s)
  {
  }

  lemma StopStep(s: State, a: Action)
    requires Inv(s) && s.stop && Enabled(s, a)
    ensures Inv(Do(s, a)) && Do(s, a).stop && |Do(s, a).devs| == |s.devs|
    ensures StopRank(Do(s, a)) < StopRank(s)
  {
    StopKeepsGone(s, a);
    GoneIsFsh(s);
    if a.ClockStep? {
      if AtDevice(s.clock) && s.clock.k < |s.devs| { StopVisit(s); } else { StopTurn(s); }
    }
  }

  /** Once timer_stop is set, every interleaving has at most 9 n + 6 steps, spurious wake-ups
      included, and one that cannot be extended has freed the device list. */
  lemma {:induction false} StopEnds(s: State, run: seq<Action>)
    requires Inv(s) && s.stop && Valid(s, run)
    ensures |run| <= StopRank(s) <= 9 * |s.devs| + 6
    ensures Stuck(Exec(s, run)) ==> Exec(s, run).main.Finished?
    decreases |run|
  {
    RankBound(s.clock, |s.devs|);
    if run == [] {
      NoDeadlock(s);
    } else {
      StopStep(s, run[0]);
      StopEnds(Do(s, run[0]), run[1..]);
    }
  }
}
