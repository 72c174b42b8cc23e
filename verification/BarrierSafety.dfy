/** What every interleaving of the barrier keeps. */
module BarrierSafety {
  import opened Barrier

  // ---------- the inductive invariant, one device at a time ----------

  predicate ClockHasEvent(t: ClockPc, i: nat) {
    t == Check(i) || t == Count(i) || t == Leave(i)
  }

  predicate ClockHasTimer(t: ClockPc, i: nat) {
    t == Clear(i) || t == Wake(i) || t == Unlock(i)
  }

  predicate OwnerHasEvent(pc: DevPc) {
    pc.SetDone? || pc.SignalDone? || pc.LeaveEvent? || pc.SetFsh? || pc.SignalFsh? || pc.LeaveDetach?
  }

  predicate OwnerHasTimer(pc: DevPc) {
    pc.TestDone? || pc.LeaveTimer?
  }

  /** The timer has counted device `i` in this round and has not yet cleared it. */
  predicate Counted(t: ClockPc, i: nat) {
    match t
    case Scan(k) => i < k
    case Check(k) => i < k
    case Dozing(k) => i < k
    case Count(k) => i < k
    case Leave(k) => i <= k
    case Tick => true
    case Release(k) => k <= i
    case Clear(k) => k <= i
    case Wake(k) => k < i
    case Unlock(k) => k < i
    case _ => false
  }

  predicate AfterTick(t: ClockPc) {
    t.Release? || t.Clear? || t.Wake? || t.Unlock?
  }

  /** In next_slot, between setting `done` and seeing it cleared. */
  predicate Arrived(pc: DevPc) {
    pc.SignalDone? || pc.LeaveEvent? || pc.EnterTimer? || pc.TestDone? || pc.Parked?
  }

  predicate Detached(pc: DevPc) {
    pc.SignalFsh? || pc.LeaveDetach? || pc.Gone?
  }

  predicate LocksOk(t: ClockPc, i: nat, d: Device) {
    && (d.eventLock == HeldBy(Clock) <==> ClockHasEvent(t, i))
    && (d.eventLock == HeldBy(Owner) <==> OwnerHasEvent(d.pc))
    && (d.timerLock == HeldBy(Clock) <==> ClockHasTimer(t, i))
    && (d.timerLock == HeldBy(Owner) <==> OwnerHasTimer(d.pc))
  }

  predicate WaitersOk(t: ClockPc, i: nat, d: Device) {
    && Owner !in d.eventCond
    && Clock !in d.timerCond
    && (Clock in d.eventCond ==>
         t == Dozing(i) && ((!d.done && !d.fsh) || d.pc.SignalDone? || d.pc.SignalFsh?))
    && (Owner in d.timerCond ==> d.pc.Parked? && (d.done || t == Wake(i)))
  }

  predicate FlagsOk(t: ClockPc, i: nat, d: Device) {
    && (d.fsh <==> Detached(d.pc))
    && (d.done ==> Arrived(d.pc))
    && (d.pc.SignalDone? || d.pc.LeaveEvent? ==> d.done && !Counted(t, i))
    && (Counted(t, i) ==> d.done || d.fsh)
    && (t == Count(i) ==> d.done || d.fsh)
    && (t == Wake(i) || t == Unlock(i) ==> !d.done && (d.fsh || d.pc.EnterTimer? || d.pc.Parked?))
  }

  predicate HistoryOk(time: nat, t: ClockPc, i: nat, d: Device) {
    && d.arrivals == d.released + (if d.done then 1 else 0)
    && d.counted == d.released + (if d.done && Counted(t, i) then 1 else 0)
    && d.released == d.slots + (if (Arrived(d.pc) || d.pc.LeaveTimer?) && !d.done then 1 else 0)
    && d.released <= time
    && (!d.fsh ==> d.released + (if AfterTick(t) && Counted(t, i) then 1 else 0) == time)
  }

  predicate DeviceOk(time: nat, t: ClockPc, i: nat, d: Device) {
    LocksOk(t, i, d) && WaitersOk(t, i, d) && FlagsOk(t, i, d) && HistoryOk(time, t, i, d)
  }

  // ---------- the timer's own counters ----------

  predicate AllFsh(devs: seq<Device>, k: nat)
    requires k <= |devs|
  {
    forall i :: 0 <= i < k ==> devs[i].fsh
  }

  /** How many devices the timer has visited in the scan it is in, when it is in one. */
  function Visited(t: ClockPc, n: nat): nat {
    match t
    case Scan(k) => k
    case Check(k) => k
    case Dozing(k) => k
    case Count(k) => k
    case Leave(k) => k + 1
    case _ => n
  }

  predicate InScan(t: ClockPc) {
    t.Scan? || t.Check? || t.Dozing? || t.Count? || t.Leave? || t.Tick?
  }

  predicate PlaceOk(t: ClockPc, n: nat) {
    AtDevice(t) ==> t.k < n || (t.k == n && (t.Scan? || t.Release?))
  }

  predicate CountersOk(t: ClockPc, fshSeen: nat, eventSeen: nat, devs: seq<Device>)
    requires PlaceOk(t, |devs|)
  {
    var n := |devs|;
    && (InScan(t) ==>
         var k := Visited(t, n);
         eventSeen == k && fshSeen <= k && (fshSeen == k <==> AllFsh(devs, k)))
    && (AfterTick(t) || t.Judge? ==>
         eventSeen == n && fshSeen <= n && (fshSeen == n ==> AllFsh(devs, n)))
    && (t.Exit? ==> AllFsh(devs, n))
  }

  predicate ClockOk(s: State) {
    PlaceOk(s.clock, |s.devs|) && CountersOk(s.clock, s.fshSeen, s.eventSeen, s.devs)
  }

  predicate MainOk(s: State) {
    && (s.stop <==> !s.main.Joining?)
    && (s.stop ==> AllGone(s))
    && (s.main.Finished? ==> s.clock.Exit?)
  }

  predicate DevicesOk(s: State) {
    forall i :: 0 <= i < |s.devs| ==> DeviceOk(s.time, s.clock, i, s.devs[i])
  }

  predicate Inv(s: State) {
    DevicesOk(s) && ClockOk(s) && MainOk(s)
  }

  // ---------- the invariant is inductive ----------

  lemma InitInv(n: nat)
    ensures Inv(Init(n))
  {
  }

  lemma NextSlotKeepsDevice(time: nat, t: ClockPc, i: nat, d: Device)
    requires DeviceOk(time, t, i, d) && OwnerEnabled(d)
    requires d.pc.EnterEvent? || d.pc.SetDone? || d.pc.SignalDone? || d.pc.LeaveEvent?
    ensures DeviceOk(time, t, i, OwnerDo(d)) && OwnerDo(d).fsh == d.fsh
  {
  }

  lemma WaitKeepsDevice(time: nat, t: ClockPc, i: nat, d: Device)
    requires DeviceOk(time, t, i, d) && OwnerEnabled(d)
    requires d.pc.EnterTimer? || d.pc.TestDone? || d.pc.Parked? || d.pc.LeaveTimer?
    ensures DeviceOk(time, t, i, OwnerDo(d)) && OwnerDo(d).fsh == d.fsh
  {
  }

  lemma DetachKeepsDevice(time: nat, t: ClockPc, i: nat, d: Device)
    requires DeviceOk(time, t, i, d) && OwnerEnabled(d)
    requires d.pc.EnterDetach? || d.pc.SetFsh? || d.pc.SignalFsh? || d.pc.LeaveDetach?
    ensures DeviceOk(time, t, i, OwnerDo(d))
    ensures Counted(t, i) ==> OwnerDo(d).fsh == d.fsh
    ensures d.fsh ==> OwnerDo(d).fsh
  {
  }

  lemma OwnerKeepsDevice(time: nat, t: ClockPc, i: nat, d: Device)
    requires DeviceOk(time, t, i, d) && OwnerEnabled(d)
    ensures DeviceOk(time, t, i, OwnerDo(d))
    ensures Counted(t, i) ==> OwnerDo(d).fsh == d.fsh
    ensures d.fsh ==> OwnerDo(d).fsh
  {
    match d.pc {
      case EnterTimer | TestDone | Parked | LeaveTimer => WaitKeepsDevice(time, t, i, d);
      case EnterDetach | SetFsh | SignalFsh | LeaveDetach => DetachKeepsDevice(time, t, i, d);
      case _ => NextSlotKeepsDevice(time, t, i, d);
    }
  }

  lemma VisitKeepsDevice(time: nat, t: ClockPc, d: Device)
    requires AtDevice(t) && DeviceOk(time, t, t.k, d) && VisitEnabled(t, d)
    ensures DeviceOk(time, VisitNext(t, d), t.k, VisitDo(t, d))
    ensures VisitDo(t, d).fsh == d.fsh && VisitDo(t, d).pc == d.pc
  {
    match t {
      case Scan(k) =>
      case Check(k) =>
      case Dozing(k) =>
      case Count(k) =>
      case Leave(k) =>
      case Release(k) =>
      case Clear(k) =>
      case Wake(k) =>
      case Unlock(k) =>
    }
  }

  lemma VisitKeepsOther(time: nat, t: ClockPc, at: Device, i: nat, d: Device)
    requires AtDevice(t) && t.k != i && DeviceOk(time, t, i, d)
    ensures DeviceOk(time, VisitNext(t, at), i, d)
  {
  }

  // The steps of the timer between devices; the tick finds every device counted.
  lemma ClockKeepsAll(s: State, i: nat)
    requires DevicesOk(s) && PlaceOk(s.clock, |s.devs|) && ClockEnabled(s) && i < |s.devs|
    requires !(AtDevice(s.clock) && s.clock.k < |s.devs|)
    ensures var s' := ClockDo(s); DeviceOk(s'.time, s'.clock, i, s'.devs[i])
  {
    assert DeviceOk(s.time, s.clock, i, s.devs[i]);
  }

  // Visiting a device changes no `fsh`; the counters move only when it is counted.
  lemma VisitKeepsCounters(t: ClockPc, f: nat, e: nat, devs: seq<Device>, devs': seq<Device>)
    requires AtDevice(t) && t.k < |devs| && !t.Count?
    requires PlaceOk(t, |devs|) && CountersOk(t, f, e, devs)
    requires devs' == devs[t.k := VisitDo(t, devs[t.k])]
    ensures PlaceOk(VisitNext(t, devs[t.k]), |devs|)
    ensures CountersOk(VisitNext(t, devs[t.k]), f, e, devs')
  {
    SameFsh(devs, devs');
  }

  lemma CountKeepsCounters(k: nat, f: nat, e: nat, devs: seq<Device>, devs': seq<Device>)
    requires k < |devs| && CountersOk(Count(k), f, e, devs)
    requires devs' == devs[k := VisitDo(Count(k), devs[k])]
    ensures CountersOk(Leave(k), f + (if devs[k].fsh then 1 else 0), e + 1, devs')
  {
    SameFsh(devs, devs');
    AllFshExtends(devs, k);
  }

  lemma AllFshExtends(ds: seq<Device>, k: nat)
    requires k < |ds|
    ensures AllFsh(ds, k + 1) <==> AllFsh(ds, k) && ds[k].fsh
  {
    if AllFsh(ds, k + 1) {
      assert forall i :: 0 <= i < k ==> ds[i].fsh;
    }
  }

  lemma SameFsh(ds: seq<Device>, es: seq<Device>)
    requires |es| == |ds| && forall i :: 0 <= i < |ds| ==> es[i].fsh == ds[i].fsh
    ensures forall k :: 0 <= k <= |ds| ==> AllFsh(es, k) == AllFsh(ds, k)
  {
    forall k | 0 <= k <= |ds| ensures AllFsh(es, k) == AllFsh(ds, k) {
      assert AllFsh(ds, k) ==> forall i :: 0 <= i < k ==> es[i].fsh;
    }
  }

  lemma GoneIsFsh(s: State)
    requires DevicesOk(s) && AllGone(s)
    ensures AllFsh(s.devs, |s.devs|)
  {
    forall i | 0 <= i < |s.devs| ensures s.devs[i].fsh {
      assert DeviceOk(s.time, s.clock, i, s.devs[i]);
    }
  }

  // The steps of the timer between devices.
  lemma TurnKeepsCounters(s: State)
    requires ClockOk(s) && MainOk(s) && ClockEnabled(s)
    requires s.stop ==> AllFsh(s.devs, |s.devs|)
    requires !(AtDevice(s.clock) && s.clock.k < |s.devs|)
    ensures ClockOk(ClockDo(s)) && MainOk(ClockDo(s))
  {
    assert ClockDo(s).devs == s.devs;
  }

  lemma VisitKeepsMain(s: State)
    requires MainOk(s) && ClockEnabled(s) && AtDevice(s.clock) && s.clock.k < |s.devs|
    ensures MainOk(ClockDo(s))
  {
    var s' := ClockDo(s);
    assert forall i :: 0 <= i < |s.devs| ==> s'.devs[i].pc == s.devs[i].pc;
  }

  lemma ClockKeepsCounters(s: State)
    requires Inv(s) && ClockEnabled(s)
    ensures ClockOk(ClockDo(s)) && MainOk(ClockDo(s))
  {
    if !(AtDevice(s.clock) && s.clock.k < |s.devs|) {
      if s.stop { GoneIsFsh(s); }
      TurnKeepsCounters(s);
    } else {
      VisitKeepsMain(s);
      if s.clock.Count? {
        CountKeepsCounters(s.clock.k, s.fshSeen, s.eventSeen, s.devs, ClockDo(s).devs);
      } else {
        VisitKeepsCounters(s.clock, s.fshSeen, s.eventSeen, s.devs, ClockDo(s).devs);
      }
    }
  }

  lemma ClockKeepsInv(s: State)
    requires Inv(s) && ClockEnabled(s)
    ensures Inv(ClockDo(s))
  {
    ClockKeepsCounters(s);
    var s' := ClockDo(s);
    forall i | 0 <= i < |s.devs| ensures DeviceOk(s'.time, s'.clock, i, s'.devs[i]) {
      assert DeviceOk(s.time, s.clock, i, s.devs[i]);
      if !(AtDevice(s.clock) && s.clock.k < |s.devs|) {
        ClockKeepsAll(s, i);
      } else if s.clock.k == i {
        VisitKeepsDevice(s.time, s.clock, s.devs[i]);
      } else {
        VisitKeepsOther(s.time, s.clock, s.devs[s.clock.k], i, s.devs[i]);
      }
    }
  }

  /** A step of one device leaves the other devices and the timer's counters right. */
  lemma DeviceChangeKeepsInv(s: State, i: nat, d: Device)
    requires Inv(s) && i < |s.devs| && DeviceOk(s.time, s.clock, i, d)
    requires Counted(s.clock, i) ==> d.fsh == s.devs[i].fsh
    requires s.devs[i].fsh ==> d.fsh
    requires s.devs[i].pc.Gone? ==> d.pc.Gone?
    ensures Inv(s.(devs := s.devs[i := d]))
  {
    var s' := s.(devs := s.devs[i := d]);
    assert DeviceOk(s.time, s.clock, i, s.devs[i]);
    if InScan(s.clock) {
      var k := Visited(s.clock, |s.devs|);
      assert i < k ==> Counted(s.clock, i);
      assert forall j :: 0 <= j < k ==> s'.devs[j].fsh == s.devs[j].fsh;
    }
  }

  lemma ClockSpuriousKeepsDevice(time: nat, t: ClockPc, d: Device)
    requires t.Dozing? && DeviceOk(time, t, t.k, d)
    ensures DeviceOk(time, t, t.k, d.(eventCond := d.eventCond - {Clock}))
  {
  }

  lemma OwnerSpuriousKeepsDevice(time: nat, t: ClockPc, i: nat, d: Device)
    requires d.pc.Parked? && DeviceOk(time, t, i, d)
    ensures DeviceOk(time, t, i, d.(timerCond := d.timerCond - {Owner}))
  {
  }

  lemma CallKeepsDevice(time: nat, t: ClockPc, i: nat, d: Device, pc: DevPc)
    requires d.pc.Working? && (pc.EnterEvent? || pc.EnterDetach?) && DeviceOk(time, t, i, d)
    ensures DeviceOk(time, t, i, d.(pc := pc))
  {
  }

  lemma StepKeepsInv(s: State, a: Action)
    requires Inv(s) && Enabled(s, a)
    ensures Inv(Do(s, a))
  {
    match a
    case ClockStep =>
      ClockKeepsInv(s);
    case ClockSpurious =>
      var k := s.clock.k;
      ClockSpuriousKeepsDevice(s.time, s.clock, s.devs[k]);
      DeviceChangeKeepsInv(s, k, s.devs[k].(eventCond := s.devs[k].eventCond - {Clock}));
    case OwnerStep(i) =>
      OwnerKeepsDevice(s.time, s.clock, i, s.devs[i]);
      DeviceChangeKeepsInv(s, i, OwnerDo(s.devs[i]));
    case OwnerSpurious(i) =>
      OwnerSpuriousKeepsDevice(s.time, s.clock, i, s.devs[i]);
      DeviceChangeKeepsInv(s, i, s.devs[i].(timerCond := s.devs[i].timerCond - {Owner}));
    case CallNextSlot(i) =>
      CallKeepsDevice(s.time, s.clock, i, s.devs[i], EnterEvent);
      DeviceChangeKeepsInv(s, i, s.devs[i].(pc := EnterEvent));
    case CallDetach(i) =>
      CallKeepsDevice(s.time, s.clock, i, s.devs[i], EnterDetach);
      DeviceChangeKeepsInv(s, i, s.devs[i].(pc := EnterDetach));
    case MainStep =>
  }

  lemma {:induction false} RunKeepsInv(s: State, run: seq<Action>)
    requires Inv(s) && Valid(s, run)
    ensures Inv(Exec(s, run))
    decreases |run|
  {
    if run == [] {
    } else {
      StepKeepsInv(s, run[0]);
      RunKeepsInv(Do(s, run[0]), run[1..]);
    }
  }

  // ---------- what holds after every interleaving from the start ----------

  function After(n: nat, run: seq<Action>): State
    requires Valid(Init(n), run)
  {
    Exec(Init(n), run)
  }

  lemma AfterInv(n: nat, run: seq<Action>)
    requires Valid(Init(n), run)
    ensures Inv(After(n, run)) && |After(n, run).devs| == n
  {
    InitInv(n);
    RunKeepsInv(Init(n), run);
    RunKeepsDevices(Init(n), run);
  }

  lemma {:induction false} RunKeepsDevices(s: State, run: seq<Action>)
    requires Valid(s, run)
    ensures |Exec(s, run).devs| == |s.devs|
    decreases |run|
  {
    if run == [] {
    } else {
      RunKeepsDevices(Do(s, run[0]), run[1..]);
    }
  }

  /** Lockstep: a working device has completed exactly as many calls of next_slot as the clock
      shows, and no two live devices are more than one call apart. */
  lemma LockstepClock(n: nat, run: seq<Action>, i: nat, j: nat)
    requires Valid(Init(n), run) && i < n && j < n
    ensures var s := After(n, run);
      && |s.devs| == n
      && (s.devs[i].pc.Working? ==> s.devs[i].slots == s.time)
      && (!s.devs[i].fsh ==> s.time <= s.devs[i].slots + 1 && s.devs[i].slots <= s.time)
      && (!s.devs[i].fsh && !s.devs[j].fsh ==> s.devs[i].slots <= s.devs[j].slots + 1)
  {
    AfterInv(n, run);
    var s := After(n, run);
    assert DeviceOk(s.time, s.clock, i, s.devs[i]) && DeviceOk(s.time, s.clock, j, s.devs[j]);
  }

  /** No lost wake-up, with spurious wake-ups allowed: a thread in a wait set either has nothing
      to wake for or the thread about to signal it is at the signal. */
  lemma NoLostWakeup(n: nat, run: seq<Action>, i: nat)
    requires Valid(Init(n), run) && i < n
    ensures var s := After(n, run);
      && |s.devs| == n
      && var d := s.devs[i];
      && d.eventCond <= {Clock} && d.timerCond <= {Owner}
      && (Clock in d.eventCond && !d.pc.SignalDone? && !d.pc.SignalFsh? ==> !d.done && !d.fsh)
      && (Owner in d.timerCond && s.clock != Wake(i) ==> d.done)
  {
    AfterInv(n, run);
    var s := After(n, run);
    assert DeviceOk(s.time, s.clock, i, s.devs[i]);
    var d := s.devs[i];
    forall x | x in d.eventCond ensures x == Clock { if x == Owner { assert false; } }
    forall x | x in d.timerCond ensures x == Owner { if x == Clock { assert false; } }
  }

  // The accesses to the shared variables that a thread's next step makes.
  datatype Access = NoAccess | Read | Write

  predicate Conflict(a: Access, b: Access) {
    (a.Write? && !b.NoAccess?) || (b.Write? && !a.NoAccess?)
  }

  function ClockOnDone(t: ClockPc, i: nat): Access {
    if t == Check(i) then Read else if t == Clear(i) then Write else NoAccess
  }

  function OwnerOnDone(pc: DevPc): Access {
    if pc.SetDone? then Write else if pc.TestDone? then Read else NoAccess
  }

  function ClockOnFsh(t: ClockPc, i: nat): Access {
    if t == Check(i) || t == Count(i) then Read else NoAccess
  }

  function OwnerOnFsh(pc: DevPc): Access {
    if pc.SetFsh? then Write else NoAccess
  }

  function ClockOnTime(t: ClockPc): Access {
    if t.Tick? then Write else if t.Head? then Read else NoAccess
  }

  // A device's own code may read the clock without a lock, as ld_routine does.
  function OwnerOnTime(pc: DevPc): Access {
    if pc.Working? then Read else NoAccess
  }

  /** No data race: `done` is written under two different mutexes and `_time` is read under
      none, yet no two conflicting accesses are ever both the next step of their threads. */
  lemma RaceFree(n: nat, run: seq<Action>, i: nat)
    requires Valid(Init(n), run) && i < n
    ensures var s := After(n, run);
      && |s.devs| == n
      && !Conflict(ClockOnDone(s.clock, i), OwnerOnDone(s.devs[i].pc))
      && !Conflict(ClockOnFsh(s.clock, i), OwnerOnFsh(s.devs[i].pc))
      && !Conflict(ClockOnTime(s.clock), OwnerOnTime(s.devs[i].pc))
  {
    AfterInv(n, run);
    var s := After(n, run);
    assert DeviceOk(s.time, s.clock, i, s.devs[i]);
  }

  /** Each release consumes exactly one arrival, and only one the timer has counted. */
  lemma ArrivalsAccounted(n: nat, run: seq<Action>, i: nat)
    requires Valid(Init(n), run) && i < n
    ensures var s := After(n, run);
      && |s.devs| == n
      && var d := s.devs[i];
      && d.released <= d.counted <= d.arrivals <= d.released + 1
      && (d.done <==> d.arrivals == d.released + 1)
      && (s.clock == Clear(i) && !d.fsh ==> d.done && d.counted == d.arrivals)
      && d.slots <= d.released <= d.slots + 1
  {
    AfterInv(n, run);
    var s := After(n, run);
    assert DeviceOk(s.time, s.clock, i, s.devs[i]);
  }

  /** The clock advances only when every device has arrived or finished. */
  lemma TickNeedsEveryone(n: nat, run: seq<Action>, a: Action)
    requires Valid(Init(n), run) && Enabled(After(n, run), a)
    requires Do(After(n, run), a).time != After(n, run).time
    ensures var s := After(n, run);
      && Do(s, a).time == s.time + 1
      && forall i :: 0 <= i < |s.devs| ==>
           s.devs[i].fsh || (s.devs[i].done && s.devs[i].counted == s.devs[i].arrivals)
  {
    AfterInv(n, run);
    var s := After(n, run);
    assert a.ClockStep? && s.clock.Tick?;
    forall i | 0 <= i < |s.devs|
      ensures s.devs[i].fsh || (s.devs[i].done && s.devs[i].counted == s.devs[i].arrivals)
    {
      assert DeviceOk(s.time, s.clock, i, s.devs[i]);
    }
  }

  lemma WorkingFreezesStep(s: State, i: nat, a: Action)
    requires Inv(s) && i < |s.devs| && s.devs[i].pc.Working? && Enabled(s, a)
    requires a != CallNextSlot(i) && a != CallDetach(i)
    ensures Do(s, a).time == s.time && |Do(s, a).devs| == |s.devs| && Do(s, a).devs[i].pc.Working?
  {
    assert DeviceOk(s.time, s.clock, i, s.devs[i]);
  }

  /** The clock is frozen while a device works, whatever the other threads do, so its unlocked
      reads of the time all return the same value. */
  lemma {:induction false} ClockFrozenWhileWorking(s: State, i: nat, run: seq<Action>)
    requires Inv(s) && i < |s.devs| && s.devs[i].pc.Working? && Valid(s, run)
    requires CallNextSlot(i) !in run && CallDetach(i) !in run
    ensures Exec(s, run).time == s.time
    ensures |Exec(s, run).devs| == |s.devs| && Exec(s, run).devs[i].pc.Working?
    decreases |run|
  {
    if run == [] {
    } else {
      WorkingFreezesStep(s, i, run[0]);
      StepKeepsInv(s, run[0]);
      ClockFrozenWhileWorking(Do(s, run[0]), i, run[1..]);
    }
  }

  /** The timer gives up only when every device has detached, and main frees the device list
      only when no thread can take another step on it. */
  lemma NothingUsesFreedDevices(n: nat, run: seq<Action>, a: Action)
    requires Valid(Init(n), run)
    ensures var s := After(n, run);
      && (s.clock.Exit? ==> AllFsh(s.devs, |s.devs|))
      && (s.main.Finished? ==> !Enabled(s, a))
  {
    AfterInv(n, run);
  }

  /** A thread asleep can wake up at any time without a signal, and nothing else changes. */
  lemma SpuriousWakeups(s: State, i: nat)
    requires i < |s.devs|
    ensures s.devs[i].pc.Parked? && Owner in s.devs[i].timerCond ==>
      && Enabled(s, OwnerSpurious(i))
      && Do(s, OwnerSpurious(i)) == s.(devs := s.devs[i := s.devs[i].(timerCond := s.devs[i].timerCond - {Owner})])
    ensures s.clock == Dozing(i) && Clock in s.devs[i].eventCond ==>
      && Enabled(s, ClockSpurious)
      && Do(s, ClockSpurious) == s.(devs := s.devs[i := s.devs[i].(eventCond := s.devs[i].eventCond - {Clock})])
  {
  }

  /** pthread_cond_signal unblocks one waiter, if there is one. */
  lemma SignalWakesOne(cond: set<Party>)
    ensures Signal(cond) <= cond
    ensures cond != {} ==> |cond - Signal(cond)| == 1
  {
    if Clock in cond {
      assert cond - Signal(cond) == {Clock};
    } else {
      forall x | x in cond ensures x == Owner { match x { case Owner => } }
      if cond != {} {
        var x :| x in cond;
        assert cond - Signal(cond) == {Owner};
      }
    }
  }

  // ---------- the grain of the steps ----------

  // How many of the flags, mutexes and wait sets of a device differ.
  function Changes(d: Device, e: Device): nat {
    (if d.done == e.done then 0 else 1) + (if d.fsh == e.fsh then 0 else 1)
    + (if d.eventLock == e.eventLock then 0 else 1) + (if d.timerLock == e.timerLock then 0 else 1)
    + (if d.eventCond == e.eventCond then 0 else 1) + (if d.timerCond == e.timerCond then 0 else 1)
  }

  // pthread_cond_wait: going to sleep and releasing the mutex are one operation.
  predicate GoesToSleep(d: Device, e: Device) {
    || e == d.(pc := e.pc, timerLock := Free, timerCond := d.timerCond + {Owner})
    || e == d.(pc := e.pc, eventLock := Free, eventCond := d.eventCond + {Clock})
  }

  /** Every step of a thread is one operation: it touches at most one flag, mutex or wait set of
      one device, except that a wait releases its mutex. */
  lemma OneOperationPerStep(s: State, a: Action, i: nat)
    requires Enabled(s, a) && i < |s.devs|
    ensures |Do(s, a).devs| == |s.devs|
    ensures var d, e := s.devs[i], Do(s, a).devs[i];
      && (Changes(d, e) <= 1 || GoesToSleep(d, e))
      && (forall j :: 0 <= j < |s.devs| && j != i && e != d ==> Do(s, a).devs[j] == s.devs[j])
      && (e != d ==> Do(s, a).time == s.time && Do(s, a).main == s.main && Do(s, a).stop == s.stop)
  {
    match a {
      case ClockStep => if AtDevice(s.clock) && s.clock.k == i { VisitIsOneOperation(s.clock, s.devs[i]); }
      case OwnerStep(k) => if k == i { OwnerIsOneOperation(s.devs[i]); }
      case _ =>
    }
  }

  lemma OwnerIsOneOperation(d: Device)
    requires OwnerEnabled(d)
    ensures Changes(d, OwnerDo(d)) <= 1 || GoesToSleep(d, OwnerDo(d))
  {
  }

  lemma VisitIsOneOperation(t: ClockPc, d: Device)
    requires AtDevice(t)
    ensures Changes(d, VisitDo(t, d)) <= 1 || GoesToSleep(d, VisitDo(t, d))
  {
    match t {
      case Scan(k) =>
      case Check(k) =>
      case Dozing(k) =>
      case Count(k) =>
      case Leave(k) =>
      case Release(k) =>
      case Clear(k) =>
      case Wake(k) =>
      case Unlock(k) =>
    }
  }

  // ---------- leaving the loop, and joining ----------

  /** The timer leaves its loop exactly at its head when timer_stop is set, or at the end of a round
      in which it counted every device as finished; main goes on exactly when what it joins has
      ended. */
  lemma EndsExactly(n: nat, run: seq<Action>)
    requires Valid(Init(n), run)
    ensures var s := After(n, run);
      && (ClockEnabled(s) && ClockDo(s).clock.Exit? <==>
            (s.clock.Head? && s.stop) || (s.clock.Judge? && s.fshSeen == n))
      && (Enabled(s, MainStep) <==>
            || (s.main.Joining? && forall i :: 0 <= i < |s.devs| ==> s.devs[i].pc.Gone?)
            || (s.main.Stopping? && s.clock.Exit?))
  {
    AfterInv(n, run);
  }
}
