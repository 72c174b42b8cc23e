/** The time-slot barrier of src/timer.c as a transition system.

    One timer thread and any number of devices (the CPUs and the loader) synchronise through
    the flags `done` and `fsh`, two mutexes and two condition variables per device. Every
    lock, test, wait, signal and unlock is a step of its own, so an interleaving of the
    threads is a sequence of labelled steps. Devices are numbered by their position in
    `dev_list`, the order in which the timer visits them. */
module Barrier {

  // The two threads that ever touch the mutexes and conditions of one device.
  datatype Party = Clock | Owner

  datatype Mutex = Free | HeldBy(party: Party)

  /** Where the thread of a device is: in its own code, inside next_slot (the next eight),
      or inside detach_event and after it. */
  datatype DevPc =
    | Working
    | EnterEvent | SetDone | SignalDone | LeaveEvent
    | EnterTimer | TestDone | Parked | LeaveTimer
    | EnterDetach | SetFsh | SignalFsh | LeaveDetach | Gone

  /** struct timer_id_t and the position of its thread. The last four fields record history
      and are read by no step: completed next_slot calls, arrivals (`done` set), arrivals
      counted by the timer, and arrivals released (`done` cleared). */
  datatype Device = Device(
    pc: DevPc,
    done: bool,
    fsh: bool,
    eventLock: Mutex,
    timerLock: Mutex,
    eventCond: set<Party>,
    timerCond: set<Party>,
    slots: nat,
    arrivals: nat,
    counted: nat,
    released: nat)

  // Where the timer thread is; the argument is the position of `temp` in the device list.
  datatype ClockPc =
    | Head
    | Scan(k: nat) | Check(k: nat) | Dozing(k: nat) | Count(k: nat) | Leave(k: nat)
    | Tick
    | Release(k: nat) | Clear(k: nat) | Wake(k: nat) | Unlock(k: nat)
    | Judge
    | Exit

  // main joins the device threads, then stop_timer raises the flag, joins the timer and frees.
  datatype MainPc = Joining | Stopping | Finished

  datatype State = State(
    time: nat,
    clock: ClockPc,
    fshSeen: nat,
    eventSeen: nat,
    stop: bool,
    main: MainPc,
    devs: seq<Device>)

  datatype Action =
    | ClockStep
    | ClockSpurious
    | OwnerStep(i: nat)
    | OwnerSpurious(i: nat)
    | CallNextSlot(i: nat)
    | CallDetach(i: nat)
    | MainStep

  /** pthread_cond_signal: one waiter leaves the wait set, if there is one. */
  function Signal(cond: set<Party>): set<Party> {
    if Clock in cond then cond - {Clock} else cond - {Owner}
  }

  const FRESH := Device(Working, false, false, Free, Free, {}, {}, 0, 0, 0, 0)

  /** The state after attach_event has run `n` times and start_timer once. */
  function Init(n: nat): State {
    State(0, Head, 0, 0, false, Joining, seq(n, _ => FRESH))
  }

  // ---------- the thread of a device: next_slot and detach_event ----------

  predicate OwnerEnabled(d: Device) {
    match d.pc
    case Working => false
    case Gone => false
    case EnterEvent => d.eventLock.Free?
    case EnterDetach => d.eventLock.Free?
    case EnterTimer => d.timerLock.Free?
    case Parked => Owner !in d.timerCond && d.timerLock.Free?
    case _ => true
  }

  function OwnerDo(d: Device): Device
    requires OwnerEnabled(d)
  {
    match d.pc
    case EnterEvent => d.(eventLock := HeldBy(Owner), pc := SetDone)
    case SetDone => d.(done := true, arrivals := d.arrivals + 1, pc := SignalDone)
    case SignalDone => d.(eventCond := Signal(d.eventCond), pc := LeaveEvent)
    case LeaveEvent => d.(eventLock := Free, pc := EnterTimer)
    case EnterTimer => d.(timerLock := HeldBy(Owner), pc := TestDone)
    case TestDone =>
      if d.done then d.(timerLock := Free, timerCond := d.timerCond + {Owner}, pc := Parked)
      else d.(pc := LeaveTimer)
    case Parked => d.(timerLock := HeldBy(Owner), pc := TestDone)
    case LeaveTimer => d.(timerLock := Free, slots := d.slots + 1, pc := Working)
    case EnterDetach => d.(eventLock := HeldBy(Owner), pc := SetFsh)
    case SetFsh => d.(fsh := true, pc := SignalFsh)
    case SignalFsh => d.(eventCond := Signal(d.eventCond), pc := LeaveDetach)
    case LeaveDetach => d.(eventLock := Free, pc := Gone)
  }

  // ---------- the timer thread: timer_routine ----------

  predicate AtDevice(t: ClockPc) {
    t.Scan? || t.Check? || t.Dozing? || t.Count? || t.Leave?
    || t.Release? || t.Clear? || t.Wake? || t.Unlock?
  }

  predicate VisitEnabled(t: ClockPc, d: Device)
    requires AtDevice(t)
  {
    match t
    case Scan(_) => d.eventLock.Free?
    case Dozing(_) => Clock !in d.eventCond && d.eventLock.Free?
    case Release(_) => d.timerLock.Free?
    case _ => true
  }

  /** What a step of the timer does to the device it is at. */
  function VisitDo(t: ClockPc, d: Device): Device
    requires AtDevice(t)
  {
    match t
    case Scan(_) => d.(eventLock := HeldBy(Clock))
    case Check(_) =>
      if !d.done && !d.fsh then d.(eventLock := Free, eventCond := d.eventCond + {Clock}) else d
    case Dozing(_) => d.(eventLock := HeldBy(Clock))
    case Count(_) => d.(counted := d.counted + if d.done then 1 else 0)
    case Leave(_) => d.(eventLock := Free)
    case Release(_) => d.(timerLock := HeldBy(Clock))
    case Clear(_) => d.(done := false, released := d.released + if d.done then 1 else 0)
    case Wake(_) => d.(timerCond := Signal(d.timerCond))
    case Unlock(_) => d.(timerLock := Free)
  }

  // Where the timer goes next from a device.
  function VisitNext(t: ClockPc, d: Device): ClockPc
    requires AtDevice(t)
  {
    match t
    case Scan(k) => Check(k)
    case Check(k) => if !d.done && !d.fsh then Dozing(k) else Count(k)
    case Dozing(k) => Check(k)
    case Count(k) => Leave(k)
    case Leave(k) => Scan(k + 1)
    case Release(k) => Clear(k)
    case Clear(k) => Wake(k)
    case Wake(k) => Unlock(k)
    case Unlock(k) => Release(k + 1)
  }

  predicate ClockEnabled(s: State) {
    if AtDevice(s.clock) && s.clock.k < |s.devs| then VisitEnabled(s.clock, s.devs[s.clock.k])
    else s.clock.Head? || s.clock.Scan? || s.clock.Tick? || s.clock.Release? || s.clock.Judge?
  }

  function ClockDo(s: State): State
    requires ClockEnabled(s)
  {
    if AtDevice(s.clock) && s.clock.k < |s.devs| then
      var k := s.clock.k;
      var d := s.devs[k];
      s.(devs := s.devs[k := VisitDo(s.clock, d)],
         clock := VisitNext(s.clock, d),
         fshSeen := s.fshSeen + (if s.clock.Count? && d.fsh then 1 else 0),
         eventSeen := s.eventSeen + (if s.clock.Count? then 1 else 0))
    else
      match s.clock
      case Head =>
        if s.stop then s.(clock := Exit)
        else s.(fshSeen := 0, eventSeen := 0, clock := Scan(0))
      case Scan(_) => s.(clock := Tick)
      case Tick => s.(time := s.time + 1, clock := Release(0))
      case Release(_) => s.(clock := Judge)
      case Judge => s.(clock := if s.fshSeen == s.eventSeen then Exit else Head)
  }

  // ---------- all threads together ----------

  predicate AllGone(s: State) {
    forall i :: 0 <= i < |s.devs| ==> s.devs[i].pc.Gone?
  }

  predicate Enabled(s: State, a: Action) {
    match a
    case ClockStep => ClockEnabled(s)
    case ClockSpurious =>
      s.clock.Dozing? && s.clock.k < |s.devs| && Clock in s.devs[s.clock.k].eventCond
    case OwnerStep(i) => i < |s.devs| && OwnerEnabled(s.devs[i])
    case OwnerSpurious(i) =>
      i < |s.devs| && s.devs[i].pc.Parked? && Owner in s.devs[i].timerCond
    case CallNextSlot(i) => i < |s.devs| && s.devs[i].pc.Working?
    case CallDetach(i) => i < |s.devs| && s.devs[i].pc.Working?
    case MainStep =>
      (s.main.Joining? && AllGone(s)) || (s.main.Stopping? && s.clock.Exit?)
  }

  function Do(s: State, a: Action): State
    requires Enabled(s, a)
  {
    match a
    case ClockStep => ClockDo(s)
    case ClockSpurious =>
      var k := s.clock.k;
      s.(devs := s.devs[k := s.devs[k].(eventCond := s.devs[k].eventCond - {Clock})])
    case OwnerStep(i) => s.(devs := s.devs[i := OwnerDo(s.devs[i])])
    case OwnerSpurious(i) =>
      s.(devs := s.devs[i := s.devs[i].(timerCond := s.devs[i].timerCond - {Owner})])
    case CallNextSlot(i) => s.(devs := s.devs[i := s.devs[i].(pc := EnterEvent)])
    case CallDetach(i) => s.(devs := s.devs[i := s.devs[i].(pc := EnterDetach)])
    case MainStep =>
      if s.main.Joining? then s.(stop := true, main := Stopping) else s.(main := Finished)
  }

  /** An interleaving: each step is enabled where it is taken. */
  predicate Valid(s: State, run: seq<Action>)
    decreases |run|
  {
    run == [] || (Enabled(s, run[0]) && Valid(Do(s, run[0]), run[1..]))
  }

  function Exec(s: State, run: seq<Action>): State
    requires Valid(s, run)
    decreases |run|
  {
    if run == [] then s else Exec(Do(s, run[0]), run[1..])
  }
}
