/** With an honest queue and at least one CPU every process finishes, by an explicit slot and
    after an explicit number of steps, however the threads are scheduled. */
module SimulatorLiveness {
  import opened Barrier
  import opened BarrierSafety
  import opened Simulator
  import opened SimulatorInv
  import opened SimulatorSteps
  import opened SimulatorSafety
  import opened SimulatorCompletion
  import opened SimulatorProgress
  import opened Numbers

  // ---------- the work that is left ----------

  /** Steps of work a process still needs: its instructions, its first call of run (which may
      find nothing to execute), and the slot in which a CPU finds it finished. */
  function Left(cfg: Config, s: Os, p: nat): nat {
    if p in s.finished then 0
    else
      1 + (if p in s.tried then 0 else 1)
        + (if PcOf(s.pcs, p) < SizeOf(cfg, p) then SizeOf(cfg, p) - PcOf(s.pcs, p) else 0)
  }

  function Lefts(cfg: Config, s: Os): seq<nat> {
    seq(|cfg.starts|, p requires 0 <= p => Left(cfg, s, p))
  }

  function Work(cfg: Config, s: Os): nat {
    Sum(Lefts(cfg, s))
  }

  function AllWork(cfg: Config): nat {
    Sum(seq(|cfg.starts|, p requires 0 <= p => SizeOf(cfg, p) + 2))
  }

  lemma WorkAtMost(cfg: Config, s: Os)
    ensures Work(cfg, s) <= AllWork(cfg)
  {
    SumLeq(Lefts(cfg, s), seq(|cfg.starts|, p requires 0 <= p => SizeOf(cfg, p) + 2));
  }

  lemma WorkSame(cfg: Config, s: Os, s': Os)
    requires SameProgress(s, s')
    ensures Work(cfg, s') == Work(cfg, s)
  {
    assert Lefts(cfg, s') == Lefts(cfg, s);
  }

  lemma WorkLess(cfg: Config, s: Os, s': Os, p: nat)
    requires forall q: nat :: Left(cfg, s', q) <= Left(cfg, s, q)
    requires p < |cfg.starts| && Left(cfg, s', p) < Left(cfg, s, p)
    ensures Work(cfg, s') < Work(cfg, s)
  {
    SumLess(Lefts(cfg, s'), Lefts(cfg, s), p);
  }

  lemma {:induction false} SumZero(xs: seq<nat>, k: nat)
    requires Sum(xs) == 0 && k < |xs|
    ensures xs[k] == 0
    decreases |xs|
  {
    if k == 0 {
    } else {
      SumZero(xs[1..], k - 1);
    }
  }

  lemma {:induction false} SumPositive(xs: seq<nat>) returns (k: nat)
    requires Sum(xs) > 0
    ensures k < |xs| && xs[k] > 0
    decreases |xs|
  {
    if xs[0] > 0 {
      k := 0;
    } else {
      k := SumPositive(xs[1..]);
      k := k + 1;
    }
  }

  // ---------- a process without instructions is run once ----------

  /** A process that a CPU is about to run has an instruction left or has not been tried. */
  ghost predicate TriedOk(cfg: Config, s: Os) {
    && (forall p: nat :: p in s.tried ==> p < s.next)
    && (forall p: nat :: p in s.ready && p in s.tried ==> PcOf(s.pcs, p) < SizeOf(cfg, p))
    && (forall c :: 0 <= c < |s.cpus| ==> RunnableOk(cfg, s.tried, s.pcs, s.cpus[c]))
  }

  predicate RunnableOk(cfg: Config, tried: set<nat>, pcs: map<nat, nat>, u: Cpu) {
    u.held.Some? && (u.pc.Recheck? || u.pc.Execute?) && u.held.value in tried ==>
      PcOf(pcs, u.held.value) < SizeOf(cfg, u.held.value)
  }

  lemma RunKeepsTried(cfg: Config, s: Os, c: nat)
    requires Conserved(s) && TriedOk(cfg, s) && CpuEnabled(s, c, None) && s.cpus[c].pc.Execute?
    ensures TriedOk(cfg, RunOne(cfg, s, c))
  {
    HeldNowhereElse(s, c, s.cpus[c].held.value);
  }

  // What a step of CPU `c` that runs nothing does to the processes to be run.
  ghost predicate TriedStep(cfg: Config, s: Os, s': Os, c: nat) {
    && s'.tried == s.tried && s'.pcs == s.pcs && s'.next == s.next
    && c < |s.cpus| == |s'.cpus| && s'.cpus == s.cpus[c := s'.cpus[c]]
    && (forall p: nat :: p in s'.ready ==> p in s.ready || PcOf(s.pcs, p) < SizeOf(cfg, p))
    && RunnableOk(cfg, s.tried, s.pcs, s'.cpus[c])
  }

  lemma TriedStepKeepsTried(cfg: Config, s: Os, s': Os, c: nat)
    requires TriedOk(cfg, s) && TriedStep(cfg, s, s', c)
    ensures TriedOk(cfg, s')
  {
  }

  lemma TopTriedStep(cfg: Config, s: Os, c: nat, lose: bool)
    requires FinishedOk(cfg, s) && c < |s.cpus| && s.cpus[c].pc.Top?
    ensures TriedStep(cfg, s, LookAtCurrent(cfg, s, c, lose), c)
  {
    var u := s.cpus[c];
    if u.held.Some? { assert PcOf(s.pcs, u.held.value) <= SizeOf(cfg, u.held.value); }
  }

  lemma GetTriedStep(cfg: Config, s: Os, c: nat, got: Option<nat>, lose: bool)
    requires TriedOk(cfg, s) && CpuEnabled(s, c, got) && IsGet(s.cpus[c].pc)
    ensures TriedStep(cfg, s, CpuDo(cfg, s, c, got, lose), c)
  {
    match s.cpus[c].pc {
      case GetIdle =>
      case GetAfterFinish =>
      case GetAfterPut =>
    }
  }

  lemma RecheckTriedStep(cfg: Config, s: Os, c: nat)
    requires CpuEnabled(s, c, None) && s.cpus[c].pc.Recheck?
    requires RunnableOk(cfg, s.tried, s.pcs, s.cpus[c])
    ensures TriedStep(cfg, s, LookAgain(cfg, s, c), c)
  {
  }

  lemma CpuTriedStep(cfg: Config, s: Os, c: nat, got: Option<nat>, lose: bool)
    requires TriedOk(cfg, s) && FinishedOk(cfg, s) && CpuEnabled(s, c, got) && !s.cpus[c].pc.Execute?
    ensures TriedStep(cfg, s, CpuDo(cfg, s, c, got, lose), c)
  {
    match s.cpus[c].pc {
      case Top => TopTriedStep(cfg, s, c, lose);
      case Recheck => RecheckTriedStep(cfg, s, c);
      case Yield =>
      case GetIdle | GetAfterFinish | GetAfterPut => GetTriedStep(cfg, s, c, got, lose);
    }
  }

  lemma LoaderKeepsTried(cfg: Config, s: Os, lose: bool)
    requires TriedOk(cfg, s) && LdEnabled(s)
    ensures TriedOk(cfg, LdDo(cfg, s, lose))
  {
    assert LdDo(cfg, s, lose).cpus == s.cpus;
    match s.ld {
      case LdTop =>
      case LdWait =>
      case LdAdd =>
      case LdYield =>
      case LdFinish =>
      case LdDetach =>
    }
  }

  lemma StepKeepsTried(cfg: Config, s: Os, a: OsAction)
    requires Conserved(s) && FinishedOk(cfg, s) && TriedOk(cfg, s) && OsEnabled(s, a)
    ensures TriedOk(cfg, OsDo(cfg, s, a))
  {
    match a
    case Bar(_) =>
    case LdGo(lose) => LoaderKeepsTried(cfg, s, lose);
    case CpuGo(c, got, lose) =>
      if s.cpus[c].pc.Execute? {
        RunKeepsTried(cfg, s, c);
      } else {
        CpuTriedStep(cfg, s, c, got, lose);
        TriedStepKeepsTried(cfg, s, CpuDo(cfg, s, c, got, lose), c);
      }
  }

  // ---------- work is done ----------

  lemma RunWorks(cfg: Config, s: Os, c: nat)
    requires Conserved(s) && TriedOk(cfg, s) && CpuEnabled(s, c, None) && s.cpus[c].pc.Execute?
    requires s.next <= |cfg.starts|
    ensures Work(cfg, RunOne(cfg, s, c)) < Work(cfg, s)
  {
    var p := s.cpus[c].held.value;
    HeldNowhereElse(s, c, p);
    assert RunnableOk(cfg, s.tried, s.pcs, s.cpus[c]);
    WorkLess(cfg, s, RunOne(cfg, s, c), p);
  }

  predicate Finishing(cfg: Config, s: Os, u: Cpu) {
    u.pc.Top? && u.held.Some? && PcOf(s.pcs, u.held.value) == SizeOf(cfg, u.held.value)
  }

  lemma FinishWorks(cfg: Config, s: Os, c: nat, lose: bool)
    requires Conserved(s) && c < |s.cpus| && Finishing(cfg, s, s.cpus[c]) && s.next <= |cfg.starts|
    ensures Work(cfg, LookAtCurrent(cfg, s, c, lose)) < Work(cfg, s)
  {
    var p := s.cpus[c].held.value;
    HeldNowhereElse(s, c, p);
    WorkLess(cfg, s, LookAtCurrent(cfg, s, c, lose), p);
  }

  lemma TopFinishesNothing(cfg: Config, s: Os, c: nat, lose: bool)
    requires c < |s.cpus| && !Finishing(cfg, s, s.cpus[c]) && s.cpus[c].pc.Top?
    ensures SameProgress(s, LookAtCurrent(cfg, s, c, lose))
  {
  }

  lemma GetFinishesNothing(cfg: Config, s: Os, c: nat, got: Option<nat>, lose: bool)
    requires CpuEnabled(s, c, got) && IsGet(s.cpus[c].pc)
    ensures SameProgress(s, CpuDo(cfg, s, c, got, lose))
  {
    match s.cpus[c].pc {
      case GetIdle =>
      case GetAfterFinish =>
      case GetAfterPut =>
    }
  }

  lemma OthersKeepWork(cfg: Config, s: Os, c: nat, got: Option<nat>, lose: bool)
    requires CpuEnabled(s, c, got) && !s.cpus[c].pc.Execute? && !Finishing(cfg, s, s.cpus[c])
    ensures Work(cfg, CpuDo(cfg, s, c, got, lose)) == Work(cfg, s)
  {
    match s.cpus[c].pc {
      case Top => TopFinishesNothing(cfg, s, c, lose);
      case Recheck => assert SameProgress(s, LookAgain(cfg, s, c));
      case Yield =>
      case GetIdle | GetAfterFinish | GetAfterPut => GetFinishesNothing(cfg, s, c, got, lose);
    }
    WorkSame(cfg, s, CpuDo(cfg, s, c, got, lose));
  }

  // ---------- a CPU that will work in this slot ----------

  /** The CPU is in the current slot, has not run an instruction in it yet, and has a process
      or is on its way to the queue, where one is waiting. */
  predicate Pending(u: Cpu, d: Device, time: nat, waiting: bool) {
    && FreeSlot(d) == time
    && !u.pc.Yield? && !u.pc.Stopped?
    && (u.held.Some? || (waiting && (u.pc.Top? || IsGet(u.pc))))
  }

  predicate SomePending(s: Os)
    requires |s.bar.devs| == |s.cpus| + 1
  {
    exists c :: 0 <= c < |s.cpus|
      && Pending(s.cpus[c], s.bar.devs[c + 1], s.bar.time, s.ready != multiset{})
  }

  // A step of CPU `c` leaves it pending, and makes it pending when it empties the queue.
  predicate PendingStep(s: Os, s': Os, c: nat)
    requires |s.bar.devs| == |s.cpus| + 1
  {
    && CpuFrame(s, s', c)
    && (Pending(s.cpus[c], s.bar.devs[c + 1], s.bar.time, s.ready != multiset{}) ==>
          Pending(s'.cpus[c], s'.bar.devs[c + 1], s'.bar.time, s'.ready != multiset{}))
    && (s.ready != multiset{} && s'.ready == multiset{} ==>
          Pending(s'.cpus[c], s'.bar.devs[c + 1], s'.bar.time, s'.ready != multiset{}))
  }

  lemma PendingStays(s: Os, s': Os, c: nat)
    requires |s.bar.devs| == |s.cpus| + 1 && PendingStep(s, s', c) && SomePending(s)
    ensures SomePending(s')
  {
    var e :| 0 <= e < |s.cpus|
      && Pending(s.cpus[e], s.bar.devs[e + 1], s.bar.time, s.ready != multiset{});
    if e == c || (s.ready != multiset{} && s'.ready == multiset{}) {
      assert Pending(s'.cpus[c], s'.bar.devs[c + 1], s'.bar.time, s'.ready != multiset{});
    } else {
      assert Pending(s'.cpus[e], s'.bar.devs[e + 1], s'.bar.time, s'.ready != multiset{});
    }
  }

  lemma TopStaysPending(cfg: Config, s: Os, c: nat)
    requires CpuReady(cfg, s, c, None) && s.cpus[c].pc.Top? && !Finishing(cfg, s, s.cpus[c])
    ensures PendingStep(s, LookAtCurrent(cfg, s, c, false), c)
  {
  }

  lemma RecheckStaysPending(cfg: Config, s: Os, c: nat)
    requires CpuReady(cfg, s, c, None) && s.cpus[c].pc.Recheck?
    ensures PendingStep(s, LookAgain(cfg, s, c), c)
  {
  }

  lemma GetStaysPending(cfg: Config, s: Os, c: nat, p: nat)
    requires CpuReady(cfg, s, c, Some(p)) && IsGet(s.cpus[c].pc)
    ensures PendingStep(s, CpuDo(cfg, s, c, Some(p), false), c)
  {
  }

  lemma GetNothingStaysPending(cfg: Config, s: Os, c: nat)
    requires CpuReady(cfg, s, c, None) && IsGet(s.cpus[c].pc) && s.ready == multiset{}
    ensures PendingStep(s, CpuDo(cfg, s, c, None, false), c)
  {
  }

  lemma YieldStaysPending(cfg: Config, s: Os, c: nat)
    requires CpuReady(cfg, s, c, None) && s.cpus[c].pc.Yield?
    ensures PendingStep(s, CpuDo(cfg, s, c, None, false), c)
  {
  }

  lemma CpuStaysPending(cfg: Config, s: Os, c: nat, got: Option<nat>)
    requires CpuReady(cfg, s, c, got) && Honest(s, CpuGo(c, got, false))
    requires !s.cpus[c].pc.Execute? && !Finishing(cfg, s, s.cpus[c])
    ensures PendingStep(s, CpuDo(cfg, s, c, got, false), c)
  {
    match s.cpus[c].pc {
      case Top => TopStaysPending(cfg, s, c);
      case Recheck => RecheckStaysPending(cfg, s, c);
      case Yield => YieldStaysPending(cfg, s, c);
      case GetIdle | GetAfterFinish | GetAfterPut =>
        match got {
          case None => GetNothingStaysPending(cfg, s, c);
          case Some(p) => GetStaysPending(cfg, s, c, p);
        }
    }
  }

  // A step of the barrier within a slot.
  lemma BarStaysPending(s: Os, b: Action)
    requires |s.bar.devs| == |s.cpus| + 1 && SomePending(s)
    requires Enabled(s.bar, b) && !b.CallNextSlot? && !b.CallDetach? && Do(s.bar, b).time == s.bar.time
    ensures |Do(s.bar, b).devs| == |s.bar.devs| && SomePending(s.(bar := Do(s.bar, b)))
  {
    var s' := s.(bar := Do(s.bar, b));
    var e :| 0 <= e < |s.cpus|
      && Pending(s.cpus[e], s.bar.devs[e + 1], s.bar.time, s.ready != multiset{});
    StepFollows(s.bar, b, e + 1);
    assert Pending(s'.cpus[e], s'.bar.devs[e + 1], s'.bar.time, s'.ready != multiset{});
  }

  // ---------- the tick ----------

  lemma OnlyTickMovesTime(s: State, b: Action)
    requires Enabled(s, b) && Do(s, b).time != s.time
    ensures s.clock.Tick? && Do(s, b).time == s.time + 1
  {
  }

  lemma FreeAfterTick(s: State, i: nat)
    requires Inv(s) && s.clock.Tick? && i < |s.devs| && !Leaving(s.devs[i].pc)
    ensures !s.devs[i].pc.Working? && FreeSlot(s.devs[i]) == s.time + 1
  {
    assert DeviceOk(s.time, s.clock, i, s.devs[i]);
  }

  // When the clock ticks every CPU that has not stopped is at the head of its loop.
  lemma AtTopAtTick(cfg: Config, s: Os, c: nat)
    requires OsInv(cfg, s) && s.bar.clock.Tick? && c < |s.cpus| && !s.cpus[c].pc.Stopped?
    ensures s.cpus[c].pc.Top? && FreeSlot(s.bar.devs[c + 1]) == s.bar.time + 1
  {
    assert CpuOk(cfg, s, c);
    FreeAfterTick(s.bar, c + 1);
  }

  lemma NobodyPendingAtTick(cfg: Config, s: Os)
    requires OsInv(cfg, s) && s.bar.clock.Tick?
    ensures !SomePending(s)
  {
    forall c | 0 <= c < |s.cpus|
      ensures !Pending(s.cpus[c], s.bar.devs[c + 1], s.bar.time, s.ready != multiset{})
    {
      if !s.cpus[c].pc.Stopped? { AtTopAtTick(cfg, s, c); }
    }
  }

  lemma {:induction false} SomeHolder(cpus: seq<Cpu>, p: nat) returns (c: nat)
    requires Holders(cpus, p) > 0
    ensures c < |cpus| && cpus[c].held == Some(p)
    decreases |cpus|
  {
    if cpus[0].held == Some(p) {
      c := 0;
    } else {
      c := SomeHolder(cpus[1..], p);
      c := c + 1;
    }
  }

  // As long as work is left, some CPU has a process or will find one.
  lemma SomeoneToWork(cfg: Config, s: Os) returns (c: nat)
    requires OsInv(cfg, s) && s.lost == multiset{} && s.next == |cfg.starts|
    requires s.ready != multiset{} ==> SomeServing(s.cpus)
    requires Work(cfg, s) > 0
    ensures c < |s.cpus| && !s.cpus[c].pc.Stopped?
    ensures s.cpus[c].held.Some? || s.ready != multiset{}
  {
    if s.ready != multiset{} {
      c :| 0 <= c < |s.cpus| && Serving(s.cpus[c]);
    } else {
      var p := SumPositive(Lefts(cfg, s));
      assert Copies(s, p) == 1;
      c := SomeHolder(s.cpus, p);
      assert CpuOk(cfg, s, c);
    }
  }

  lemma TickMakesPending(cfg: Config, s: Os, b: Action)
    requires OsInv(cfg, s) && OsEnabled(s, Bar(b)) && Do(s.bar, b).time != s.bar.time
    requires Attended(s) && |s.cpus| > 0 && s.next == |cfg.starts| && Work(cfg, s) > 0
    ensures |Do(s.bar, b).devs| == |s.bar.devs| && SomePending(s.(bar := Do(s.bar, b)))
  {
    OnlyTickMovesTime(s.bar, b);
    if JustAdded(s) { TickLeavesServing(cfg, s, b); }
    var c := SomeoneToWork(cfg, s);
    AtTopAtTick(cfg, s, c);
    StepFollows(s.bar, b, c + 1);
    var s' := s.(bar := Do(s.bar, b));
    assert Pending(s'.cpus[c], s'.bar.devs[c + 1], s'.bar.time, s'.ready != multiset{});
  }

  // ---------- in every slot some work is done ----------

  /** The slot by which all work is done: after the last process has been added, one slot for
      every step of work. */
  function Deadline(cfg: Config): nat
    requires |cfg.starts| > 0
  {
    Due(cfg, |cfg.starts| - 1) + 1 + AllWork(cfg)
  }

  predicate OnTime(cfg: Config, s: Os)
    requires |cfg.starts| > 0 && |s.bar.devs| == |s.cpus| + 1
  {
    s.next == |cfg.starts| ==>
      || Work(cfg, s) == 0
      || s.bar.time + Work(cfg, s) < Deadline(cfg)
      || (s.bar.time + Work(cfg, s) == Deadline(cfg) && SomePending(s))
  }

  ghost predicate Going(cfg: Config, s: Os) {
    && OsInv(cfg, s) && TriedOk(cfg, s) && Attended(s)
    && |s.cpus| > 0 && |cfg.starts| > 0
    && OnTime(cfg, s)
  }

  lemma BarKeepsOnTime(cfg: Config, s: Os, b: Action)
    requires Going(cfg, s) && OsEnabled(s, Bar(b))
    ensures |Do(s.bar, b).devs| == |s.bar.devs| && OnTime(cfg, s.(bar := Do(s.bar, b)))
  {
    var s' := s.(bar := Do(s.bar, b));
    StepFollows(s.bar, b, 0);
    WorkSame(cfg, s, s');
    if s.next == |cfg.starts| && Work(cfg, s) > 0 {
      if s'.bar.time == s.bar.time {
        if SomePending(s) { BarStaysPending(s, b); }
      } else {
        OnlyTickMovesTime(s.bar, b);
        NobodyPendingAtTick(cfg, s);
        TickMakesPending(cfg, s, b);
      }
    }
  }

  lemma OthersKeepOnTime(cfg: Config, s: Os, c: nat, got: Option<nat>)
    requires Going(cfg, s) && CpuEnabled(s, c, got) && Honest(s, CpuGo(c, got, false))
    requires !s.cpus[c].pc.Execute? && !Finishing(cfg, s, s.cpus[c])
    ensures var s' := CpuDo(cfg, s, c, got, false);
      && Work(cfg, s') == Work(cfg, s)
      && |s'.bar.devs| == |s'.cpus| + 1
      && (SomePending(s) ==> SomePending(s'))
  {
    OthersKeepWork(cfg, s, c, got, false);
    WorkingIsInStep(s.bar, c + 1);
    CpuStaysPending(cfg, s, c, got);
    if SomePending(s) { PendingStays(s, CpuDo(cfg, s, c, got, false), c); }
  }

  lemma CpuKeepsOnTime(cfg: Config, s: Os, c: nat, got: Option<nat>)
    requires Going(cfg, s) && CpuEnabled(s, c, got) && Honest(s, CpuGo(c, got, false))
    ensures var s' := CpuDo(cfg, s, c, got, false);
      |s'.bar.devs| == |s'.cpus| + 1 && OnTime(cfg, s')
  {
    var s' := CpuDo(cfg, s, c, got, false);
    OsStepKeepsInv(cfg, s, CpuGo(c, got, false));
    CpuCallsBarrier(cfg, s, c, got, false);
    CpuLeavesLoader(cfg, s, c, got, false);
    if s.cpus[c].pc.Execute? {
      RunWorks(cfg, s, c);
    } else if Finishing(cfg, s, s.cpus[c]) {
      FinishWorks(cfg, s, c, false);
    } else {
      OthersKeepOnTime(cfg, s, c, got);
    }
  }

  lemma LastAddOnTime(cfg: Config, s: Os)
    requires OsInv(cfg, s) && LdEnabled(s) && s.ld.LdAdd? && s.next + 1 == |cfg.starts|
    ensures OnTime(cfg, LdDo(cfg, s, false))
  {
    WorkingIsInStep(s.bar, 0);
    WorkAtMost(cfg, LdDo(cfg, s, false));
  }

  lemma LoaderStaysPending(s: Os, s': Os)
    requires |s.bar.devs| == |s.cpus| + 1 && LoaderFrame(s, s') && s'.ready == s.ready
    requires SomePending(s)
    ensures SomePending(s')
  {
    var e :| 0 <= e < |s.cpus|
      && Pending(s.cpus[e], s.bar.devs[e + 1], s.bar.time, s.ready != multiset{});
    assert Pending(s'.cpus[e], s'.bar.devs[e + 1], s'.bar.time, s'.ready != multiset{});
  }

  lemma LoaderAddsOrNot(cfg: Config, s: Os)
    requires LdEnabled(s)
    ensures var s' := LdDo(cfg, s, false);
      && SameProgress(s, s')
      && (if s.ld.LdAdd? then s'.next == s.next + 1 else s'.next == s.next && s'.ready == s.ready)
  {
    match s.ld {
      case LdTop =>
      case LdWait =>
      case LdAdd =>
      case LdYield =>
      case LdFinish =>
      case LdDetach =>
    }
  }

  lemma LoaderKeepsOnTime(cfg: Config, s: Os)
    requires Going(cfg, s) && LdEnabled(s)
    ensures var s' := LdDo(cfg, s, false);
      |s'.bar.devs| == |s'.cpus| + 1 && OnTime(cfg, s')
  {
    var s' := LdDo(cfg, s, false);
    LoaderKeepsFrame(cfg, s, false);
    LoaderAddsOrNot(cfg, s);
    WorkSame(cfg, s, s');
    if s.ld.LdAdd? {
      if s'.next == |cfg.starts| { LastAddOnTime(cfg, s); }
    } else if SomePending(s) {
      LoaderStaysPending(s, s');
    }
  }

  lemma StepKeepsGoing(cfg: Config, s: Os, a: OsAction)
    requires Going(cfg, s) && OsEnabled(s, a) && Honest(s, a)
    ensures Going(cfg, OsDo(cfg, s, a))
  {
    StepKeepsAttended(cfg, s, a);
    StepKeepsTried(cfg, s, a);
    match a
    case Bar(b) => BarKeepsOnTime(cfg, s, b);
    case CpuGo(c, got, lose) => CpuKeepsOnTime(cfg, s, c, got);
    case LdGo(lose) => LoaderKeepsOnTime(cfg, s);
  }

  lemma {:induction false} RunKeepsGoing(cfg: Config, s: Os, run: seq<OsAction>)
    requires Going(cfg, s) && OsValid(cfg, s, run) && HonestRun(cfg, s, run)
    ensures Going(cfg, OsExec(cfg, s, run))
    decreases |run|
  {
    if run == [] {
    } else {
      StepKeepsGoing(cfg, s, run[0]);
      RunKeepsGoing(cfg, OsDo(cfg, s, run[0]), run[1..]);
    }
  }

  // ---------- every process finishes ----------

  // Until the last process has been added the clock does not pass the slot in which it is due.
  lemma LoaderOnTime(cfg: Config, s: Os)
    requires OsInv(cfg, s) && s.next < |cfg.starts|
    ensures s.bar.time <= Due(cfg, |cfg.starts| - 1)
  {
    assert DeviceOk(s.bar.time, s.bar.clock, 0, s.bar.devs[0]);
    if s.next < |cfg.starts| - 1 { DueIncreases(cfg, s.next, |cfg.starts| - 1); }
  }

  lemma NoWorkLeft(cfg: Config, s: Os, p: nat)
    requires Going(cfg, s) && p < |cfg.starts| && s.bar.time >= Deadline(cfg)
    ensures s.finished[p] == 1 && Trace(s.log, p) == UpTo(SizeOf(cfg, p))
  {
    if s.next < |cfg.starts| { LoaderOnTime(cfg, s); }
    assert Work(cfg, s) == 0;
    SumZero(Lefts(cfg, s), p);
    assert Left(cfg, s, p) == 0;
    assert Copies(s, p) == 1;
    assert Trace(s.log, p) == UpTo(PcOf(s.pcs, p));
  }

  /** With an honest queue and at least one CPU every process has finished by the slot
      `Deadline`, whatever the interleaving and whichever process get_proc picks. */
  lemma EveryProcessFinishes(cfg: Config, cpus: nat, run: seq<OsAction>, p: nat)
    requires IsRun(cfg, cpus, run) && HonestRun(cfg, Boot(cpus), run)
    requires cpus > 0 && p < |cfg.starts|
    requires AfterRun(cfg, cpus, run).bar.time >= Deadline(cfg)
    ensures var s := AfterRun(cfg, cpus, run);
      && s.finished[p] == 1
      && Trace(s.log, p) == UpTo(SizeOf(cfg, p))
  {
    BootInv(cfg, cpus);
    RunKeepsGoing(cfg, Boot(cpus), run);
    NoWorkLeft(cfg, AfterRun(cfg, cpus, run), p);
  }

  // ---------- and in a bounded number of steps ----------

  lemma ProgramKeepsTime(cfg: Config, s: Os, a: OsAction)
    requires OsEnabled(s, a) && !a.Bar?
    ensures OsDo(cfg, s, a).bar.time == s.bar.time
  {
    match a
    case LdGo(lose) =>
    case CpuGo(c, got, lose) =>
      match s.cpus[c].pc {
        case Top =>
        case Recheck =>
        case Execute =>
        case Yield =>
        case GetIdle | GetAfterFinish | GetAfterPut =>
      }
  }

  lemma StepTicksOnce(cfg: Config, s: Os, a: OsAction)
    requires OsEnabled(s, a)
    ensures var t := OsDo(cfg, s, a).bar.time;
      t == s.bar.time || (t == s.bar.time + 1 && a.Bar? && s.bar.clock.Tick?)
  {
    if !a.Bar? {
      ProgramKeepsTime(cfg, s, a);
    } else if Do(s.bar, a.a).time != s.bar.time {
      OnlyTickMovesTime(s.bar, a.a);
    }
  }

  lemma SteadyStep(cfg: Config, s: Os, a: OsAction)
    requires OsInv(cfg, s) && OsEnabled(s, a) && Steady(a)
    ensures var s' := OsDo(cfg, s, a);
      && OsInv(cfg, s') && |s'.cpus| == |s.cpus|
      && (|| (s'.bar.time == s.bar.time && OsRank(s') < OsRank(s))
          || (s'.bar.time == s.bar.time + 1 && OsRank(s') <= 40 * |s.cpus| + 46))
  {
    OsRankDecreases(cfg, s, a);
    StepKeepsCpuCount(cfg, s, a);
    StepTicksOnce(cfg, s, a);
    RankLimit(OsDo(cfg, s, a));
  }

  lemma LaterSlot(t: nat, u: nat, k: nat)
    requires t < u
    ensures t * k + k <= u * k
  {
    assert u * k == (t + 1) * k + (u - t - 1) * k;
  }

  // `k` is one more than the limit of the rank: so many steps pass a slot.
  lemma {:induction false} StepsPerSlot(cfg: Config, s: Os, run: seq<OsAction>, k: nat)
    requires OsInv(cfg, s) && OsValid(cfg, s, run) && AllSteady(run)
    requires k == 40 * |s.cpus| + 47
    ensures |run| + s.bar.time * k <= OsExec(cfg, s, run).bar.time * k + OsRank(s)
    decreases |run|
  {
    if run == [] {
    } else {
      var s' := OsDo(cfg, s, run[0]);
      SteadyStep(cfg, s, run[0]);
      StepsPerSlot(cfg, s', run[1..], k);
      if s.bar.time < s'.bar.time { LaterSlot(s.bar.time, s'.bar.time, k); }
    }
  }

  /** So every run of so many steps finishes every process, spurious wake-ups aside. */
  lemma EveryLongRunFinishes(cfg: Config, cpus: nat, run: seq<OsAction>, p: nat)
    requires IsRun(cfg, cpus, run) && HonestRun(cfg, Boot(cpus), run) && AllSteady(run)
    requires cpus > 0 && p < |cfg.starts|
    requires |run| >= Deadline(cfg) * (40 * cpus + 47)
    ensures var s := AfterRun(cfg, cpus, run);
      && s.finished[p] == 1
      && Trace(s.log, p) == UpTo(SizeOf(cfg, p))
  {
    LongRunPasses(cfg, cpus, run, Deadline(cfg));
    EveryProcessFinishes(cfg, cpus, run, p);
  }

  lemma LongRunPasses(cfg: Config, cpus: nat, run: seq<OsAction>, t: nat)
    requires IsRun(cfg, cpus, run) && AllSteady(run) && |run| >= t * (40 * cpus + 47)
    ensures AfterRun(cfg, cpus, run).bar.time >= t
  {
    BootInv(cfg, cpus);
    StepsPerSlot(cfg, Boot(cpus), run, 40 * cpus + 47);
    RankLimit(Boot(cpus));
    if AfterRun(cfg, cpus, run).bar.time < t {
      LaterSlot(AfterRun(cfg, cpus, run).bar.time, t, 40 * cpus + 47);
    }
  }

  /** Honest runs do not get stuck before that: until everything has ended some thread can take
      an honest step that is not a spurious wake-up. */
  lemma HonestGoesOn(cfg: Config, s: Os) returns (a: OsAction)
    requires OsInv(cfg, s) && !s.bar.main.Finished?
    ensures Steady(a) && OsEnabled(s, a) && Honest(s, a)
  {
    a := SomeoneGoesOn(cfg, s);
    match a {
      case Bar(_) =>
      case LdGo(_) => a := LdGo(false);
      case CpuGo(c, _, _) =>
        if IsGet(s.cpus[c].pc) && s.ready != multiset{} {
          var p :| p in s.ready;
          a := CpuGo(c, Some(p), false);
        } else {
          a := CpuGo(c, None, false);
        }
    }
  }
}
