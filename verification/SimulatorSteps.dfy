/** Every step of the simulator keeps the invariant. */
module SimulatorSteps {
  import opened Barrier
  import opened BarrierSafety
  import opened Simulator
  import opened SimulatorInv
  import opened Numbers

  // ---------- counting holders ----------

  lemma {:induction false} HoldersUpdate(cpus: seq<Cpu>, c: nat, u: Cpu, p: nat)
    requires c < |cpus|
    ensures Holders(cpus[c := u], p) == Holders(cpus, p) - Holds(cpus[c], p) + Holds(u, p)
    decreases |cpus|
  {
    var cpus' := cpus[c := u];
    if c == 0 {
      assert cpus'[1..] == cpus[1..];
    } else {
      assert cpus'[1..] == cpus[1..][c - 1 := u];
      HoldersUpdate(cpus[1..], c - 1, u, p);
    }
  }

  lemma HoldersAtLeast(cpus: seq<Cpu>, c: nat, p: nat)
    requires c < |cpus|
    ensures Holds(cpus[c], p) <= Holders(cpus, p)
  {
    HoldersUpdate(cpus, c, Cpu(Top, None, 0, 0, 0), p);
  }

  lemma TwoHolders(cpus: seq<Cpu>, c: nat, e: nat, p: nat)
    requires c < |cpus| && e < |cpus| && c != e
    requires cpus[c].held == Some(p) && cpus[e].held == Some(p)
    ensures Holders(cpus, p) >= 2
  {
    var idle := Cpu(Top, None, 0, 0, 0);
    HoldersUpdate(cpus, c, idle, p);
    HoldersUpdate(cpus[c := idle], e, idle, p);
  }

  /** A process that one CPU holds is nowhere else. */
  lemma HeldNowhereElse(s: Os, c: nat, p: nat)
    requires Conserved(s) && c < |s.cpus| && s.cpus[c].held == Some(p)
    ensures p !in s.ready && p !in s.finished && p !in s.lost && p < s.next
    ensures forall e :: 0 <= e < |s.cpus| && e != c ==> s.cpus[e].held != Some(p)
  {
    HoldersAtLeast(s.cpus, c, p);
    assert Copies(s, p) == if p < s.next then 1 else 0;
    forall e | 0 <= e < |s.cpus| && e != c ensures s.cpus[e].held != Some(p) {
      if s.cpus[e].held == Some(p) { TwoHolders(s.cpus, c, e, p); }
    }
  }

  lemma ReadyNowhereElse(s: Os, p: nat)
    requires Conserved(s) && p in s.ready
    ensures s.ready[p] == 1 && p !in s.finished && p !in s.lost && p < s.next
    ensures forall c :: 0 <= c < |s.cpus| ==> s.cpus[c].held != Some(p)
  {
    assert Copies(s, p) == if p < s.next then 1 else 0;
    forall c | 0 <= c < |s.cpus| ensures s.cpus[c].held != Some(p) {
      if s.cpus[c].held == Some(p) { HeldNowhereElse(s, c, p); }
    }
  }

  // ---------- what one device sees of a step of the barrier ----------

  lemma WorkingIsInStep(s: State, i: nat)
    requires Inv(s) && i < |s.devs| && s.devs[i].pc.Working?
    ensures s.devs[i].slots == s.time
  {
    assert DeviceOk(s.time, s.clock, i, s.devs[i]);
  }

  lemma SlotsBelowTime(s: State, i: nat)
    requires Inv(s) && i < |s.devs|
    ensures s.devs[i].slots <= s.time
  {
    assert DeviceOk(s.time, s.clock, i, s.devs[i]);
  }

  predicate Follows(d: Device, e: Device) {
    && (d.pc.Working? ==> e.pc.Working? && e.slots == d.slots)
    && (Leaving(d.pc) <==> Leaving(e.pc))
    && d.slots <= e.slots
    && FreeSlot(e) == FreeSlot(d)
  }

  lemma OwnerFollows(d: Device)
    requires OwnerEnabled(d) && (Leaving(d.pc) || !d.pc.Working?)
    ensures Follows(d, OwnerDo(d))
  {
  }

  lemma VisitFollows(t: ClockPc, d: Device)
    requires AtDevice(t)
    ensures Follows(d, VisitDo(t, d))
  {
  }

  lemma StepFollows(s: State, b: Action, i: nat)
    requires Enabled(s, b) && !b.CallNextSlot? && !b.CallDetach? && i < |s.devs|
    ensures |Do(s, b).devs| == |s.devs| && Follows(s.devs[i], Do(s, b).devs[i])
    ensures s.time <= Do(s, b).time
  {
    match b {
      case ClockStep =>
        if AtDevice(s.clock) && s.clock.k < |s.devs| { VisitFollows(s.clock, s.devs[s.clock.k]); }
      case OwnerStep(j) => OwnerFollows(s.devs[j]);
      case _ =>
    }
  }

  // ---------- steps of the barrier ----------

  lemma BarKeepsCpu(cfg: Config, s: Os, b: Action, c: nat)
    requires OsInv(cfg, s) && OsEnabled(s, Bar(b)) && c < |s.cpus|
    ensures |OsDo(cfg, s, Bar(b)).bar.devs| == |s.bar.devs| && CpuOk(cfg, OsDo(cfg, s, Bar(b)), c)
  {
    assert CpuOk(cfg, s, c);
    StepFollows(s.bar, b, c + 1);
    if s.bar.devs[c + 1].pc.Working? {
      WorkingFreezesStep(s.bar, c + 1, b);
    }
  }

  lemma BarKeepsLoader(cfg: Config, s: Os, b: Action)
    requires OsInv(cfg, s) && OsEnabled(s, Bar(b))
    ensures |Do(s.bar, b).devs| == |s.bar.devs|
    ensures LdOk(cfg, s.ld, s.next, s.done, s.addedAt, Do(s.bar, b).devs[0])
  {
    StepFollows(s.bar, b, 0);
  }

  // What the log's bounds see of a step of the barrier.
  predicate BarFrame(s: Os, s': Os)
    requires |s.bar.devs| == |s.cpus| + 1
  {
    && s'.cpus == s.cpus && s'.log == s.log && s'.ready == s.ready && s'.next == s.next
    && |s'.bar.devs| == |s.bar.devs| && s.bar.time <= s'.bar.time
    && forall c :: 0 <= c < |s.cpus| ==>
         NextRun(s'.cpus[c], s'.bar.devs[c + 1]) == NextRun(s.cpus[c], s.bar.devs[c + 1])
  }

  lemma BarFrameKeepsLog(s: Os, s': Os)
    requires |s.bar.devs| == |s.cpus| + 1 && BarFrame(s, s') && LogBounded(s) && RunnersBounded(s)
    ensures LogBounded(s') && RunnersBounded(s')
  {
  }

  lemma FollowsKeepsNextRun(u: Cpu, d: Device, e: Device)
    requires PlaceOkCpu(u, d) && Follows(d, e)
    ensures NextRun(u, e) == NextRun(u, d)
  {
  }

  lemma BarKeepsFrame(cfg: Config, s: Os, b: Action)
    requires OsInv(cfg, s) && OsEnabled(s, Bar(b))
    ensures BarFrame(s, s.(bar := Do(s.bar, b)))
  {
    var s' := s.(bar := Do(s.bar, b));
    StepFollows(s.bar, b, 0);
    forall c | 0 <= c < |s.cpus|
      ensures NextRun(s'.cpus[c], s'.bar.devs[c + 1]) == NextRun(s.cpus[c], s.bar.devs[c + 1])
    {
      StepFollows(s.bar, b, c + 1);
      assert PlaceOkCpu(s.cpus[c], s.bar.devs[c + 1]) by { assert CpuOk(cfg, s, c); }
      FollowsKeepsNextRun(s.cpus[c], s.bar.devs[c + 1], s'.bar.devs[c + 1]);
    }
  }

  lemma BarKeepsInv(cfg: Config, s: Os, b: Action)
    requires OsInv(cfg, s) && OsEnabled(s, Bar(b))
    ensures OsInv(cfg, OsDo(cfg, s, Bar(b)))
  {
    StepKeepsInv(s.bar, b);
    BarKeepsLoader(cfg, s, b);
    BarKeepsFrame(cfg, s, b);
    BarFrameKeepsLog(s, OsDo(cfg, s, Bar(b)));
    forall c | 0 <= c < |s.cpus| ensures CpuOk(cfg, OsDo(cfg, s, Bar(b)), c) {
      BarKeepsCpu(cfg, s, b, c);
    }
    var s' := OsDo(cfg, s, Bar(b));
    assert forall p: nat :: Copies(s', p) == Copies(s, p);
  }

  // ---------- steps of a CPU ----------

  /** A step of CPU `c` changes no other CPU, no other device and not the clock. */
  predicate CpuFrame(s: Os, s': Os, c: nat)
    requires |s.bar.devs| == |s.cpus| + 1
  {
    && c < |s.cpus|
    && |s'.cpus| == |s.cpus| && |s'.bar.devs| == |s.bar.devs|
    && s'.cpus == s.cpus[c := s'.cpus[c]]
    && (forall i :: 0 <= i < |s.bar.devs| && i != c + 1 ==> s'.bar.devs[i] == s.bar.devs[i])
    && s'.bar.time == s.bar.time
    && s'.ld == s.ld && s'.next == s.next && s'.done == s.done && s'.addedAt == s.addedAt
  }

  lemma FrameKeepsCpus(cfg: Config, s: Os, s': Os, c: nat)
    requires OsInv(cfg, s) && CpuFrame(s, s', c) && CpuOk(cfg, s', c)
    requires forall p: nat :: PcOf(s'.pcs, p) != PcOf(s.pcs, p) ==> s.cpus[c].held == Some(p)
    ensures CpusOk(cfg, s')
  {
    forall e | 0 <= e < |s.cpus| ensures CpuOk(cfg, s', e) {
      if e != c {
        assert CpuOk(cfg, s, e);
        if s.cpus[c].held.Some? { HeldNowhereElse(s, c, s.cpus[c].held.value); }
      }
    }
  }

  // No process appears or disappears.
  ghost predicate Balanced(s: Os, s': Os, c: nat)
    requires c < |s.cpus| && c < |s'.cpus|
  {
    forall p: nat :: s'.ready[p] + Holds(s'.cpus[c], p) + s'.finished[p] + s'.lost[p]
                     == s.ready[p] + Holds(s.cpus[c], p) + s.finished[p] + s.lost[p]
  }

  lemma FrameKeepsConserved(s: Os, s': Os, c: nat)
    requires |s.bar.devs| == |s.cpus| + 1 && Conserved(s) && CpuFrame(s, s', c)
    requires Balanced(s, s', c)
    ensures Conserved(s')
  {
    forall p: nat ensures Copies(s', p) == if p < s'.next then 1 else 0 {
      HoldersUpdate(s.cpus, c, s'.cpus[c], p);
      assert Copies(s, p) == if p < s.next then 1 else 0;
    }
  }

  // A process reaches the queue or a CPU only after the slot of its last instruction.
  predicate InTime(s: Os, s': Os, c: nat)
    requires |s.bar.devs| == |s.cpus| + 1 && CpuFrame(s, s', c)
  {
    var u, u' := s.cpus[c], s'.cpus[c];
    var r, r' := NextRun(u, s.bar.devs[c + 1]), NextRun(u', s'.bar.devs[c + 1]);
    && r <= r'
    && (forall p :: p in s'.ready ==> p in s.ready || (u.held == Some(p) && r <= s.bar.time))
    && (u'.held.Some? ==>
         || (u'.held.value in s.ready && s.bar.time <= r')
         || u.held == u'.held)
  }

  lemma FrameKeepsLog(s: Os, s': Os, c: nat)
    requires |s.bar.devs| == |s.cpus| + 1 && CpuFrame(s, s', c)
    requires LogBounded(s) && s'.log == s.log && InTime(s, s', c)
    ensures LogBounded(s')
  {
  }

  lemma FrameKeepsRunners(s: Os, s': Os, c: nat)
    requires |s.bar.devs| == |s.cpus| + 1 && CpuFrame(s, s', c)
    requires RunnersBounded(s) && s'.log == s.log && InTime(s, s', c)
    ensures RunnersBounded(s')
  {
  }

  /** A step of a CPU that runs no instruction keeps everything it has to. */
  lemma QuietStepKeepsInv(cfg: Config, s: Os, s': Os, c: nat)
    requires OsInv(cfg, s) && CpuFrame(s, s', c) && CpuOk(cfg, s', c)
    requires Inv(s'.bar) && s'.bar.devs[0] == s.bar.devs[0]
    requires s'.pcs == s.pcs && s'.log == s.log
    requires Balanced(s, s', c) && InTime(s, s', c) && FinishedOk(cfg, s')
    ensures OsInv(cfg, s')
  {
    FrameKeepsCpus(cfg, s, s', c);
    FrameKeepsConserved(s, s', c);
    FrameKeepsLog(s, s', c);
    FrameKeepsRunners(s, s', c);
  }

  /** What the step of one CPU has to establish about itself. */
  ghost predicate QuietStep(cfg: Config, s: Os, s': Os, c: nat)
    requires |s.bar.devs| == |s.cpus| + 1
  {
    CpuFrame(s, s', c) && CpuOk(cfg, s', c) && Balanced(s, s', c) && InTime(s, s', c)
  }

  predicate CpuReady(cfg: Config, s: Os, c: nat, got: Option<nat>) {
    && |s.bar.devs| == |s.cpus| + 1
    && CpuEnabled(s, c, got)
    && CpuOk(cfg, s, c)
    && s.bar.devs[c + 1].slots == s.bar.time
  }

  lemma FinishQuiet(cfg: Config, s: Os, c: nat, lose: bool)
    requires CpuReady(cfg, s, c, None) && s.cpus[c].pc.Top? && s.cpus[c].held.Some?
    requires PcOf(s.pcs, s.cpus[c].held.value) == SizeOf(cfg, s.cpus[c].held.value)
    ensures QuietStep(cfg, s, LookAtCurrent(cfg, s, c, lose), c)
  {
  }

  lemma PutQuiet(cfg: Config, s: Os, c: nat, lose: bool)
    requires CpuReady(cfg, s, c, None) && s.cpus[c].pc.Top? && s.cpus[c].held.Some?
    requires PcOf(s.pcs, s.cpus[c].held.value) != SizeOf(cfg, s.cpus[c].held.value)
    requires s.cpus[c].timeLeft == 0
    ensures QuietStep(cfg, s, LookAtCurrent(cfg, s, c, lose), c)
  {
  }

  // Looking at the current process: it goes to the finished ones, to the queue, or stays.
  lemma LookAtCurrentQuiet(cfg: Config, s: Os, c: nat, lose: bool)
    requires CpuReady(cfg, s, c, None) && s.cpus[c].pc.Top?
    ensures QuietStep(cfg, s, LookAtCurrent(cfg, s, c, lose), c)
  {
    var u := s.cpus[c];
    if u.held.Some? && PcOf(s.pcs, u.held.value) == SizeOf(cfg, u.held.value) {
      FinishQuiet(cfg, s, c, lose);
    } else if u.held.Some? && u.timeLeft == 0 {
      PutQuiet(cfg, s, c, lose);
    }
  }

  // get_proc moves a process from the queue to the CPU, if it returns one.
  lemma GetQuiet(cfg: Config, s: Os, c: nat, p: nat, lose: bool)
    requires CpuReady(cfg, s, c, Some(p)) && IsGet(s.cpus[c].pc)
    ensures QuietStep(cfg, s, CpuDo(cfg, s, c, Some(p), lose), c)
  {
  }

  lemma GetNothingQuiet(cfg: Config, s: Os, c: nat, lose: bool)
    requires CpuReady(cfg, s, c, None) && IsGet(s.cpus[c].pc)
    ensures QuietStep(cfg, s, CpuDo(cfg, s, c, None, lose), c)
  {
  }

  lemma DispatchQuiet(cfg: Config, s: Os, c: nat)
    requires CpuReady(cfg, s, c, None) && s.cpus[c].pc.Recheck? && s.cpus[c].held.Some?
    ensures QuietStep(cfg, s, LookAgain(cfg, s, c), c)
  {
  }

  lemma LookAgainQuiet(cfg: Config, s: Os, c: nat)
    requires CpuReady(cfg, s, c, None) && s.cpus[c].pc.Recheck?
    requires s.done ==> AllBefore(s.addedAt, s.bar.time)
    ensures QuietStep(cfg, s, LookAgain(cfg, s, c), c)
  {
    if s.cpus[c].held.Some? { DispatchQuiet(cfg, s, c); }
  }

  lemma YieldQuiet(cfg: Config, s: Os, c: nat, lose: bool)
    requires CpuReady(cfg, s, c, None) && s.cpus[c].pc.Yield?
    ensures QuietStep(cfg, s, CpuDo(cfg, s, c, None, lose), c)
  {
  }

  // A step of a CPU reaches the barrier only by a call.
  lemma CpuCallsBarrier(cfg: Config, s: Os, c: nat, got: Option<nat>, lose: bool)
    requires CpuEnabled(s, c, got) && Inv(s.bar)
    ensures var s' := CpuDo(cfg, s, c, got, lose); Inv(s'.bar) && s'.bar.time == s.bar.time
  {
    StepKeepsInv(s.bar, CallNextSlot(c + 1));
    StepKeepsInv(s.bar, CallDetach(c + 1));
  }

  lemma CpuKeepsFinished(cfg: Config, s: Os, c: nat, got: Option<nat>, lose: bool)
    requires CpuEnabled(s, c, got) && !s.cpus[c].pc.Execute? && FinishedOk(cfg, s)
    ensures var s' := CpuDo(cfg, s, c, got, lose);
      && s'.pcs == s.pcs && s'.log == s.log && FinishedOk(cfg, s')
  {
  }

  lemma CpuIsQuiet(cfg: Config, s: Os, c: nat, got: Option<nat>, lose: bool)
    requires CpuReady(cfg, s, c, got) && !s.cpus[c].pc.Execute?
    requires s.cpus[c].pc.Recheck? && s.done ==> AllBefore(s.addedAt, s.bar.time)
    ensures QuietStep(cfg, s, CpuDo(cfg, s, c, got, lose), c)
  {
    match s.cpus[c].pc {
      case Top => LookAtCurrentQuiet(cfg, s, c, lose);
      case Recheck => LookAgainQuiet(cfg, s, c);
      case Yield => YieldQuiet(cfg, s, c, lose);
      case GetIdle | GetAfterFinish | GetAfterPut =>
        if got.Some? { GetQuiet(cfg, s, c, got.value, lose); } else { GetNothingQuiet(cfg, s, c, lose); }
    }
  }

  /** Nothing is added in or after the slot in which the loader has set `done`. */
  lemma DoneIsLater(cfg: Config, s: Os)
    requires OsInv(cfg, s) && s.done
    ensures AllBefore(s.addedAt, s.bar.time) && s.next == |cfg.starts|
  {
    SlotsBelowTime(s.bar, 0);
    forall k | 0 <= k < s.next ensures s.addedAt[k] < s.bar.time {
      if k < s.next - 1 { DueIncreases(cfg, k, s.next - 1); }
    }
  }

  lemma CpuStepIsQuiet(cfg: Config, s: Os, c: nat, got: Option<nat>, lose: bool)
    requires OsInv(cfg, s) && CpuEnabled(s, c, got) && !s.cpus[c].pc.Execute?
    ensures QuietStep(cfg, s, CpuDo(cfg, s, c, got, lose), c)
  {
    WorkingIsInStep(s.bar, c + 1);
    if s.done { DoneIsLater(cfg, s); }
    CpuIsQuiet(cfg, s, c, got, lose);
  }

  // ---------- the step that runs an instruction ----------

  lemma {:induction false} TraceAppend(log: seq<Entry>, e: Entry, p: nat)
    ensures Trace(log + [e], p) == Trace(log, p) + if e.proc == p then [e.index] else []
  {
    assert (log + [e])[..|log|] == log;
  }

  lemma UpToNext(n: nat)
    ensures UpTo(n + 1) == UpTo(n) + [n]
  {
  }

  // Executing the next instruction of q extends the trace of q and no other.
  lemma TraceNext(log: seq<Entry>, pcs: map<nat, nat>, e: Entry, p: nat)
    requires Trace(log, p) == UpTo(PcOf(pcs, p)) && e.index == PcOf(pcs, e.proc)
    ensures Trace(log + [e], p) == UpTo(PcOf(pcs[e.proc := e.index + 1], p))
  {
    TraceAppend(log, e, p);
    UpToNext(PcOf(pcs, p));
  }

  lemma TracesNext(log: seq<Entry>, pcs: map<nat, nat>, e: Entry)
    requires e.index == PcOf(pcs, e.proc)
    requires forall p: nat :: Trace(log, p) == UpTo(PcOf(pcs, p))
    ensures forall p: nat :: Trace(log + [e], p) == UpTo(PcOf(pcs[e.proc := e.index + 1], p))
  {
    forall p: nat ensures Trace(log + [e], p) == UpTo(PcOf(pcs[e.proc := e.index + 1], p)) {
      TraceNext(log, pcs, e, p);
    }
  }

  lemma RunKeepsTrace(cfg: Config, s: Os, c: nat)
    requires c < |s.cpus| && s.cpus[c].held.Some? && TraceOk(s)
    ensures TraceOk(RunOne(cfg, s, c))
  {
    var q := s.cpus[c].held.value;
    if PcOf(s.pcs, q) < SizeOf(cfg, q) {
      TracesNext(s.log, s.pcs, Entry(q, PcOf(s.pcs, q), s.bar.time, c));
    }
  }

  lemma RunKeepsLog(cfg: Config, s: Os, c: nat)
    requires CpuReady(cfg, s, c, None) && s.cpus[c].pc.Execute?
    requires Conserved(s) && LogBounded(s) && RunnersBounded(s) && LogOrdered(s.log)
    ensures LogBounded(RunOne(cfg, s, c)) && LogOrdered(RunOne(cfg, s, c).log)
    ensures RunnersBounded(RunOne(cfg, s, c))
  {
    var p := s.cpus[c].held.value;
    HeldNowhereElse(s, c, p);
    RunIsLater(s, c, p);
    RunExtendsBound(cfg, s, c, p);
    RunExtendsRunners(cfg, s, c);
  }

  // The instructions the held process has executed so far are of earlier slots.
  lemma RunIsLater(s: Os, c: nat, p: nat)
    requires |s.bar.devs| == |s.cpus| + 1 && c < |s.cpus| && s.cpus[c].held == Some(p)
    requires s.bar.devs[c + 1].slots == s.bar.time && s.bar.devs[c + 1].pc.Working?
    requires s.cpus[c].pc.Execute? && LogBounded(s) && RunnersBounded(s)
    ensures forall k :: 0 <= k < |s.log| && (s.log[k].proc == p || s.log[k].cpu == c) ==>
      s.log[k].slot < s.bar.time
  {
  }

  lemma RunExtendsRunners(cfg: Config, s: Os, c: nat)
    requires |s.bar.devs| == |s.cpus| + 1 && c < |s.cpus| && s.cpus[c].held.Some?
    requires s.bar.devs[c + 1].slots == s.bar.time && s.bar.devs[c + 1].pc.Working?
    requires s.cpus[c].pc.Execute? && RunnersBounded(s)
    ensures RunnersBounded(RunOne(cfg, s, c))
  {
  }

  lemma RunExtendsBound(cfg: Config, s: Os, c: nat, p: nat)
    requires |s.bar.devs| == |s.cpus| + 1 && c < |s.cpus| && s.cpus[c].held == Some(p)
    requires s.bar.devs[c + 1].slots == s.bar.time && s.bar.devs[c + 1].pc.Working?
    requires s.cpus[c].pc.Execute? && LogBounded(s)
    requires p < s.next && p !in s.ready
    requires forall e :: 0 <= e < |s.cpus| && e != c ==> s.cpus[e].held != Some(p)
    ensures LogBounded(RunOne(cfg, s, c))
  {
  }

  lemma RunKeepsCpu(cfg: Config, s: Os, c: nat)
    requires CpuReady(cfg, s, c, None) && s.cpus[c].pc.Execute?
    ensures CpuFrame(s, RunOne(cfg, s, c), c) && CpuOk(cfg, RunOne(cfg, s, c), c)
    ensures Balanced(s, RunOne(cfg, s, c), c)
  {
  }

  lemma RunKeepsFinished(cfg: Config, s: Os, c: nat)
    requires c < |s.cpus| && s.cpus[c].held.Some? && FinishedOk(cfg, s) && Conserved(s)
    ensures FinishedOk(cfg, RunOne(cfg, s, c))
  {
    HeldNowhereElse(s, c, s.cpus[c].held.value);
  }

  lemma RunKeepsInv(cfg: Config, s: Os, c: nat)
    requires OsInv(cfg, s) && CpuReady(cfg, s, c, None) && s.cpus[c].pc.Execute?
    ensures OsInv(cfg, RunOne(cfg, s, c))
  {
    var s' := RunOne(cfg, s, c);
    RunKeepsCpu(cfg, s, c);
    FrameKeepsCpus(cfg, s, s', c);
    FrameKeepsConserved(s, s', c);
    RunKeepsFinished(cfg, s, c);
    RunKeepsTrace(cfg, s, c);
    RunKeepsLog(cfg, s, c);
  }

  lemma QuietKeepsInv(cfg: Config, s: Os, c: nat, got: Option<nat>, lose: bool)
    requires OsInv(cfg, s) && CpuEnabled(s, c, got) && !s.cpus[c].pc.Execute?
    ensures OsInv(cfg, CpuDo(cfg, s, c, got, lose))
  {
    CpuCallsBarrier(cfg, s, c, got, lose);
    CpuKeepsFinished(cfg, s, c, got, lose);
    CpuStepIsQuiet(cfg, s, c, got, lose);
    QuietStepKeepsInv(cfg, s, CpuDo(cfg, s, c, got, lose), c);
  }

  lemma CpuKeepsInv(cfg: Config, s: Os, c: nat, got: Option<nat>, lose: bool)
    requires OsInv(cfg, s) && CpuEnabled(s, c, got)
    ensures OsInv(cfg, CpuDo(cfg, s, c, got, lose))
  {
    WorkingIsInStep(s.bar, c + 1);
    if s.cpus[c].pc.Execute? {
      RunKeepsInv(cfg, s, c);
    } else {
      QuietKeepsInv(cfg, s, c, got, lose);
    }
  }

  // ---------- steps of the loader ----------

  lemma LoaderOwnOk(cfg: Config, s: Os, lose: bool)
    requires LdEnabled(s) && Inv(s.bar) && |s.bar.devs| == |s.cpus| + 1
    requires LdOk(cfg, s.ld, s.next, s.done, s.addedAt, s.bar.devs[0])
    ensures var s' := LdDo(cfg, s, lose);
      && |s'.bar.devs| == |s.bar.devs|
      && LdOk(cfg, s'.ld, s'.next, s'.done, s'.addedAt, s'.bar.devs[0])
  {
    WorkingIsInStep(s.bar, 0);
  }

  predicate LoaderFrame(s: Os, s': Os)
    requires |s.bar.devs| == |s.cpus| + 1
  {
    && s'.cpus == s.cpus && s'.log == s.log && s.next <= s'.next
    && s'.bar.time == s.bar.time && |s'.bar.devs| == |s.bar.devs|
    && (forall c :: 1 <= c < |s.bar.devs| ==> s'.bar.devs[c] == s.bar.devs[c])
    && (forall p :: p in s'.ready ==> p in s.ready || p == s.next)
  }

  predicate SameProgress(s: Os, s': Os) {
    s'.pcs == s.pcs && s'.finished == s.finished && s'.tried == s.tried
  }

  lemma LoaderKeepsProgress(cfg: Config, s: Os, lose: bool)
    requires LdEnabled(s)
    ensures var s' := LdDo(cfg, s, lose); SameProgress(s, s') && s'.cpus == s.cpus && s'.log == s.log
  {
    match s.ld {
      case LdTop =>
      case LdWait =>
      case LdAdd =>
      case LdYield =>
      case LdFinish =>
      case LdDetach =>
    }
  }

  lemma LoaderCallsBarrier(cfg: Config, s: Os, lose: bool)
    requires LdEnabled(s) && Inv(s.bar)
    ensures Inv(LdDo(cfg, s, lose).bar)
  {
    StepKeepsInv(s.bar, CallNextSlot(0));
    StepKeepsInv(s.bar, CallDetach(0));
  }

  lemma LoaderKeepsFrame(cfg: Config, s: Os, lose: bool)
    requires LdEnabled(s) && |s.bar.devs| == |s.cpus| + 1
    ensures LoaderFrame(s, LdDo(cfg, s, lose))
  {
    match s.ld {
      case LdTop =>
      case LdWait =>
      case LdAdd =>
      case LdYield =>
      case LdFinish =>
      case LdDetach =>
    }
  }

  lemma LoaderKeepsCpus(cfg: Config, s: Os, lose: bool)
    requires LdEnabled(s) && |s.bar.devs| == |s.cpus| + 1 && CpusOk(cfg, s)
    requires LdOk(cfg, s.ld, s.next, s.done, s.addedAt, s.bar.devs[0])
    requires LdDo(cfg, s, lose).bar.time == s.bar.time
    requires |LdDo(cfg, s, lose).bar.devs| == |s.bar.devs|
    requires forall c :: 1 <= c < |s.bar.devs| ==> LdDo(cfg, s, lose).bar.devs[c] == s.bar.devs[c]
    ensures CpusOk(cfg, LdDo(cfg, s, lose))
  {
    var s' := LdDo(cfg, s, lose);
    forall c | 0 <= c < |s.cpus| ensures CpuOk(cfg, s', c) {
      assert CpuOk(cfg, s, c);
    }
  }

  lemma LoaderFrameKeepsLog(s: Os, s': Os)
    requires |s.bar.devs| == |s.cpus| + 1 && LoaderFrame(s, s') && LogBounded(s)
    ensures LogBounded(s')
  {
  }

  lemma LoaderFrameKeepsRunners(s: Os, s': Os)
    requires |s.bar.devs| == |s.cpus| + 1 && LoaderFrame(s, s') && RunnersBounded(s)
    ensures RunnersBounded(s')
  {
  }

  lemma LoaderKeepsPlaces(cfg: Config, s: Os, lose: bool)
    requires LdEnabled(s) && Conserved(s) && FinishedOk(cfg, s)
    ensures Conserved(LdDo(cfg, s, lose)) && FinishedOk(cfg, LdDo(cfg, s, lose))
  {
    var s' := LdDo(cfg, s, lose);
    assert s'.cpus == s.cpus && s'.finished == s.finished && s'.pcs == s.pcs;
    forall p: nat ensures Copies(s', p) == if p < s'.next then 1 else 0 {
      assert Copies(s, p) == if p < s.next then 1 else 0;
    }
  }

  lemma LoaderKeepsInv(cfg: Config, s: Os, lose: bool)
    requires OsInv(cfg, s) && LdEnabled(s)
    ensures OsInv(cfg, LdDo(cfg, s, lose))
  {
    LoaderOwnOk(cfg, s, lose);
    LoaderCallsBarrier(cfg, s, lose);
    LoaderKeepsFrame(cfg, s, lose);
    LoaderFrameKeepsLog(s, LdDo(cfg, s, lose));
    LoaderFrameKeepsRunners(s, LdDo(cfg, s, lose));
    LoaderKeepsCpus(cfg, s, lose);
    LoaderKeepsPlaces(cfg, s, lose);
  }

  // ---------- every step, every run ----------

  lemma OsStepKeepsInv(cfg: Config, s: Os, a: OsAction)
    requires OsInv(cfg, s) && OsEnabled(s, a)
    ensures OsInv(cfg, OsDo(cfg, s, a))
  {
    match a
    case Bar(b) => BarKeepsInv(cfg, s, b);
    case CpuGo(c, got, lose) => CpuKeepsInv(cfg, s, c, got, lose);
    case LdGo(lose) => LoaderKeepsInv(cfg, s, lose);
  }

  lemma {:induction false} OsRunKeepsInv(cfg: Config, s: Os, run: seq<OsAction>)
    requires OsInv(cfg, s) && OsValid(cfg, s, run)
    ensures OsInv(cfg, OsExec(cfg, s, run))
    decreases |run|
  {
    if run == [] {
    } else {
      OsStepKeepsInv(cfg, s, run[0]);
      OsRunKeepsInv(cfg, OsDo(cfg, s, run[0]), run[1..]);
    }
  }

  lemma {:induction false} NoHolders(cpus: nat, p: nat)
    ensures Holders(seq(cpus, _ => Cpu(Top, None, 0, 0, 0)), p) == 0
  {
    if cpus == 0 {
    } else {
      var all := seq(cpus, _ => Cpu(Top, None, 0, 0, 0));
      assert all[1..] == seq(cpus - 1, _ => Cpu(Top, None, 0, 0, 0));
      NoHolders(cpus - 1, p);
    }
  }

  lemma BootInv(cfg: Config, cpus: nat)
    ensures OsInv(cfg, Boot(cpus))
  {
    InitInv(cpus + 1);
    forall p: nat ensures Copies(Boot(cpus), p) == 0 {
      NoHolders(cpus, p);
    }
  }
}
