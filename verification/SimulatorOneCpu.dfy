/** With one CPU and an honest queue the configuration decides how the simulation can end. */
module SimulatorOneCpu {
  import opened Barrier
  import opened BarrierSafety
  import opened BarrierProgress
  import opened Simulator
  import opened SimulatorInv
  import opened SimulatorSteps
  import opened SimulatorSafety
  import opened SimulatorCompletion
  import opened SimulatorProgress
  import opened SimulatorLiveness
  import opened SimulatorEnding

  // ---------- the backlog, from the configuration alone ----------

  // Slots for which a process occupies a CPU: one also when it has no instruction.
  function Cost(cfg: Config, p: nat): nat {
    if SizeOf(cfg, p) == 0 then 1 else SizeOf(cfg, p)
  }

  /** What is left to run at the end of the slot in which process k - 1 is added, when the CPU has
      missed no slot in which there was something to run. */
  function Backlog(cfg: Config, k: nat): nat
    requires k <= |cfg.starts|
    decreases k, 0
  {
    if k == 0 then 0 else Carried(cfg, k - 1) + Cost(cfg, k - 1) - 1
  }

  // What of it is left at the beginning of the slot in which process k is added.
  function Carried(cfg: Config, k: nat): nat
    requires k < |cfg.starts|
    decreases k, 1
  {
    if k == 0 then 0
    else
      var idle := Due(cfg, k) - Due(cfg, k - 1) - 1;
      if Backlog(cfg, k) > idle then Backlog(cfg, k) - idle else 0
  }

  // ---------- what is owed ----------

  // Slots that process p still has to run for.
  function Owed(cfg: Config, s: Os, p: nat): nat {
    if PcOf(s.pcs, p) < SizeOf(cfg, p) then SizeOf(cfg, p) - PcOf(s.pcs, p)
    else if SizeOf(cfg, p) == 0 && p !in s.tried then 1
    else 0
  }

  function Debts(cfg: Config, s: Os): seq<nat> {
    seq(s.next, p requires 0 <= p => Owed(cfg, s, p))
  }

  function Owes(cfg: Config, s: Os): nat {
    Sum(Debts(cfg, s))
  }

  lemma {:induction false} SumLessOne(xs: seq<nat>, ys: seq<nat>, k: nat)
    requires |xs| == |ys| && k < |xs| && xs[k] + 1 == ys[k]
    requires forall i :: 0 <= i < |xs| && i != k ==> xs[i] == ys[i]
    ensures Sum(xs) + 1 == Sum(ys)
    decreases |xs|
  {
    if k == 0 {
      assert xs[1..] == ys[1..];
    } else {
      SumLessOne(xs[1..], ys[1..], k - 1);
    }
  }

  lemma {:induction false} SumAppend(xs: seq<nat>, x: nat)
    ensures Sum(xs + [x]) == Sum(xs) + x
    decreases |xs|
  {
    if xs == [] {
      assert Sum([x]) == x + Sum([x][1..]);
    } else {
      assert (xs + [x])[1..] == xs[1..] + [x];
      SumAppend(xs[1..], x);
    }
  }

  lemma {:induction false} SumAtLeast(xs: seq<nat>, k: nat)
    requires k < |xs|
    ensures xs[k] <= Sum(xs)
    decreases |xs|
  {
    if k == 0 {
      assert Sum(xs) == xs[0] + Sum(xs[1..]);
    } else {
      SumAtLeast(xs[1..], k - 1);
    }
  }

  // Whoever has executed, finished or is back from running has been run.
  ghost predicate Touched(s: Os) {
    && (forall p: nat :: PcOf(s.pcs, p) > 0 ==> p in s.tried)
    && (forall p: nat :: p in s.finished ==> p in s.tried)
    && (forall c :: 0 <= c < |s.cpus| ==> BackFromRun(s.tried, s.cpus[c]))
  }

  predicate BackFromRun(tried: set<nat>, u: Cpu) {
    u.held.Some? && (u.pc.Top? || u.pc.Yield?) ==> u.held.value in tried
  }

  lemma RunKeepsTouched(cfg: Config, s: Os, c: nat)
    requires Touched(s) && c < |s.cpus| && s.cpus[c].held.Some?
    ensures Touched(RunOne(cfg, s, c))
  {
  }

  lemma TopKeepsTouched(cfg: Config, s: Os, c: nat, lose: bool)
    requires Touched(s) && c < |s.cpus| && s.cpus[c].pc.Top?
    ensures Touched(LookAtCurrent(cfg, s, c, lose))
  {
    assert BackFromRun(s.tried, s.cpus[c]);
  }

  lemma GetKeepsTouched(cfg: Config, s: Os, c: nat, got: Option<nat>, lose: bool)
    requires Touched(s) && CpuEnabled(s, c, got) && IsGet(s.cpus[c].pc)
    ensures Touched(CpuDo(cfg, s, c, got, lose))
  {
    GetFinishesNothing(cfg, s, c, got, lose);
    CpuLeavesOthers(cfg, s, c, got, lose);
    match s.cpus[c].pc {
      case GetIdle =>
      case GetAfterFinish =>
      case GetAfterPut =>
    }
  }

  lemma RecheckKeepsTouched(cfg: Config, s: Os, c: nat)
    requires CpuEnabled(s, c, None) && s.cpus[c].pc.Recheck? && Touched(s)
    ensures Touched(LookAgain(cfg, s, c))
  {
  }

  lemma YieldKeepsTouched(cfg: Config, s: Os, c: nat, lose: bool)
    requires CpuEnabled(s, c, None) && s.cpus[c].pc.Yield? && Touched(s)
    ensures Touched(CpuDo(cfg, s, c, None, lose))
  {
    assert BackFromRun(s.tried, s.cpus[c]);
  }

  lemma StepKeepsTouched(cfg: Config, s: Os, a: OsAction)
    requires Touched(s) && OsEnabled(s, a)
    ensures Touched(OsDo(cfg, s, a))
  {
    match a
    case Bar(_) =>
    case LdGo(lose) => LoaderKeepsProgress(cfg, s, lose);
    case CpuGo(c, got, lose) =>
      match s.cpus[c].pc {
        case Top => TopKeepsTouched(cfg, s, c, lose);
        case Execute => RunKeepsTouched(cfg, s, c);
        case Recheck => RecheckKeepsTouched(cfg, s, c);
        case Yield => YieldKeepsTouched(cfg, s, c, lose);
        case GetIdle | GetAfterFinish | GetAfterPut => GetKeepsTouched(cfg, s, c, got, lose);
      }
  }

  // ---------- steps and what is owed ----------

  // A call of run is for something owed, and pays one slot of it.
  lemma RunPays(cfg: Config, s: Os, c: nat)
    requires Conserved(s) && TriedOk(cfg, s) && Touched(s)
    requires CpuEnabled(s, c, None) && s.cpus[c].pc.Execute?
    ensures Owes(cfg, RunOne(cfg, s, c)) + 1 == Owes(cfg, s)
  {
    var s' := RunOne(cfg, s, c);
    var p := s.cpus[c].held.value;
    HeldNowhereElse(s, c, p);
    assert RunnableOk(cfg, s.tried, s.pcs, s.cpus[c]);
    assert Owed(cfg, s', p) + 1 == Owed(cfg, s, p);
    SumLessOne(Debts(cfg, s'), Debts(cfg, s), p);
  }

  lemma OwesSame(cfg: Config, s: Os, s': Os)
    requires s'.pcs == s.pcs && s'.tried == s.tried && s'.next == s.next
    ensures Owes(cfg, s') == Owes(cfg, s)
  {
    assert Debts(cfg, s') == Debts(cfg, s);
  }

  lemma AddOwes(cfg: Config, s: Os, s': Os)
    requires s'.pcs == s.pcs && s'.tried == s.tried && s'.next == s.next + 1
    requires TriedOk(cfg, s) && Touched(s)
    ensures Owes(cfg, s') == Owes(cfg, s) + Cost(cfg, s.next)
  {
    assert s.next !in s.tried && PcOf(s.pcs, s.next) == 0;
    assert Debts(cfg, s') == Debts(cfg, s) + [Cost(cfg, s.next)];
    SumAppend(Debts(cfg, s), Cost(cfg, s.next));
  }

  // Nothing is owed when no process is in the queue or on a CPU.
  lemma NothingOwed(cfg: Config, s: Os)
    requires Conserved(s) && FinishedOk(cfg, s) && Touched(s)
    requires s.ready == multiset{} && s.lost == multiset{}
    requires forall c :: 0 <= c < |s.cpus| ==> s.cpus[c].held.None?
    ensures Owes(cfg, s) == 0
  {
    forall p: nat | p < s.next ensures Owed(cfg, s, p) == 0 {
      NobodyHolds(s.cpus, p);
      assert Copies(s, p) == 1;
    }
    SumBound(Debts(cfg, s), 0);
  }

  lemma NotOwing(cfg: Config, s: Os, p: nat)
    requires FinishedOk(cfg, s) && Touched(s) && Owes(cfg, s) == 0 && p < s.next
    ensures PcOf(s.pcs, p) == SizeOf(cfg, p) && p in s.tried
  {
    SumAtLeast(Debts(cfg, s), p);
    assert Owed(cfg, s, p) == 0;
    assert PcOf(s.pcs, p) <= SizeOf(cfg, p);
  }

  // And when nothing is owed the queue is empty and the process on a CPU is at its end.
  lemma NothingOwedNothingReady(cfg: Config, s: Os)
    requires Conserved(s) && FinishedOk(cfg, s) && TriedOk(cfg, s) && Touched(s) && Owes(cfg, s) == 0
    ensures s.ready == multiset{}
    ensures forall c :: 0 <= c < |s.cpus| && s.cpus[c].held.Some? ==>
      PcOf(s.pcs, s.cpus[c].held.value) == SizeOf(cfg, s.cpus[c].held.value)
  {
    forall p: nat ensures p !in s.ready {
      if p in s.ready {
        ReadyNowhereElse(s, p);
        NotOwing(cfg, s, p);
      }
    }
    forall c | 0 <= c < |s.cpus| && s.cpus[c].held.Some?
      ensures PcOf(s.pcs, s.cpus[c].held.value) == SizeOf(cfg, s.cpus[c].held.value)
    {
      HeldNowhereElse(s, c, s.cpus[c].held.value);
      NotOwing(cfg, s, s.cpus[c].held.value);
    }
  }

  // ---------- what a step does to the debt and to the slot ----------

  ghost predicate One(cfg: Config, s: Os) {
    Going(cfg, s) && Touched(s) && |s.cpus| == 1
  }

  predicate Pair(s: Os) {
    |s.cpus| == 1 && |s.bar.devs| == 2
  }

  // Whether the CPU is through with the current slot.
  function Ran(s: Os): nat
    requires Pair(s)
  {
    if NextRun(s.cpus[0], s.bar.devs[1]) > s.bar.time then 1 else 0
  }

  lemma StepKeepsOne(cfg: Config, s: Os, a: OsAction)
    requires One(cfg, s) && OsEnabled(s, a) && Honest(s, a)
    ensures One(cfg, OsDo(cfg, s, a))
  {
    StepKeepsGoing(cfg, s, a);
    StepKeepsTouched(cfg, s, a);
    StepKeepsCpuCount(cfg, s, a);
  }

  lemma RunEffect(cfg: Config, s: Os)
    requires One(cfg, s) && CpuEnabled(s, 0, None) && s.cpus[0].pc.Execute?
    ensures var s' := RunOne(cfg, s, 0);
      && Pair(s') && s'.next == s.next && s'.bar.time == s.bar.time
      && Owes(cfg, s') + 1 == Owes(cfg, s) && Ran(s) == 0 && Ran(s') == 1
  {
    RunPays(cfg, s, 0);
    WorkingIsInStep(s.bar, 1);
  }

  lemma QuietRan(cfg: Config, s: Os, s': Os)
    requires Pair(s) && QuietStep(cfg, s, s', 0)
    ensures Pair(s') && s'.next == s.next && s'.bar.time == s.bar.time && Ran(s) <= Ran(s')
  {
  }

  lemma QuietEffect(cfg: Config, s: Os, got: Option<nat>)
    requires One(cfg, s) && CpuEnabled(s, 0, got) && !s.cpus[0].pc.Execute?
    ensures var s' := CpuDo(cfg, s, 0, got, false);
      && Pair(s') && s'.next == s.next && s'.bar.time == s.bar.time
      && Owes(cfg, s') == Owes(cfg, s) && Ran(s) <= Ran(s')
  {
    var s' := CpuDo(cfg, s, 0, got, false);
    QuietDebt(cfg, s, got);
    CpuStepIsQuiet(cfg, s, 0, got, false);
    QuietRan(cfg, s, s');
  }

  lemma QuietDebt(cfg: Config, s: Os, got: Option<nat>)
    requires TriedOk(cfg, s) && FinishedOk(cfg, s) && CpuEnabled(s, 0, got) && !s.cpus[0].pc.Execute?
    ensures Owes(cfg, CpuDo(cfg, s, 0, got, false)) == Owes(cfg, s)
  {
    CpuTriedStep(cfg, s, 0, got, false);
    OwesSame(cfg, s, CpuDo(cfg, s, 0, got, false));
  }

  lemma BarEffect(cfg: Config, s: Os, b: Action)
    requires OsInv(cfg, s) && Pair(s) && OsEnabled(s, Bar(b))
    ensures var s' := s.(bar := Do(s.bar, b));
      && Pair(s') && Owes(cfg, s') == Owes(cfg, s)
      && (s'.bar.time == s.bar.time ==> Ran(s') == Ran(s))
  {
    BarKeepsFrame(cfg, s, b);
    OwesSame(cfg, s, s.(bar := Do(s.bar, b)));
  }

  // After a tick the CPU has the slot before it.
  lemma TickEffect(cfg: Config, s: Os, b: Action)
    requires OsInv(cfg, s) && Pair(s) && OsEnabled(s, Bar(b)) && Do(s.bar, b).time != s.bar.time
    ensures var s' := s.(bar := Do(s.bar, b));
      && Pair(s') && s'.bar.time == s.bar.time + 1
      && Ran(s') == 0 && (s.cpus[0].pc.Top? || s.cpus[0].pc.Stopped?)
    ensures s.cpus[0].pc.Top? ==> Ran(s) == 1
  {
    BarKeepsFrame(cfg, s, b);
    OnlyTickMovesTime(s.bar, b);
    SlotsBelowTime(s.bar, 1);
    if !s.cpus[0].pc.Stopped? { AtTopAtTick(cfg, s, 0); }
    assert CpuOk(cfg, s, 0);
  }

  lemma LoaderEffect(cfg: Config, s: Os)
    requires One(cfg, s) && LdEnabled(s)
    ensures var s' := LdDo(cfg, s, false);
      && Pair(s') && s'.bar.time == s.bar.time && s'.cpus == s.cpus && Ran(s') == Ran(s)
      && (if s.ld.LdAdd?
          then s'.next == s.next + 1 && Owes(cfg, s') == Owes(cfg, s) + Cost(cfg, s.next)
          else s'.next == s.next && Owes(cfg, s') == Owes(cfg, s))
  {
    LoaderKeepsFrame(cfg, s, false);
    LoaderAddsOrNot(cfg, s);
    if s.ld.LdAdd? { AddOwes(cfg, s, LdDo(cfg, s, false)); } else { OwesSame(cfg, s, LdDo(cfg, s, false)); }
  }

  lemma AddIsDue(cfg: Config, s: Os)
    requires OsInv(cfg, s) && LdEnabled(s) && s.ld.LdAdd?
    ensures s.next < |cfg.starts| && s.bar.time == Due(cfg, s.next)
  {
    WorkingIsInStep(s.bar, 0);
  }

  // ---------- the backlog bounds the debt from below ----------

  /** The backlog at the beginning of slot t, when k processes have been added. */
  function Share(cfg: Config, k: nat, t: nat): int
    requires 0 < k <= |cfg.starts|
  {
    Backlog(cfg, k) + 1 - (t - Due(cfg, k - 1))
  }

  lemma {:induction false} ShareOfNext(cfg: Config, k: nat)
    requires k < |cfg.starts|
    ensures Share(cfg, k + 1, Due(cfg, k)) == Carried(cfg, k) + Cost(cfg, k)
  {
    assert Backlog(cfg, k + 1) == Carried(cfg, k) + Cost(cfg, k) - 1;
  }

  lemma {:induction false} CarriedIsShare(cfg: Config, k: nat, due: nat, before: nat)
    requires 0 < k < |cfg.starts| && due == Due(cfg, k) && before == Due(cfg, k - 1)
    ensures Carried(cfg, k) == Positive(Backlog(cfg, k) + 1 - (due - before))
  {
    DueIncreases(cfg, k - 1, k);
  }

  function Positive(x: int): nat {
    if x > 0 then x else 0
  }

  predicate FloorAt(cfg: Config, k: nat, t: nat, owes: nat, ran: nat) {
    0 < k <= |cfg.starts| ==> owes + ran >= Share(cfg, k, t)
  }

  predicate Floor(cfg: Config, s: Os)
    requires Pair(s)
  {
    FloorAt(cfg, s.next, s.bar.time, Owes(cfg, s), Ran(s))
  }

  lemma {:induction false} AddKeepsFloor(cfg: Config, k: nat, owes: nat, ran: nat)
    requires k < |cfg.starts| && FloorAt(cfg, k, Due(cfg, k), owes, ran)
    ensures FloorAt(cfg, k + 1, Due(cfg, k), owes + Cost(cfg, k), ran)
  {
    ShareOfNext(cfg, k);
    if k > 0 { CarriedIsShare(cfg, k, Due(cfg, k), Due(cfg, k - 1)); }
  }

  lemma BarKeepsFloor(cfg: Config, s: Os, b: Action)
    requires OsInv(cfg, s) && Pair(s) && OsEnabled(s, Bar(b)) && Floor(cfg, s)
    ensures var s' := s.(bar := Do(s.bar, b)); Pair(s') && Floor(cfg, s')
  {
    BarEffect(cfg, s, b);
    if Do(s.bar, b).time != s.bar.time { TickEffect(cfg, s, b); }
  }

  lemma CpuKeepsFloor(cfg: Config, s: Os, got: Option<nat>)
    requires One(cfg, s) && CpuEnabled(s, 0, got) && Floor(cfg, s)
    ensures var s' := CpuDo(cfg, s, 0, got, false); Pair(s') && Floor(cfg, s')
  {
    if s.cpus[0].pc.Execute? { RunEffect(cfg, s); } else { QuietEffect(cfg, s, got); }
  }

  lemma LoaderKeepsFloor(cfg: Config, s: Os)
    requires One(cfg, s) && LdEnabled(s) && Floor(cfg, s)
    ensures var s' := LdDo(cfg, s, false); Pair(s') && Floor(cfg, s')
  {
    LoaderEffect(cfg, s);
    if s.ld.LdAdd? {
      AddIsDue(cfg, s);
      AddKeepsFloor(cfg, s.next, Owes(cfg, s), Ran(s));
    }
  }

  lemma StepKeepsFloor(cfg: Config, s: Os, a: OsAction)
    requires One(cfg, s) && OsEnabled(s, a) && Honest(s, a) && Floor(cfg, s)
    ensures Pair(OsDo(cfg, s, a)) && Floor(cfg, OsDo(cfg, s, a))
  {
    match a
    case Bar(b) => BarKeepsFloor(cfg, s, b);
    case CpuGo(c, got, lose) => CpuKeepsFloor(cfg, s, got);
    case LdGo(lose) => LoaderKeepsFloor(cfg, s);
  }

  // ---------- so the CPU does not run out of work too early ----------

  // The CPU has run in this slot or will find something to run.
  predicate KeptCpu(u: Cpu, ran: nat) {
    (ran == 1 ==> u.held.Some?) && !(u.pc.Recheck? && u.held.None?)
  }

  predicate KeptAt(cfg: Config, s: Os, t: nat)
    requires Pair(s)
  {
    s.next == |cfg.starts| && s.bar.time == t ==> KeptCpu(s.cpus[0], Ran(s))
  }

  lemma TopStaysKept(cfg: Config, s: Os)
    requires CpuReady(cfg, s, 0, None) && Pair(s) && s.cpus[0].pc.Top?
    ensures var s' := LookAtCurrent(cfg, s, 0, false); Pair(s') && KeptCpu(s'.cpus[0], Ran(s'))
  {
  }

  lemma RecheckStaysKept(cfg: Config, s: Os)
    requires CpuReady(cfg, s, 0, None) && Pair(s) && s.cpus[0].pc.Recheck? && s.cpus[0].held.Some?
    ensures var s' := LookAgain(cfg, s, 0); Pair(s') && KeptCpu(s'.cpus[0], Ran(s'))
  {
  }

  lemma GetStaysKept(cfg: Config, s: Os, p: nat)
    requires CpuReady(cfg, s, 0, Some(p)) && Pair(s) && IsGet(s.cpus[0].pc)
    ensures var s' := CpuDo(cfg, s, 0, Some(p), false); Pair(s') && KeptCpu(s'.cpus[0], Ran(s'))
  {
  }

  lemma RunStaysKept(cfg: Config, s: Os)
    requires CpuReady(cfg, s, 0, None) && Pair(s) && (s.cpus[0].pc.Execute? || s.cpus[0].pc.Yield?)
    ensures var s' := CpuDo(cfg, s, 0, None, false); Pair(s') && KeptCpu(s'.cpus[0], Ran(s'))
  {
  }

  lemma CpuStaysKept(cfg: Config, s: Os, got: Option<nat>)
    requires One(cfg, s) && CpuEnabled(s, 0, got) && Honest(s, CpuGo(0, got, false))
    requires KeptCpu(s.cpus[0], Ran(s)) && Owes(cfg, s) + Ran(s) >= 1
    ensures var s' := CpuDo(cfg, s, 0, got, false); Pair(s') && KeptCpu(s'.cpus[0], Ran(s'))
  {
    WorkingIsInStep(s.bar, 1);
    assert CpuOk(cfg, s, 0);
    match s.cpus[0].pc {
      case Top => TopStaysKept(cfg, s);
      case Recheck => RecheckStaysKept(cfg, s);
      case Execute | Yield => RunStaysKept(cfg, s);
      case GetIdle | GetAfterFinish | GetAfterPut =>
        match got {
          case None => NothingOwed(cfg, s);
          case Some(p) => GetStaysKept(cfg, s, p);
        }
    }
  }

  // ---------- with a backlog it never hangs ----------

  // The slot in which the last process is added.
  function LastDue(cfg: Config): nat
    requires |cfg.starts| > 0
  {
    Due(cfg, |cfg.starts| - 1)
  }

  /** In the slot after the last addition the CPU runs something, and from then on it is not idle. */
  ghost predicate Full(cfg: Config, s: Os) {
    && One(cfg, s) && Floor(cfg, s)
    && KeptAt(cfg, s, LastDue(cfg) + 1)
    && (s.bar.time > LastDue(cfg) + 1 ==> NoneIdle(s))
  }

  lemma FloorOwes(cfg: Config, s: Os)
    requires One(cfg, s) && Floor(cfg, s) && s.next == |cfg.starts|
    ensures Owes(cfg, s) + Ran(s) >= Backlog(cfg, |cfg.starts|) + 1 - (s.bar.time - LastDue(cfg))
  {
    assert Share(cfg, s.next, s.bar.time) == Backlog(cfg, s.next) + 1 - (s.bar.time - LastDue(cfg));
  }

  // A tick into slot t gives the CPU the slot before it.
  lemma TickIsKept(cfg: Config, s: Os, b: Action)
    requires OsInv(cfg, s) && Pair(s) && OsEnabled(s, Bar(b)) && Do(s.bar, b).time != s.bar.time
    ensures var s' := s.(bar := Do(s.bar, b)); Pair(s') && KeptCpu(s'.cpus[0], Ran(s'))
  {
    TickEffect(cfg, s, b);
  }

  lemma BarKeepsKept(cfg: Config, s: Os, b: Action, t: nat)
    requires OsInv(cfg, s) && Pair(s) && OsEnabled(s, Bar(b)) && KeptAt(cfg, s, t)
    ensures Pair(s.(bar := Do(s.bar, b))) && KeptAt(cfg, s.(bar := Do(s.bar, b)), t)
  {
    if Do(s.bar, b).time == s.bar.time { BarEffect(cfg, s, b); } else { TickIsKept(cfg, s, b); }
  }

  lemma CpuKeepsKept(cfg: Config, s: Os, got: Option<nat>, t: nat)
    requires One(cfg, s) && CpuEnabled(s, 0, got) && Honest(s, CpuGo(0, got, false)) && KeptAt(cfg, s, t)
    requires s.next == |cfg.starts| && s.bar.time == t ==> Owes(cfg, s) + Ran(s) >= 1
    ensures var s' := CpuDo(cfg, s, 0, got, false); Pair(s') && KeptAt(cfg, s', t)
  {
    CpuLeavesLoader(cfg, s, 0, got, false);
    ProgramKeepsTime(cfg, s, CpuGo(0, got, false));
    StepKeepsOne(cfg, s, CpuGo(0, got, false));
    if s.next == |cfg.starts| && s.bar.time == t { CpuStaysKept(cfg, s, got); }
  }

  lemma LoaderKeepsKept(cfg: Config, s: Os, t: nat)
    requires One(cfg, s) && LdEnabled(s) && KeptAt(cfg, s, t)
    requires s.ld.LdAdd? && s.bar.time == t ==> KeptCpu(s.cpus[0], Ran(s))
    ensures Pair(LdDo(cfg, s, false)) && KeptAt(cfg, LdDo(cfg, s, false), t)
  {
    LoaderEffect(cfg, s);
  }

  lemma NoAddAfterLastDue(cfg: Config, s: Os)
    requires One(cfg, s) && LdEnabled(s) && s.ld.LdAdd?
    ensures s.bar.time <= LastDue(cfg)
  {
    AddIsDue(cfg, s);
    LoaderOnTime(cfg, s);
  }

  lemma StepKeepsKept(cfg: Config, s: Os, a: OsAction)
    requires Full(cfg, s) && OsEnabled(s, a) && Honest(s, a) && Backlog(cfg, |cfg.starts|) > 0
    ensures Pair(OsDo(cfg, s, a)) && KeptAt(cfg, OsDo(cfg, s, a), LastDue(cfg) + 1)
  {
    match a
    case Bar(b) => BarKeepsKept(cfg, s, b, LastDue(cfg) + 1);
    case CpuGo(c, got, lose) =>
      if s.next == |cfg.starts| { FloorOwes(cfg, s); }
      CpuKeepsKept(cfg, s, got, LastDue(cfg) + 1);
    case LdGo(lose) =>
      if s.ld.LdAdd? { NoAddAfterLastDue(cfg, s); }
      LoaderKeepsKept(cfg, s, LastDue(cfg) + 1);
  }

  lemma TickIntoBusy(cfg: Config, s: Os, b: Action)
    requires Full(cfg, s) && OsEnabled(s, Bar(b)) && Do(s.bar, b).time != s.bar.time
    requires s.bar.time == LastDue(cfg) + 1
    ensures NoneIdle(s)
  {
    if s.next < |cfg.starts| { LoaderOnTime(cfg, s); }
    TickEffect(cfg, s, b);
  }

  lemma StepKeepsBusy(cfg: Config, s: Os, a: OsAction)
    requires Full(cfg, s) && OsEnabled(s, a) && OsDo(cfg, s, a).bar.time > LastDue(cfg) + 1
    ensures NoneIdle(OsDo(cfg, s, a))
  {
    StepTicksOnce(cfg, s, a);
    if s.bar.time > LastDue(cfg) + 1 {
      LoaderGone(cfg, s);
      StepKeepsNoneIdle(cfg, s, a);
    } else {
      TickIntoBusy(cfg, s, a.a);
    }
  }

  lemma StepKeepsFull(cfg: Config, s: Os, a: OsAction)
    requires Full(cfg, s) && OsEnabled(s, a) && Honest(s, a) && Backlog(cfg, |cfg.starts|) > 0
    ensures Full(cfg, OsDo(cfg, s, a))
  {
    StepKeepsOne(cfg, s, a);
    StepKeepsFloor(cfg, s, a);
    StepKeepsKept(cfg, s, a);
    if OsDo(cfg, s, a).bar.time > LastDue(cfg) + 1 { StepKeepsBusy(cfg, s, a); }
  }

  lemma {:induction false} RunKeepsFull(cfg: Config, s: Os, run: seq<OsAction>)
    requires Full(cfg, s) && OsValid(cfg, s, run) && HonestRun(cfg, s, run)
    requires Backlog(cfg, |cfg.starts|) > 0
    ensures Full(cfg, OsExec(cfg, s, run))
    decreases |run|
  {
    if run == [] {
    } else {
      StepKeepsFull(cfg, s, run[0]);
      RunKeepsFull(cfg, OsDo(cfg, s, run[0]), run[1..]);
    }
  }

  lemma BootOne(cfg: Config)
    requires |cfg.starts| > 0
    ensures One(cfg, Boot(1)) && Owes(cfg, Boot(1)) == 0
  {
    BootInv(cfg, 1);
    assert Debts(cfg, Boot(1)) == [];
  }

  lemma AllAddedByNow(cfg: Config, s: Os)
    requires OsInv(cfg, s) && |cfg.starts| > 0 && s.next == |cfg.starts|
    ensures LastDue(cfg) <= s.bar.time
  {
    SlotsBelowTime(s.bar, 0);
  }

  lemma FullNotHung(cfg: Config, s: Os)
    requires Full(cfg, s) && Backlog(cfg, |cfg.starts|) > 0
    ensures !Hung(cfg, s)
  {
    if Hung(cfg, s) {
      AllAddedByNow(cfg, s);
      NothingOwed(cfg, s);
      FloorOwes(cfg, s);
    }
  }
}
