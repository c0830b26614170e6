/**
  At most one cleanup in ten minutes (directories/_rate_limit.py, TimestampFileRateLimit),
  with any number of processes interleaved. The time stamp file is only written under a lock,
  but it may be read at any moment, and a process may die half-way through writing it. A torn
  file may read as anything: Torn(None) is not a number, Torn(Some(t)) happens to be one.
*/
module RateLimit {
  import opened Wrappers

  type Process = nat

  const RUN_PERIOD_SEC := 600.0

  datatype Content = Missing | Torn(parsed: Option<real>) | Stamp(time: real)

  datatype Phase =
    | Spawned                      // about to call become_leader
    | Locked                       // holds the lock file
    | HasRead(last: real)          // knows the last run time
    | Allowed(last: real)          // passed the check
    | Stamped(last: real, stamp: real)
    | Writing(last: real, stamp: real)
    | Recorded(last: real)         // the write is complete, the lock still held
    | Leader(last: real)           // become_leader has returned
    | NotALeader
    | Dead

  /** recorded is the history of complete time stamps, from the one the file held at first. */
  datatype State = State(clock: real, file: Content, lock: Option<Process>, phases: map<Process, Phase>,
                         recorded: seq<real>)

  datatype ProcessLabel =
    TryLock | Read | Check | TakeStamp | Truncate | WritePart(parsed: Option<real>) | FinishWrite | Unlock | Die

  /** run_is_allowed reads without a lock: what it has seen may be anything at all. */
  datatype Label = Tick(passed: real) | Spawn(p: Process, seen: Content) | Does(p: Process, step: ProcessLabel)

  function Start(clock: real, file: Content): State {
    State(clock, file, None, map[], if file.Stamp? then [file.time] else [])
  }

  // _get_last_run_time: an unreadable file counts as a run five seconds more than a period ago.
  function LastRunTime(file: Content, clock: real): real {
    match file
    case Stamp(t) => t
    case Torn(Some(t)) => t
    case _ => clock - RUN_PERIOD_SEC - 5.0
  }

  predicate RunIsAllowed(file: Content, clock: real) {
    clock - LastRunTime(file, clock) > RUN_PERIOD_SEC
  }

  function Step(g: State, l: Label): State
  {
    match l
    case Tick(passed) => if passed >= 0.0 then g.(clock := g.clock + passed) else g
    case Spawn(p, seen) => if p in g.phases || !RunIsAllowed(seen, g.clock) then g else Goes(g, p, Spawned)
    case Does(p, step) => if p in g.phases then ProcessStep(g, p, g.phases[p], step) else g
  }

  function Goes(g: State, p: Process, phase: Phase): State {
    g.(phases := g.phases[p := phase])
  }

  function Leaves(g: State, p: Process, phase: Phase): State {
    Goes(g, p, phase).(lock := if g.lock == Some(p) then None else g.lock)
  }

  function ProcessStep(g: State, p: Process, phase: Phase, l: ProcessLabel): State
  {
    match l
    case TryLock =>
      if !phase.Spawned? then g
      else if g.lock.Some? then Goes(g, p, NotALeader)
      else Goes(g, p, Locked).(lock := Some(p))
    case Read => if phase.Locked? then Goes(g, p, HasRead(LastRunTime(g.file, g.clock))) else g
    case Check =>
      if !phase.HasRead? then g
      else if g.clock - phase.last < RUN_PERIOD_SEC then Leaves(g, p, NotALeader)
      else Goes(g, p, Allowed(phase.last))
    case TakeStamp => if phase.Allowed? then Goes(g, p, Stamped(phase.last, g.clock)) else g
    case Truncate =>
      if phase.Stamped? then Goes(g, p, Writing(phase.last, phase.stamp)).(file := Torn(None)) else g
    case WritePart(parsed) => if phase.Writing? then g.(file := Torn(parsed)) else g
    case FinishWrite =>
      if phase.Writing?
      then Goes(g, p, Recorded(phase.last)).(file := Stamp(phase.stamp), recorded := g.recorded + [phase.stamp])
      else g
    case Unlock => if phase.Recorded? then Leaves(g, p, Leader(phase.last)) else g
    case Die => Leaves(g, p, Dead)
  }

  function Run(g: State, labels: seq<Label>): State
    decreases |labels|
  {
    if labels == [] then g else Run(Step(g, labels[0]), labels[1..])
  }

  // ---------- The inductive invariant ----------

  /** The last completed time stamp is a period ago, or there is none. */
  predicate PeriodOver(recorded: seq<real>, time: real) {
    recorded != [] ==> recorded[|recorded| - 1] + RUN_PERIOD_SEC <= time
  }

  predicate Spaced(recorded: seq<real>) {
    forall i, j :: 0 <= i < j < |recorded| ==> recorded[i] + RUN_PERIOD_SEC <= recorded[j]
  }

  predicate HoldsLock(phase: Phase) {
    phase.Locked? || phase.HasRead? || phase.Allowed? || phase.Stamped? || phase.Writing? || phase.Recorded?
  }

  /** What the lock holder at a program point knows about the past. */
  ghost predicate PhaseOk(g: State, phase: Phase) {
    match phase
    case HasRead(last) =>
      PeriodOver(g.recorded, g.clock) || (g.recorded != [] && last == g.recorded[|g.recorded| - 1])
    case Allowed(_) => PeriodOver(g.recorded, g.clock)
    case Stamped(_, stamp) => PeriodOver(g.recorded, stamp) && stamp <= g.clock
    case Writing(_, stamp) => PeriodOver(g.recorded, stamp) && stamp <= g.clock
    case _ => true
  }

  ghost predicate Inv(g: State) {
    && Spaced(g.recorded)
    && (forall i :: 1 <= i < |g.recorded| ==> g.recorded[i] <= g.clock)
    && (g.lock.Some? ==> g.lock.value in g.phases)
    && (g.recorded != [] && g.file != Stamp(g.recorded[|g.recorded| - 1]) ==> PeriodOver(g.recorded, g.clock))
    && (forall p <- g.phases :: HoldsLock(g.phases[p]) <==> g.lock == Some(p))
    && (forall p <- g.phases :: PhaseOk(g, g.phases[p]))
  }

  lemma TickKeepsInv(g: State, passed: real)
    requires Inv(g)
    ensures Inv(Step(g, Tick(passed)))
  {
  }

  lemma SpawnKeepsInv(g: State, p: Process, seen: Content)
    requires Inv(g)
    ensures Inv(Step(g, Spawn(p, seen)))
  {
  }

  lemma LockingKeepsInv(g: State, p: Process, l: ProcessLabel)
    requires Inv(g) && p in g.phases && (l.TryLock? || l.Unlock? || l.Die?)
    ensures Inv(ProcessStep(g, p, g.phases[p], l))
  {
  }

  lemma DecidingKeepsInv(g: State, p: Process, l: ProcessLabel)
    requires Inv(g) && p in g.phases && (l.Read? || l.Check? || l.TakeStamp?)
    ensures Inv(ProcessStep(g, p, g.phases[p], l))
  {
  }

  lemma WritingKeepsInv(g: State, p: Process, l: ProcessLabel)
    requires Inv(g) && p in g.phases && (l.Truncate? || l.WritePart? || l.FinishWrite?)
    ensures Inv(ProcessStep(g, p, g.phases[p], l))
  {
  }

  lemma ProcessKeepsInv(g: State, p: Process, l: ProcessLabel)
    requires Inv(g) && p in g.phases
    ensures Inv(ProcessStep(g, p, g.phases[p], l))
  {
    if l.TryLock? || l.Unlock? || l.Die? {
      LockingKeepsInv(g, p, l);
    } else if l.Read? || l.Check? || l.TakeStamp? {
      DecidingKeepsInv(g, p, l);
    } else {
      WritingKeepsInv(g, p, l);
    }
  }

  lemma {:induction false} RunKeepsInv(g: State, labels: seq<Label>)
    requires Inv(g)
    ensures Inv(Run(g, labels))
    decreases |labels|
  {
    if labels != [] {
      match labels[0] {
        case Tick(passed) => TickKeepsInv(g, passed);
        case Spawn(p, seen) => SpawnKeepsInv(g, p, seen);
        case Does(p, step) => if p in g.phases { ProcessKeepsInv(g, p, step); }
      }
      RunKeepsInv(Step(g, labels[0]), labels[1..]);
    }
  }

  // ---------- The theorems ----------

  /**
    Whatever the file held at first, in every interleaving: the recorded times are at least a
    period apart, and only after such a period is a process past the check.
  */
  lemma {:induction false} LeadersAreSpaced(clock: real, file: Content, labels: seq<Label>)
    ensures Spaced(Run(Start(clock, file), labels).recorded)
    ensures var g := Run(Start(clock, file), labels);
            forall p <- g.phases :: g.phases[p].Allowed? ==> PeriodOver(g.recorded, g.clock)
  {
    RunKeepsInv(Start(clock, file), labels);
  }

  lemma {:induction false} HistoryGrows(g: State, labels: seq<Label>)
    ensures g.recorded <= Run(g, labels).recorded
    decreases |labels|
  {
    if labels != [] {
      HistoryGrows(Step(g, labels[0]), labels[1..]);
    }
  }

  /**
    Once a time stamp is recorded, and until the clock has passed a period more, nothing that
    any process does, spawned rightly or not, records another or damages the file.
  */
  lemma {:induction false} NobodyLeadsEarly(clock: real, file: Content, labels: seq<Label>, more: seq<Label>)
    requires Run(Start(clock, file), labels).recorded != []
    requires var recorded := Run(Start(clock, file), labels).recorded;
             Run(Run(Start(clock, file), labels), more).clock < recorded[|recorded| - 1] + RUN_PERIOD_SEC
    ensures var g := Run(Start(clock, file), labels);
            var h := Run(g, more);
            && h.recorded == g.recorded
            && h.file == Stamp(g.recorded[|g.recorded| - 1])
            && forall p <- h.phases :: !h.phases[p].Allowed? && !h.phases[p].Stamped? && !h.phases[p].Writing?
  {
    var g := Run(Start(clock, file), labels);
    RunKeepsInv(Start(clock, file), labels);
    RunKeepsInv(g, more);
    HistoryGrows(g, more);
    LateStampNeedsLateClock(g.recorded, Run(g, more));
  }

  lemma LateStampNeedsLateClock(recorded: seq<real>, h: State)
    requires Inv(h) && recorded != [] && recorded <= h.recorded
    requires h.clock < recorded[|recorded| - 1] + RUN_PERIOD_SEC
    ensures h.recorded == recorded
  {
    if |recorded| < |h.recorded| {
      assert false;
    }
  }

  // become_leader with nothing in between: the decision under the lock, and the write.
  function Decision(p: Process): seq<Label> {
    [Does(p, TryLock), Does(p, Read), Does(p, Check)]
  }

  function Write(p: Process): seq<Label> {
    [Does(p, TakeStamp), Does(p, Truncate), Does(p, FinishWrite), Does(p, Unlock)]
  }

  function BecomeLeader(p: Process): seq<Label> {
    Decision(p) + Write(p)
  }

  /**
    Undisturbed, a process leads exactly when the lock is free and the period is over, or when
    nothing can be read from the file: a corrupted file never blocks the cleanup for good.
  */
  lemma {:induction false} AloneProcessLeadsExactlyAfterPeriod(g: State, p: Process)
    requires Inv(g) && p in g.phases && g.phases[p].Spawned?
    ensures var h := Run(g, BecomeLeader(p));
            && p in h.phases
            && (h.phases[p].Leader? <==> g.lock.None? && LastRunTime(g.file, g.clock) + RUN_PERIOD_SEC <= g.clock)
            && (h.phases[p].Leader? ==> h.phases[p].last == LastRunTime(g.file, g.clock))
            && (h.phases[p].Leader? ==> h.file == Stamp(g.clock) && h.recorded == g.recorded + [g.clock])
            && (!h.phases[p].Leader? ==> h.phases[p].NotALeader? && h.file == g.file && h.recorded == g.recorded)
            && h.lock == g.lock
  {
    DecidesAlone(g, p);
    WritesAlone(Run(g, Decision(p)), p);
    RunInTwo(g, Decision(p), Write(p));
  }

  lemma {:induction false} DecidesAlone(g: State, p: Process)
    requires p in g.phases && g.phases[p].Spawned?
    ensures Run(g, Decision(p)) ==
            if g.lock.Some? then Goes(g, p, NotALeader)
            else if g.clock - LastRunTime(g.file, g.clock) < RUN_PERIOD_SEC then Goes(g, p, NotALeader)
            else Goes(g, p, Allowed(LastRunTime(g.file, g.clock))).(lock := Some(p))
  {
    var tried := Step(g, Does(p, TryLock));
    var read := Step(tried, Does(p, Read));
    assert Decision(p)[1..][1..] == [Does(p, Check)];
    assert Run(g, Decision(p)) == Run(tried, Decision(p)[1..]) == Run(read, [Does(p, Check)]);
    assert Run(read, [Does(p, Check)]) == Step(read, Does(p, Check));
    OverwrittenPhase(g.phases, p, Locked, HasRead(LastRunTime(g.file, g.clock)));
    OverwrittenPhase(g.phases, p, HasRead(LastRunTime(g.file, g.clock)), NotALeader);
    OverwrittenPhase(g.phases, p, HasRead(LastRunTime(g.file, g.clock)), Allowed(LastRunTime(g.file, g.clock)));
  }

  lemma OverwrittenPhase(phases: map<Process, Phase>, p: Process, first: Phase, second: Phase)
    ensures phases[p := first][p := second] == phases[p := second]
  {
  }

  lemma {:induction false} WritesAlone(g: State, p: Process)
    requires p in g.phases && (g.phases[p].NotALeader? || g.phases[p].Allowed?)
    requires g.phases[p].Allowed? ==> g.lock == Some(p)
    ensures var h := Run(g, Write(p));
            if g.phases[p].NotALeader? then h == g
            else
              && p in h.phases && h.phases[p] == Leader(g.phases[p].last)
              && h.file == Stamp(g.clock) && h.recorded == g.recorded + [g.clock] && h.lock.None?
  {
    var stamped := Step(g, Does(p, TakeStamp));
    var truncated := Step(stamped, Does(p, Truncate));
    var finished := Step(truncated, Does(p, FinishWrite));
    assert Write(p)[1..][1..] == [Does(p, FinishWrite), Does(p, Unlock)];
    assert Write(p)[1..][1..][1..] == [Does(p, Unlock)];
    assert Run(g, Write(p)) == Run(stamped, Write(p)[1..]) == Run(truncated, Write(p)[1..][1..]);
    assert Run(truncated, Write(p)[1..][1..]) == Run(finished, [Does(p, Unlock)]);
    assert Run(finished, [Does(p, Unlock)]) == Step(finished, Does(p, Unlock));
  }

  lemma {:induction false} RunInTwo(g: State, first: seq<Label>, second: seq<Label>)
    ensures Run(g, first + second) == Run(Run(g, first), second)
    decreases |first|
  {
    if first == [] {
      assert first + second == second;
    } else {
      assert (first + second)[1..] == first[1..] + second;
      RunInTwo(Step(g, first[0]), first[1..], second);
    }
  }

  /** What a run that is asked for right now meets: a file without a number never stands in its way. */
  predicate IsUnreadable(file: Content) {
    file.Missing? || (file.Torn? && file.parsed.None?)
  }

  lemma UnreadableIsAllowed(file: Content, clock: real)
    requires IsUnreadable(file)
    ensures RunIsAllowed(file, clock)
  {
  }

  lemma NumberIsCompared(file: Content, clock: real, time: real)
    requires file == Stamp(time) || file == Torn(Some(time))
    ensures RunIsAllowed(file, clock) <==> time + 600.0 < clock
  {
  }

  /** With the lock free and no number in the file, a process always leads: a corrupted file is overwritten. */
  lemma {:induction false} UnreadableNeverBlocks(g: State, p: Process)
    requires Inv(g) && p in g.phases && g.phases[p].Spawned? && g.lock.None? && IsUnreadable(g.file)
    ensures var h := Run(g, BecomeLeader(p));
            p in h.phases && h.phases[p] == Leader(g.clock - 605.0) && h.file == Stamp(g.clock) && h.lock.None?
  {
    AloneProcessLeadsExactlyAfterPeriod(g, p);
  }

  /** With a number in the file, whole or torn, it leads exactly ten minutes after it. */
  lemma {:induction false} NumberDecides(g: State, p: Process, time: real)
    requires Inv(g) && p in g.phases && g.phases[p].Spawned? && g.lock.None?
    requires g.file == Stamp(time) || g.file == Torn(Some(time))
    ensures var h := Run(g, BecomeLeader(p));
            && p in h.phases && h.lock.None?
            && (time + 600.0 <= g.clock ==> h.phases[p] == Leader(time) && h.file == Stamp(g.clock))
            && (g.clock < time + 600.0 ==> h.phases[p] == NotALeader && h.file == g.file)
  {
    AloneProcessLeadsExactlyAfterPeriod(g, p);
  }

  /** A process that finds the lock taken does not lead, and touches nothing. */
  lemma {:induction false} TakenLockRefuses(g: State, p: Process)
    requires Inv(g) && p in g.phases && g.phases[p].Spawned? && g.lock.Some?
    ensures var h := Run(g, BecomeLeader(p));
            p in h.phases && h.phases[p] == NotALeader && h.file == g.file && h.lock == g.lock
  {
    AloneProcessLeadsExactlyAfterPeriod(g, p);
  }

  /** What can go wrong does: a process spawned on a torn read, and a death that leaves a torn file behind. */
  lemma {:induction false} DeathLeavesTornFile(g: State, p: Process, passed: real, torn: Option<real>)
    requires p in g.phases && g.phases[p].Stamped? && g.lock == Some(p) && passed >= 0.0
    ensures Step(Step(g, Does(p, Truncate)), Does(p, WritePart(torn))).file == Torn(torn)
    ensures var h := Run(g, [Does(p, Truncate), Tick(passed), Does(p, WritePart(torn)), Does(p, Die)]);
            && h.file == Torn(torn) && h.lock.None? && h.recorded == g.recorded
            && h.clock == g.clock + passed && p in h.phases && h.phases[p] == Dead
  {
    var truncated := Step(g, Does(p, Truncate));
    var later := Step(truncated, Tick(passed));
    var written := Step(later, Does(p, WritePart(torn)));
    RunInTwo(g, [Does(p, Truncate), Tick(passed)], [Does(p, WritePart(torn)), Does(p, Die)]);
    assert Run(g, [Does(p, Truncate), Tick(passed)]) == Run(truncated, [Tick(passed)]) == Run(later, []) == later;
    assert Run(later, [Does(p, WritePart(torn)), Does(p, Die)]) == Run(written, [Does(p, Die)]);
    assert Run(written, [Does(p, Die)]) == Run(Step(written, Does(p, Die)), []);
    assert [Does(p, Truncate), Tick(passed)] + [Does(p, WritePart(torn)), Does(p, Die)]
        == [Does(p, Truncate), Tick(passed), Does(p, WritePart(torn)), Does(p, Die)];
  }

  lemma AnyReadMaySpawn(g: State, p: Process, seen: Content)
    requires p !in g.phases
    ensures Step(g, Spawn(p, seen)) == if RunIsAllowed(seen, g.clock) then g.(phases := g.phases[p := Spawned]) else g
  {
  }
}
