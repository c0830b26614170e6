/**
  Serving one accepted contract on a booted machine (arms/snapshots.py, _RunningSnapshot and
  SnapshotContractor.serve_single_contract). What the client and the machine do is a script:
  one turn for every command, and how the stream ends.
*/
module RunningSnapshot {
  import opened ContractChannel

  /** A command, and what would happen to its commit and to its report. */
  datatype Turn = Turn(command: Command, commits: bool, reported: bool)

  /** How serve() ends: in time, or with an exception. */
  datatype Ending = Fulfilled | NotAccepted | CommitFailed | ReportFailed | BadCommand | StreamFailed

  predicate IsCommit(t: Turn) { t.command.Commit? }

  /** Whether a commit asked for in this turn takes place. */
  predicate TakesPlace(t: Turn) { t.command.Commit? && t.commits }

  /** Whether serving goes on after this turn. */
  predicate Passes(t: Turn) {
    match t.command
    case Commit => t.commits && t.reported
    case Other => true
    case Malformed => false
  }

  function EndingOf(t: Turn): Ending
    requires !Passes(t)
  {
    if t.command.Malformed? then BadCommand
    else if !t.reported then ReportFailed
    else CommitFailed
  }

  /** The reports the client gets: one for every commit command, of its kind, unless the stream is closed. */
  function ReportsOf(turns: seq<Turn>): seq<Verdict> {
    if turns == [] then []
    else
      ReportsOf(turns[..|turns| - 1]) +
      var t := turns[|turns| - 1];
      if !IsCommit(t) || !t.reported then [] else [if t.commits then Success else Failure]
  }

  function CommitCount(turns: seq<Turn>): nat {
    if turns == [] then 0
    else CommitCount(turns[..|turns| - 1]) + if TakesPlace(turns[|turns| - 1]) then 1 else 0
  }

  /**
    The run of a contract: served turns were handled, all but the last of them passed, and the
    ending tells why it stopped there.
  */
  ghost predicate IsRun(turns: seq<Turn>, accepted: bool, endsClean: bool, served: nat, ending: Ending) {
    && served <= |turns|
    && (forall i :: 0 <= i < served - 1 ==> Passes(turns[i]))
    && (ending.NotAccepted? <==> !accepted)
    && (!accepted ==> served == 0)
    && (accepted && served > 0 && !Passes(turns[served - 1]) ==> ending == EndingOf(turns[served - 1]))
    && (accepted && (served > 0 ==> Passes(turns[served - 1])) ==>
          served == |turns| && ending == if endsClean then Fulfilled else StreamFailed)
  }

  class RunningMachine {
    var commits: nat
    var rollbacks: nat

    constructor ()
      ensures commits == 0 && rollbacks == 0
    {
      commits, rollbacks := 0, 0;
    }

    method Commit(works: bool) returns (ok: bool)
      modifies this
      ensures ok == works && rollbacks == old(rollbacks)
      ensures commits == old(commits) + if works then 1 else 0
    {
      ok := works;
      if works {
        commits := commits + 1;
      }
    }

    method Rollback()
      modifies this
      ensures commits == old(commits) && rollbacks == old(rollbacks) + 1
    {
      rollbacks := rollbacks + 1;
    }
  }

  class Snapshot {
    const machine: RunningMachine
    var rollback: bool

    constructor (machine: RunningMachine)
      ensures this.machine == machine && rollback
    {
      this.machine := machine;
      rollback := true;
    }

    method Commit(works: bool) returns (ok: bool)
      modifies this, machine
      ensures ok == works
      ensures rollback == (old(rollback) && !works)
      ensures machine.commits == old(machine.commits) + if works then 1 else 0
      ensures machine.rollbacks == old(machine.rollbacks)
    {
      ok := machine.Commit(works);
      if ok {
        rollback := false;
      }
    }

    method Serve(turns: seq<Turn>, endsClean: bool) returns (ending: Ending, served: nat, reports: seq<Verdict>)
      modifies this, machine
      ensures IsRun(turns, true, endsClean, served, ending)
      ensures reports == ReportsOf(turns[..served])
      ensures machine.commits == old(machine.commits) + CommitCount(turns[..served])
      ensures machine.rollbacks == old(machine.rollbacks)
      ensures rollback == (old(rollback) && CommitCount(turns[..served]) == 0)
    {
      reports := [];
      var i := 0;
      while i < |turns|
        invariant i <= |turns|
        invariant forall j :: 0 <= j < i ==> Passes(turns[j])
        invariant reports == ReportsOf(turns[..i])
        invariant machine.commits == old(machine.commits) + CommitCount(turns[..i])
        invariant machine.rollbacks == old(machine.rollbacks)
        invariant rollback == (old(rollback) && CommitCount(turns[..i]) == 0)
      {
        var t := turns[i];
        i := i + 1;
        assert turns[..i][..i - 1] == turns[..i - 1];
        match t.command {
          case Malformed =>
            return BadCommand, i, reports;
          case Other =>
          case Commit =>
            var ok := Commit(t.commits);
            if !t.reported {
              return ReportFailed, i, reports;
            }
            reports := reports + [if ok then Success else Failure];
            if !ok {
              return CommitFailed, i, reports;
            }
        }
      }
      ending, served := if endsClean then Fulfilled else StreamFailed, i;
    }

    // __aexit__
    method Exit()
      modifies machine
      ensures machine.commits == old(machine.commits)
      ensures machine.rollbacks == old(machine.rollbacks) + if rollback then 1 else 0
    {
      if rollback {
        machine.Rollback();
      }
    }
  }

  /**
    serve_single_contract, from the moment the machine has booted. However it ends, the machine
    is rolled back once if no commit took place, and never otherwise.
  */
  method ServeSingleContract(machine: RunningMachine, turns: seq<Turn>, accepted: bool, endsClean: bool)
    returns (ending: Ending, served: nat, reports: seq<Verdict>)
    modifies machine
    ensures IsRun(turns, accepted, endsClean, served, ending)
    ensures reports == ReportsOf(turns[..served])
    ensures machine.commits == old(machine.commits) + CommitCount(turns[..served])
    ensures machine.rollbacks == old(machine.rollbacks) + if CommitCount(turns[..served]) == 0 then 1 else 0
  {
    var snapshot := new Snapshot(machine);
    reports := [];
    if accepted {
      ending, served, reports := snapshot.Serve(turns, endsClean);
    } else {
      ending, served := NotAccepted, 0;
    }
    snapshot.Exit();
  }

  // ---------- What a run means for the client ----------

  /** An ignored command, or a commit that works and can be reported. */
  predicate IsHarmless(t: Turn) {
    t.command == Other || (t.command == Commit && t.commits && t.reported)
  }

  /** How a run ended, told by the last turn that was handled; all turns before it were harmless. */
  lemma EndingsExactlyWhen(turns: seq<Turn>, accepted: bool, endsClean: bool, served: nat, ending: Ending)
    requires IsRun(turns, accepted, endsClean, served, ending)
    ensures forall i :: 0 <= i < served - 1 ==> IsHarmless(turns[i])
    ensures if served > 0 && !IsHarmless(turns[served - 1]) then
              var last := turns[served - 1];
              && (ending == BadCommand <==> last.command == Malformed)
              && (ending == ReportFailed <==> last.command == Commit && !last.reported)
              && (ending == CommitFailed <==> last.command == Commit && last.reported && !last.commits)
            else if accepted then served == |turns| && ending == if endsClean then Fulfilled else StreamFailed
            else served == 0 && ending == NotAccepted
  {
  }

  /** The commit commands among the turns, in order. */
  function CommitTurns(turns: seq<Turn>): seq<Turn> {
    if turns == [] then []
    else CommitTurns(turns[..|turns| - 1]) + if IsCommit(turns[|turns| - 1]) then [turns[|turns| - 1]] else []
  }

  /** The k-th report is about the k-th commit command, and only the last of these may go without one. */
  ghost predicate Answers(commits: seq<Turn>, reports: seq<Verdict>) {
    && |commits| - 1 <= |reports| <= |commits|
    && forall k :: 0 <= k < |reports| ==> reports[k] == if commits[k].commits then Success else Failure
  }

  lemma {:induction false} PassedTurns(turns: seq<Turn>)
    requires forall i :: 0 <= i < |turns| ==> Passes(turns[i])
    ensures Answers(CommitTurns(turns), ReportsOf(turns))
    ensures |ReportsOf(turns)| == |CommitTurns(turns)| == CommitCount(turns)
    ensures forall k :: 0 <= k < |ReportsOf(turns)| ==> ReportsOf(turns)[k] == Success
  {
    if turns != [] {
      PassedTurns(turns[..|turns| - 1]);
    }
  }

  /**
    In every run each commit command handled gets at most one report, of the right kind and in
    order; the client of a fulfilled contract was told of every commit that took place; only the
    last command handled can have failed; and nobody is told of success on a machine that is
    rolled back.
  */
  lemma {:induction false} ReportsAreInOrder(turns: seq<Turn>, accepted: bool, endsClean: bool, served: nat, ending: Ending)
    requires IsRun(turns, accepted, endsClean, served, ending)
    ensures Answers(CommitTurns(turns[..served]), ReportsOf(turns[..served]))
    ensures forall k :: 0 <= k < |ReportsOf(turns[..served])| - 1 ==> ReportsOf(turns[..served])[k] == Success
    ensures ending.Fulfilled? ==>
              served == |turns| && |ReportsOf(turns)| == |CommitTurns(turns)| == CommitCount(turns)
    ensures Failure in ReportsOf(turns[..served]) ==> ending.CommitFailed?
    ensures CommitCount(turns[..served]) == 0 ==> Success !in ReportsOf(turns[..served])
  {
    if served > 0 {
      var handled := turns[..served];
      assert handled[..served - 1] == turns[..served - 1];
      PassedTurns(turns[..served - 1]);
      if Passes(turns[served - 1]) {
        PassedTurns(handled);
      }
    }
    assert turns[..|turns|] == turns;
  }
}
