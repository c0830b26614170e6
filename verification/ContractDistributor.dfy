/**
  Choosing a contract to serve (arms/snapshots.py: the contract templates and
  ContractsDistributor.pick_first_feasible_contract).
*/
module ContractDistributor {
  import opened Wrappers

  datatype Key = Key(model: string, arch: string, os: string)
  type Stems = seq<string>

  /** None stands for what the client has left out: asking for it raises an exception. */
  datatype Description = Description(key: Option<Key>, name: Option<string>, stems: Option<Stems>)

  /** boot identifies the boot template, which looks after the disks. */
  datatype Template =
    | SnapshotTemplate(key: Key, boot: nat)
    | NamedTemplate(name: string, templates: seq<Template>)

  datatype DiskAnswer = Ready | AlreadyPending | ParentNotExist | ChildExists | Crash
  type Disks = (nat, Stems) -> DiskAnswer

  datatype Outcome = Accepted(boot: nat, stems: Stems) | Unsuitable | Impossible | Failed

  function AskDisks(boot: nat, stems: Stems, disks: Disks): Outcome {
    match disks(boot, stems)
    case Ready => Accepted(boot, stems)
    case Crash => Failed
    case _ => Impossible
  }

  /** Whether a template is the one to decide: this does not depend on the disks. */
  predicate Suits(t: Template, d: Description) {
    match t
    case SnapshotTemplate(key, _) => d.key.Some? ==> d.key.value == key
    case NamedTemplate(name, _) => d.name == Some(name)
  }

  // A name that matches turns unsuitable into impossible, at any depth of nesting.
  function Accept(t: Template, d: Description, disks: Disks): (outcome: Outcome)
    ensures outcome.Unsuitable? <==> !Suits(t, d)
    decreases t, 1
  {
    match t
    case SnapshotTemplate(key, boot) =>
      if d.key.None? then Failed
      else if d.key.value != key then Unsuitable
      else if d.stems.None? then Failed
      else AskDisks(boot, d.stems.value, disks)
    case NamedTemplate(name, templates) =>
      if d.name != Some(name) then Unsuitable
      else
        var first := AcceptFirst(templates, d, disks);
        if !first.Unsuitable? then first
        else if d.key.None? then Failed
        else Impossible
  }

  /** The outcome of the first template that does not say unsuitable. */
  function AcceptFirst(ts: seq<Template>, d: Description, disks: Disks): Outcome
    decreases ts, 0
  {
    if ts == [] then Unsuitable
    else
      var first := Accept(ts[0], d, disks);
      if first.Unsuitable? then AcceptFirst(ts[1..], d, disks) else first
  }

  // ---------- What the outcomes mean ----------

  /** The list decides as its first template that suits; it is unsuitable when none does. */
  lemma {:induction false} FirstSuitedDecides(ts: seq<Template>, d: Description, disks: Disks, i: nat)
    requires i <= |ts|
    requires forall j :: 0 <= j < i ==> !Suits(ts[j], d)
    requires i < |ts| ==> Suits(ts[i], d)
    ensures AcceptFirst(ts, d, disks) == if i < |ts| then Accept(ts[i], d, disks) else Unsuitable
    decreases |ts|
  {
    if ts != [] {
      if i > 0 {
        FirstSuitedDecides(ts[1..], d, disks, i - 1);
      }
    }
  }

  /**
    Where a name matches, finding nothing suited is final: at any depth, the contract becomes
    impossible, and not unsuitable, so no later template is asked.
  */
  lemma {:induction false} NothingSuitedIsImpossible(t: Template, d: Description, disks: Disks)
    requires t.NamedTemplate? && Suits(t, d) && d.key.Some?
    requires forall inner <- t.templates :: !Suits(inner, d)
    ensures Accept(t, d, disks) == Impossible
  {
    FirstSuitedDecides(t.templates, d, disks, |t.templates|);
  }

  lemma {:induction false} FirstSuitedInsideDecides(t: Template, d: Description, disks: Disks, i: nat)
    requires t.NamedTemplate? && Suits(t, d) && i < |t.templates|
    requires Suits(t.templates[i], d) && forall j :: 0 <= j < i ==> !Suits(t.templates[j], d)
    ensures Accept(t, d, disks) == Accept(t.templates[i], d, disks)
  {
    FirstSuitedDecides(t.templates, d, disks, i);
  }

  /** The outcome is impossible because of a disk, or because a name matched and nothing in it was suited. */
  ghost predicate IsImpossible(t: Template, d: Description, disks: Disks) {
    match t
    case SnapshotTemplate(key, boot) =>
      && d.key == Some(key) && d.stems.Some?
      && var answer := disks(boot, d.stems.value);
         answer.AlreadyPending? || answer.ParentNotExist? || answer.ChildExists?
    case NamedTemplate(name, templates) =>
      && d.name == Some(name)
      && if exists i :: IsFirstSuited(templates, d, i)
         then exists i :: IsFirstSuited(templates, d, i) && IsImpossible(templates[i], d, disks)
         else d.key.Some?
  }

  ghost predicate IsFirstSuited(ts: seq<Template>, d: Description, i: int) {
    0 <= i < |ts| && Suits(ts[i], d) && forall j :: 0 <= j < i ==> !Suits(ts[j], d)
  }

  lemma {:induction false} FirstSuitedExists(ts: seq<Template>, d: Description)
    ensures (exists i :: IsFirstSuited(ts, d, i)) || forall t <- ts :: !Suits(t, d)
  {
    var i := 0;
    while i < |ts| && !Suits(ts[i], d)
      invariant i <= |ts|
      invariant forall j :: 0 <= j < i ==> !Suits(ts[j], d)
    {
      i := i + 1;
    }
    if i < |ts| {
      assert IsFirstSuited(ts, d, i);
    }
  }

  /** Exactly then, however deeply the names are nested. */
  lemma {:induction false} ImpossibleExactlyWhen(t: Template, d: Description, disks: Disks)
    ensures Accept(t, d, disks).Impossible? <==> IsImpossible(t, d, disks)
    decreases t
  {
    if t.NamedTemplate? && d.name == Some(t.name) {
      FirstSuitedExists(t.templates, d);
      if i: int :| IsFirstSuited(t.templates, d, i) {
        FirstSuitedInsideDecides(t, d, disks, i);
        ImpossibleExactlyWhen(t.templates[i], d, disks);
        assert forall k :: IsFirstSuited(t.templates, d, k) ==> k == i;
      } else {
        FirstSuitedDecides(t.templates, d, disks, |t.templates|);
      }
    }
  }

  /** The deciding snapshot template has the key, the stems are given and its disk is free. */
  ghost predicate IsAccepted(t: Template, d: Description, disks: Disks, boot: nat, stems: Stems) {
    match t
    case SnapshotTemplate(key, b) =>
      b == boot && d.key == Some(key) && d.stems == Some(stems) && disks(boot, stems).Ready?
    case NamedTemplate(name, templates) =>
      d.name == Some(name) &&
      exists i :: IsFirstSuited(templates, d, i) && IsAccepted(templates[i], d, disks, boot, stems)
  }

  /** What is asked for is missing, or the disk crashes. */
  ghost predicate IsFailed(t: Template, d: Description, disks: Disks) {
    match t
    case SnapshotTemplate(key, boot) =>
      || d.key.None?
      || (d.key == Some(key) && (d.stems.None? || disks(boot, d.stems.value).Crash?))
    case NamedTemplate(name, templates) =>
      && d.name == Some(name)
      && if exists i :: IsFirstSuited(templates, d, i)
         then exists i :: IsFirstSuited(templates, d, i) && IsFailed(templates[i], d, disks)
         else d.key.None?
  }

  lemma {:induction false} AcceptedExactlyWhen(t: Template, d: Description, disks: Disks, boot: nat, stems: Stems)
    ensures Accept(t, d, disks) == Accepted(boot, stems) <==> IsAccepted(t, d, disks, boot, stems)
    decreases t
  {
    if t.NamedTemplate? && d.name == Some(t.name) {
      FirstSuitedExists(t.templates, d);
      if i: int :| IsFirstSuited(t.templates, d, i) {
        FirstSuitedInsideDecides(t, d, disks, i);
        AcceptedExactlyWhen(t.templates[i], d, disks, boot, stems);
        assert forall k :: IsFirstSuited(t.templates, d, k) ==> k == i;
      } else {
        FirstSuitedDecides(t.templates, d, disks, |t.templates|);
      }
    }
  }

  lemma {:induction false} FailedExactlyWhen(t: Template, d: Description, disks: Disks)
    ensures Accept(t, d, disks).Failed? <==> IsFailed(t, d, disks)
    decreases t
  {
    if t.NamedTemplate? && d.name == Some(t.name) {
      FirstSuitedExists(t.templates, d);
      if i: int :| IsFirstSuited(t.templates, d, i) {
        FirstSuitedInsideDecides(t, d, disks, i);
        FailedExactlyWhen(t.templates[i], d, disks);
        assert forall k :: IsFirstSuited(t.templates, d, k) ==> k == i;
      } else {
        FirstSuitedDecides(t.templates, d, disks, |t.templates|);
      }
    }
  }

  /** Some template of the list decides, and accepts with this boot template. */
  ghost predicate IsFeasible(ts: seq<Template>, d: Description, disks: Disks, boot: nat, stems: Stems) {
    exists i :: IsFirstSuited(ts, d, i) && IsAccepted(ts[i], d, disks, boot, stems)
  }

  ghost predicate IsHopeless(ts: seq<Template>, d: Description, disks: Disks) {
    exists i :: IsFirstSuited(ts, d, i) && IsImpossible(ts[i], d, disks)
  }

  lemma {:induction false} ListDecides(ts: seq<Template>, d: Description, disks: Disks, boot: nat, stems: Stems)
    ensures AcceptFirst(ts, d, disks) == Accepted(boot, stems) <==> IsFeasible(ts, d, disks, boot, stems)
    ensures AcceptFirst(ts, d, disks).Impossible? <==> IsHopeless(ts, d, disks)
  {
    FirstSuitedExists(ts, d);
    if i: int :| IsFirstSuited(ts, d, i) {
      FirstSuitedDecides(ts, d, disks, i);
      AcceptedExactlyWhen(ts[i], d, disks, boot, stems);
      ImpossibleExactlyWhen(ts[i], d, disks);
      assert forall k :: IsFirstSuited(ts, d, k) ==> k == i;
    } else {
      FirstSuitedDecides(ts, d, disks, |ts|);
    }
  }

  /** The snapshot templates below a template, in order. */
  function Leaves(t: Template): seq<Template>
    decreases t, 1
  {
    match t
    case SnapshotTemplate(_, _) => [t]
    case NamedTemplate(_, templates) => AllLeaves(templates)
  }

  function AllLeaves(ts: seq<Template>): seq<Template>
    decreases ts, 0
  {
    if ts == [] then [] else Leaves(ts[0]) + AllLeaves(ts[1..])
  }

  /** The snapshot template that serves an accepted contract is for its very key, and its disk is free. */
  ghost predicate IsServedBy(leaf: Template, d: Description, disks: Disks, outcome: Outcome)
    requires outcome.Accepted?
  {
    && leaf.SnapshotTemplate? && leaf.boot == outcome.boot
    && d.key == Some(leaf.key) && d.stems == Some(outcome.stems)
    && disks(outcome.boot, outcome.stems) == Ready
  }

  lemma {:induction false} AcceptedIsServed(t: Template, d: Description, disks: Disks)
    requires Accept(t, d, disks).Accepted?
    ensures exists leaf <- Leaves(t) :: IsServedBy(leaf, d, disks, Accept(t, d, disks))
    decreases t, 1
  {
    match t {
      case SnapshotTemplate(_, _) => assert t in Leaves(t);
      case NamedTemplate(_, templates) => FirstAcceptedIsServed(templates, d, disks);
    }
  }

  lemma {:induction false} FirstAcceptedIsServed(ts: seq<Template>, d: Description, disks: Disks)
    requires AcceptFirst(ts, d, disks).Accepted?
    ensures exists leaf <- AllLeaves(ts) :: IsServedBy(leaf, d, disks, AcceptFirst(ts, d, disks))
    decreases ts, 0
  {
    if Accept(ts[0], d, disks).Unsuitable? {
      FirstAcceptedIsServed(ts[1..], d, disks);
      var leaf :| leaf in AllLeaves(ts[1..]) && IsServedBy(leaf, d, disks, AcceptFirst(ts, d, disks));
      assert leaf in AllLeaves(ts);
    } else {
      AcceptedIsServed(ts[0], d, disks);
      var leaf :| leaf in Leaves(ts[0]) && IsServedBy(leaf, d, disks, AcceptFirst(ts, d, disks));
      assert leaf in AllLeaves(ts);
    }
  }

  // ---------- The distributor ----------

  datatype Status = Pending | Rejected | Ignored

  class Contract {
    const description: Description
    var status: Status
    var timesClosed: nat

    constructor (description: Description)
      ensures this.description == description && status == Pending && timesClosed == 0
    {
      this.description := description;
      status, timesClosed := Pending, 0;
    }

    method Reject()
      modifies this
      ensures status == Rejected && timesClosed == old(timesClosed) + 1
    {
      status := Rejected;
      timesClosed := timesClosed + 1;
    }

    method Ignore()
      modifies this
      ensures status == Ignored && timesClosed == old(timesClosed) + 1
    {
      status := Ignored;
      timesClosed := timesClosed + 1;
    }

    predicate IsUntouched()
      reads this
    {
      status == Pending && timesClosed == 0
    }

    /** Closed once: rejected if impossible, ignored if unsuitable or when accepting it has failed. */
    predicate IsTurnedDown(outcome: Outcome)
      reads this
    {
      timesClosed == 1 && status == (if outcome.Impossible? then Rejected else Ignored)
    }
  }

  /** The loop over the templates: what becomes of one contract. */
  method Decide(contract: Contract, templates: seq<Template>, disks: Disks) returns (outcome: Outcome)
    requires contract.IsUntouched()
    modifies contract
    ensures outcome == AcceptFirst(templates, contract.description, disks)
    ensures if outcome.Accepted? then contract.IsUntouched() else contract.IsTurnedDown(outcome)
  {
    var i := 0;
    while i < |templates|
      invariant i <= |templates|
      invariant contract.IsUntouched()
      invariant AcceptFirst(templates, contract.description, disks)
                == AcceptFirst(templates[i..], contract.description, disks)
    {
      outcome := Accept(templates[i], contract.description, disks);
      match outcome {
        case Unsuitable =>
        case Impossible =>
          contract.Reject();
          return;
        case Failed =>
          contract.Ignore();
          return;
        case Accepted(_, _) =>
          return;
      }
      assert templates[i..][1..] == templates[i + 1..];
      i := i + 1;
    }
    outcome := Unsuitable;
    contract.Ignore();
  }

  /** Closed once, rejected if hopeless and ignored otherwise. */
  ghost predicate IsPassedOver(c: Contract, templates: seq<Template>, disks: Disks)
    reads c
  {
    && (forall boot, stems :: !IsFeasible(templates, c.description, disks, boot, stems))
    && c.timesClosed == 1
    && c.status == if IsHopeless(templates, c.description, disks) then Rejected else Ignored
  }

  lemma {:induction false} TurnedDownIsPassedOver(c: Contract, templates: seq<Template>, disks: Disks)
    requires !AcceptFirst(templates, c.description, disks).Accepted?
    requires c.IsTurnedDown(AcceptFirst(templates, c.description, disks))
    ensures IsPassedOver(c, templates, disks)
  {
    forall boot, stems ensures !IsFeasible(templates, c.description, disks, boot, stems) {
      ListDecides(templates, c.description, disks, boot, stems);
    }
    ListDecides(templates, c.description, disks, 0, []);
  }

  /**
    contracts are the pending ones, oldest first. The contract at picked is the first feasible
    one, accepted with the boot template and the stems of the outcome, and still open; there is
    none if picked is the number of contracts.
  */
  method PickFirstFeasibleContract(contracts: seq<Contract>, templates: seq<Template>, disks: Disks)
    returns (picked: nat, outcome: Outcome)
    requires forall i, j :: 0 <= i < j < |contracts| ==> contracts[i] != contracts[j]
    requires forall c <- contracts :: c.IsUntouched()
    modifies contracts
    ensures picked <= |contracts|
    ensures picked < |contracts| ==>
              outcome.Accepted? && IsFeasible(templates, contracts[picked].description, disks, outcome.boot, outcome.stems)
    ensures forall i :: 0 <= i < picked ==> IsPassedOver(contracts[i], templates, disks)
    ensures forall i :: picked <= i < |contracts| ==> contracts[i].IsUntouched()
  {
    picked, outcome := 0, Unsuitable;
    while picked < |contracts|
      invariant picked <= |contracts|
      invariant forall i :: 0 <= i < picked ==> IsPassedOver(contracts[i], templates, disks)
      invariant forall i :: picked <= i < |contracts| ==> contracts[i].IsUntouched()
    {
      outcome := Decide(contracts[picked], templates, disks);
      if outcome.Accepted? {
        ListDecides(templates, contracts[picked].description, disks, outcome.boot, outcome.stems);
        return;
      }
      TurnedDownIsPassedOver(contracts[picked], templates, disks);
      picked := picked + 1;
    }
  }
}
