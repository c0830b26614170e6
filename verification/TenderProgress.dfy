/**
  What the steps of a tender lead to: the counterpart of the safety of TenderProtocol. Each
  step is told by its whole effect, and orderly runs reach their ends.
*/
module TenderProgress {
  import opened Wrappers
  import opened ContractChannel
  import opened TenderProtocol

  // ---------- The contractor ----------

  /** A commit that works is kept and reported as a success, and the contractor goes on serving. */
  lemma WorkingCommitIsReported(t: Stream)
    requires t.session.Committing?
    ensures ContractorStep(ContractorStep(t, CommitSucceeds), SendReport)
         == t.(disk := Committed, rollback := false, session := Serving, channel := Tell(t.channel, Success))
  {
  }

  /** A commit that fails changes no disk, is reported as a failure and ends the service. */
  lemma FailingCommitIsReported(t: Stream)
    requires t.session.Committing?
    ensures ContractorStep(ContractorStep(t, CommitFails), SendReport)
         == t.(session := Exiting, contractorOpen := false, channel := Tell(t.channel, Failure))
  {
  }

  /** On leaving, a disk that was not committed is rolled back, if that works; a committed one stays. */
  lemma LeavingRollsBack(t: Stream, works: bool)
    requires t.session.Exiting?
    ensures ContractorStep(t, Exit(works))
         == t.(session := Gone, disk := if !t.rollback then t.disk else if works then RolledBack else RollbackFailed)
  {
  }

  /** A contractor with a running machine leaves when interrupted, whether its client is still there or not. */
  lemma InterruptionLeaves(t: Stream)
    requires t.session.Booted? || InService(t.session)
    ensures ContractorStep(t, Interrupted) == t.(contractorOpen := false, session := Exiting)
  {
  }

  /** A death closes the stream and leaves the disk as it is. */
  lemma DeathLeavesDisk(t: Stream)
    requires !t.session.Gone? && !t.session.Dead?
    ensures ContractorStep(t, Die) == t.(contractorOpen := false, session := Dead)
  {
  }

  /** A client that has gone is noticed wherever the contractor waits for it. */
  lemma GoneClientIsNoticed(t: Stream)
    requires !t.clientOpen
    ensures t.session.Booted? ==> ContractorStep(t, AcceptBroken) == t.(contractorOpen := false, session := Exiting)
    ensures t.session.Serving? ==> ContractorStep(t, CommandsEnd) == t.(contractorOpen := false, session := Exiting)
    ensures t.session.Reporting? ==> ContractorStep(t, ReportBroken) == t.(contractorOpen := false, session := Exiting)
  {
  }

  /** What a contractor in service does with its next command. */
  lemma CommandIsFollowed(t: Stream, c: Command, rest: seq<Down>)
    requires t.session.Serving? && t.channel.down == [Cmd(c)] + rest
    ensures ContractorStep(t, TakeCommand)
         == t.(channel := t.channel.(down := rest, handled := t.channel.handled + [c]),
               session := match c { case Commit => Committing case Other => Serving case Malformed => Exiting },
               contractorOpen := t.contractorOpen && c != Malformed)
  {
    assert t.channel.down[1..] == rest;
  }

  /** What becomes of an offer that was read: five ways, of which three close the stream without a machine. */
  lemma OfferIsDecided(t: Stream)
    requires t.session.Deciding?
    ensures ContractorStep(t, Ignore) == t.(session := Gone, contractorOpen := false)
    ensures ContractorStep(t, Reject) == t.(session := Gone, contractorOpen := false, channel := Reply(t.channel, Rejected))
    ensures ContractorStep(t, BootFails) == t.(session := Gone)
    ensures ContractorStep(t, Boot) == t.(session := Booted, rollback := true, disk := Pending)
    ensures ContractorStep(ContractorStep(t, Boot), Accept)
         == t.(session := Serving, rollback := true, disk := Pending, channel := Reply(t.channel, Executing))
  {
  }

  // ---------- The client ----------

  // The state g, except for one stream and what the client is about.
  function With(g: State, s: Id, t: Stream, client: Client): State {
    g.(streams := g.streams[s := t], client := client)
  }

  lemma ContractorOn(g: State, s: Id, t: Stream, client: Client, l: ContractorLabel)
    ensures Step(With(g, s, t, client), Contractor(s, l)) == With(g, s, ContractorStep(t, l), client)
  {
    assert g.streams[s := t][s := ContractorStep(t, l)] == g.streams[s := ContractorStep(t, l)];
  }

  lemma SendOfferOn(g: State, s: Id, t: Stream)
    ensures Step(With(g, s, t, Offering(s)), SendOffer) == With(g, s, t.(channel := Offer(t.channel)), Awaiting(s))
  {
    assert g.streams[s := t][s := t.(channel := Offer(t.channel))] == g.streams[s := t.(channel := Offer(t.channel))];
  }

  /** The answer decides: an executing contractor is signed, a rejection ends the tender; either closes it to others. */
  lemma TakeAnswerOn(g: State, s: Id, t: Stream, status: Status)
    requires t.channel.up == [Answer(status)]
    ensures var read := t.(channel := t.channel.(up := [], answerRead := true));
            Step(With(g, s, t, Awaiting(s)), TakeAnswer)
            == if status == Executing
               then With(g, s, read, Signed(s, false)).(signed := g.signed + [s], listening := false)
               else With(g, s, read.(clientOpen := false), Ended(ContractRejected)).(listening := false)
  {
    var read := t.(channel := t.channel.(up := [], answerRead := true));
    assert t.channel.up[1..] == [];
    assert g.streams[s := t][s := read] == g.streams[s := read];
    assert g.streams[s := t][s := read.(clientOpen := false)] == g.streams[s := read.(clientOpen := false)];
  }

  lemma AskOn(g: State, s: Id, t: Stream, c: Command)
    ensures Step(With(g, s, t, Signed(s, false)), SendCommand(c)) == With(g, s, t.(channel := Ask(t.channel, c)), Signed(s, true))
  {
    assert g.streams[s := t][s := t.(channel := Ask(t.channel, c))] == g.streams[s := t.(channel := Ask(t.channel, c))];
  }

  lemma TakeReportOn(g: State, s: Id, t: Stream, v: Verdict)
    requires t.channel.up == [Report(v)]
    ensures Step(With(g, s, t, Signed(s, true)), TakeReport)
         == With(g, s, t.(channel := t.channel.(up := [], told := t.channel.told + [v])), Signed(s, false))
  {
    var read := t.(channel := t.channel.(up := [], told := t.channel.told + [v]));
    assert t.channel.up[1..] == [];
    assert g.streams[s := t][s := read] == g.streams[s := read];
  }

  lemma CloseOn(g: State, s: Id, t: Stream, pending: bool)
    ensures Step(With(g, s, t, Signed(s, pending)), CloseSigned) == With(g, s, t.(clientOpen := false), Ended(Closed))
  {
    assert g.streams[s := t][s := t.(clientOpen := false)] == g.streams[s := t.(clientOpen := false)];
  }

  /** An offer that is late or broken, or a stream that fails to open, only closes that stream. */
  lemma OfferIsPassedOn(g: State, s: Id)
    requires s in g.streams
    ensures var closed := With(g, s, g.streams[s].(clientOpen := false), Waiting);
            && (g.client == Awaiting(s) ==> Step(g, OfferTimesOut) == closed)
            && (g.client == Offering(s) && !g.streams[s].contractorOpen ==> Step(g, OfferBroken) == closed)
            && (g.client == Waiting && g.backlog != [] && g.backlog[0] == s ==>
                  Step(g, AcceptStreamFails) == closed.(backlog := g.backlog[1..]))
  {
  }

  /** Streams wait in the order they came, until the tender is closed to them. */
  lemma StreamsQueueUp(g: State, s: Id)
    ensures g.listening && s !in g.streams ==>
              Step(g, Connect(s)) == g.(streams := g.streams[s := NEW_STREAM], backlog := g.backlog + [s])
    ensures !g.listening ==> Step(g, Connect(s)) == g
    ensures g.client == Waiting && g.backlog != [] ==>
              Step(g, AcceptStream) == g.(client := Offering(g.backlog[0]), backlog := g.backlog[1..])
    ensures !g.client.Signed? && !g.client.Ended? ==> Step(g, Cancel) == g.(client := Ended(Cancelled), listening := false)
  {
  }

  /** A client that waits for a report notices when the contractor is gone, and may ask again. */
  lemma LostReportIsNoticed(g: State, s: Id)
    requires g.client == Signed(s, true) && s in g.streams && !g.streams[s].contractorOpen
    ensures Step(g, ReportLost) == g.(client := Signed(s, false))
  {
  }

  /** A contractor may give up waiting for an offer, and streams left behind are closed in the end. */
  lemma StreamsAreDropped(g: State, s: Id)
    requires s in g.streams
    ensures g.streams[s].session.Connected? ==>
              Step(g, Contractor(s, GiveUpOffer)) == g.(streams := g.streams[s := g.streams[s].(session := Gone)])
    ensures g.streams[s].session.Gone? ==>
              Step(g, Contractor(s, ContractorDrops)) == g.(streams := g.streams[s := g.streams[s].(contractorOpen := false)])
    ensures g.client.Ended? ==>
              Step(g, ClientDrops(s)) == g.(streams := g.streams[s := g.streams[s].(clientOpen := false)])
  {
  }

  // ---------- Orderly runs ----------

  lemma {:induction false} RunOfFirst(g: State, l: Label, rest: seq<Label>)
    ensures Run(g, [l] + rest) == Run(Step(g, l), rest)
  {
    assert ([l] + rest)[1..] == rest;
  }

  // The channel of a stream once the offer, and then the answer too, was read.
  const OFFERED := Channel([], [], true, true, None, false, [], [], [], [])

  function Answered(status: Status): Channel {
    OFFERED.(answer := Some(status), answerRead := true)
  }

  function OfferRun(s: Id, rest: seq<Label>): seq<Label> {
    [AcceptStream] + ([SendOffer] + ([Contractor(s, TakeOffer)] + rest))
  }

  lemma {:induction false} OfferArrives(g: State, s: Id, rest: seq<Label>)
    requires g.client == Waiting && g.backlog != [] && g.backlog[0] == s
    requires s in g.streams && g.streams[s] == NEW_STREAM
    ensures Run(g, OfferRun(s, rest))
         == Run(With(g.(backlog := g.backlog[1..]), s, NEW_STREAM.(channel := OFFERED, session := Deciding), Awaiting(s)), rest)
  {
    var h := g.(backlog := g.backlog[1..]);
    var offered := NEW_STREAM.(channel := Offer(NEW));
    RunOfFirst(g, AcceptStream, [SendOffer] + ([Contractor(s, TakeOffer)] + rest));
    assert h.streams[s := NEW_STREAM] == h.streams;
    SendOfferOn(h, s, NEW_STREAM);
    RunOfFirst(With(h, s, NEW_STREAM, Offering(s)), SendOffer, [Contractor(s, TakeOffer)] + rest);
    ContractorOn(h, s, offered, Awaiting(s), TakeOffer);
    RunOfFirst(With(h, s, offered, Awaiting(s)), Contractor(s, TakeOffer), rest);
    assert ContractorStep(offered, TakeOffer) == NEW_STREAM.(channel := OFFERED, session := Deciding);
  }

  function SigningRun(s: Id): seq<Label> {
    OfferRun(s, [Contractor(s, Boot)] + ([Contractor(s, Accept)] + ([TakeAnswer] + [])))
  }

  /** A waiting client signs the next willing contractor, whose machine then runs on a pending disk. */
  lemma {:induction false} WillingContractorIsSigned(g: State, s: Id)
    requires g.client == Waiting && g.backlog != [] && g.backlog[0] == s
    requires s in g.streams && g.streams[s] == NEW_STREAM
    ensures Run(g, SigningRun(s))
         == With(g, s, Stream(Answered(Executing), true, true, Serving, true, Pending), Signed(s, false))
              .(backlog := g.backlog[1..], signed := g.signed + [s], listening := false)
  {
    var h := g.(backlog := g.backlog[1..]);
    var read := NEW_STREAM.(channel := OFFERED, session := Deciding);
    var booted := ContractorStep(read, Boot);
    var accepted := ContractorStep(booted, Accept);
    OfferArrives(g, s, [Contractor(s, Boot)] + ([Contractor(s, Accept)] + ([TakeAnswer] + [])));
    ContractorOn(h, s, read, Awaiting(s), Boot);
    RunOfFirst(With(h, s, read, Awaiting(s)), Contractor(s, Boot), [Contractor(s, Accept)] + ([TakeAnswer] + []));
    ContractorOn(h, s, booted, Awaiting(s), Accept);
    RunOfFirst(With(h, s, booted, Awaiting(s)), Contractor(s, Accept), [TakeAnswer] + []);
    TakeAnswerOn(h, s, accepted, Executing);
    RunOfFirst(With(h, s, accepted, Awaiting(s)), TakeAnswer, []);
  }

  function RejectionRun(s: Id): seq<Label> {
    OfferRun(s, [Contractor(s, Reject)] + ([TakeAnswer] + []))
  }

  /** A rejection ends the tender, with the stream closed at both ends and no machine started. */
  lemma {:induction false} RejectionEndsTender(g: State, s: Id)
    requires g.client == Waiting && g.backlog != [] && g.backlog[0] == s
    requires s in g.streams && g.streams[s] == NEW_STREAM
    ensures Run(g, RejectionRun(s))
         == With(g, s, Stream(Answered(Rejected), false, false, Gone, false, Absent), Ended(ContractRejected))
              .(backlog := g.backlog[1..], listening := false)
  {
    var h := g.(backlog := g.backlog[1..]);
    var read := NEW_STREAM.(channel := OFFERED, session := Deciding);
    var rejected := ContractorStep(read, Reject);
    OfferArrives(g, s, [Contractor(s, Reject)] + ([TakeAnswer] + []));
    ContractorOn(h, s, read, Awaiting(s), Reject);
    RunOfFirst(With(h, s, read, Awaiting(s)), Contractor(s, Reject), [TakeAnswer] + []);
    TakeAnswerOn(h, s, rejected, Rejected);
    RunOfFirst(With(h, s, rejected, Awaiting(s)), TakeAnswer, []);
  }

  function CommitRun(s: Id, works: bool): seq<Label> {
    [SendCommand(Commit)] + ([Contractor(s, TakeCommand)] +
      ([Contractor(s, if works then CommitSucceeds else CommitFails)] + ([Contractor(s, SendReport)] + ([TakeReport] + []))))
  }

  /** A stream in service on which nothing is under way. */
  predicate IsIdle(t: Stream) {
    t.session.Serving? && t.channel.down == [] && t.channel.up == []
  }

  /** What a commit that was asked for and reported leaves of the stream. */
  function Reported(t: Stream, works: bool): Stream {
    var c := t.channel.(asked := t.channel.asked + [Commit], handled := t.channel.handled + [Commit]);
    if works then
      t.(channel := c.(reports := c.reports + [Success], told := c.told + [Success]), disk := Committed, rollback := false)
    else
      t.(channel := c.(reports := c.reports + [Failure], told := c.told + [Failure]), session := Exiting, contractorOpen := false)
  }

  /** A client that asks for a commit is told how it went: a success if it works, and a failure if not. */
  lemma {:induction false} CommitIsTold(g: State, s: Id, t: Stream, works: bool)
    requires IsIdle(t)
    ensures Run(With(g, s, t, Signed(s, false)), CommitRun(s, works)) == With(g, s, Reported(t, works), Signed(s, false))
  {
    var step := if works then CommitSucceeds else CommitFails;
    var asked := t.(channel := Ask(t.channel, Commit));
    var taken := ContractorStep(asked, TakeCommand);
    var done := ContractorStep(taken, step);
    var reported := ContractorStep(done, SendReport);
    AskOn(g, s, t, Commit);
    RunOfFirst(With(g, s, t, Signed(s, false)), SendCommand(Commit),
               [Contractor(s, TakeCommand)] + ([Contractor(s, step)] + ([Contractor(s, SendReport)] + ([TakeReport] + []))));
    assert asked.channel.down == [Cmd(Commit)] + [];
    CommandIsFollowed(asked, Commit, []);
    ContractorOn(g, s, asked, Signed(s, true), TakeCommand);
    RunOfFirst(With(g, s, asked, Signed(s, true)), Contractor(s, TakeCommand), [Contractor(s, step)] + ([Contractor(s, SendReport)] + ([TakeReport] + [])));
    ContractorOn(g, s, taken, Signed(s, true), step);
    RunOfFirst(With(g, s, taken, Signed(s, true)), Contractor(s, step), [Contractor(s, SendReport)] + ([TakeReport] + []));
    ContractorOn(g, s, done, Signed(s, true), SendReport);
    RunOfFirst(With(g, s, done, Signed(s, true)), Contractor(s, SendReport), [TakeReport] + []);
    TakeReportOn(g, s, reported, if works then Success else Failure);
    RunOfFirst(With(g, s, reported, Signed(s, true)), TakeReport, []);
  }

  function ClosingRun(s: Id, works: bool): seq<Label> {
    [CloseSigned] + ([Contractor(s, CommandsEnd)] + ([Contractor(s, Exit(works))] + []))
  }

  /** When the client closes, the contractor leaves: a committed disk stays, and any other is rolled back. */
  lemma {:induction false} ClosingEndsService(g: State, s: Id, t: Stream, works: bool)
    requires IsIdle(t)
    ensures Run(With(g, s, t, Signed(s, false)), ClosingRun(s, works))
         == With(g, s, t.(clientOpen := false, contractorOpen := false, session := Gone,
                          disk := if !t.rollback then t.disk else if works then RolledBack else RollbackFailed),
                 Ended(Closed))
  {
    var closed := t.(clientOpen := false);
    var left := ContractorStep(closed, CommandsEnd);
    CloseOn(g, s, t, false);
    RunOfFirst(With(g, s, t, Signed(s, false)), CloseSigned, [Contractor(s, CommandsEnd)] + ([Contractor(s, Exit(works))] + []));
    ContractorOn(g, s, closed, Ended(Closed), CommandsEnd);
    RunOfFirst(With(g, s, closed, Ended(Closed)), Contractor(s, CommandsEnd), [Contractor(s, Exit(works))] + []);
    ContractorOn(g, s, left, Ended(Closed), Exit(works));
    RunOfFirst(With(g, s, left, Ended(Closed)), Contractor(s, Exit(works)), []);
  }

  lemma {:induction false} RunInTwo(g: State, first: seq<Label>, second: seq<Label>)
    ensures Run(g, first + second) == Run(Run(g, first), second)
    decreases |first|
  {
    if first == [] {
      assert first + second == second;
    } else {
      assert (first + second)[1..] == first[1..] + second;
      RunInTwo(Step(g, first[0]), first[1..], second);
    }
  }

  // The tender once its first contractor is signed.
  function SignedTender(s: Id): State {
    State(false, [], map[s := Stream(Answered(Executing), true, true, Serving, true, Pending)], Signed(s, false), [s])
  }

  lemma {:induction false} FirstIsSigned(s: Id)
    ensures Run(INIT, [Connect(s)] + SigningRun(s)) == SignedTender(s)
  {
    RunOfFirst(INIT, Connect(s), SigningRun(s));
    WillingContractorIsSigned(Step(INIT, Connect(s)), s);
  }

  /** From the publication of the tender to its end: signed, asked to commit, told of success, the disk kept. */
  lemma {:induction false} TenderIsFulfilled(s: Id, works: bool)
    ensures var g := Run(INIT, [Connect(s)] + SigningRun(s) + CommitRun(s, true) + ClosingRun(s, works));
            && g.client == Ended(Closed) && g.signed == [s] && g.streams.Keys == {s}
            && g.streams[s].channel.told == [Success]
            && g.streams[s].disk == Committed && g.streams[s].session == Gone
  {
    var t := Stream(Answered(Executing), true, true, Serving, true, Pending);
    var g := SignedTender(s);
    FirstIsSigned(s);
    assert With(g, s, t, Signed(s, false)) == g;
    RunInTwo(INIT, [Connect(s)] + SigningRun(s), CommitRun(s, true));
    CommitIsTold(g, s, t, true);
    RunInTwo(INIT, [Connect(s)] + SigningRun(s) + CommitRun(s, true), ClosingRun(s, works));
    ClosingEndsService(g, s, Reported(t, true), works);
  }

  /** The same without a commit: the disk is rolled back, or the rollback has failed. */
  lemma {:induction false} TenderIsAbandoned(s: Id, works: bool)
    ensures var g := Run(INIT, [Connect(s)] + SigningRun(s) + ClosingRun(s, works));
            && g.client == Ended(Closed) && g.signed == [s] && g.streams.Keys == {s}
            && g.streams[s].channel.told == [] && g.streams[s].session == Gone
            && g.streams[s].disk == if works then RolledBack else RollbackFailed
  {
    var t := Stream(Answered(Executing), true, true, Serving, true, Pending);
    FirstIsSigned(s);
    assert With(SignedTender(s), s, t, Signed(s, false)) == SignedTender(s);
    RunInTwo(INIT, [Connect(s)] + SigningRun(s), ClosingRun(s, works));
    ClosingEndsService(SignedTender(s), s, t, works);
  }
}
