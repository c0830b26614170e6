/**
  One tender of the ARM machine market, as a labelled transition system.

  A client publishes a contract and offers it to connecting streams, one at a time
  (arms/market.py, UnixSocketMarket and _UnixSocketTender). The contractor at the other
  end of each stream boots a machine, accepts, serves commands and finally commits or
  rolls back its disk (arms/snapshots.py). Timeouts, crashes and broken connections are
  steps of their own, so a run is any interleaving of the client with any number of
  contractors.
*/
module TenderProtocol {
  import opened Wrappers
  import opened ContractChannel

  type Id = nat

  datatype Session =
    | Connected            // waiting for the contract description
    | Deciding             // description read, templates are being matched
    | Booted               // machine runs on a pending disk, 'executing' not sent yet
    | Serving              // waiting for the next command
    | Committing           // a commit command is being carried out
    | Reporting(verdict: Verdict)
    | Exiting              // stream closed, leaving the running snapshot
    | Gone                 // left in an orderly way
    | Dead                 // the contractor process was killed

  datatype Disk = Absent | Pending | Committed | RolledBack | RollbackFailed

  /** One stream with the contractor at its far end; rollback is _RunningSnapshot._rollback. */
  datatype Stream = Stream(channel: Channel, clientOpen: bool, contractorOpen: bool,
                           session: Session, rollback: bool, disk: Disk)

  datatype Outcome = ContractRejected | Cancelled | Closed | ProtocolError
  datatype Client =
    | Waiting                          // accepting the next stream
    | Offering(s: Id)                  // stream accepted, description not sent yet
    | Awaiting(s: Id)                  // description sent, reading the answer
    | Signed(s: Id, pending: bool)     // pending: a command result is being read
    | Ended(why: Outcome)

  /** signed is the history of all streams the client has ever signed. */
  datatype State = State(listening: bool, backlog: seq<Id>, streams: map<Id, Stream>,
                         client: Client, signed: seq<Id>)

  datatype ContractorLabel =
    | TakeOffer | GiveUpOffer | Ignore | Reject | Boot | BootFails | Accept | AcceptBroken
    | TakeCommand | CommandsEnd | CommitSucceeds | CommitFails | SendReport | ReportBroken
    | Exit(rollbackWorks: bool) | Interrupted | Die | ContractorDrops

  datatype Label =
    | Connect(s: Id) | Contractor(s: Id, step: ContractorLabel)
    | AcceptStream | AcceptStreamFails | SendOffer | OfferBroken | TakeAnswer | OfferTimesOut | Cancel
    | SendCommand(command: Command) | TakeReport | ReportLost | CloseSigned | ClientDrops(s: Id)

  const NEW_STREAM := Stream(NEW, true, true, Connected, false, Absent)

  const INIT := State(true, [], map[], Waiting, [])

  // A stream may be closed before it is served, and left while it is being served.
  function Abandon(t: Stream): Stream { t.(session := Gone) }
  function Leave(t: Stream): Stream { t.(contractorOpen := false, session := Exiting) }

  /**
    A step of the contractor; a label that is not enabled leaves everything as it is. A
    message may be read although its sender has closed since; a peer's close may also be
    noticed before its last messages are read. An interrupted task leaves in an orderly way.
  */
  function ContractorStep(t: Stream, l: ContractorLabel): Stream
  {
    match t.session
    case Connected => ConnectedStep(t, l)
    case Deciding => DecidingStep(t, l)
    case Booted => BootedStep(t, l)
    case Serving => ServingStep(t, l)
    case Committing => CommittingStep(t, l)
    case Reporting(v) => ReportingStep(t, l, v)
    case _ => LeavingStep(t, l)
  }

  function ConnectedStep(t: Stream, l: ContractorLabel): Stream
  {
    if l.TakeOffer? && t.channel.down != [] then
      if t.channel.down[0].Cmd? then Abandon(t) else t.(channel := ReadOffer(t.channel), session := Deciding)
    else if l.GiveUpOffer? then Abandon(t)
    else if l.Die? then Killed(t)
    else t
  }

  function DecidingStep(t: Stream, l: ContractorLabel): Stream
  {
    if l.Ignore? then Abandon(t).(contractorOpen := false)
    else if l.Reject? then Abandon(t).(channel := Reply(t.channel, Rejected), contractorOpen := false)
    else if l.Boot? then t.(session := Booted, rollback := true, disk := Pending)
    else if l.BootFails? then Abandon(t)
    else if l.Die? then Killed(t)
    else t
  }

  function BootedStep(t: Stream, l: ContractorLabel): Stream
  {
    if l.Accept? then t.(channel := Reply(t.channel, Executing), session := Serving)
    else if l.AcceptBroken? && !t.clientOpen then Leave(t)
    else if l.Interrupted? then Leave(t)
    else if l.Die? then Killed(t)
    else t
  }

  function ServingStep(t: Stream, l: ContractorLabel): Stream
  {
    if l.TakeCommand? && t.channel.down != [] then
      if t.channel.down[0].Description? then Leave(t)
      else
        Follow(t.(channel := ReadCommand(t.channel)), t.channel.down[0].command)
    else if l.CommandsEnd? && !t.clientOpen then Leave(t)
    else if l.Interrupted? then Leave(t)
    else if l.Die? then Killed(t)
    else t
  }

  // A description without 'snapshot' raises out of the service loop; other commands are ignored.
  function Follow(t: Stream, c: Command): Stream {
    t.(session := match c { case Commit => Committing case Other => Serving case Malformed => Exiting },
       contractorOpen := t.contractorOpen && c != Malformed)
  }

  function CommittingStep(t: Stream, l: ContractorLabel): Stream
  {
    if l.CommitSucceeds? then t.(disk := Committed, rollback := false, session := Reporting(Success))
    else if l.CommitFails? then t.(session := Reporting(Failure))
    else if l.Interrupted? then Leave(t)
    else if l.Die? then Killed(t)
    else t
  }

  // A failed commit is reported and then raised out of the service loop.
  function ReportingStep(t: Stream, l: ContractorLabel, v: Verdict): Stream
  {
    if l.SendReport? then
      t.(channel := Tell(t.channel, v), session := if v == Success then Serving else Exiting,
         contractorOpen := t.contractorOpen && v == Success)
    else if l.ReportBroken? && !t.clientOpen then Leave(t)
    else if l.Interrupted? then Leave(t)
    else if l.Die? then Killed(t)
    else t
  }

  function LeavingStep(t: Stream, l: ContractorLabel): Stream
  {
    if l.Exit? && t.session.Exiting? then
      Abandon(t).(disk := if !t.rollback then t.disk else if l.rollbackWorks then RolledBack else RollbackFailed)
    else if l.Die? && t.session.Exiting? then Killed(t)
    else if l.ContractorDrops? && t.session.Gone? then t.(contractorOpen := false)
    else t
  }

  function Killed(t: Stream): Stream { t.(contractorOpen := false, session := Dead) }

  function Put(g: State, s: Id, t: Stream): State {
    g.(streams := g.streams[s := t])
  }

  /** A step of the whole system; a label that is not enabled leaves everything as it is. */
  function Step(g: State, l: Label): State
  {
    match l
    case Connect(s) =>
      if !g.listening || s in g.streams then g
      else Put(g, s, NEW_STREAM).(backlog := g.backlog + [s])
    case Contractor(s, step) =>
      if s !in g.streams then g else Put(g, s, ContractorStep(g.streams[s], step))
    case AcceptStream =>
      if g.client != Waiting || g.backlog == [] then g
      else g.(client := Offering(g.backlog[0]), backlog := g.backlog[1..])
    case AcceptStreamFails =>
      if g.client != Waiting || g.backlog == [] then g
      else CloseClientSide(g, g.backlog[0]).(backlog := g.backlog[1..])
    case Cancel =>
      if g.client.Signed? || g.client.Ended? then g
      else g.(client := Ended(Cancelled), listening := false)
    case ClientDrops(s) =>
      if g.client.Ended? then CloseClientSide(g, s) else g
    case _ => TalkingStep(g, l)
  }

  // The client and the stream it talks to.
  function TalkingStep(g: State, l: Label): State
  {
    match g.client
    case Offering(s) => if s in g.streams then OfferingStep(g, l, s, g.streams[s]) else g
    case Awaiting(s) => if s in g.streams then AwaitingStep(g, l, s, g.streams[s]) else g
    case Signed(s, pending) => if s in g.streams then SignedStep(g, l, s, g.streams[s], pending) else g
    case _ => g
  }

  function OfferingStep(g: State, l: Label, s: Id, t: Stream): State
  {
    if l.SendOffer? then Put(g, s, t.(channel := Offer(t.channel))).(client := Awaiting(s))
    else if l.OfferBroken? && !t.contractorOpen then Put(g, s, t.(clientOpen := false)).(client := Waiting)
    else g
  }

  function AwaitingStep(g: State, l: Label, s: Id, t: Stream): State
  {
    if l.TakeAnswer? && t.channel.up != [] then TakeAnswerStep(g, s, t)
    else if l.OfferTimesOut? then Put(g, s, t.(clientOpen := false)).(client := Waiting)
    else g
  }

  // Leaving find_contractor in any way closes the listening socket.
  function TakeAnswerStep(g: State, s: Id, t: Stream): State
    requires t.channel.up != []
  {
    var t' := t.(channel := ReadAnswer(t.channel));
    match t.channel.up[0]
    case Answer(Executing) => Put(g, s, t').(client := Signed(s, false), signed := g.signed + [s], listening := false)
    case Answer(Rejected) => Put(g, s, t'.(clientOpen := false)).(client := Ended(ContractRejected), listening := false)
    case Report(_) => g.(client := Ended(ProtocolError), listening := false)
  }

  function SignedStep(g: State, l: Label, s: Id, t: Stream, pending: bool): State
  {
    if l.SendCommand? && !pending then
      Put(g, s, t.(channel := Ask(t.channel, l.command))).(client := Signed(s, true))
    else if l.TakeReport? && pending && t.channel.up != [] then
      if t.channel.up[0].Answer? then g.(client := Ended(ProtocolError))
      else Put(g, s, t.(channel := ReadReport(t.channel))).(client := Signed(s, false))
    else if l.ReportLost? && !t.contractorOpen then g.(client := Signed(s, false))
    else if l.CloseSigned? then Put(g, s, t.(clientOpen := false)).(client := Ended(Closed))
    else g
  }

  function CloseClientSide(g: State, s: Id): State {
    if s in g.streams then Put(g, s, g.streams[s].(clientOpen := false)) else g
  }

  /** The state after a whole run. */
  function Run(g: State, labels: seq<Label>): State
    decreases |labels|
  {
    if labels == [] then g else Run(Step(g, labels[0]), labels[1..])
  }

  // ---------- What is promised of every reachable state ----------

  /** What holds of a stream, given whether the client ever signed it. */
  ghost predicate StreamSafe(t: Stream, isSigned: bool) {
    var c := t.channel;
    // Commands are handled in the order they were asked, and reports read in the order sent.
    && c.handled <= c.asked && c.told <= c.reports
    // Only a signed stream is sent commands, and its machine commits only if it was asked to.
    && (c.asked != [] ==> isSigned)
    && (t.disk == Committed ==> isSigned && Commit in c.asked)
    // Each commit command gets at most one report. A success told is a committed disk; a
    // failure told is the last thing told, and ends the service.
    && |c.told| <= Commits(c.asked)
    && (Success in c.told ==> t.disk == Committed)
    && (Failure in c.told ==> Leaving(t.session) && c.told[|c.told| - 1] == Failure)
    // A contractor that left in an orderly way tried to roll back unless it had committed.
    && (t.session == Gone && t.disk != Absent ==>
          if t.rollback then t.disk == RolledBack || t.disk == RollbackFailed else t.disk == Committed)
  }

  /** At most one stream is ever signed, no two machines commit, and no unexpected message is read. */
  ghost predicate Safe(g: State) {
    && |g.signed| <= 1
    && g.client != Ended(ProtocolError)
    && (forall s <- g.streams :: StreamSafe(g.streams[s], g.signed == [s]))
    && (forall s <- g.streams, s' <- g.streams ::
          g.streams[s].disk == Committed && g.streams[s'].disk == Committed ==> s == s')
  }

  predicate BeforeService(s: Session) { s.Connected? || s.Deciding? || s.Booted? }

  predicate InService(s: Session) { s.Serving? || s.Committing? || s.Reporting? }

  predicate Leaving(s: Session) { s.Exiting? || s.Gone? || s.Dead? }

  // ---------- The inductive invariant ----------

  /** What the contractor's program point says about the offer and the answer to it. */
  ghost predicate SessionOk(t: Stream) {
    && (t.session.Connected? ==> !t.channel.offerRead)
    && (!t.session.Connected? && !Leaving(t.session) ==> t.channel.offerRead)
    && (BeforeService(t.session) ==> t.channel.answer == None)
    && (InService(t.session) ==> t.channel.answer == Some(Executing))
    && (t.channel.answer.Some? ==> t.channel.offerRead)
    && (t.channel.asked != [] ==> t.channel.answer == Some(Executing))
  }

  /** What the contractor's program point says about the disk. */
  ghost predicate DiskOk(t: Stream) {
    && (t.session.Connected? || t.session.Deciding? ==> t.disk == Absent)
    && (t.session.Booted? || InService(t.session) || t.session.Exiting? ==> t.disk == Pending || t.disk == Committed)
    && (t.disk != Absent ==> (t.rollback <==> t.disk != Committed))
    && (t.session.Gone? ==> t.disk != Pending)
    && (t.session == Reporting(Success) ==> t.disk == Committed)
    && (t.session.Committing? || t.session.Reporting? || t.disk == Committed ==> Commits(t.channel.handled) > 0)
    && (t.channel.reports != [] && t.channel.reports[0] == Success ==> t.disk == Committed)
  }

  /** Every report answers one commit command, and a failure is the last of them. */
  ghost predicate ReportsOk(t: Stream) {
    var c := t.channel;
    && (BeforeService(t.session) || t.session.Serving? ==> |c.reports| == Commits(c.handled))
    && (t.session.Committing? || t.session.Reporting? ==> |c.reports| + 1 == Commits(c.handled))
    && |c.reports| <= Commits(c.handled)
    && (c.reports != [] && c.reports[|c.reports| - 1] == Failure ==> Leaving(t.session))
    && (forall i :: 0 <= i < |c.reports| - 1 ==> c.reports[i] == Success)
  }

  ghost predicate StreamOk(t: Stream, isSigned: bool) {
    && ChannelOk(t.channel) && SessionOk(t) && DiskOk(t) && ReportsOk(t)
    && (isSigned <==> t.channel.answer == Some(Executing) && t.channel.answerRead)
    && (t.channel.asked != [] ==> isSigned)
  }

  ghost predicate ClientOk(g: State) {
    && (forall i :: 0 <= i < |g.backlog| ==> g.backlog[i] in g.streams && !g.streams[g.backlog[i]].channel.offered)
    && (forall i, j :: 0 <= i < j < |g.backlog| ==> g.backlog[i] != g.backlog[j])
    && (forall s <- g.signed :: s in g.streams)
    && match g.client
       case Waiting => g.signed == []
       case Offering(s) => g.signed == [] && s in g.streams && !g.streams[s].channel.offered && s !in g.backlog
       case Awaiting(s) => g.signed == [] && s in g.streams && g.streams[s].channel.offered && !g.streams[s].channel.answerRead
       case Signed(s, _) => g.signed == [s]
       case Ended(why) => |g.signed| <= 1 && why != ProtocolError
  }

  ghost predicate StreamsOk(g: State) {
    forall s <- g.streams :: StreamOk(g.streams[s], s in g.signed)
  }

  ghost predicate Inv(g: State) {
    ClientOk(g) && StreamsOk(g)
  }

  /** What a contractor may not change: the part of the stream the client's state depends on. */
  predicate SameForClient(t: Stream, t': Stream) {
    t'.channel.offered == t.channel.offered && t'.channel.answerRead == t.channel.answerRead
  }

  lemma ConnectedKeepsStream(t: Stream, l: ContractorLabel, isSigned: bool)
    requires StreamOk(t, isSigned) && t.session.Connected?
    ensures StreamOk(ConnectedStep(t, l), isSigned) && SameForClient(t, ConnectedStep(t, l))
  {
    if l.TakeOffer? && t.channel.down != [] && t.channel.down[0].Description? {
      OfferIsRead(t.channel);
    }
  }

  lemma DecidingKeepsStream(t: Stream, l: ContractorLabel, isSigned: bool)
    requires StreamOk(t, isSigned) && t.session.Deciding?
    ensures StreamOk(DecidingStep(t, l), isSigned) && SameForClient(t, DecidingStep(t, l))
  {
    if l.Reject? {
      RejectKeepsStream(t, isSigned);
    }
  }

  lemma RejectKeepsStream(t: Stream, isSigned: bool)
    requires StreamOk(t, isSigned) && t.session.Deciding?
    ensures StreamOk(Abandon(t).(channel := Reply(t.channel, Rejected), contractorOpen := false), isSigned)
  {
    ReplyKeepsChannel(t.channel, Rejected);
  }

  lemma BootedKeepsStream(t: Stream, l: ContractorLabel, isSigned: bool)
    requires StreamOk(t, isSigned) && t.session.Booted?
    ensures StreamOk(BootedStep(t, l), isSigned) && SameForClient(t, BootedStep(t, l))
  {
    ReplyKeepsChannel(t.channel, Executing);
  }

  lemma ServingKeepsBooks(t: Stream, l: ContractorLabel)
    requires DiskOk(t) && ReportsOk(t) && t.session.Serving?
    ensures DiskOk(ServingStep(t, l)) && ReportsOk(ServingStep(t, l))
  {
    if l.TakeCommand? && t.channel.down != [] && t.channel.down[0].Cmd? {
      FollowKeepsBooks(t, t.channel.down[0].command);
    }
  }

  lemma FollowKeepsBooks(t: Stream, c: Command)
    requires DiskOk(t) && ReportsOk(t) && t.session.Serving?
    requires t.channel.down != [] && t.channel.down[0] == Cmd(c)
    ensures DiskOk(Follow(t.(channel := ReadCommand(t.channel)), c))
    ensures ReportsOk(Follow(t.(channel := ReadCommand(t.channel)), c))
  {
    CommitsAppend(t.channel.handled, c);
  }

  lemma ServingKeepsStream(t: Stream, l: ContractorLabel, isSigned: bool)
    requires StreamOk(t, isSigned) && t.session.Serving?
    ensures StreamOk(ServingStep(t, l), isSigned) && SameForClient(t, ServingStep(t, l))
  {
    if t.channel.down != [] {
      CommandIsRead(t.channel);
    }
    ServingKeepsBooks(t, l);
  }

  lemma CommittingKeepsStream(t: Stream, l: ContractorLabel, isSigned: bool)
    requires StreamOk(t, isSigned) && t.session.Committing?
    ensures StreamOk(CommittingStep(t, l), isSigned) && SameForClient(t, CommittingStep(t, l))
  {
  }

  lemma ReportingKeepsBooks(t: Stream, l: ContractorLabel)
    requires DiskOk(t) && ReportsOk(t) && t.session.Reporting?
    ensures DiskOk(ReportingStep(t, l, t.session.verdict)) && ReportsOk(ReportingStep(t, l, t.session.verdict))
  {
  }

  lemma ReportingKeepsStream(t: Stream, l: ContractorLabel, isSigned: bool)
    requires StreamOk(t, isSigned) && t.session.Reporting?
    ensures StreamOk(ReportingStep(t, l, t.session.verdict), isSigned) && SameForClient(t, ReportingStep(t, l, t.session.verdict))
  {
    TellKeepsChannel(t.channel, t.session.verdict);
    ReportingKeepsBooks(t, l);
  }

  lemma LeavingKeepsStream(t: Stream, l: ContractorLabel, isSigned: bool)
    requires StreamOk(t, isSigned)
    ensures StreamOk(LeavingStep(t, l), isSigned) && SameForClient(t, LeavingStep(t, l))
  {
  }

  lemma ContractorKeepsStream(t: Stream, l: ContractorLabel, isSigned: bool)
    requires StreamOk(t, isSigned)
    ensures StreamOk(ContractorStep(t, l), isSigned) && SameForClient(t, ContractorStep(t, l))
  {
    match t.session
    case Connected => ConnectedKeepsStream(t, l, isSigned);
    case Deciding => DecidingKeepsStream(t, l, isSigned);
    case Booted => BootedKeepsStream(t, l, isSigned);
    case Serving => ServingKeepsStream(t, l, isSigned);
    case Committing => CommittingKeepsStream(t, l, isSigned);
    case Reporting(_) => ReportingKeepsStream(t, l, isSigned);
    case _ => LeavingKeepsStream(t, l, isSigned);
  }

  // What the client does to the stream it talks to.

  lemma OfferKeepsStream(t: Stream)
    requires StreamOk(t, false) && !t.channel.offered
    ensures StreamOk(t.(channel := Offer(t.channel)), false)
    ensures !t.channel.answerRead
  {
    OfferKeepsChannel(t.channel);
  }

  lemma AnswerKeepsStream(t: Stream)
    requires StreamOk(t, false) && !t.channel.answerRead && t.channel.up != []
    ensures t.channel.up[0].Answer?
    ensures StreamOk(t.(channel := ReadAnswer(t.channel)), t.channel.up[0] == Answer(Executing))
    ensures StreamOk(t.(channel := ReadAnswer(t.channel), clientOpen := false), t.channel.up[0] == Answer(Executing))
  {
    AnswerKeepsChannel(t.channel);
  }

  lemma AskKeepsStream(t: Stream, c: Command)
    requires StreamOk(t, true)
    ensures StreamOk(t.(channel := Ask(t.channel, c)), true)
  {
    AskKeepsChannel(t.channel, c);
  }

  lemma ReportKeepsStream(t: Stream)
    requires StreamOk(t, true) && t.channel.up != []
    ensures t.channel.up[0].Report?
    ensures StreamOk(t.(channel := ReadReport(t.channel)), true)
  {
    ReportKeepsChannel(t.channel);
  }

  lemma CloseKeepsStream(t: Stream, isSigned: bool)
    requires StreamOk(t, isSigned)
    ensures StreamOk(t.(clientOpen := false), isSigned)
  {
  }

  lemma PutKeepsStreams(g: State, s: Id, g': State)
    requires StreamsOk(g) && s in g'.streams && g'.streams == g.streams[s := g'.streams[s]]
    requires StreamOk(g'.streams[s], s in g'.signed)
    requires forall s' <- g.streams :: s' != s ==> (s' in g'.signed <==> s' in g.signed)
    ensures StreamsOk(g')
  {
    forall s' <- g'.streams
      ensures StreamOk(g'.streams[s'], s' in g'.signed)
    {
      if s' != s {
        assert StreamOk(g.streams[s'], s' in g.signed);
      }
    }
  }

  lemma PutKeepsClient(g: State, s: Id, t: Stream)
    requires ClientOk(g) && s in g.streams && SameForClient(g.streams[s], t)
    ensures ClientOk(Put(g, s, t))
  {
  }

  lemma PutKeepsInv(g: State, s: Id, t: Stream)
    requires Inv(g) && s in g.streams && SameForClient(g.streams[s], t) && StreamOk(t, s in g.signed)
    ensures Inv(Put(g, s, t))
  {
    PutKeepsClient(g, s, t);
    PutKeepsStreams(g, s, Put(g, s, t));
  }

  lemma ContractorKeepsInv(g: State, s: Id, l: ContractorLabel)
    requires Inv(g)
    ensures Inv(Step(g, Contractor(s, l)))
  {
    if s in g.streams {
      ContractorKeepsStream(g.streams[s], l, s in g.signed);
      PutKeepsInv(g, s, ContractorStep(g.streams[s], l));
    }
  }

  lemma NewStreamOk()
    ensures StreamOk(NEW_STREAM, false)
  {
  }

  lemma ConnectKeepsClient(g: State, s: Id, t: Stream)
    requires ClientOk(g) && s !in g.streams && !t.channel.offered
    ensures ClientOk(Put(g, s, t).(backlog := g.backlog + [s]))
  {
  }

  lemma ConnectKeepsInv(g: State, s: Id)
    requires Inv(g)
    ensures Inv(Step(g, Connect(s)))
  {
    if g.listening && s !in g.streams {
      NewStreamOk();
      ConnectKeepsClient(g, s, NEW_STREAM);
      PutKeepsStreams(g, s, Step(g, Connect(s)));
    }
  }

  lemma CloseKeepsInv(g: State, s: Id)
    requires Inv(g)
    ensures Inv(CloseClientSide(g, s))
  {
    if s in g.streams {
      CloseKeepsStream(g.streams[s], s in g.signed);
      PutKeepsInv(g, s, g.streams[s].(clientOpen := false));
    }
  }

  lemma AcceptingKeepsInv(g: State)
    requires Inv(g)
    ensures Inv(Step(g, AcceptStream))
  {
  }

  lemma DroppingKeepsInv(g: State)
    requires Inv(g) && g.backlog != []
    ensures Inv(g.(backlog := g.backlog[1..]))
  {
  }

  lemma FailingKeepsInv(g: State)
    requires Inv(g)
    ensures Inv(Step(g, AcceptStreamFails))
  {
    if g.client == Waiting && g.backlog != [] {
      CloseKeepsInv(g, g.backlog[0]);
      DroppingKeepsInv(CloseClientSide(g, g.backlog[0]));
    }
  }

  lemma CancelKeepsInv(g: State)
    requires Inv(g)
    ensures Inv(Step(g, Cancel))
  {
  }

  lemma OfferKeepsInv(g: State, s: Id)
    requires Inv(g) && g.client == Offering(s)
    ensures Inv(Put(g, s, g.streams[s].(channel := Offer(g.streams[s].channel))).(client := Awaiting(s)))
  {
    var t := g.streams[s].(channel := Offer(g.streams[s].channel));
    OfferKeepsStream(g.streams[s]);
    PutKeepsStreams(g, s, Put(g, s, t).(client := Awaiting(s)));
  }

  lemma OfferingKeepsInv(g: State, l: Label, s: Id)
    requires Inv(g) && g.client == Offering(s)
    ensures Inv(OfferingStep(g, l, s, g.streams[s]))
  {
    if l.SendOffer? {
      OfferKeepsInv(g, s);
    } else if l.OfferBroken? {
      CloseKeepsInv(g, s);
    }
  }

  lemma TakeAnswerKeepsClient(g: State, s: Id)
    requires ClientOk(g) && g.client == Awaiting(s)
    requires g.streams[s].channel.up != [] && g.streams[s].channel.up[0].Answer?
    ensures ClientOk(TakeAnswerStep(g, s, g.streams[s]))
  {
  }

  lemma TakeAnswerKeepsInv(g: State, s: Id)
    requires Inv(g) && g.client == Awaiting(s) && g.streams[s].channel.up != []
    ensures Inv(TakeAnswerStep(g, s, g.streams[s]))
  {
    AnswerKeepsStream(g.streams[s]);
    TakeAnswerKeepsClient(g, s);
    PutKeepsStreams(g, s, TakeAnswerStep(g, s, g.streams[s]));
  }

  lemma AwaitingKeepsInv(g: State, l: Label, s: Id)
    requires Inv(g) && g.client == Awaiting(s)
    ensures Inv(AwaitingStep(g, l, s, g.streams[s]))
  {
    if l.TakeAnswer? && g.streams[s].channel.up != [] {
      TakeAnswerKeepsInv(g, s);
    } else if l.OfferTimesOut? {
      CloseKeepsInv(g, s);
    }
  }

  lemma AskKeepsInv(g: State, s: Id, c: Command)
    requires Inv(g) && s in g.streams && g.signed == [s]
    ensures Inv(Put(g, s, g.streams[s].(channel := Ask(g.streams[s].channel, c))))
  {
    AskKeepsStream(g.streams[s], c);
    PutKeepsInv(g, s, g.streams[s].(channel := Ask(g.streams[s].channel, c)));
  }

  lemma ReportKeepsInv(g: State, s: Id)
    requires Inv(g) && s in g.streams && g.signed == [s] && g.streams[s].channel.up != []
    ensures g.streams[s].channel.up[0].Report?
    ensures Inv(Put(g, s, g.streams[s].(channel := ReadReport(g.streams[s].channel))))
  {
    ReportKeepsStream(g.streams[s]);
    PutKeepsInv(g, s, g.streams[s].(channel := ReadReport(g.streams[s].channel)));
  }

  lemma SignedClientKeepsInv(g: State, client: Client)
    requires Inv(g) && g.client.Signed?
    requires (client.Signed? && client.s == g.client.s) || client == Ended(Closed)
    ensures Inv(g.(client := client))
  {
  }

  lemma CommandKeepsInv(g: State, l: Label, s: Id, pending: bool)
    requires Inv(g) && g.client == Signed(s, pending) && s in g.streams && l.SendCommand?
    ensures Inv(SignedStep(g, l, s, g.streams[s], pending))
  {
    var asked := Put(g, s, g.streams[s].(channel := Ask(g.streams[s].channel, l.command)));
    AskKeepsInv(g, s, l.command);
    SignedClientKeepsInv(asked, Signed(s, true));
  }

  lemma TakeReportKeepsInv(g: State, l: Label, s: Id, pending: bool)
    requires Inv(g) && g.client == Signed(s, pending) && s in g.streams && l.TakeReport?
    ensures Inv(SignedStep(g, l, s, g.streams[s], pending))
  {
    if pending && g.streams[s].channel.up != [] {
      ReportKeepsInv(g, s);
      var told := Put(g, s, g.streams[s].(channel := ReadReport(g.streams[s].channel)));
      SignedClientKeepsInv(told, Signed(s, false));
      assert SignedStep(g, l, s, g.streams[s], pending) == told.(client := Signed(s, false));
    } else {
      assert SignedStep(g, l, s, g.streams[s], pending) == g;
    }
  }

  lemma CloseSignedKeepsInv(g: State, l: Label, s: Id, pending: bool)
    requires Inv(g) && g.client == Signed(s, pending) && s in g.streams && l.CloseSigned?
    ensures Inv(SignedStep(g, l, s, g.streams[s], pending))
  {
    CloseKeepsInv(g, s);
    SignedClientKeepsInv(CloseClientSide(g, s), Ended(Closed));
  }

  lemma ReportLostKeepsInv(g: State, l: Label, s: Id, pending: bool)
    requires Inv(g) && g.client == Signed(s, pending) && s in g.streams
    requires !l.SendCommand? && !l.TakeReport? && !l.CloseSigned?
    ensures Inv(SignedStep(g, l, s, g.streams[s], pending))
  {
    SignedClientKeepsInv(g, Signed(s, false));
  }

  lemma SignedKeepsInv(g: State, l: Label, s: Id, pending: bool)
    requires Inv(g) && g.client == Signed(s, pending) && s in g.streams
    ensures Inv(SignedStep(g, l, s, g.streams[s], pending))
  {
    if l.SendCommand? {
      CommandKeepsInv(g, l, s, pending);
    } else if l.TakeReport? {
      TakeReportKeepsInv(g, l, s, pending);
    } else if l.CloseSigned? {
      CloseSignedKeepsInv(g, l, s, pending);
    } else {
      ReportLostKeepsInv(g, l, s, pending);
    }
  }

  lemma TalkingKeepsInv(g: State, l: Label)
    requires Inv(g)
    ensures Inv(TalkingStep(g, l))
  {
    match g.client
    case Offering(s) => OfferingKeepsInv(g, l, s);
    case Awaiting(s) => AwaitingKeepsInv(g, l, s);
    case Signed(s, pending) => SignedKeepsInv(g, l, s, pending);
    case _ =>
  }

  lemma DropKeepsInv(g: State, s: Id)
    requires Inv(g)
    ensures Inv(Step(g, ClientDrops(s)))
  {
    CloseKeepsInv(g, s);
  }

  predicate IsTalk(l: Label) {
    !l.Connect? && !l.Contractor? && !l.AcceptStream? && !l.AcceptStreamFails? && !l.Cancel? && !l.ClientDrops?
  }

  lemma TalkKeepsInv(g: State, l: Label)
    requires Inv(g) && IsTalk(l)
    ensures Inv(Step(g, l))
  {
    assert Step(g, l) == TalkingStep(g, l);
    TalkingKeepsInv(g, l);
  }

  /** The invariant is inductive. */
  lemma StepKeepsInv(g: State, l: Label)
    requires Inv(g)
    ensures Inv(Step(g, l))
  {
    match l
    case Connect(s) => ConnectKeepsInv(g, s);
    case Contractor(s, step) => ContractorKeepsInv(g, s, step);
    case AcceptStream => AcceptingKeepsInv(g);
    case AcceptStreamFails => FailingKeepsInv(g);
    case Cancel => CancelKeepsInv(g);
    case ClientDrops(s) => DropKeepsInv(g, s);
    case _ => TalkKeepsInv(g, l);
  }

  // ---------- The theorems ----------

  lemma StreamOkIsSafe(t: Stream, isSigned: bool)
    requires StreamOk(t, isSigned)
    ensures StreamSafe(t, isSigned)
  {
    CommitsOfPrefix(t.channel.handled, t.channel.asked);
    NoCommits(t.channel.asked);
  }

  lemma InvIsSafe(g: State)
    requires Inv(g)
    ensures Safe(g)
  {
    forall s <- g.streams
      ensures StreamSafe(g.streams[s], g.signed == [s])
    {
      assert s in g.signed <==> g.signed == [s];
      StreamOkIsSafe(g.streams[s], s in g.signed);
    }
  }

  lemma {:induction false} RunKeepsInv(g: State, labels: seq<Label>)
    requires Inv(g)
    ensures Inv(Run(g, labels))
    decreases |labels|
  {
    if labels != [] {
      StepKeepsInv(g, labels[0]);
      RunKeepsInv(Step(g, labels[0]), labels[1..]);
    }
  }

  /** The main theorem: from the publication of the tender on, every interleaving is safe. */
  lemma {:induction false} TenderIsSafe(labels: seq<Label>)
    ensures Safe(Run(INIT, labels))
  {
    RunKeepsInv(INIT, labels);
    InvIsSafe(Run(INIT, labels));
  }

  lemma ContractorKeepsCommitted(t: Stream, l: ContractorLabel)
    requires DiskOk(t) && t.disk == Committed
    ensures ContractorStep(t, l).disk == Committed
  {
  }

  lemma StepKeepsCommitted(g: State, l: Label, s: Id)
    requires s in g.streams && DiskOk(g.streams[s]) && g.streams[s].disk == Committed
    ensures s in Step(g, l).streams && Step(g, l).streams[s].disk == Committed
  {
    if l.Contractor? && l.s == s {
      ContractorKeepsCommitted(g.streams[s], l.step);
    }
  }

  lemma {:induction false} RunKeepsCommitted(g: State, labels: seq<Label>, s: Id)
    requires Inv(g) && s in g.streams && g.streams[s].disk == Committed
    ensures s in Run(g, labels).streams && Run(g, labels).streams[s].disk == Committed
    decreases |labels|
  {
    if labels != [] {
      StepKeepsInv(g, labels[0]);
      assert StreamOk(g.streams[s], s in g.signed);
      StepKeepsCommitted(g, labels[0], s);
      RunKeepsCommitted(Step(g, labels[0]), labels[1..], s);
    }
  }

  /**
    What the client may conclude once it was told of a success: however the run goes on, that
    machine has committed, and no other machine ever does.
  */
  lemma {:induction false} SuccessIsFinal(before: seq<Label>, after: seq<Label>, s: Id)
    requires s in Run(INIT, before).streams && Success in Run(INIT, before).streams[s].channel.told
    ensures var g := Run(Run(INIT, before), after);
            && s in g.streams
            && forall s' <- g.streams :: g.streams[s'].disk == Committed <==> s' == s
  {
    var g := Run(INIT, before);
    TenderIsSafe(before);
    assert StreamSafe(g.streams[s], g.signed == [s]);
    RunKeepsInv(INIT, before);
    RunKeepsCommitted(g, after, s);
    RunKeepsInv(g, after);
    InvIsSafe(Run(g, after));
  }
}
