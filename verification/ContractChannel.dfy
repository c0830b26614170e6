/**
  The messages of one contract stream, in both directions, with their history
  (arms/market.py, the message classes over _JsonStream).

  down and up are the FIFO queues of messages sent and not read yet. The other fields
  record what was ever sent and read; ChannelOk says that the queues are exactly the
  difference.
*/
module ContractChannel {
  import opened Wrappers

  // What description['snapshot'] says; Malformed stands for a description without that key.
  datatype Command = Commit | Other | Malformed
  datatype Verdict = Success | Failure
  datatype Status = Executing | Rejected

  // Messages from the client to a contractor, and back.
  datatype Down = Description | Cmd(command: Command)
  datatype Up = Answer(status: Status) | Report(verdict: Verdict)

  datatype Channel = Channel(
    down: seq<Down>, up: seq<Up>,
    offered: bool, offerRead: bool,
    answer: Option<Status>, answerRead: bool,
    asked: seq<Command>, handled: seq<Command>,
    reports: seq<Verdict>, told: seq<Verdict>)

  const NEW := Channel([], [], false, false, None, false, [], [], [], [])

  // The client's side.

  function Offer(c: Channel): Channel {
    c.(down := c.down + [Description], offered := true)
  }

  function ReadAnswer(c: Channel): Channel
    requires c.up != []
  {
    c.(up := c.up[1..], answerRead := true)
  }

  function Ask(c: Channel, command: Command): Channel {
    c.(down := c.down + [Cmd(command)], asked := c.asked + [command])
  }

  function ReadReport(c: Channel): Channel
    requires c.up != [] && c.up[0].Report?
  {
    c.(up := c.up[1..], told := c.told + [c.up[0].verdict])
  }

  // The contractor's side.

  function ReadOffer(c: Channel): Channel
    requires c.down != []
  {
    c.(down := c.down[1..], offerRead := true)
  }

  function Reply(c: Channel, status: Status): Channel {
    c.(up := c.up + [Answer(status)], answer := Some(status))
  }

  function ReadCommand(c: Channel): Channel
    requires c.down != [] && c.down[0].Cmd?
  {
    c.(down := c.down[1..], handled := c.handled + [c.down[0].command])
  }

  function Tell(c: Channel, v: Verdict): Channel {
    c.(up := c.up + [Report(v)], reports := c.reports + [v])
  }

  function Commands(cs: seq<Command>): seq<Down> {
    seq(|cs|, i requires 0 <= i < |cs| => Cmd(cs[i]))
  }

  function Reports(vs: seq<Verdict>): seq<Up> {
    seq(|vs|, i requires 0 <= i < |vs| => Report(vs[i]))
  }

  ghost predicate ChannelOk(c: Channel) {
    && c.handled <= c.asked
    && c.told <= c.reports
    && (c.offerRead ==> c.offered)
    && (c.answerRead ==> c.answer.Some?)
    && c.down == (if c.offered && !c.offerRead then [Description] else []) + Commands(c.asked[|c.handled|..])
    && c.up == (if c.answer.Some? && !c.answerRead then [Answer(c.answer.value)] else []) + Reports(c.reports[|c.told|..])
  }

  // A client that offers once, and asks only after reading the answer, breaks no channel.

  lemma OfferKeepsChannel(c: Channel)
    requires ChannelOk(c) && !c.offered && c.asked == []
    ensures ChannelOk(Offer(c))
  {
  }

  lemma AnswerKeepsChannel(c: Channel)
    requires ChannelOk(c) && c.answer.Some? && !c.answerRead
    ensures c.up != [] && c.up[0] == Answer(c.answer.value) && ChannelOk(ReadAnswer(c))
  {
  }

  lemma AskKeepsChannel(c: Channel, command: Command)
    requires ChannelOk(c)
    ensures ChannelOk(Ask(c, command))
  {
    assert Ask(c, command).asked[|c.handled|..] == c.asked[|c.handled|..] + [command];
  }

  /** After the answer only reports come up the stream, in the order they were sent. */
  lemma ReportKeepsChannel(c: Channel)
    requires ChannelOk(c) && c.answer.Some? && c.answerRead && c.up != []
    ensures |c.told| < |c.reports| && c.up[0] == Report(c.reports[|c.told|]) && ChannelOk(ReadReport(c))
  {
    assert ReadReport(c).reports[|c.told| + 1..] == c.reports[|c.told|..][1..];
  }

  // A contractor that answers once, and reports only afterwards, breaks no channel.

  lemma OfferIsRead(c: Channel)
    requires ChannelOk(c) && c.offered && !c.offerRead
    ensures c.down != [] && c.down[0] == Description && ChannelOk(ReadOffer(c))
  {
  }

  /** After the offer only commands come down the stream, in the order they were asked. */
  lemma CommandIsRead(c: Channel)
    requires ChannelOk(c) && c.offerRead && c.down != []
    ensures |c.handled| < |c.asked| && c.down[0] == Cmd(c.asked[|c.handled|]) && ChannelOk(ReadCommand(c))
  {
    assert ReadCommand(c).asked[|c.handled| + 1..] == c.asked[|c.handled|..][1..];
  }

  lemma ReplyKeepsChannel(c: Channel, s: Status)
    requires ChannelOk(c) && c.answer == None && c.reports == []
    ensures ChannelOk(Reply(c, s))
  {
  }

  lemma TellKeepsChannel(c: Channel, v: Verdict)
    requires ChannelOk(c)
    ensures ChannelOk(Tell(c, v))
  {
    assert Tell(c, v).reports[|c.told|..] == c.reports[|c.told|..] + [v];
  }

  /** The number of commit commands among cs. */
  function Commits(cs: seq<Command>): nat {
    if cs == [] then 0 else Commits(cs[..|cs| - 1]) + (if cs[|cs| - 1] == Commit then 1 else 0)
  }

  lemma {:induction false} CommitsAppend(cs: seq<Command>, c: Command)
    ensures Commits(cs + [c]) == Commits(cs) + if c == Commit then 1 else 0
  {
    assert (cs + [c])[..|cs|] == cs;
  }

  lemma {:induction false} CommitsOfPrefix(cs: seq<Command>, ds: seq<Command>)
    requires cs <= ds
    ensures Commits(cs) <= Commits(ds)
    decreases |ds|
  {
    if |cs| < |ds| {
      CommitsOfPrefix(cs, ds[..|ds| - 1]);
    } else {
      assert cs == ds;
    }
  }

  lemma {:induction false} NoCommits(cs: seq<Command>)
    ensures Commit in cs <==> Commits(cs) > 0
  {
    if cs != [] {
      NoCommits(cs[..|cs| - 1]);
      assert cs == cs[..|cs| - 1] + [cs[|cs| - 1]];
    }
  }
}
