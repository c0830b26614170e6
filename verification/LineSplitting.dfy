/**
  Putting lines together from chunks of output (installation/_vms_benchmark.py,
  _set_test_camera_streaming_events and VmsBenchmarkInstallation._start_rtsp_perf).
*/
module LineSplitting {
  import opened ByteStrings

  const CR: Byte := 13
  const LF: Byte := 10
  const CRLF: Bytes := [CR, LF]

  datatype Pieces = Pieces(lines: seq<Bytes>, rest: Bytes)

  /** bytes.split(separator), with the last piece kept apart. */
  function Split(s: Bytes, separator: Bytes): Pieces
    requires separator != []
    decreases |s|
  {
    var i := Find(s, separator);
    if i == |s| then Pieces([], s)
    else
      var others := Split(s[i + |separator|..], separator);
      Pieces([s[..i]] + others.lines, others.rest)
  }

  function Join(lines: seq<Bytes>, rest: Bytes, separator: Bytes): Bytes {
    if lines == [] then rest else lines[0] + separator + Join(lines[1..], rest, separator)
  }

  // ---------- Splitting ----------

  lemma OccursInPrefix(part: Bytes, s: Bytes, t: Bytes, i: nat)
    requires i + |part| <= |s|
    ensures OccursAt(part, s + t, i) <==> OccursAt(part, s, i)
  {
    assert (s + t)[i..i + |part|] == s[i..i + |part|];
  }

  lemma FoundInPrefix(s: Bytes, t: Bytes, part: Bytes)
    requires part != [] && Find(s, part) < |s|
    ensures Find(s + t, part) == Find(s, part)
  {
    var i := Find(s, part);
    forall j | 0 <= j <= i ensures OccursAt(part, s + t, j) <==> OccursAt(part, s, j) {
      OccursInPrefix(part, s, t, j);
    }
    assert OccursAt(part, s + t, i);
  }

  lemma {:induction false} JoinWithFirst(line: Bytes, lines: seq<Bytes>, rest: Bytes, separator: Bytes)
    ensures Join([line] + lines, rest, separator) == line + separator + Join(lines, rest, separator)
  {
    assert ([line] + lines)[1..] == lines;
  }

  lemma CutInThree(s: Bytes, i: nat, j: nat)
    requires i <= j <= |s|
    ensures s[..i] + s[i..j] + s[j..] == s
  {
  }

  /** Nothing is lost, and the pieces are in order. */
  lemma {:induction false} SplitIsJoined(s: Bytes, separator: Bytes)
    requires separator != []
    ensures Join(Split(s, separator).lines, Split(s, separator).rest, separator) == s
    decreases |s|
  {
    var i := Find(s, separator);
    if i < |s| {
      var tail := s[i + |separator|..];
      SplitIsJoined(tail, separator);
      JoinWithFirst(s[..i], Split(tail, separator).lines, Split(tail, separator).rest, separator);
      CutInThree(s, i, i + |separator|);
    }
  }

  lemma NothingBeforeFirst(s: Bytes, separator: Bytes)
    requires separator != []
    ensures !Contains(s[..Find(s, separator)], separator)
  {
    var i := Find(s, separator);
    assert s[..i] + s[i..] == s;
    if Contains(s[..i], separator) {
      FoundInPrefix(s[..i], s[i..], separator);
    }
  }

  /** No separator is left in a piece. */
  lemma {:induction false} PiecesHaveNoSeparator(s: Bytes, separator: Bytes)
    requires separator != []
    ensures !Contains(Split(s, separator).rest, separator)
    ensures forall line <- Split(s, separator).lines :: !Contains(line, separator)
    decreases |s|
  {
    var i := Find(s, separator);
    if i < |s| {
      NothingBeforeFirst(s, separator);
      PiecesHaveNoSeparator(s[i + |separator|..], separator);
    }
  }

  lemma SplitAtFirst(s: Bytes, t: Bytes, separator: Bytes)
    requires separator != [] && Find(s, separator) < |s|
    ensures var i := Find(s, separator);
            var others := Split(s[i + |separator|..] + t, separator);
            Split(s + t, separator) == Pieces([s[..i]] + others.lines, others.rest)
  {
    FoundInPrefix(s, t, separator);
    var i := Find(s, separator);
    assert (s + t)[i + |separator|..] == s[i + |separator|..] + t;
    assert (s + t)[..i] == s[..i];
  }

  lemma LinesInOrder(a: seq<Bytes>, b: seq<Bytes>, c: seq<Bytes>)
    ensures a + (b + c) == a + b + c && [] + c == c
  {
  }

  /** Splitting what is left together with what comes next is splitting it all at once. */
  lemma {:induction false} SplitGoesOn(s: Bytes, t: Bytes, separator: Bytes)
    requires separator != []
    ensures var first := Split(s, separator);
            var second := Split(first.rest + t, separator);
            Split(s + t, separator) == Pieces(first.lines + second.lines, second.rest)
    decreases |s|
  {
    var i := Find(s, separator);
    if i < |s| {
      SplitAtFirst(s, t, separator);
      SplitGoesOn(s[i + |separator|..], t, separator);
      var first := Split(s[i + |separator|..], separator);
      var second := Split(first.rest + t, separator);
      LinesInOrder([s[..i]], first.lines, second.lines);
    } else {
      LinesInOrder([], [], Split(s + t, separator).lines);
    }
  }

  lemma LineEndOccurs(s: Bytes, i: nat)
    ensures OccursAt([LF], s, i) <==> i < |s| && s[i] == LF
  {
    if i < |s| {
      assert s[i..i + 1] == [s[i]];
    }
  }

  lemma FindsLineEnd(line: Bytes, others: Bytes)
    requires LF !in line
    ensures Find(line + [LF] + others, [LF]) == |line|
  {
    var s := line + [LF] + others;
    var i := Find(s, [LF]);
    LineEndOccurs(s, i);
    LineEndOccurs(s, |line|);
    assert forall j :: 0 <= j < |line| ==> s[j] == line[j];
  }

  /** Splitting undoes joining: lines written with their line ends are read back, whatever is left over. */
  lemma {:induction false} JoinIsSplit(lines: seq<Bytes>, rest: Bytes)
    requires LF !in rest && forall line <- lines :: LF !in line
    ensures Split(Join(lines, rest, [LF]), [LF]) == Pieces(lines, rest)
  {
    if lines == [] {
      var i := Find(rest, [LF]);
      LineEndOccurs(rest, i);
    } else {
      var others := Join(lines[1..], rest, [LF]);
      FindsLineEnd(lines[0], others);
      JoinIsSplit(lines[1..], rest);
      assert (lines[0] + [LF] + others)[|lines[0]| + 1..] == others;
      assert (lines[0] + [LF] + others)[..|lines[0]|] == lines[0];
    }
  }

  // ---------- Dropping carriage returns ----------

  /** bytes.replace(b'\r', b'') */
  function Strip(s: Bytes): Bytes {
    if s == [] then [] else Strip(s[..|s| - 1]) + if s[|s| - 1] == CR then [] else [s[|s| - 1]]
  }

  lemma {:induction false} StripOfConcatenation(s: Bytes, t: Bytes)
    ensures Strip(s + t) == Strip(s) + Strip(t)
    decreases |t|
  {
    if t == [] {
      assert s + t == s;
      assert Strip(s) + [] == Strip(s);
    } else {
      assert (s + t)[..|s + t| - 1] == s + t[..|t| - 1];
      StripOfConcatenation(s, t[..|t| - 1]);
      var last := if t[|t| - 1] == CR then [] else [t[|t| - 1]];
      assert Strip(s) + (Strip(t[..|t| - 1]) + last) == Strip(s) + Strip(t[..|t| - 1]) + last;
    }
  }

  /** Exactly the carriage returns are dropped. */
  lemma {:induction false} StripDropsReturns(s: Bytes)
    ensures CR !in Strip(s)
    ensures CR !in s ==> Strip(s) == s
    ensures forall b: Byte :: b != CR ==> multiset(Strip(s))[b] == multiset(s)[b]
  {
    if s != [] {
      StripDropsReturns(s[..|s| - 1]);
      assert s == s[..|s| - 1] + [s[|s| - 1]];
    }
  }

  /** The same without carriage returns, wherever they were. */
  lemma {:induction false} StrippedSplitGoesOn(s: Bytes, t: Bytes)
    ensures var first := Split(Strip(s), [LF]);
            var second := Split(first.rest + Strip(t), [LF]);
            Split(Strip(s + t), [LF]) == Pieces(first.lines + second.lines, second.rest)
  {
    StripOfConcatenation(s, t);
    SplitGoesOn(Strip(s), Strip(t), [LF]);
  }

  // ---------- The loops ----------

  /**
    One receive(): None is written as no bytes. ended says that the process has a return code by
    then. The clock is read when the last statistics line of the receipt was handled, if there is
    one, and when the silence is checked.
  */
  datatype Receipt = Receipt(stdout: Bytes, ended: bool, handledAt: real, checkedAt: real)

  function Output(receipts: seq<Receipt>): Bytes {
    if receipts == [] then []
    else Output(receipts[..|receipts| - 1]) + receipts[|receipts| - 1].stdout
  }

  lemma OutputOfNext(receipts: seq<Receipt>, i: nat)
    requires i < |receipts|
    ensures Output(receipts[..i + 1]) == Output(receipts[..i]) + receipts[i].stdout
  {
    assert receipts[..i + 1][..i] == receipts[..i];
  }

  datatype CameraEvent = StreamingStarted | AllStreamsClosed

  function EventsOfLine(line: Bytes, started: Bytes, closed: Bytes): seq<CameraEvent>
  {
    (if Contains(line, started) then [StreamingStarted] else []) +
    (if Contains(line, closed) then [AllStreamsClosed] else [])
  }

  function EventsOf(lines: seq<Bytes>, started: Bytes, closed: Bytes): seq<CameraEvent>
  {
    if lines == [] then []
    else EventsOf(lines[..|lines| - 1], started, closed) + EventsOfLine(lines[|lines| - 1], started, closed)
  }

  lemma {:induction false} EventsOfMoreLines(lines: seq<Bytes>, more: seq<Bytes>, started: Bytes, closed: Bytes)
    ensures EventsOf(lines + more, started, closed) == EventsOf(lines, started, closed) + EventsOf(more, started, closed)
    decreases |more|
  {
    if more == [] {
      assert lines + more == lines;
    } else {
      assert (lines + more)[..|lines + more| - 1] == lines + more[..|more| - 1];
      EventsOfMoreLines(lines, more[..|more| - 1], started, closed);
    }
  }

  /** A line is reported for each of the two texts that occur in it, the start of streaming first. */
  lemma {:induction false} LineIsReported(line: Bytes, started: Bytes, closed: Bytes)
    requires started != [] && closed != []
    ensures var hasStarted := exists i :: 0 <= i < |line| && OccursAt(started, line, i);
            var hasClosed := exists i :: 0 <= i < |line| && OccursAt(closed, line, i);
            EventsOf([line], started, closed)
            == if hasStarted && hasClosed then [StreamingStarted, AllStreamsClosed]
               else if hasStarted then [StreamingStarted]
               else if hasClosed then [AllStreamsClosed]
               else []
  {
    assert [line][..0] == [];
    assert EventsOf([line], started, closed) == EventsOfLine(line, started, closed);
    ContainsExactlyIfOccurs(line, started);
    ContainsExactlyIfOccurs(line, closed);
  }

  method ReportLines(lines: seq<Bytes>, started: Bytes, closed: Bytes) returns (events: seq<CameraEvent>)
    ensures events == EventsOf(lines, started, closed)
  {
    events := [];
    var i := 0;
    while i < |lines|
      invariant i <= |lines|
      invariant events == EventsOf(lines[..i], started, closed)
    {
      if Contains(lines[i], started) {
        events := events + [StreamingStarted];
      }
      if Contains(lines[i], closed) {
        events := events + [AllStreamsClosed];
      }
      assert lines[..i + 1][..i] == lines[..i];
      i := i + 1;
    }
    assert lines[..|lines|] == lines;
  }

  /** The events reported for some output, and what is left of it. */
  ghost predicate IsReported(output: Bytes, started: Bytes, closed: Bytes, events: seq<CameraEvent>, buffer: Bytes) {
    var pieces := Split(output, CRLF);
    events == EventsOf(pieces.lines, started, closed) && buffer == pieces.rest
  }

  // One round of the loop.
  method ReadTestCamera(ghost output: Bytes, stdout: Bytes, started: Bytes, closed: Bytes,
                        eventsBefore: seq<CameraEvent>, bufferBefore: Bytes)
    returns (events: seq<CameraEvent>, buffer: Bytes)
    requires IsReported(output, started, closed, eventsBefore, bufferBefore)
    ensures IsReported(output + stdout, started, closed, events, buffer)
  {
    SplitGoesOn(output, stdout, CRLF);
    var pieces := Split(bufferBefore + stdout, CRLF);
    EventsOfMoreLines(Split(output, CRLF).lines, pieces.lines, started, closed);
    var more := ReportLines(pieces.lines, started, closed);
    events, buffer := eventsBefore + more, pieces.rest;
  }

  /**
    The loop of _set_test_camera_streaming_events. What it reports depends only on the output
    as a whole, except that whatever comes together with the end of the process is not looked at.
  */
  method WatchTestCamera(receipts: seq<Receipt>, started: Bytes, closed: Bytes)
    returns (events: seq<CameraEvent>, buffer: Bytes, seen: nat)
    ensures seen <= |receipts|
    ensures forall i :: 0 <= i < seen ==> !receipts[i].ended
    ensures seen < |receipts| ==> receipts[seen].ended
    ensures IsReported(Output(receipts[..seen]), started, closed, events, buffer)
  {
    events, buffer := [], [];
    var i := 0;
    while i < |receipts|
      invariant i <= |receipts|
      invariant forall j :: 0 <= j < i ==> !receipts[j].ended
      invariant IsReported(Output(receipts[..i]), started, closed, events, buffer)
    {
      if receipts[i].ended {
        return events, buffer, i;
      }
      OutputOfNext(receipts, i);
      events, buffer := ReadTestCamera(Output(receipts[..i]), receipts[i].stdout, started, closed, events, buffer);
      i := i + 1;
    }
    seen := i;
  }

  /** How the rtsp_perf loop may end: it never does while the script lasts. */
  datatype Ending = StillRunning | BadLine | EndedPrematurely | Silence

  /**
    What becomes of a line: it may not be ASCII; it may match the regular expression or not; and
    the numbers of a match may not convert, such as a bitrate with two points.
  */
  datatype Kind = Statistics | Other | Undecodable | Unconvertible

  predicate IsBad(kind: Kind) { kind.Undecodable? || kind.Unconvertible? }

  /** The lines read are the lines up to the first that raises. */
  ghost predicate ReadUpTo(lines: seq<Bytes>, kindOf: Bytes -> Kind, n: nat) {
    && n <= |lines|
    && (forall i :: 0 <= i < n ==> !IsBad(kindOf(lines[i])))
    && (n < |lines| ==> IsBad(kindOf(lines[n])))
  }

  function Select(lines: seq<Bytes>, kindOf: Bytes -> Kind, kind: Kind): seq<Bytes> {
    if lines == [] then []
    else (if kindOf(lines[0]) == kind then [lines[0]] else []) + Select(lines[1..], kindOf, kind)
  }

  lemma {:induction false} SelectOfMore(lines: seq<Bytes>, more: seq<Bytes>, kindOf: Bytes -> Kind, kind: Kind)
    ensures Select(lines + more, kindOf, kind) == Select(lines, kindOf, kind) + Select(more, kindOf, kind)
  {
    if lines == [] {
      LinesInOrder([], [], more);
    } else {
      assert (lines + more)[1..] == lines[1..] + more;
      SelectOfMore(lines[1..], more, kindOf, kind);
    }
  }

  /** The lines selected are those of the kind. */
  lemma {:induction false} SelectsKind(lines: seq<Bytes>, kindOf: Bytes -> Kind, kind: Kind, line: Bytes)
    ensures line in Select(lines, kindOf, kind) <==> line in lines && kindOf(line) == kind
    ensures Select([line], kindOf, kind) == if kindOf(line) == kind then [line] else []
  {
    if lines != [] {
      SelectsKind(lines[1..], kindOf, kind, line);
    }
  }

  lemma {:induction false} SelectNext(lines: seq<Bytes>, n: nat, kindOf: Bytes -> Kind, kind: Kind)
    requires n < |lines|
    ensures Select(lines[..n + 1], kindOf, kind)
            == Select(lines[..n], kindOf, kind) + if kindOf(lines[n]) == kind then [lines[n]] else []
  {
    assert lines[..n + 1] == lines[..n] + [lines[n]];
    SelectOfMore(lines[..n], [lines[n]], kindOf, kind);
  }

  // The inner loop: yields statistics, collects the rest, and fails on a bad line.
  method ReadLines(lines: seq<Bytes>, kindOf: Bytes -> Kind)
    returns (statistics: seq<Bytes>, info: seq<Bytes>, n: nat)
    ensures ReadUpTo(lines, kindOf, n)
    ensures statistics == Select(lines[..n], kindOf, Statistics)
    ensures info == Select(lines[..n], kindOf, Other)
  {
    statistics, info, n := [], [], 0;
    while n < |lines|
      invariant n <= |lines|
      invariant forall i :: 0 <= i < n ==> !IsBad(kindOf(lines[i]))
      invariant statistics == Select(lines[..n], kindOf, Statistics)
      invariant info == Select(lines[..n], kindOf, Other)
    {
      SelectNext(lines, n, kindOf, Statistics);
      SelectNext(lines, n, kindOf, Other);
      match kindOf(lines[n]) {
        case Undecodable => return;
        case Unconvertible => return;
        case Statistics => statistics := statistics + [lines[n]];
        case Other => info := info + [lines[n]];
      }
      n := n + 1;
    }
  }

  /** The statistics yielded and the other lines kept after reading the first n of some lines. */
  ghost predicate AreRead(lines: seq<Bytes>, kindOf: Bytes -> Kind, statistics: seq<Bytes>, info: seq<Bytes>, n: nat) {
    && ReadUpTo(lines, kindOf, n)
    && statistics == Select(lines[..n], kindOf, Statistics)
    && info == Select(lines[..n], kindOf, Other)
  }

  lemma MoreAreRead(lines: seq<Bytes>, kindOf: Bytes -> Kind, statistics: seq<Bytes>, info: seq<Bytes>,
                    more: seq<Bytes>, moreStatistics: seq<Bytes>, moreInfo: seq<Bytes>, n: nat)
    requires AreRead(lines, kindOf, statistics, info, |lines|)
    requires AreRead(more, kindOf, moreStatistics, moreInfo, n)
    ensures AreRead(lines + more, kindOf, statistics + moreStatistics, info + moreInfo, |lines| + n)
  {
    assert lines[..|lines|] == lines;
    assert (lines + more)[..|lines| + n] == lines + more[..n];
    SelectOfMore(lines, more[..n], kindOf, Statistics);
    SelectOfMore(lines, more[..n], kindOf, Other);
  }

  /** The lines of some output, once its carriage returns are gone. */
  function LinesOf(output: Bytes): seq<Bytes> {
    Split(Strip(output), [LF]).lines
  }

  function RestOf(output: Bytes): Bytes {
    Split(Strip(output), [LF]).rest
  }

  lemma {:induction false} LinesGrow(output: Bytes, stdout: Bytes, buffer: Bytes)
    requires buffer == RestOf(output)
    ensures var pieces := Split(buffer + Strip(stdout), [LF]);
            LinesOf(output + stdout) == LinesOf(output) + pieces.lines && RestOf(output + stdout) == pieces.rest
  {
    StrippedSplitGoesOn(output, stdout);
  }

  /** All the lines of some output are read, and buffer is what is left of it. */
  ghost predicate IsReadToTheEnd(output: Bytes, kindOf: Bytes -> Kind, statistics: seq<Bytes>,
                                 info: seq<Bytes>, buffer: Bytes)
  {
    && AreRead(LinesOf(output), kindOf, statistics, info, |LinesOf(output)|)
    && buffer == RestOf(output)
  }

  /** The first n lines of some output are read, and the next cannot be. */
  ghost predicate IsReadInPart(output: Bytes, kindOf: Bytes -> Kind, statistics: seq<Bytes>,
                               info: seq<Bytes>, n: nat)
  {
    n < |LinesOf(output)| && AreRead(LinesOf(output), kindOf, statistics, info, n)
  }

  // One round of the loop.
  method ReadRtspPerf(ghost output: Bytes, stdout: Bytes, kindOf: Bytes -> Kind,
                      statisticsBefore: seq<Bytes>, infoBefore: seq<Bytes>, bufferBefore: Bytes, readBefore: nat)
    returns (statistics: seq<Bytes>, info: seq<Bytes>, buffer: Bytes, ok: bool, read: nat)
    requires readBefore == |LinesOf(output)|
    requires IsReadToTheEnd(output, kindOf, statisticsBefore, infoBefore, bufferBefore)
    ensures if ok then IsReadToTheEnd(output + stdout, kindOf, statistics, info, buffer)
            else IsReadInPart(output + stdout, kindOf, statistics, info, read)
    ensures ok ==> read == |LinesOf(output + stdout)|
  {
    var pieces := Split(bufferBefore + Strip(stdout), [LF]);
    var n;
    statistics, info, n := ReadLines(pieces.lines, kindOf);
    LinesGrow(output, stdout, bufferBefore);
    MoreAreRead(LinesOf(output), kindOf, statisticsBefore, infoBefore, pieces.lines, statistics, info, n);
    statistics, info := statisticsBefore + statistics, infoBefore + info;
    buffer, ok, read := pieces.rest, n == |pieces.lines|, readBefore + n;
  }

  const SILENCE_SEC := 30.0

  function StatisticsCount(output: Bytes, kindOf: Bytes -> Kind): nat {
    |Select(LinesOf(output), kindOf, Statistics)|
  }

  /** When the last of the first n receipts that completed a statistics line was handled, or else the start. */
  function ProperAt(receipts: seq<Receipt>, n: nat, kindOf: Bytes -> Kind, startedAt: real): real
    requires n <= |receipts|
  {
    if n == 0 then startedAt
    else if StatisticsCount(Output(receipts[..n]), kindOf) > StatisticsCount(Output(receipts[..n - 1]), kindOf)
    then receipts[n - 1].handledAt
    else ProperAt(receipts, n - 1, kindOf, startedAt)
  }

  /** By this receipt no statistics line came for too long. */
  predicate IsSilent(receipts: seq<Receipt>, i: nat, kindOf: Bytes -> Kind, startedAt: real)
    requires i < |receipts|
  {
    receipts[i].checkedAt - ProperAt(receipts, i + 1, kindOf, startedAt) > SILENCE_SEC
  }

  lemma CountIsRead(output: Bytes, kindOf: Bytes -> Kind, statistics: seq<Bytes>, info: seq<Bytes>, buffer: Bytes)
    requires IsReadToTheEnd(output, kindOf, statistics, info, buffer)
    ensures |statistics| == StatisticsCount(output, kindOf)
  {
    assert LinesOf(output)[..|LinesOf(output)|] == LinesOf(output);
  }

  /** None of the first n receipts has ended the loop. */
  ghost predicate AllGoOn(receipts: seq<Receipt>, n: nat, kindOf: Bytes -> Kind, startedAt: real)
    requires n <= |receipts|
  {
    forall i :: 0 <= i < n ==> !receipts[i].ended && !IsSilent(receipts, i, kindOf, startedAt)
  }

  /** How the loop was left after n receipts: only the last of them may have ended it. */
  ghost predicate EndsSo(receipts: seq<Receipt>, n: nat, kindOf: Bytes -> Kind, startedAt: real, ending: Ending)
    requires n <= |receipts|
  {
    if ending.StillRunning? then AllGoOn(receipts, n, kindOf, startedAt)
    else
      && n > 0 && AllGoOn(receipts, n - 1, kindOf, startedAt)
      && (ending.EndedPrematurely? ==> receipts[n - 1].ended)
      && (ending.Silence? ==> !receipts[n - 1].ended && IsSilent(receipts, n - 1, kindOf, startedAt))
  }

  // ---------- When the loop is left ----------

  /** Every receipt but the one that ended the loop was of a running process, and in time. */
  lemma LoopEnds(receipts: seq<Receipt>, n: nat, kindOf: Bytes -> Kind, startedAt: real, ending: Ending)
    requires n <= |receipts|
    ensures EndsSo(receipts, n, kindOf, startedAt, StillRunning) <==> forall i :: 0 <= i < n ==>
              !receipts[i].ended && receipts[i].checkedAt <= ProperAt(receipts, i + 1, kindOf, startedAt) + 30.0
    ensures EndsSo(receipts, n, kindOf, startedAt, EndedPrematurely)
       <==> n > 0 && EndsSo(receipts, n - 1, kindOf, startedAt, StillRunning) && receipts[n - 1].ended
    ensures EndsSo(receipts, n, kindOf, startedAt, Silence)
       <==> n > 0 && EndsSo(receipts, n - 1, kindOf, startedAt, StillRunning) && !receipts[n - 1].ended
            && receipts[n - 1].checkedAt > ProperAt(receipts, n, kindOf, startedAt) + 30.0
  {
    forall i | 0 <= i < n
      ensures IsSilent(receipts, i, kindOf, startedAt)
         <==> receipts[i].checkedAt > ProperAt(receipts, i + 1, kindOf, startedAt) + 30.0
    {
    }
  }

  /** With this receipt a line of statistics was completed. */
  ghost predicate BringsStatistics(receipts: seq<Receipt>, i: nat, kindOf: Bytes -> Kind)
    requires i < |receipts|
  {
    HasStatistics(LinesOf(Output(receipts[..i + 1])), |LinesOf(Output(receipts[..i]))|, kindOf)
  }

  ghost predicate HasStatistics(lines: seq<Bytes>, from: nat, kindOf: Bytes -> Kind) {
    exists k :: from <= k < |lines| && kindOf(lines[k]) == Statistics
  }

  lemma {:induction false} SelectsNothing(lines: seq<Bytes>, kindOf: Bytes -> Kind)
    ensures Select(lines, kindOf, Statistics) != [] <==> HasStatistics(lines, 0, kindOf)
  {
    if lines != [] {
      SelectsNothing(lines[1..], kindOf);
      assert forall k :: 0 <= k < |lines| - 1 ==> lines[1..][k] == lines[k + 1];
      if k: int :| 0 <= k < |lines| && kindOf(lines[k]) == Statistics {
        if k > 0 {
          assert kindOf(lines[1..][k - 1]) == Statistics;
        }
      }
    }
  }

  lemma {:induction false} MoreStatistics(lines: seq<Bytes>, more: seq<Bytes>, kindOf: Bytes -> Kind)
    ensures |Select(lines + more, kindOf, Statistics)| > |Select(lines, kindOf, Statistics)|
       <==> HasStatistics(lines + more, |lines|, kindOf)
  {
    SelectOfMore(lines, more, kindOf, Statistics);
    SelectsNothing(more, kindOf);
    assert forall k :: 0 <= k < |more| ==> (lines + more)[|lines| + k] == more[k];
    if k: int :| 0 <= k < |more| && kindOf(more[k]) == Statistics {
      assert kindOf((lines + more)[|lines| + k]) == Statistics;
    }
  }

  lemma {:induction false} CountGrows(receipts: seq<Receipt>, i: nat, kindOf: Bytes -> Kind)
    requires i < |receipts|
    ensures StatisticsCount(Output(receipts[..i + 1]), kindOf) > StatisticsCount(Output(receipts[..i]), kindOf)
       <==> BringsStatistics(receipts, i, kindOf)
  {
    var output := Output(receipts[..i]);
    OutputOfNext(receipts, i);
    LinesGrow(output, receipts[i].stdout, RestOf(output));
    MoreStatistics(LinesOf(output), Split(RestOf(output) + Strip(receipts[i].stdout), [LF]).lines, kindOf);
  }

  ghost predicate BringNone(receipts: seq<Receipt>, from: nat, n: nat, kindOf: Bytes -> Kind)
    requires n <= |receipts|
  {
    forall i :: from <= i < n ==> !BringsStatistics(receipts, i, kindOf)
  }

  lemma {:induction false} ProperAtStays(receipts: seq<Receipt>, n: nat, kindOf: Bytes -> Kind, startedAt: real)
    requires n < |receipts| && !BringsStatistics(receipts, n, kindOf)
    ensures ProperAt(receipts, n + 1, kindOf, startedAt) == ProperAt(receipts, n, kindOf, startedAt)
  {
    CountGrows(receipts, n, kindOf);
  }

  /** Without statistics silence counts from the start. */
  lemma {:induction false} SilenceCountsFromStart(receipts: seq<Receipt>, n: nat, kindOf: Bytes -> Kind, startedAt: real)
    requires n <= |receipts| && BringNone(receipts, 0, n, kindOf)
    ensures ProperAt(receipts, n, kindOf, startedAt) == startedAt
    decreases n
  {
    if n > 0 {
      ProperAtStays(receipts, n - 1, kindOf, startedAt);
      SilenceCountsFromStart(receipts, n - 1, kindOf, startedAt);
    }
  }

  /** Otherwise it counts from the last receipt that completed a line of statistics. */
  lemma {:induction false} SilenceCountsFromLast(receipts: seq<Receipt>, n: nat, last: nat, kindOf: Bytes -> Kind, startedAt: real)
    requires last < n <= |receipts|
    requires BringsStatistics(receipts, last, kindOf) && BringNone(receipts, last + 1, n, kindOf)
    ensures ProperAt(receipts, n, kindOf, startedAt) == receipts[last].handledAt
    decreases n
  {
    if last == n - 1 {
      CountGrows(receipts, last, kindOf);
    } else {
      SilenceCountsFromLast(receipts, n - 1, last, kindOf, startedAt);
      ProperAtStays(receipts, n - 1, kindOf, startedAt);
    }
  }

  /** What was read of some output when the loop goes on or is left. */
  ghost predicate IsReadSo(output: Bytes, kindOf: Bytes -> Kind, statistics: seq<Bytes>, info: seq<Bytes>,
                           buffer: Bytes, read: nat, ending: Ending)
  {
    if ending.BadLine? then IsReadInPart(output, kindOf, statistics, info, read)
    else IsReadToTheEnd(output, kindOf, statistics, info, buffer) && read == |LinesOf(output)|
  }

  // One round of the loop, with the checks that may end it.
  method WatchOnce(receipts: seq<Receipt>, i: nat, kindOf: Bytes -> Kind, ghost startedAt: real, properBefore: real,
                   statisticsBefore: seq<Bytes>, infoBefore: seq<Bytes>, bufferBefore: Bytes, readBefore: nat)
    returns (properAt: real, statistics: seq<Bytes>, info: seq<Bytes>, buffer: Bytes, read: nat, ending: Ending)
    requires i < |receipts| && EndsSo(receipts, i, kindOf, startedAt, StillRunning)
    requires properBefore == ProperAt(receipts, i, kindOf, startedAt)
    requires IsReadSo(Output(receipts[..i]), kindOf, statisticsBefore, infoBefore, bufferBefore, readBefore, StillRunning)
    ensures IsReadSo(Output(receipts[..i + 1]), kindOf, statistics, info, buffer, read, ending)
    ensures EndsSo(receipts, i + 1, kindOf, startedAt, ending)
    ensures ending.StillRunning? ==> properAt == ProperAt(receipts, i + 1, kindOf, startedAt)
  {
    properAt := properBefore;
    var ok;
    OutputOfNext(receipts, i);
    CountIsRead(Output(receipts[..i]), kindOf, statisticsBefore, infoBefore, bufferBefore);
    statistics, info, buffer, ok, read :=
      ReadRtspPerf(Output(receipts[..i]), receipts[i].stdout, kindOf, statisticsBefore, infoBefore, bufferBefore, readBefore);
    if !ok {
      ending := BadLine;
      return;
    }
    CountIsRead(Output(receipts[..i + 1]), kindOf, statistics, info, buffer);
    if |statistics| > |statisticsBefore| {
      properAt := receipts[i].handledAt;
    }
    ending := if receipts[i].ended then EndedPrematurely
              else if receipts[i].checkedAt - properAt > SILENCE_SEC then Silence
              else StillRunning;
  }

  /**
    The loop of _start_rtsp_perf: the statistics yielded, and the other lines kept for the error
    message, are those of the whole output without its carriage returns, split once. It goes on
    until a line is bad, the process has ended, or no statistics came for thirty seconds.
  */
  method WatchRtspPerf(receipts: seq<Receipt>, kindOf: Bytes -> Kind, startedAt: real)
    returns (statistics: seq<Bytes>, info: seq<Bytes>, buffer: Bytes, ending: Ending, seen: nat, read: nat)
    ensures seen <= |receipts| && (ending.StillRunning? ==> seen == |receipts|)
    ensures EndsSo(receipts, seen, kindOf, startedAt, ending)
    ensures IsReadSo(Output(receipts[..seen]), kindOf, statistics, info, buffer, read, ending)
  {
    statistics, info, buffer, seen, read, ending := [], [], [], 0, 0, StillRunning;
    var properAt := startedAt;
    while seen < |receipts| && ending.StillRunning?
      invariant seen <= |receipts|
      invariant EndsSo(receipts, seen, kindOf, startedAt, ending)
      invariant ending.StillRunning? ==> properAt == ProperAt(receipts, seen, kindOf, startedAt)
      invariant IsReadSo(Output(receipts[..seen]), kindOf, statistics, info, buffer, read, ending)
    {
      properAt, statistics, info, buffer, read, ending :=
        WatchOnce(receipts, seen, kindOf, startedAt, properAt, statistics, info, buffer, read);
      seen := seen + 1;
    }
  }
}
