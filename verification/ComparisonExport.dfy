/**
  The export of comparison measurements (long_tests/comparison_data_export.py,
  _prepare_data_comparison_files): the latest document of every type and version, its measures
  sorted, grouped by operation and file, and summed.
*/
module ComparisonExport {
  import opened ByteStrings
  import opened StableSort

  datatype Measure = Measure(operation: string, path: string, count: int)

  datatype Run = Run(kind: string, version: string)

  /** sortingKey is what the build information of the document gives. */
  datatype Document = Document(run: Run, startedAt: real, measures: seq<Measure>, sortingKey: string)

  datatype Key = Key(operation: string, file: string)
  datatype Record = Record(key: Key, count: int)
  datatype Row = Row(run: Run, key: Key, count: int, sortingKey: string)

  // ---------- The order of keys ----------

  predicate StringLeq(a: string, b: string) {
    a == [] || (b != [] && (a[0] < b[0] || (a[0] == b[0] && StringLeq(a[1..], b[1..]))))
  }

  lemma {:induction false} StringLeqIsOrder(a: string, b: string, c: string)
    ensures StringLeq(a, b) || StringLeq(b, a)
    ensures StringLeq(a, b) && StringLeq(b, a) ==> a == b
    ensures StringLeq(a, b) && StringLeq(b, c) ==> StringLeq(a, c)
  {
    if a != [] && b != [] {
      StringLeqIsOrder(a[1..], b[1..], if c == [] then [] else c[1..]);
      assert a == [a[0]] + a[1..] && b == [b[0]] + b[1..];
    }
  }

  /** The order of strings: by the first character that differs, and a beginning before the whole. */
  lemma {:induction false} StringsAreOrdered(a: string, b: string, i: nat)
    requires i <= |a| && i <= |b| && a[..i] == b[..i]
    ensures i == |a| ==> StringLeq(a, b)
    ensures i < |a| && i < |b| && a[i] != b[i] ==> (StringLeq(a, b) <==> a[i] < b[i])
    ensures i == |b| < |a| ==> !StringLeq(a, b)
  {
    if i > 0 {
      assert a[0] == a[..i][0] == b[..i][0] == b[0];
      assert a[1..][..i - 1] == a[..i][1..] && b[1..][..i - 1] == b[..i][1..];
      StringsAreOrdered(a[1..], b[1..], i - 1);
    }
  }

  predicate KeyLeq(a: Key, b: Key) {
    if a.operation != b.operation then StringLeq(a.operation, b.operation) else StringLeq(a.file, b.file)
  }

  lemma KeyLeqIsOrder(a: Key, b: Key, c: Key)
    ensures KeyLeq(a, b) || KeyLeq(b, a)
    ensures KeyLeq(a, b) && KeyLeq(b, a) ==> a == b
    ensures KeyLeq(a, b) && KeyLeq(b, c) ==> KeyLeq(a, c)
  {
    StringLeqIsOrder(a.operation, b.operation, c.operation);
    StringLeqIsOrder(b.operation, c.operation, a.operation);
    StringLeqIsOrder(a.file, b.file, c.file);
  }

  function ByKey(): (Record, Record) -> bool {
    (a: Record, b: Record) => KeyLeq(a.key, b.key)
  }

  lemma ByKeyIsTotalPreorder()
    ensures IsTotalPreorder(ByKey())
  {
    forall a: Record, b: Record ensures ByKey()(a, b) || ByKey()(b, a) {
      KeyLeqIsOrder(a.key, b.key, b.key);
    }
    forall a: Record, b: Record, c: Record | ByKey()(a, b) && ByKey()(b, c) ensures ByKey()(a, c) {
      KeyLeqIsOrder(a.key, b.key, c.key);
    }
  }

  // ---------- Grouping ----------

  function Count(): Record -> int {
    (r: Record) => r.count
  }

  function CountIf(key: Key): Record -> int {
    (r: Record) => if r.key == key then r.count else 0
  }

  ghost predicate HasKey(records: seq<Record>, key: Key) {
    exists i :: 0 <= i < |records| && records[i].key == key
  }

  /** One group for every key, with the exact sum of its counts. */
  ghost predicate IsAggregation(groups: seq<Record>, records: seq<Record>) {
    && (forall i, j :: 0 <= i < j < |groups| ==> groups[i].key != groups[j].key)
    && (forall i :: 0 <= i < |groups| ==> groups[i].count == Sum(records, CountIf(groups[i].key)))
    && (forall key :: HasKey(groups, key) <==> HasKey(records, key))
  }

  lemma {:induction false} SumOfOneKey(records: seq<Record>, key: Key)
    ensures (forall r <- records :: r.key == key) ==> Sum(records, CountIf(key)) == Sum(records, Count())
    ensures !HasKey(records, key) ==> Sum(records, CountIf(key)) == 0
  {
    if records != [] {
      SumOfOneKey(records[1..], key);
      if !HasKey(records, key) {
        assert records[0].key != key;
        assert forall i :: 0 <= i < |records[1..]| ==> records[1..][i] == records[i + 1];
      }
    }
  }

  lemma {:induction false} AggregationGrows(groups: seq<Record>, records: seq<Record>, key: Key, more: seq<Record>)
    requires IsAggregation(groups, records) && !HasKey(records, key)
    requires more != [] && forall r <- more :: r.key == key
    ensures IsAggregation(groups + [Record(key, Sum(more, Count()))], records + more)
  {
    var all := groups + [Record(key, Sum(more, Count()))];
    assert !HasKey(groups, key);
    forall i | 0 <= i < |all| ensures all[i].count == Sum(records + more, CountIf(all[i].key)) {
      SumOfConcatenation(records, more, CountIf(all[i].key));
      SumOfOneKey(records, all[i].key);
      SumOfOneKey(more, all[i].key);
    }
    forall k ensures HasKey(all, k) <==> HasKey(records + more, k) {
      HasKeyOfConcatenation(groups, [Record(key, Sum(more, Count()))], k);
      HasKeyOfConcatenation(records, more, k);
      SoleKey([Record(key, Sum(more, Count()))], key, k);
      SoleKey(more, key, k);
    }
  }

  lemma SoleKey(records: seq<Record>, key: Key, k: Key)
    requires records != [] && forall r <- records :: r.key == key
    ensures HasKey(records, k) <==> k == key
  {
    assert records[0].key == key;
  }

  lemma HasKeyOfConcatenation(a: seq<Record>, b: seq<Record>, key: Key)
    ensures HasKey(a + b, key) <==> HasKey(a, key) || HasKey(b, key)
  {
    if HasKey(a, key) {
      var i :| 0 <= i < |a| && a[i].key == key;
      assert (a + b)[i].key == key;
    }
    if HasKey(b, key) {
      var i :| 0 <= i < |b| && b[i].key == key;
      assert (a + b)[|a| + i].key == key;
    }
  }

  // In a sorted list the records with the same key stand together.
  lemma NewKeyIsNew(sorted: seq<Record>, i: nat)
    requires IsSorted(sorted, ByKey()) && 0 < i < |sorted| && sorted[i - 1].key != sorted[i].key
    ensures !HasKey(sorted[..i], sorted[i].key)
  {
    if HasKey(sorted[..i], sorted[i].key) {
      var j :| 0 <= j < i && sorted[..i][j].key == sorted[i].key;
      assert ByKey()(sorted[i - 1], sorted[i]);
      assert j < i - 1 ==> ByKey()(sorted[j], sorted[i - 1]);
      KeyLeqIsOrder(sorted[i - 1].key, sorted[i].key, sorted[i].key);
    }
  }

  // The groups so far are in the order of their keys, up to the last record read.
  ghost predicate GroupsInOrder(groups: seq<Record>, sorted: seq<Record>, i: nat)
    requires i <= |sorted|
  {
    && IsSorted(groups, ByKey())
    && (groups != [] ==> i > 0 && groups[|groups| - 1].key == sorted[i - 1].key)
  }

  lemma OneMoreInOrder(groups: seq<Record>, sorted: seq<Record>, i: nat, j: nat, count: int)
    requires i < j <= |sorted| && IsSorted(sorted, ByKey()) && GroupsInOrder(groups, sorted, i)
    requires sorted[j - 1].key == sorted[i].key
    ensures GroupsInOrder(groups + [Record(sorted[i].key, count)], sorted, j)
  {
    if groups != [] {
      var last := groups[|groups| - 1];
      assert ByKey()(sorted[i - 1], sorted[i]);
      forall k | 0 <= k < |groups| ensures KeyLeq(groups[k].key, sorted[i].key) {
        assert k < |groups| - 1 ==> ByKey()(groups[k], last);
        KeyLeqIsOrder(groups[k].key, last.key, sorted[i].key);
      }
    }
  }

  ghost predicate AreGroupsUpTo(groups: seq<Record>, sorted: seq<Record>, i: nat) {
    && i <= |sorted| && IsAggregation(groups, sorted[..i]) && GroupsInOrder(groups, sorted, i)
    && (0 < i < |sorted| ==> sorted[i - 1].key != sorted[i].key)
  }

  lemma GroupIsAdded(groups: seq<Record>, sorted: seq<Record>, i: nat, j: nat)
    requires i < j <= |sorted| && IsSorted(sorted, ByKey()) && AreGroupsUpTo(groups, sorted, i)
    requires forall k :: i <= k < j ==> sorted[k].key == sorted[i].key
    requires j < |sorted| ==> sorted[j].key != sorted[i].key
    ensures AreGroupsUpTo(groups + [Record(sorted[i].key, Sum(sorted[i..j], Count()))], sorted, j)
  {
    if i > 0 {
      NewKeyIsNew(sorted, i);
    }
    AggregationGrows(groups, sorted[..i], sorted[i].key, sorted[i..j]);
    assert sorted[..i] + sorted[i..j] == sorted[..j];
    OneMoreInOrder(groups, sorted, i, j, Sum(sorted[i..j], Count()));
  }

  // One group of itertools.groupby, and its sum.
  method SumGroup(sorted: seq<Record>, i: nat) returns (sum: int, j: nat)
    requires i < |sorted|
    ensures i < j <= |sorted| && sum == Sum(sorted[i..j], Count())
    ensures forall k :: i <= k < j ==> sorted[k].key == sorted[i].key
    ensures j < |sorted| ==> sorted[j].key != sorted[i].key
  {
    sum, j := 0, i;
    while j < |sorted| && sorted[j].key == sorted[i].key
      invariant i <= j <= |sorted|
      invariant forall k :: i <= k < j ==> sorted[k].key == sorted[i].key
      invariant sum == Sum(sorted[i..j], Count())
    {
      SumOfNext(sorted, i, j);
      sum := sum + sorted[j].count;
      j := j + 1;
    }
  }

  // itertools.groupby, with the sum of every group.
  method SumGroups(sorted: seq<Record>) returns (groups: seq<Record>)
    requires IsSorted(sorted, ByKey())
    ensures IsAggregation(groups, sorted) && IsSorted(groups, ByKey())
  {
    groups := [];
    var i := 0;
    while i < |sorted|
      invariant AreGroupsUpTo(groups, sorted, i)
    {
      var sum, j := SumGroup(sorted, i);
      GroupIsAdded(groups, sorted, i, j);
      groups := groups + [Record(sorted[i].key, sum)];
      i := j;
    }
    assert sorted[..i] == sorted;
  }

  lemma SumOfNext(records: seq<Record>, i: nat, j: nat)
    requires i <= j < |records|
    ensures Sum(records[i..j + 1], Count()) == Sum(records[i..j], Count()) + records[j].count
  {
    assert records[i..j + 1] == records[i..j] + [records[j]];
    SumOfConcatenation(records[i..j], [records[j]], Count());
    assert Sum([records[j]], Count()) == Count()(records[j]);
  }

  /** measurements.sort(), groupby and sum together do not depend on the order of the measures. */
  method Aggregate(records: seq<Record>) returns (groups: seq<Record>)
    ensures IsAggregation(groups, records) && IsSorted(groups, ByKey())
  {
    ByKeyIsTotalPreorder();
    SortIsSorted(records, ByKey());
    groups := SumGroups(Sort(records, ByKey()));
    AggregationOfSorted(groups, records);
  }

  lemma {:induction false} AggregationOfSorted(groups: seq<Record>, records: seq<Record>)
    requires IsAggregation(groups, Sort(records, ByKey()))
    ensures IsAggregation(groups, records)
  {
    var sorted := Sort(records, ByKey());
    SortKeepsElements(records, ByKey());
    forall i | 0 <= i < |groups| ensures groups[i].count == Sum(records, CountIf(groups[i].key)) {
      SortKeepsSum(records, ByKey(), CountIf(groups[i].key));
    }
    forall key ensures HasKey(sorted, key) <==> HasKey(records, key) {
      SameKeys(sorted, records, key);
      SameKeys(records, sorted, key);
    }
  }

  lemma SameKeys(a: seq<Record>, b: seq<Record>, key: Key)
    requires forall r <- a :: r in b
    ensures HasKey(a, key) ==> HasKey(b, key)
  {
    if HasKey(a, key) {
      var i :| 0 <= i < |a| && a[i].key == key;
      assert a[i] in b;
    }
  }

  // ---------- Conservation ----------

  /** The count a record brings to the group of a key. */
  function BroughtBy(r: Record): Record -> int {
    (g: Record) => if r.key == g.key then r.count else 0
  }

  function SumOfGroups(records: seq<Record>): Record -> int {
    (g: Record) => Sum(records, CountIf(g.key))
  }

  lemma {:induction false} BroughtToOneGroup(groups: seq<Record>, r: Record)
    requires forall i, j :: 0 <= i < j < |groups| ==> groups[i].key != groups[j].key
    ensures Sum(groups, BroughtBy(r)) == if HasKey(groups, r.key) then r.count else 0
  {
    if groups != [] {
      BroughtToOneGroup(groups[1..], r);
      HasKeyOfConcatenation([groups[0]], groups[1..], r.key);
      assert [groups[0]] + groups[1..] == groups;
      SoleKey([groups[0]], groups[0].key, r.key);
      assert forall i :: 0 <= i < |groups[1..]| ==> groups[1..][i] == groups[i + 1];
    }
  }

  lemma {:induction false} AddWeights(groups: seq<Record>, r: Record, records: seq<Record>)
    ensures Sum(groups, SumOfGroups([r] + records)) == Sum(groups, BroughtBy(r)) + Sum(groups, SumOfGroups(records))
  {
    if groups != [] {
      AddWeights(groups[1..], r, records);
      assert ([r] + records)[1..] == records;
    }
  }

  lemma {:induction false} NothingToSum(groups: seq<Record>)
    ensures Sum(groups, SumOfGroups([])) == 0
  {
    if groups != [] {
      NothingToSum(groups[1..]);
    }
  }

  lemma {:induction false} EveryCountHasAGroup(groups: seq<Record>, records: seq<Record>)
    requires forall i, j :: 0 <= i < j < |groups| ==> groups[i].key != groups[j].key
    requires forall r <- records :: HasKey(groups, r.key)
    ensures Sum(groups, SumOfGroups(records)) == Sum(records, Count())
  {
    if records == [] {
      NothingToSum(groups);
    } else {
      EveryCountHasAGroup(groups, records[1..]);
      BroughtToOneGroup(groups, records[0]);
      AddWeights(groups, records[0], records[1..]);
      assert records == [records[0]] + records[1..];
    }
  }

  lemma {:induction false} SameWeights(groups: seq<Record>, f: Record -> int, g: Record -> int)
    requires forall i :: 0 <= i < |groups| ==> f(groups[i]) == g(groups[i])
    ensures Sum(groups, f) == Sum(groups, g)
  {
    if groups != [] {
      assert forall i :: 0 <= i < |groups[1..]| ==> groups[1..][i] == groups[i + 1];
      SameWeights(groups[1..], f, g);
    }
  }

  /** No count is lost or counted twice by the grouping. */
  lemma {:induction false} CountIsConserved(groups: seq<Record>, records: seq<Record>)
    requires IsAggregation(groups, records)
    ensures Sum(groups, Count()) == Sum(records, Count())
  {
    forall r <- records ensures HasKey(groups, r.key) {
      assert HasKey(records, r.key);
    }
    EveryCountHasAGroup(groups, records);
    SameWeights(groups, Count(), SumOfGroups(records));
  }

  // ---------- The measures of one document ----------

  predicate EndsWith(s: string, suffix: string) {
    |suffix| <= |s| && s[|s| - |suffix|..] == suffix
  }

  predicate IsActualFile(path: string) {
    && !Contains(path, ".log") && !Contains(path, "info.txt") && !Contains(path, ".lock")
    && !Contains(path, ".sqlite-wal") && !Contains(path, ".sqlite-shm")
  }

  /** nameOf is Path.name. */
  function FileOf(path: string, nameOf: string -> string): string {
    if EndsWith(path, ".mkv") then "MKV files"
    else if EndsWith(path, ".nxdb") then "NXDB databases"
    else nameOf(path)
  }

  function Retained(measures: seq<Measure>, nameOf: string -> string): seq<Record> {
    if measures == [] then []
    else
      var m := measures[0];
      (if IsActualFile(m.path) then [Record(Key(m.operation, FileOf(m.path, nameOf)), m.count)] else [])
      + Retained(measures[1..], nameOf)
  }

  ghost predicate HasPart(path: string, part: string) {
    exists i :: 0 <= i < |path| && OccursAt(part, path, i)
  }

  /** A file is left out exactly if its path has one of these parts anywhere. */
  lemma ActualFilesByName(path: string)
    ensures !IsActualFile(path) <==>
            || HasPart(path, ".log") || HasPart(path, "info.txt") || HasPart(path, ".lock")
            || HasPart(path, ".sqlite-wal") || HasPart(path, ".sqlite-shm")
  {
    ContainsExactlyIfOccurs(path, ".log");
    ContainsExactlyIfOccurs(path, "info.txt");
    ContainsExactlyIfOccurs(path, ".lock");
    ContainsExactlyIfOccurs(path, ".sqlite-wal");
    ContainsExactlyIfOccurs(path, ".sqlite-shm");
  }

  lemma EndsWithLast(s: string, suffix: string)
    requires EndsWith(s, suffix) && suffix != []
    ensures s != [] && s[|s| - 1] == suffix[|suffix| - 1]
  {
    assert s[|s| - |suffix|..][|suffix| - 1] == s[|s| - 1];
  }

  /** Recordings and databases are counted together, and every other file under its own name. */
  lemma FilesByName(stem: string, path: string, nameOf: string -> string)
    ensures FileOf(stem + ".mkv", nameOf) == "MKV files"
    ensures FileOf(stem + ".nxdb", nameOf) == "NXDB databases"
    ensures (forall s: string :: path != s + ".mkv" && path != s + ".nxdb") ==> FileOf(path, nameOf) == nameOf(path)
  {
    if EndsWith(path, ".mkv") {
      assert path == path[..|path| - 4] + ".mkv";
    } else if EndsWith(path, ".nxdb") {
      assert path == path[..|path| - 5] + ".nxdb";
    }
    var database := stem + ".nxdb";
    assert database[|database| - 1] == 'b';
    if EndsWith(database, ".mkv") {
      EndsWithLast(database, ".mkv");
    }
  }

  /** The count of a measure, if it is of an actual file and of this operation and file. */
  function MeasuredFor(key: Key, nameOf: string -> string): Measure -> int {
    (m: Measure) =>
      if IsActualFile(m.path) && m.operation == key.operation && FileOf(m.path, nameOf) == key.file then m.count else 0
  }

  /** What is retained for an operation and a file are all of its measures, and nothing else. */
  lemma {:induction false} RetainedCounts(measures: seq<Measure>, nameOf: string -> string, key: Key)
    ensures Sum(Retained(measures, nameOf), CountIf(key)) == Sum(measures, MeasuredFor(key, nameOf))
    ensures HasKey(Retained(measures, nameOf), key) <==>
              exists m <- measures :: IsActualFile(m.path) && m.operation == key.operation && FileOf(m.path, nameOf) == key.file
  {
    if measures != [] {
      RetainedCounts(measures[1..], nameOf, key);
      var m := measures[0];
      var first := if IsActualFile(m.path) then [Record(Key(m.operation, FileOf(m.path, nameOf)), m.count)] else [];
      SumOfConcatenation(first, Retained(measures[1..], nameOf), CountIf(key));
      HasKeyOfConcatenation(first, Retained(measures[1..], nameOf), key);
      if IsActualFile(m.path) {
        SoleKey(first, Key(m.operation, FileOf(m.path, nameOf)), key);
        assert Sum(first, CountIf(key)) == CountIf(key)(first[0]);
      }
      assert measures == [m] + measures[1..];
    }
  }

  function RowsOf(doc: Document, groups: seq<Record>): seq<Row> {
    seq(|groups|, i requires 0 <= i < |groups| =>
      Row(doc.run, groups[i].key, groups[i].count, doc.sortingKey))
  }

  // ---------- The latest documents ----------

  function LatestFirst(): (Document, Document) -> bool {
    (a: Document, b: Document) => a.startedAt >= b.startedAt
  }

  function RunsOf(chosen: seq<Document>): set<Run> {
    set c <- chosen :: c.run
  }

  function OfRun(run: Run): Document -> bool {
    (d: Document) => d.run == run
  }

  function StartedWith(c: Document): Document -> bool {
    (d: Document) => d.run == c.run && d.startedAt == c.startedAt
  }

  /** The documents of the same type and version that started at the same time, in input order. */
  function Ties(docs: seq<Document>, c: Document): seq<Document> {
    Filter(docs, StartedWith(c))
  }

  /** No document of this type and version started later, and this is the first of those that tie. */
  ghost predicate IsLatestIn(c: Document, docs: seq<Document>) {
    && (forall d <- docs :: c.run == d.run ==> d.startedAt <= c.startedAt)
    && c in docs && Ties(docs, c) != [] && Ties(docs, c)[0] == c
  }

  lemma TiesOfMore(docs: seq<Document>, doc: Document, c: Document)
    ensures Ties(docs + [doc], c) == Ties(docs, c) + if StartedWith(c)(doc) then [doc] else []
  {
    FilterOfConcatenation(docs, [doc], StartedWith(c));
  }

  lemma {:induction false} NoTies(docs: seq<Document>, c: Document)
    requires forall d <- docs :: d.run != c.run
    ensures Ties(docs, c) == []
  {
    if docs != [] {
      NoTies(docs[1..], c);
    }
  }

  lemma {:induction false} TiesOfSorted(docs: seq<Document>, c: Document)
    ensures Ties(Sort(docs, LatestFirst()), c) == Ties(docs, c)
  {
    LatestIsTotalPreorder();
    SortIsStable(docs, LatestFirst(), c);
    FilterTwice(docs, EqualTo(c, LatestFirst()), OfRun(c.run), StartedWith(c));
    FilterTwice(Sort(docs, LatestFirst()), EqualTo(c, LatestFirst()), OfRun(c.run), StartedWith(c));
  }

  ghost predicate AreDistinctRuns(chosen: seq<Document>) {
    forall i, j :: 0 <= i < j < |chosen| ==> chosen[i].run != chosen[j].run
  }

  lemma NewRunIsDistinct(chosen: seq<Document>, doc: Document)
    requires AreDistinctRuns(chosen) && doc.run !in RunsOf(chosen)
    ensures AreDistinctRuns(chosen + [doc])
  {
    assert forall k :: 0 <= k < |chosen| ==> chosen[k].run in RunsOf(chosen);
  }

  /** The chosen documents: for every type and version the latest, and of equally late ones the first. */
  ghost predicate AreLatest(chosen: seq<Document>, docs: seq<Document>) {
    && AreDistinctRuns(chosen)
    && (forall i :: 0 <= i < |chosen| ==> IsLatestIn(chosen[i], docs))
    && RunsOf(chosen) == RunsOf(docs)
  }

  /** The first document of every type and version, in the order of the list. */
  function Firsts(docs: seq<Document>): seq<Document> {
    if docs == [] then []
    else
      var before, doc := docs[..|docs| - 1], docs[|docs| - 1];
      Firsts(before) + if doc.run in RunsOf(before) then [] else [doc]
  }

  lemma {:induction false} FirstsOfNext(sorted: seq<Document>, i: nat)
    requires i < |sorted|
    ensures Firsts(sorted[..i + 1])
         == Firsts(sorted[..i]) + if sorted[i].run in RunsOf(sorted[..i]) then [] else [sorted[i]]
  {
    assert sorted[..i + 1][..i] == sorted[..i];
  }

  lemma {:induction false} LatestOfSorted(chosen: seq<Document>, docs: seq<Document>)
    requires AreLatest(chosen, Sort(docs, LatestFirst()))
    ensures AreLatest(chosen, docs)
  {
    SortKeepsElements(docs, LatestFirst());
    forall i | 0 <= i < |chosen| ensures IsLatestIn(chosen[i], docs) {
      TiesOfSorted(docs, chosen[i]);
    }
  }

  lemma LatestIsTotalPreorder()
    ensures IsTotalPreorder(LatestFirst())
  {
  }

  lemma EarlierIsNotLatest(c: Document, sorted: seq<Document>, i: nat)
    requires i < |sorted| && IsSorted(sorted, LatestFirst()) && IsLatestIn(c, sorted[..i])
    ensures IsLatestIn(c, sorted[..i + 1])
  {
    var j :| 0 <= j < i && sorted[j] == c;
    assert LatestFirst()(sorted[j], sorted[i]);
    assert sorted[..i + 1] == sorted[..i] + [sorted[i]];
    TiesOfMore(sorted[..i], sorted[i], c);
  }

  lemma RunsOfMore(docs: seq<Document>, doc: Document)
    ensures RunsOf(docs + [doc]) == RunsOf(docs) + {doc.run}
  {
    assert forall c :: c in docs + [doc] <==> c in docs || c == doc;
  }

  lemma RunIsKnown(chosen: seq<Document>, sorted: seq<Document>, i: nat)
    requires i < |sorted| && IsSorted(sorted, LatestFirst()) && AreLatest(chosen, sorted[..i])
    requires sorted[i].run in RunsOf(chosen)
    ensures AreLatest(chosen, sorted[..i + 1])
  {
    RunsOfMore(sorted[..i], sorted[i]);
    assert sorted[..i + 1] == sorted[..i] + [sorted[i]];
    forall k | 0 <= k < |chosen| ensures IsLatestIn(chosen[k], sorted[..i + 1]) {
      EarlierIsNotLatest(chosen[k], sorted, i);
    }
  }

  lemma NewIsLatest(sorted: seq<Document>, i: nat)
    requires i < |sorted| && sorted[i].run !in RunsOf(sorted[..i])
    ensures IsLatestIn(sorted[i], sorted[..i + 1])
  {
    assert forall d <- sorted[..i] :: d.run in RunsOf(sorted[..i]);
    assert sorted[..i + 1] == sorted[..i] + [sorted[i]];
    NoTies(sorted[..i], sorted[i]);
    TiesOfMore(sorted[..i], sorted[i], sorted[i]);
  }

  lemma RunIsNew(chosen: seq<Document>, sorted: seq<Document>, i: nat)
    requires i < |sorted| && IsSorted(sorted, LatestFirst()) && AreLatest(chosen, sorted[..i])
    requires sorted[i].run !in RunsOf(chosen)
    ensures AreLatest(chosen + [sorted[i]], sorted[..i + 1])
  {
    var all := chosen + [sorted[i]];
    RunsOfMore(sorted[..i], sorted[i]);
    RunsOfMore(chosen, sorted[i]);
    NewRunIsDistinct(chosen, sorted[i]);
    assert sorted[..i + 1] == sorted[..i] + [sorted[i]];
    forall k | 0 <= k < |all| ensures IsLatestIn(all[k], sorted[..i + 1]) {
      if k < |chosen| {
        EarlierIsNotLatest(chosen[k], sorted, i);
      } else {
        NewIsLatest(sorted, i);
      }
    }
  }

  // ---------- The export ----------

  ghost predicate AreGroupsOf(groups: seq<Record>, doc: Document, nameOf: string -> string) {
    IsAggregation(groups, Retained(doc.measures, nameOf)) && IsSorted(groups, ByKey())
  }

  /** The rows of every chosen document, one list for each, in the order of their keys. */
  ghost predicate AreRows(parts: seq<seq<Record>>, chosen: seq<Document>, nameOf: string -> string) {
    |parts| == |chosen| && forall i :: 0 <= i < |parts| ==> AreGroupsOf(parts[i], chosen[i], nameOf)
  }

  function AllRows(chosen: seq<Document>, parts: seq<seq<Record>>): seq<Row>
    requires |parts| == |chosen|
  {
    if parts == [] then []
    else
      AllRows(chosen[..|chosen| - 1], parts[..|parts| - 1]) + RowsOf(chosen[|chosen| - 1], parts[|parts| - 1])
  }

  lemma {:induction false} AllRowsGrow(chosen: seq<Document>, parts: seq<seq<Record>>, doc: Document, groups: seq<Record>)
    requires |parts| == |chosen|
    ensures AllRows(chosen + [doc], parts + [groups]) == AllRows(chosen, parts) + RowsOf(doc, groups)
  {
    assert (chosen + [doc])[..|chosen|] == chosen && (parts + [groups])[..|parts|] == parts;
  }

  function BySortingKey(): (Row, Row) -> bool {
    (a: Row, b: Row) => StringLeq(a.sortingKey, b.sortingKey)
  }

  lemma BySortingKeyIsTotalPreorder()
    ensures IsTotalPreorder(BySortingKey())
  {
    forall a: Row, b: Row ensures BySortingKey()(a, b) || BySortingKey()(b, a) {
      StringLeqIsOrder(a.sortingKey, b.sortingKey, b.sortingKey);
    }
    forall a: Row, b: Row, c: Row | BySortingKey()(a, b) && BySortingKey()(b, c) ensures BySortingKey()(a, c) {
      StringLeqIsOrder(a.sortingKey, b.sortingKey, c.sortingKey);
    }
  }

  // ---------- What the rows mean ----------

  function RowCount(): Row -> int {
    (r: Row) => r.count
  }

  /** What the latest documents count altogether. */
  function CountOfDocuments(chosen: seq<Document>, nameOf: string -> string): int {
    if chosen == [] then 0
    else
      CountOfDocuments(chosen[..|chosen| - 1], nameOf)
      + Sum(Retained(chosen[|chosen| - 1].measures, nameOf), Count())
  }

  lemma {:induction false} RowsCountGroups(doc: Document, groups: seq<Record>)
    ensures Sum(RowsOf(doc, groups), RowCount()) == Sum(groups, Count())
  {
    if groups != [] {
      RowsCountGroups(doc, groups[1..]);
      assert RowsOf(doc, groups)[1..] == RowsOf(doc, groups[1..]);
    }
  }

  /** The total count is conserved from the latest documents to the exported rows. */
  lemma {:induction false} ExportConservesCount(chosen: seq<Document>, parts: seq<seq<Record>>,
                                                nameOf: string -> string)
    requires AreRows(parts, chosen, nameOf)
    ensures Sum(AllRows(chosen, parts), RowCount()) == CountOfDocuments(chosen, nameOf)
    decreases |chosen|
  {
    if chosen != [] {
      var n := |chosen| - 1;
      ExportConservesCount(chosen[..n], parts[..n], nameOf);
      CountIsConserved(parts[n], Retained(chosen[n].measures, nameOf));
      RowsCountGroups(chosen[n], parts[n]);
      SumOfConcatenation(AllRows(chosen[..n], parts[..n]), RowsOf(chosen[n], parts[n]), RowCount());
    }
  }

  function DifferentRows(): (Row, Row) -> bool {
    (a: Row, b: Row) => a.run != b.run || a.key != b.key
  }

  /** No two rows are about the same type, version, operation and file. */
  ghost predicate RowsAreDistinct(rows: seq<Row>) {
    AllDiffer(rows, DifferentRows())
  }

  lemma {:induction false} RunsOfRows(chosen: seq<Document>, parts: seq<seq<Record>>)
    requires |parts| == |chosen|
    ensures forall row <- AllRows(chosen, parts) :: row.run in RunsOf(chosen)
    decreases |chosen|
  {
    if chosen != [] {
      var n := |chosen| - 1;
      RunsOfRows(chosen[..n], parts[..n]);
      RunsOfMore(chosen[..n], chosen[n]);
      assert chosen[..n] + [chosen[n]] == chosen;
    }
  }

  lemma {:induction false} ExportedRowsAreDistinct(chosen: seq<Document>, parts: seq<seq<Record>>,
                                                   nameOf: string -> string)
    requires AreDistinctRuns(chosen)
    requires AreRows(parts, chosen, nameOf)
    ensures RowsAreDistinct(AllRows(chosen, parts))
    decreases |chosen|
  {
    if chosen != [] {
      var n := |chosen| - 1;
      ExportedRowsAreDistinct(chosen[..n], parts[..n], nameOf);
      RunsOfRows(chosen[..n], parts[..n]);
      assert chosen[n].run !in RunsOf(chosen[..n]);
    }
  }

  /** Row by row: of which document, and of which of its groups. */
  ghost predicate TellsOf(row: Row, doc: Document, group: Record) {
    && row.run.kind == doc.run.kind && row.run.version == doc.run.version && row.sortingKey == doc.sortingKey
    && row.key.operation == group.key.operation && row.key.file == group.key.file && row.count == group.count
  }

  ghost predicate HasSource(row: Row, chosen: seq<Document>, parts: seq<seq<Record>>)
    requires |parts| == |chosen|
  {
    exists i, j :: 0 <= i < |chosen| && 0 <= j < |parts[i]| && TellsOf(row, chosen[i], parts[i][j])
  }

  /** Every row tells of a chosen document and a group of its own. */
  lemma {:induction false} RowsHaveSources(chosen: seq<Document>, parts: seq<seq<Record>>)
    requires |parts| == |chosen|
    ensures forall row <- AllRows(chosen, parts) :: HasSource(row, chosen, parts)
    decreases |chosen|
  {
    if chosen != [] {
      var n := |chosen| - 1;
      RowsHaveSources(chosen[..n], parts[..n]);
      forall row <- AllRows(chosen, parts) ensures HasSource(row, chosen, parts) {
        if row in AllRows(chosen[..n], parts[..n]) {
          var i, j :| 0 <= i < n && 0 <= j < |parts[..n][i]| && TellsOf(row, chosen[..n][i], parts[..n][i][j]);
          assert TellsOf(row, chosen[i], parts[i][j]);
        } else {
          var j :| 0 <= j < |parts[n]| && row == RowsOf(chosen[n], parts[n])[j];
          assert TellsOf(row, chosen[n], parts[n][j]);
        }
      }
    }
  }

  lemma {:induction false} GroupsHaveRows(chosen: seq<Document>, parts: seq<seq<Record>>, i: nat, j: nat)
    requires |parts| == |chosen| && i < |chosen| && j < |parts[i]|
    ensures exists row <- AllRows(chosen, parts) :: TellsOf(row, chosen[i], parts[i][j])
    decreases |chosen|
  {
    var n := |chosen| - 1;
    if i < n {
      GroupsHaveRows(chosen[..n], parts[..n], i, j);
      var row :| row in AllRows(chosen[..n], parts[..n]) && TellsOf(row, chosen[..n][i], parts[..n][i][j]);
      assert row in AllRows(chosen, parts);
    } else {
      var row := RowsOf(chosen[n], parts[n])[j];
      assert row in AllRows(chosen, parts);
    }
  }

  method SortRows(rows: seq<Row>) returns (sorted: seq<Row>)
    ensures IsStablySorted(sorted, rows, BySortingKey())
    ensures Sum(sorted, RowCount()) == Sum(rows, RowCount())
    ensures RowsAreDistinct(rows) ==> RowsAreDistinct(sorted)
  {
    sorted := Sort(rows, BySortingKey());
    BySortingKeyIsTotalPreorder();
    SortIsStablySorted(rows, BySortingKey());
    SortKeepsSum(rows, BySortingKey(), RowCount());
    if RowsAreDistinct(rows) {
      SortKeepsDiffering(rows, BySortingKey(), DifferentRows());
    }
  }

  /** What the loop over the documents has chosen, and the rows it has made of it. */
  ghost predicate IsPrepared(docs: seq<Document>, nameOf: string -> string, chosen: seq<Document>,
                             parts: seq<seq<Record>>, rows: seq<Row>)
  {
    && AreLatest(chosen, docs) && chosen == Firsts(docs)
    && AreRows(parts, chosen, nameOf) && rows == AllRows(chosen, parts)
  }

  lemma {:induction false} RowsGrow(chosen: seq<Document>, parts: seq<seq<Record>>, nameOf: string -> string,
                                    doc: Document, groups: seq<Record>)
    requires AreRows(parts, chosen, nameOf) && AreGroupsOf(groups, doc, nameOf)
    ensures AreRows(parts + [groups], chosen + [doc], nameOf)
    ensures AllRows(chosen + [doc], parts + [groups]) == AllRows(chosen, parts) + RowsOf(doc, groups)
  {
    AllRowsGrow(chosen, parts, doc, groups);
  }

  lemma {:induction false} NewIsPrepared(sorted: seq<Document>, i: nat, nameOf: string -> string, chosen: seq<Document>,
                                         parts: seq<seq<Record>>, rows: seq<Row>, groups: seq<Record>)
    requires i < |sorted| && IsSorted(sorted, LatestFirst()) && sorted[i].run !in RunsOf(chosen)
    requires IsPrepared(sorted[..i], nameOf, chosen, parts, rows) && AreGroupsOf(groups, sorted[i], nameOf)
    ensures IsPrepared(sorted[..i + 1], nameOf, chosen + [sorted[i]], parts + [groups], rows + RowsOf(sorted[i], groups))
    ensures RunsOf(chosen + [sorted[i]]) == RunsOf(chosen) + {sorted[i].run}
  {
    RunIsNew(chosen, sorted, i);
    FirstsOfNext(sorted, i);
    RowsGrow(chosen, parts, nameOf, sorted[i], groups);
    RunsOfMore(chosen, sorted[i]);
  }

  lemma {:induction false} KnownIsPrepared(sorted: seq<Document>, i: nat, nameOf: string -> string,
                                           chosen: seq<Document>, parts: seq<seq<Record>>, rows: seq<Row>)
    requires i < |sorted| && IsSorted(sorted, LatestFirst()) && sorted[i].run in RunsOf(chosen)
    requires IsPrepared(sorted[..i], nameOf, chosen, parts, rows)
    ensures IsPrepared(sorted[..i + 1], nameOf, chosen, parts, rows)
  {
    RunIsKnown(chosen, sorted, i);
    FirstsOfNext(sorted, i);
  }

  // One document, of a type and version processed already or not.
  method PrepareDocument(sorted: seq<Document>, i: nat, nameOf: string -> string, processedBefore: set<Run>,
                         rowsBefore: seq<Row>, ghost chosenBefore: seq<Document>, ghost partsBefore: seq<seq<Record>>)
    returns (processed: set<Run>, rows: seq<Row>, ghost chosen: seq<Document>, ghost parts: seq<seq<Record>>)
    requires i < |sorted| && IsSorted(sorted, LatestFirst()) && processedBefore == RunsOf(chosenBefore)
    requires IsPrepared(sorted[..i], nameOf, chosenBefore, partsBefore, rowsBefore)
    ensures IsPrepared(sorted[..i + 1], nameOf, chosen, parts, rows)
    ensures processed == RunsOf(chosen)
  {
    processed, rows, chosen, parts := processedBefore, rowsBefore, chosenBefore, partsBefore;
    var doc := sorted[i];
    if doc.run in processed {
      KnownIsPrepared(sorted, i, nameOf, chosen, parts, rows);
      return;
    }
    var groups := Aggregate(Retained(doc.measures, nameOf));
    NewIsPrepared(sorted, i, nameOf, chosen, parts, rows, groups);
    rows := rows + RowsOf(doc, groups);
    chosen, parts := chosen + [doc], parts + [groups];
    processed := processed + {doc.run};
  }

  lemma NothingIsPrepared(nameOf: string -> string)
    ensures IsPrepared([], nameOf, [], [], []) && RunsOf([]) == {}
  {
  }

  method PrepareSorted(sorted: seq<Document>, nameOf: string -> string)
    returns (rows: seq<Row>, ghost chosen: seq<Document>, ghost parts: seq<seq<Record>>)
    requires IsSorted(sorted, LatestFirst())
    ensures IsPrepared(sorted, nameOf, chosen, parts, rows)
  {
    rows, chosen, parts := [], [], [];
    var processed: set<Run> := {};
    var i := 0;
    NothingIsPrepared(nameOf);
    assert sorted[..0] == [];
    while i < |sorted|
      invariant i <= |sorted|
      invariant processed == RunsOf(chosen)
      invariant IsPrepared(sorted[..i], nameOf, chosen, parts, rows)
    {
      processed, rows, chosen, parts := PrepareDocument(sorted, i, nameOf, processed, rows, chosen, parts);
      i := i + 1;
    }
    assert sorted[..i] == sorted;
  }

  /**
    The rows are those of the latest documents only, one for every operation and file of their
    retained measures, with the sum of the counts. Rows with one sorting key keep the order of
    their documents, latest first, and of their keys; no count is lost.
  */
  method PrepareData(docs: seq<Document>, nameOf: string -> string)
    returns (result: seq<Row>, ghost chosen: seq<Document>, ghost parts: seq<seq<Record>>)
    ensures AreLatest(chosen, docs) && chosen == Firsts(Sort(docs, LatestFirst()))
    ensures AreRows(parts, chosen, nameOf)
    ensures IsStablySorted(result, AllRows(chosen, parts), BySortingKey()) && RowsAreDistinct(result)
    ensures Sum(result, RowCount()) == CountOfDocuments(chosen, nameOf)
  {
    LatestIsTotalPreorder();
    SortIsSorted(docs, LatestFirst());
    result, chosen, parts := PrepareSorted(Sort(docs, LatestFirst()), nameOf);
    LatestOfSorted(chosen, docs);
    ExportConservesCount(chosen, parts, nameOf);
    ExportedRowsAreDistinct(chosen, parts, nameOf);
    result := SortRows(result);
  }
}
