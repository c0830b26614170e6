/**
  The gradual cleanup of directories/_cleanup.py: oldest files first, a budget in proportion to
  what was taken since the last cleanup, and convergence to the target over many cleanups.
*/
module GradualCleanup {
  import opened StableSort

  datatype Entry = Entry(path: string, size: nat, usedAt: real, modifiedAt: real)

  function UsedEarlier(): (Entry, Entry) -> bool {
    (a: Entry, b: Entry) => a.usedAt <= b.usedAt
  }

  function OldestFilesFirst(entries: seq<Entry>): seq<Entry> {
    Sort(entries, UsedEarlier())
  }

  function Size(): Entry -> int {
    (e: Entry) => e.size
  }

  function SizeIfNewerThan(time: real): Entry -> int {
    (e: Entry) => if e.modifiedAt > time then e.size else 0
  }

  function SizeIfIn(paths: set<string>): Entry -> int {
    (e: Entry) => if e.path in paths then e.size else 0
  }

  function TotalSize(entries: seq<Entry>): int {
    Sum(entries, Size())
  }

  /** The size of the entries at the given paths. */
  function SizeOf(entries: seq<Entry>, paths: set<string>): int {
    Sum(entries, SizeIfIn(paths))
  }

  function TakenSince(entries: seq<Entry>, time: real): int {
    Sum(entries, SizeIfNewerThan(time))
  }

  function Excess(entries: seq<Entry>, target: nat): nat {
    if TotalSize(entries) > target then TotalSize(entries) - target else 0
  }

  // One and a half of what was taken since the last cleanup, rounded down, but not below the target.
  function SpaceToCleanUp(entries: seq<Entry>, target: nat, lastCleanupAt: real): int {
    var pace := 3 * TakenSince(entries, lastCleanupAt) / 2;
    if pace <= Excess(entries, target) then pace else Excess(entries, target)
  }

  function Remaining(entries: seq<Entry>, deleted: set<string>): seq<Entry> {
    Filter(entries, (e: Entry) => e.path !in deleted)
  }

  ghost predicate DistinctPaths(entries: seq<Entry>) {
    forall i, j :: 0 <= i < j < |entries| ==> entries[i].path != entries[j].path
  }

  /**
    What one cleanup may delete: an entry goes exactly when it does not refuse and those deleted
    before it have not freed enough. Refusing entries are files in use and directories not empty.
  */
  ghost predicate DeletesOldestFirst(sorted: seq<Entry>, space: int, refusing: set<string>, deleted: set<string>) {
    forall i :: 0 <= i < |sorted| ==>
      (sorted[i].path in deleted <==> sorted[i].path !in refusing && SizeOf(sorted[..i], deleted) < space)
  }

  /** A cleanup of the given entries, whatever refused. */
  ghost predicate IsCleanup(entries: seq<Entry>, target: nat, lastCleanupAt: real, refusing: set<string>,
                            deleted: set<string>)
  {
    DeletesOldestFirst(OldestFilesFirst(entries), SpaceToCleanUp(entries, target, lastCleanupAt), refusing, deleted)
  }

  ghost predicate DeletesOnly(sorted: seq<Entry>, deleted: set<string>) {
    forall path <- deleted :: exists i :: 0 <= i < |sorted| && sorted[i].path == path
  }

  // ---------- Facts about sizes ----------

  lemma {:induction false} DeletedAndRemaining(entries: seq<Entry>, deleted: set<string>)
    ensures TotalSize(entries) == SizeOf(entries, deleted) + TotalSize(Remaining(entries, deleted))
  {
    if entries != [] {
      DeletedAndRemaining(entries[1..], deleted);
      var rest := Remaining(entries[1..], deleted);
      assert ([entries[0]] + rest)[1..] == rest;
      assert [] + rest == rest;
    }
  }

  lemma {:induction false} RemainingHolds(entries: seq<Entry>, deleted: set<string>, e: Entry)
    ensures e in Remaining(entries, deleted) <==> e in entries && e.path !in deleted
  {
    if entries != [] {
      RemainingHolds(entries[1..], deleted, e);
      var rest := Remaining(entries[1..], deleted);
      assert [] + rest == rest;
      assert e in [entries[0]] + rest <==> e == entries[0] || e in rest;
    }
  }

  function ModifiedAfter(time: real): Entry -> bool {
    (e: Entry) => e.modifiedAt > time
  }

  /** What was taken is exactly the size of the entries modified after the last cleanup. */
  lemma {:induction false} TakenIsModified(entries: seq<Entry>, time: real)
    ensures TakenSince(entries, time) == TotalSize(Filter(entries, ModifiedAfter(time)))
  {
    if entries != [] {
      TakenIsModified(entries[1..], time);
      var rest := Filter(entries[1..], ModifiedAfter(time));
      assert ([entries[0]] + rest)[1..] == rest && [] + rest == rest;
    }
  }

  /** The total is the sum of the sizes. */
  lemma {:induction false} TotalOfParts(a: seq<Entry>, b: seq<Entry>, e: Entry)
    ensures TotalSize(a + b) == TotalSize(a) + TotalSize(b) && TotalSize([e]) == e.size && TotalSize([]) == 0
  {
    SumOfConcatenation(a, b, Size());
    assert Sum([e], Size()) == Size()(e);
  }

  lemma SizesAreNatural(entries: seq<Entry>, paths: set<string>, time: real)
    ensures SizeOf(entries, paths) >= 0
    ensures TakenSince(entries, time) >= 0
    ensures TotalSize(entries) >= 0
  {
    SumOfNats(entries, SizeIfIn(paths));
    SumOfNats(entries, SizeIfNewerThan(time));
    SumOfNats(entries, Size());
  }

  /** The space set out for is all that is within the excess and within one and a half of what was taken. */
  lemma {:induction false} BudgetIsLargest(entries: seq<Entry>, target: nat, lastCleanupAt: real, k: int)
    ensures k <= SpaceToCleanUp(entries, target, lastCleanupAt)
       <==> 2 * k <= 3 * TotalSize(Filter(entries, ModifiedAfter(lastCleanupAt)))
            && (k <= 0 || k <= TotalSize(entries) - target)
  {
    TakenIsModified(entries, lastCleanupAt);
    SizesAreNatural(entries, {}, lastCleanupAt);
  }

  lemma SizeOfPrefix(entries: seq<Entry>, i: nat, paths: set<string>)
    requires i <= |entries|
    ensures SizeOf(entries[..i], paths) <= SizeOf(entries, paths)
  {
    assert entries == entries[..i] + entries[i..];
    SumOfConcatenation(entries[..i], entries[i..], SizeIfIn(paths));
    SizesAreNatural(entries[i..], paths, 0.0);
  }

  lemma SizeOfPrefixes(entries: seq<Entry>, i: nat, j: nat, paths: set<string>)
    requires i <= j <= |entries|
    ensures SizeOf(entries[..i], paths) <= SizeOf(entries[..j], paths)
  {
    SizeOfPrefix(entries[..j], i, paths);
    assert entries[..j][..i] == entries[..i];
  }

  lemma SizeOfNext(entries: seq<Entry>, i: nat, paths: set<string>)
    requires i < |entries|
    ensures SizeOf(entries[..i + 1], paths)
            == SizeOf(entries[..i], paths) + if entries[i].path in paths then entries[i].size else 0
  {
    assert entries[..i + 1] == entries[..i] + [entries[i]];
    SumOfConcatenation(entries[..i], [entries[i]], SizeIfIn(paths));
    assert Sum([entries[i]], SizeIfIn(paths)) == SizeIfIn(paths)(entries[i]);
  }

  lemma {:induction false} SizeWithStranger(entries: seq<Entry>, paths: set<string>, path: string)
    requires forall e <- entries :: e.path != path
    ensures SizeOf(entries, paths + {path}) == SizeOf(entries, paths)
  {
    if entries != [] {
      SizeWithStranger(entries[1..], paths, path);
    }
  }

  lemma {:induction false} RemainingTwice(entries: seq<Entry>, deleted: set<string>, path: string)
    ensures Remaining(Remaining(entries, deleted), {path}) == Remaining(entries, deleted + {path})
  {
    if entries != [] {
      RemainingTwice(entries[1..], deleted, path);
      var rest := Remaining(entries[1..], deleted);
      assert ([entries[0]] + rest)[1..] == rest;
      assert [] + rest == rest;
    }
  }

  lemma {:induction false} RemainingWithoutDeletions(entries: seq<Entry>)
    ensures Remaining(entries, {}) == entries
  {
    if entries != [] {
      RemainingWithoutDeletions(entries[1..]);
    }
  }

  // ---------- The listing ----------

  function DifferentPaths(): (Entry, Entry) -> bool {
    (a: Entry, b: Entry) => a.path != b.path
  }

  lemma ListingKeepsDistinct(entries: seq<Entry>)
    requires DistinctPaths(entries)
    ensures DistinctPaths(OldestFilesFirst(entries))
  {
    SortKeepsDiffering(entries, UsedEarlier(), DifferentPaths());
    assert forall i, j :: 0 <= i < j < |OldestFilesFirst(entries)| ==>
      DifferentPaths()(OldestFilesFirst(entries)[i], OldestFilesFirst(entries)[j]);
  }

  // ---------- The loop ----------

  /** The directories under cleanup. No two of its entries share a path. */
  class Disk {
    var entries: seq<Entry>

    constructor (entries: seq<Entry>)
      ensures this.entries == entries
    {
      this.entries := entries;
    }

    method Delete(path: string, refusing: set<string>) returns (ok: bool)
      modifies this
      ensures ok <==> path !in refusing
      ensures entries == if ok then Remaining(old(entries), {path}) else old(entries)
    {
      ok := path !in refusing;
      if ok {
        entries := Remaining(entries, {path});
      }
    }
  }

  // What is decided about the first n entries of the listing.
  ghost predicate DecidedUpTo(sorted: seq<Entry>, n: nat, space: int, refusing: set<string>, deleted: set<string>) {
    && n <= |sorted|
    && DeletesOldestFirst(sorted[..n], space, refusing, deleted)
    && DeletesOnly(sorted[..n], deleted)
  }

  lemma PrefixesOfPrefix(sorted: seq<Entry>, n: nat)
    requires n <= |sorted|
    ensures forall i :: 0 <= i < n ==> sorted[..n][..i] == sorted[..i]
  {
  }

  lemma StrangerIsNotDeleted(sorted: seq<Entry>, n: nat, deleted: set<string>)
    requires n < |sorted| && DistinctPaths(sorted) && DeletesOnly(sorted[..n], deleted)
    ensures sorted[n].path !in deleted
  {
  }

  lemma OneMoreIsSpared(sorted: seq<Entry>, n: nat, space: int, refusing: set<string>, deleted: set<string>)
    requires n < |sorted| && DistinctPaths(sorted)
    requires DecidedUpTo(sorted, n, space, refusing, deleted)
    requires sorted[n].path in refusing || SizeOf(sorted[..n], deleted) >= space
    ensures DecidedUpTo(sorted, n + 1, space, refusing, deleted)
    ensures SizeOf(sorted[..n + 1], deleted) == SizeOf(sorted[..n], deleted)
  {
    SizeOfNext(sorted, n, deleted);
    StrangerIsNotDeleted(sorted, n, deleted);
    PrefixesOfPrefix(sorted, n);
    PrefixesOfPrefix(sorted, n + 1);
    assert forall i :: 0 <= i < n ==> sorted[..n + 1][i] == sorted[..n][i];
  }

  lemma OneMoreIsDeleted(sorted: seq<Entry>, n: nat, space: int, refusing: set<string>, deleted: set<string>)
    requires n < |sorted| && DistinctPaths(sorted)
    requires DecidedUpTo(sorted, n, space, refusing, deleted)
    requires sorted[n].path !in refusing && SizeOf(sorted[..n], deleted) < space
    ensures DecidedUpTo(sorted, n + 1, space, refusing, deleted + {sorted[n].path})
    ensures SizeOf(sorted[..n + 1], deleted + {sorted[n].path}) == SizeOf(sorted[..n], deleted) + sorted[n].size
  {
    SizeOfNext(sorted, n, deleted + {sorted[n].path});
    var path := sorted[n].path;
    forall i | 0 <= i <= n ensures SizeOf(sorted[..i], deleted + {path}) == SizeOf(sorted[..i], deleted) {
      SizeWithStranger(sorted[..i], deleted, path);
    }
    PrefixesOfPrefix(sorted, n);
    PrefixesOfPrefix(sorted, n + 1);
    assert forall i :: 0 <= i < n ==> sorted[..n + 1][i] == sorted[..n][i];
    assert sorted[..n + 1][n] == sorted[n];
    StrangerIsNotDeleted(sorted, n, deleted);
  }

  // Once enough is freed, everything that is left is spared.
  lemma {:induction false} RestIsSpared(sorted: seq<Entry>, n: nat, space: int, refusing: set<string>,
                                        deleted: set<string>)
    requires n <= |sorted| && DistinctPaths(sorted)
    requires DecidedUpTo(sorted, n, space, refusing, deleted)
    requires n < |sorted| ==> SizeOf(sorted[..n], deleted) >= space
    ensures DeletesOldestFirst(sorted, space, refusing, deleted) && DeletesOnly(sorted, deleted)
    decreases |sorted| - n
  {
    if n == |sorted| {
      assert sorted[..n] == sorted;
    } else {
      OneMoreIsSpared(sorted, n, space, refusing, deleted);
      RestIsSpared(sorted, n + 1, space, refusing, deleted);
    }
  }

  // One round of the loop.
  method TryToDelete(disk: Disk, ghost before: seq<Entry>, sorted: seq<Entry>, n: nat, ghost space: int,
                     refusing: set<string>, deletedBefore: set<string>, spaceBefore: int)
    returns (deleted: set<string>, spaceToCleanUp: int)
    requires n < |sorted| && DistinctPaths(sorted) && spaceBefore > 0
    requires DecidedUpTo(sorted, n, space, refusing, deletedBefore)
    requires spaceBefore == space - SizeOf(sorted[..n], deletedBefore)
    requires disk.entries == Remaining(before, deletedBefore)
    modifies disk
    ensures DecidedUpTo(sorted, n + 1, space, refusing, deleted)
    ensures spaceToCleanUp == space - SizeOf(sorted[..n + 1], deleted)
    ensures disk.entries == Remaining(before, deleted)
  {
    deleted, spaceToCleanUp := deletedBefore, spaceBefore;
    var ok := disk.Delete(sorted[n].path, refusing);
    if ok {
      OneMoreIsDeleted(sorted, n, space, refusing, deleted);
      RemainingTwice(before, deleted, sorted[n].path);
      deleted := deleted + {sorted[n].path};
      spaceToCleanUp := spaceToCleanUp - sorted[n].size;
    } else {
      OneMoreIsSpared(sorted, n, space, refusing, deleted);
    }
  }

  method DeleteLeastSignificant(disk: Disk, target: nat, lastCleanupAt: real, refusing: set<string>)
    returns (deleted: set<string>)
    requires DistinctPaths(disk.entries)
    modifies disk
    ensures disk.entries == Remaining(old(disk.entries), deleted)
    ensures IsCleanup(old(disk.entries), target, lastCleanupAt, refusing, deleted)
    ensures DeletesOnly(OldestFilesFirst(old(disk.entries)), deleted)
  {
    ghost var before := disk.entries;
    var sorted := OldestFilesFirst(disk.entries);
    var space := SpaceToCleanUp(disk.entries, target, lastCleanupAt);
    var spaceToCleanUp := space;
    deleted := {};
    ListingKeepsDistinct(before);
    RemainingWithoutDeletions(before);
    var n := 0;
    while n < |sorted| && spaceToCleanUp > 0
      invariant n <= |sorted|
      invariant DecidedUpTo(sorted, n, space, refusing, deleted)
      invariant spaceToCleanUp == space - SizeOf(sorted[..n], deleted)
      invariant disk.entries == Remaining(before, deleted)
    {
      deleted, spaceToCleanUp := TryToDelete(disk, before, sorted, n, space, refusing, deleted, spaceToCleanUp);
      n := n + 1;
    }
    RestIsSpared(sorted, n, space, refusing, deleted);
  }

  // ---------- What one cleanup achieves ----------

  /** An entry that stays although it would not refuse is not older than anything deleted. */
  lemma OldestGoFirst(entries: seq<Entry>, target: nat, lastCleanupAt: real, refusing: set<string>,
                      deleted: set<string>, gone: Entry, left: Entry)
    requires IsCleanup(entries, target, lastCleanupAt, refusing, deleted)
    requires gone in entries && gone.path in deleted
    requires left in entries && left.path !in deleted && left.path !in refusing
    ensures gone.usedAt <= left.usedAt
  {
    var sorted := OldestFilesFirst(entries);
    SortKeepsElements(entries, UsedEarlier());
    SortIsSorted(entries, UsedEarlier());
    var i :| 0 <= i < |sorted| && sorted[i] == gone;
    var j :| 0 <= j < |sorted| && sorted[j] == left;
    if j < i {
      SizeOfPrefixes(sorted, j, i, deleted);
    }
  }

  /** Among entries used at the same time those listed first go first. */
  lemma {:induction false} TiesGoAsListed(entries: seq<Entry>, target: nat, lastCleanupAt: real, refusing: set<string>,
                       deleted: set<string>, first: Entry, second: Entry)
    requires IsCleanup(entries, target, lastCleanupAt, refusing, deleted)
    requires Precedes(entries, first, second) && first.usedAt == second.usedAt
    requires second.path in deleted && first.path !in refusing
    ensures first.path in deleted
  {
    var sorted := OldestFilesFirst(entries);
    SortKeepsOrder(entries, UsedEarlier(), first, second);
    PrecedesByPosition(sorted, first, second);
    var i, j :| 0 <= i < j < |sorted| && sorted[i] == first && sorted[j] == second;
    SizeOfPrefixes(sorted, i, j, deleted);
  }

  /** Just before every deletion, the last one included, the occupied space was above the target. */
  lemma EveryDeletionWasNeeded(entries: seq<Entry>, target: nat, lastCleanupAt: real, refusing: set<string>,
                               deleted: set<string>, i: nat)
    requires IsCleanup(entries, target, lastCleanupAt, refusing, deleted)
    requires i < |OldestFilesFirst(entries)| && OldestFilesFirst(entries)[i].path in deleted
    ensures TotalSize(entries) - SizeOf(OldestFilesFirst(entries)[..i], deleted) > target
    ensures 2 * SizeOf(OldestFilesFirst(entries)[..i], deleted) < 3 * TakenSince(entries, lastCleanupAt)
  {
    SizesAreNatural(OldestFilesFirst(entries)[..i], deleted, lastCleanupAt);
  }

  /** The cleanup frees what it set out to free, or has deleted all that does not refuse. */
  lemma FreesEnough(entries: seq<Entry>, target: nat, lastCleanupAt: real, refusing: set<string>,
                    deleted: set<string>)
    requires IsCleanup(entries, target, lastCleanupAt, refusing, deleted)
    ensures || SizeOf(entries, deleted) >= SpaceToCleanUp(entries, target, lastCleanupAt)
            || forall e <- entries :: e.path in deleted <==> e.path !in refusing
  {
    var sorted := OldestFilesFirst(entries);
    SortKeepsSum(entries, UsedEarlier(), SizeIfIn(deleted));
    SortKeepsElements(entries, UsedEarlier());
    if i :| 0 <= i < |sorted| && sorted[i].path !in refusing && sorted[i].path !in deleted {
      SizeOfPrefix(sorted, i, deleted);
    } else {
      forall e <- entries ensures e.path in deleted <==> e.path !in refusing {
        assert e in sorted;
      }
    }
  }

  /** Without new files nothing is deleted, however far the target is. */
  lemma NothingNewNothingDeleted(entries: seq<Entry>, target: nat, lastCleanupAt: real, refusing: set<string>,
                                 deleted: set<string>)
    requires IsCleanup(entries, target, lastCleanupAt, refusing, deleted)
    requires forall e <- entries :: e.modifiedAt <= lastCleanupAt
    ensures forall e <- entries :: e.path !in deleted
  {
    NothingTaken(entries, lastCleanupAt);
    var sorted := OldestFilesFirst(entries);
    SortKeepsElements(entries, UsedEarlier());
    forall e <- entries ensures e.path !in deleted {
      var i :| 0 <= i < |sorted| && sorted[i] == e;
      SizesAreNatural(sorted[..i], deleted, lastCleanupAt);
    }
  }

  lemma {:induction false} NothingTaken(entries: seq<Entry>, time: real)
    requires forall e <- entries :: e.modifiedAt <= time
    ensures TakenSince(entries, time) == 0
  {
    if entries != [] {
      NothingTaken(entries[1..], time);
    }
  }

  // ---------- Many cleanups ----------

  /**
    What the next cleanup finds, some time after the one at cleanedAt: the whole listing, as much
    of it as refuses to go, and what is deleted of it.
  */
  datatype Period = Period(found: seq<Entry>, cleanedAt: real, refusing: set<string>, deleted: set<string>)

  function After(p: Period): seq<Entry> {
    Remaining(p.found, p.deleted)
  }

  /**
    Whatever was not modified since the last cleanup was left there by it, in the same size. All
    else may happen: files arrive, grow, shrink, are read or deleted by others, and directories
    are touched by what happens in them, the cleanup's own deletions included.
  */
  ghost predicate WereThere(entries: seq<Entry>, found: seq<Entry>, time: real) {
    forall e <- found :: e.modifiedAt <= time ==> HasEntry(entries, e.path, e.size)
  }

  ghost predicate HasEntry(entries: seq<Entry>, path: string, size: nat) {
    exists i :: 0 <= i < |entries| && entries[i].path == path && entries[i].size == size
  }

  ghost predicate IsPeriod(entries: seq<Entry>, p: Period, target: nat) {
    && DistinctPaths(p.found) && WereThere(entries, p.found, p.cleanedAt)
    && IsCleanup(p.found, target, p.cleanedAt, p.refusing, p.deleted)
  }

  /** The size of what was modified since the last cleanup. */
  function Taken(p: Period): int {
    TakenSince(p.found, p.cleanedAt)
  }

  ghost predicate IsHistory(entries: seq<Entry>, periods: seq<Period>, target: nat)
    decreases |periods|
  {
    periods != [] ==> IsPeriod(entries, periods[0], target) && IsHistory(After(periods[0]), periods[1..], target)
  }

  /** What is there after the last of some periods. */
  function Last(entries: seq<Entry>, periods: seq<Period>): seq<Entry> {
    if periods == [] then entries else After(periods[|periods| - 1])
  }

  /** By how much the cleanups outpace the arrivals: half of what was taken, rounded down each time. */
  function Progress(periods: seq<Period>): int {
    if periods == [] then 0 else Taken(periods[0]) / 2 + Progress(periods[1..])
  }

  /** By how much the entries that refuse exceed the target by themselves. */
  function Stuck(entries: seq<Entry>, refusing: set<string>, target: nat): nat {
    if SizeOf(entries, refusing) > target then SizeOf(entries, refusing) - target else 0
  }

  /** The most that was stuck in any period. */
  function MostStuck(periods: seq<Period>, target: nat): nat {
    if periods == [] then 0
    else Max(Stuck(periods[0].found, periods[0].refusing, target), MostStuck(periods[1..], target))
  }

  function Max(a: int, b: int): int {
    if a < b then b else a
  }

  lemma {:induction false} SizeWithoutOne(entries: seq<Entry>, i: nat)
    requires i < |entries|
    ensures TotalSize(entries) == entries[i].size + TotalSize(entries[..i] + entries[i + 1..])
  {
    SumOfConcatenation(entries[..i], [entries[i]] + entries[i + 1..], Size());
    SumOfConcatenation(entries[..i], entries[i + 1..], Size());
    assert entries == entries[..i] + ([entries[i]] + entries[i + 1..]);
    assert ([entries[i]] + entries[i + 1..])[1..] == entries[i + 1..];
  }

  lemma StillThere(entries: seq<Entry>, i: nat, path: string, size: nat)
    requires i < |entries| && entries[i].path != path && HasEntry(entries, path, size)
    ensures HasEntry(entries[..i] + entries[i + 1..], path, size)
  {
    var k :| 0 <= k < |entries| && entries[k].path == path && entries[k].size == size;
    var rest := entries[..i] + entries[i + 1..];
    assert rest[if k < i then k else k - 1] == entries[k];
  }

  /** What is found beyond what was there has been modified. */
  lemma {:induction false} GrowthIsTaken(entries: seq<Entry>, found: seq<Entry>, time: real)
    requires DistinctPaths(found) && WereThere(entries, found, time)
    ensures TotalSize(found) - TotalSize(entries) <= TakenSince(found, time)
    decreases |found|
  {
    if found == [] {
      SizesAreNatural(entries, {}, time);
    } else if found[0].modifiedAt > time {
      GrowthIsTaken(entries, found[1..], time);
    } else {
      var e := found[0];
      assert e in found;
      var i :| 0 <= i < |entries| && entries[i].path == e.path && entries[i].size == e.size;
      var rest := entries[..i] + entries[i + 1..];
      forall f <- found[1..] | f.modifiedAt <= time ensures HasEntry(rest, f.path, f.size) {
        StillThere(entries, i, f.path, f.size);
      }
      GrowthIsTaken(rest, found[1..], time);
      SizeWithoutOne(entries, i);
    }
  }

  // Everything else deleted, exactly what refuses is left.
  lemma {:induction false} OnlyRefusingLeft(entries: seq<Entry>, refusing: set<string>, deleted: set<string>)
    requires forall e <- entries :: e.path in deleted <==> e.path !in refusing
    ensures TotalSize(Remaining(entries, deleted)) == SizeOf(entries, refusing)
  {
    if entries != [] {
      var rest := Remaining(entries[1..], deleted);
      OnlyRefusingLeft(entries[1..], refusing, deleted);
      assert ([entries[0]] + rest)[1..] == rest && [] + rest == rest;
    }
  }

  /** A cleanup lowers the excess by what it set out for, or to what is stuck. */
  lemma ExcessAfterCleanup(entries: seq<Entry>, target: nat, lastCleanupAt: real, refusing: set<string>,
                           deleted: set<string>)
    requires IsCleanup(entries, target, lastCleanupAt, refusing, deleted)
    ensures Excess(Remaining(entries, deleted), target)
            <= Max(Excess(entries, target) - SpaceToCleanUp(entries, target, lastCleanupAt),
                   Stuck(entries, refusing, target))
  {
    FreesEnough(entries, target, lastCleanupAt, refusing, deleted);
    DeletedAndRemaining(entries, deleted);
    if SizeOf(entries, deleted) < SpaceToCleanUp(entries, target, lastCleanupAt) {
      OnlyRefusingLeft(entries, refusing, deleted);
    }
  }

  /**
    One period: the excess changes by the growth less one and a half of what was taken, so it
    falls by half of that, rounded down; or it falls to what is stuck.
  */
  lemma ExcessAfterPeriod(entries: seq<Entry>, p: Period, target: nat)
    requires IsPeriod(entries, p, target)
    ensures var growth := TotalSize(p.found) - TotalSize(entries);
            && growth <= Taken(p)
            && Excess(After(p), target)
               <= Max(Excess(entries, target) + growth - 3 * Taken(p) / 2, Stuck(p.found, p.refusing, target))
    ensures Excess(After(p), target)
            <= Max(Excess(entries, target) - Taken(p) / 2, Stuck(p.found, p.refusing, target))
  {
    GrowthIsTaken(entries, p.found, p.cleanedAt);
    ExcessAfterCleanup(p.found, target, p.cleanedAt, p.refusing, p.deleted);
    SizesAreNatural(p.found, {}, p.cleanedAt);
  }

  lemma {:induction false} ProgressIsNatural(periods: seq<Period>)
    ensures Progress(periods) >= 0
  {
    if periods != [] {
      SizesAreNatural(periods[0].found, {}, periods[0].cleanedAt);
      ProgressIsNatural(periods[1..]);
    }
  }

  /**
    The excess left after any history of cleanups, whatever refused in each, is at most the
    initial one less the progress, or what was stuck at most. Once the progress has made up for
    the initial excess, only what is stuck keeps the target from being met.
  */
  lemma {:induction false} CleanupConverges(entries: seq<Entry>, periods: seq<Period>, target: nat)
    requires IsHistory(entries, periods, target)
    ensures Excess(Last(entries, periods), target)
            <= Max(Excess(entries, target) - Progress(periods), MostStuck(periods, target))
    decreases |periods|
  {
    if periods != [] {
      ExcessAfterPeriod(entries, periods[0], target);
      CleanupConverges(After(periods[0]), periods[1..], target);
      ProgressIsNatural(periods[1..]);
      SizesAreNatural(periods[0].found, {}, periods[0].cleanedAt);
    }
  }

  /**
    With at least two bytes taken in every period, after as many periods as excess bytes only
    what was stuck is above the target; it is reached if what refuses has always fitted it.
  */
  lemma {:induction false} TargetIsReached(entries: seq<Entry>, periods: seq<Period>, target: nat)
    requires IsHistory(entries, periods, target)
    requires forall p <- periods :: Taken(p) >= 2
    requires |periods| >= Excess(entries, target)
    ensures TotalSize(Last(entries, periods)) <= target + MostStuck(periods, target)
  {
    CleanupConverges(entries, periods, target);
    ProgressPerPeriod(periods);
  }

  lemma {:induction false} ProgressPerPeriod(periods: seq<Period>)
    requires forall p <- periods :: Taken(p) >= 2
    ensures Progress(periods) >= |periods|
  {
    if periods != [] {
      ProgressPerPeriod(periods[1..]);
    }
  }
}
