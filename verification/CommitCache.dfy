/**
  Commits cached by SHA and its prefixes (infrastructure/gitlab.py, _CommitCache, and
  GitlabProject.get_commit and get_many_sha over it).
*/
module CommitCache {
  import opened Wrappers

  /** data stands for all that is known about the commit. */
  datatype Commit = Commit(sha: string, data: nat)
  type Store = map<string, Commit>

  function LowerChar(c: char): char {
    if 'A' <= c <= 'Z' then c - 'A' + 'a' else c
  }

  function Lower(s: string): string {
    seq(|s|, i requires 0 <= i < |s| => LowerChar(s[i]))
  }

  /** Two strings that differ in the case of letters only. */
  predicate SameButCase(a: string, b: string) {
    |a| == |b| && forall i :: 0 <= i < |a| ==> a[i] == b[i] || IsCaseOf(a[i], b[i]) || IsCaseOf(b[i], a[i])
  }

  predicate IsCaseOf(upper: char, lower: char) {
    'A' <= upper <= 'Z' && lower as int == upper as int + 32
  }

  /** Lower case is the same string but for case, has no capitals, and is the same for exactly such strings. */
  lemma LowerIgnoresCase(a: string, b: string)
    ensures SameButCase(Lower(a), a)
    ensures forall i :: 0 <= i < |a| ==> !('A' <= Lower(a)[i] <= 'Z')
    ensures Lower(a) == Lower(b) <==> SameButCase(a, b)
  {
    if SameButCase(a, b) {
      forall i | 0 <= i < |a| ensures Lower(a)[i] == Lower(b)[i] {
      }
    } else if Lower(a) == Lower(b) {
      assert |Lower(a)| == |Lower(b)|;
      forall i | 0 <= i < |a| ensures a[i] == b[i] || IsCaseOf(a[i], b[i]) || IsCaseOf(b[i], a[i]) {
        assert Lower(a)[i] == Lower(b)[i];
      }
    }
  }

  /** The keys a commit is stored under: its whole SHA, and the prefixes of eight characters or more. */
  predicate IsKeyOf(key: string, commit: Commit) {
    key == Lower(commit.sha) || (|key| >= 8 && key <= Lower(commit.sha))
  }

  /** After adding a commit: its keys lead to it, and all others to where they did before. */
  ghost predicate IsAdded(after: Store, before: Store, commit: Commit) {
    forall key :: Lookup(after, key) == if IsKeyOf(key, commit) then Some(commit) else Lookup(before, key)
  }

  function Lookup(store: Store, key: string): Option<Commit> {
    if key in store then Some(store[key]) else None
  }

  // ---------- The loop of add() ----------

  // The keys written by the time the next one to write has this length.
  predicate IsStored(key: string, commit: Commit, length: nat) {
    IsKeyOf(key, commit) && (|key| > length || key == Lower(commit.sha))
  }

  ghost predicate IsAddedInPart(after: Store, before: Store, commit: Commit, length: nat) {
    forall key :: Lookup(after, key) == if IsStored(key, commit, length) then Some(commit) else Lookup(before, key)
  }

  lemma FirstIsStored(before: Store, commit: Commit)
    ensures var n := |Lower(commit.sha)|;
            IsAddedInPart(before[Lower(commit.sha) := commit], before, commit, if n == 0 then 0 else n - 1)
  {
  }

  lemma NextIsStored(after: Store, before: Store, commit: Commit, n: nat)
    requires 8 <= n <= |Lower(commit.sha)| && IsAddedInPart(after, before, commit, n)
    ensures IsAddedInPart(after[Lower(commit.sha)[..n] := commit], before, commit, n - 1)
  {
    var written := Lower(commit.sha)[..n];
    var next := after[written := commit];
    forall key ensures Lookup(next, key) == if IsStored(key, commit, n - 1) then Some(commit) else Lookup(before, key)
    {
      assert key <= Lower(commit.sha) && |key| == n ==> key == written;
      assert written <= Lower(commit.sha);
      assert IsStored(key, commit, n - 1) <==> IsStored(key, commit, n) || key == written;
      assert Lookup(after, key) == if IsStored(key, commit, n) then Some(commit) else Lookup(before, key);
    }
    assert IsAddedInPart(next, before, commit, n - 1);
  }

  lemma AllAreStored(after: Store, before: Store, commit: Commit, n: nat)
    requires n < 8 && IsAddedInPart(after, before, commit, n)
    ensures IsAdded(after, before, commit)
  {
    forall key ensures IsStored(key, commit, n) <==> IsKeyOf(key, commit) {
    }
  }

  /** The last of the added commits that has this key. */
  function LastAdded(adds: seq<Commit>, key: string): Option<Commit> {
    if adds == [] then None
    else if IsKeyOf(key, adds[|adds| - 1]) then Some(adds[|adds| - 1])
    else LastAdded(adds[..|adds| - 1], key)
  }

  /** What a store holds after adding these commits in this order. */
  ghost predicate Represents(store: Store, adds: seq<Commit>) {
    forall key :: Lookup(store, key) == LastAdded(adds, key)
  }

  lemma AddedIsLast(after: Store, before: Store, adds: seq<Commit>, commit: Commit)
    requires Represents(before, adds) && IsAdded(after, before, commit)
    ensures Represents(after, adds + [commit])
  {
    forall key ensures Lookup(after, key) == LastAdded(adds + [commit], key) {
      assert (adds + [commit])[..|adds|] == adds;
    }
  }

  class Cache {
    var store: Store

    constructor ()
      ensures store == map[]
    {
      store := map[];
    }

    method Add(commit: Commit)
      modifies this
      ensures IsAdded(store, old(store), commit)
    {
      ghost var before := store;
      var sha := Lower(commit.sha);
      store := store[sha := commit];
      FirstIsStored(before, commit);
      sha := Shorter(sha);
      while |sha| >= 8
        invariant |sha| <= |Lower(commit.sha)| && sha == Lower(commit.sha)[..|sha|]
        invariant IsAddedInPart(store, before, commit, |sha|)
      {
        NextIsStored(store, before, commit, |sha|);
        store := store[sha := commit];
        sha := Shorter(sha);
      }
      AllAreStored(store, before, commit, |sha|);
    }

    method Get(sha: string) returns (commit: Option<Commit>)
      ensures commit == Lookup(store, Lower(sha))
    {
      var key := Lower(sha);
      commit := if key in store then Some(store[key]) else None;
    }
  }

  // sha[:-1]
  function Shorter(sha: string): string {
    if sha == [] then [] else sha[..|sha| - 1]
  }

  // ---------- What a lookup finds ----------

  /** The i-th added commit has the key, and no later one has. */
  ghost predicate IsLatestWith(adds: seq<Commit>, key: string, i: nat) {
    i < |adds| && IsKeyOf(key, adds[i]) && forall j :: i < j < |adds| ==> !IsKeyOf(key, adds[j])
  }

  /** A lookup hits exactly when some added commit has the key, and finds the latest of these. */
  lemma {:induction false} HitIsLatest(adds: seq<Commit>, key: string)
    ensures LastAdded(adds, key).None? <==> forall c <- adds :: !IsKeyOf(key, c)
    ensures LastAdded(adds, key).Some? ==>
              exists i :: 0 <= i < |adds| && IsLatestWith(adds, key, i) && LastAdded(adds, key) == Some(adds[i])
  {
    if adds != [] {
      var n := |adds| - 1;
      HitIsLatest(adds[..n], key);
      assert adds == adds[..n] + [adds[n]];
      if IsKeyOf(key, adds[n]) {
        assert IsLatestWith(adds, key, n);
      } else if LastAdded(adds[..n], key).Some? {
        var i :| 0 <= i < n && IsLatestWith(adds[..n], key, i) && LastAdded(adds[..n], key) == Some(adds[..n][i]);
        assert IsLatestWith(adds, key, i);
      }
    }
  }

  /** Every prefix of an added SHA of at least eight characters hits, in any case of letters. */
  lemma {:induction false} PrefixesHit(adds: seq<Commit>, commit: Commit, prefix: string)
    requires commit in adds
    requires Lower(prefix) <= Lower(commit.sha) && (|prefix| >= 8 || |prefix| == |commit.sha|)
    ensures LastAdded(adds, Lower(prefix)).Some?
  {
    HitIsLatest(adds, Lower(prefix));
  }

  /** Nothing else hits: neither a shorter prefix, nor what is no prefix. */
  lemma {:induction false} OnlyPrefixesHit(adds: seq<Commit>, key: string)
    requires LastAdded(adds, key).Some?
    ensures var c := LastAdded(adds, key).value;
            c in adds && (key == Lower(c.sha) || (|key| >= 8 && key <= Lower(c.sha)))
  {
    HitIsLatest(adds, key);
  }

  // ---------- The project ----------

  /**
    What the server promises: it only knows its own commits, and a reference that is the SHA or a
    long enough prefix of exactly one of them leads to that commit.
  */
  ghost predicate IsServer(commits: set<Commit>, resolve: string -> Option<Commit>) {
    && (forall ref :: resolve(ref).Some? ==> resolve(ref).value in commits)
    && (forall ref, c <- commits ::
          IsKeyOf(Lower(ref), c) && IsUnambiguous(commits, ref) ==> resolve(ref) == Some(c))
  }

  /** At most one commit of the server has the reference as its SHA or prefix. */
  ghost predicate IsUnambiguous(commits: set<Commit>, ref: string) {
    forall c <- commits, d <- commits :: IsKeyOf(Lower(ref), c) && IsKeyOf(Lower(ref), d) ==> c == d
  }

  /** What get_commit answers after these commits were added, and the history after that. */
  function Answer(adds: seq<Commit>, resolve: string -> Option<Commit>, ref: string): Option<Commit> {
    var cached := LastAdded(adds, Lower(ref));
    if cached.Some? then cached else resolve(ref)
  }

  function AddsAfter(adds: seq<Commit>, resolve: string -> Option<Commit>, ref: string): seq<Commit> {
    if LastAdded(adds, Lower(ref)).None? && resolve(ref).Some? then adds + [resolve(ref).value] else adds
  }

  /** A hit is answered and changes nothing; otherwise the server answers, and its commit is added. */
  ghost predicate IsAnswered(answer: Option<Commit>, after: Store, before: Store, resolve: string -> Option<Commit>, ref: string) {
    if Lower(ref) in before then answer == Some(before[Lower(ref)]) && after == before
    else answer == resolve(ref) && if answer.None? then after == before else IsAdded(after, before, answer.value)
  }

  method GetCommit(cache: Cache, ghost adds: seq<Commit>, resolve: string -> Option<Commit>, ref: string)
    returns (commit: Option<Commit>)
    requires Represents(cache.store, adds)
    modifies cache
    ensures IsAnswered(commit, cache.store, old(cache.store), resolve, ref)
    ensures commit == Answer(adds, resolve, ref)
    ensures Represents(cache.store, AddsAfter(adds, resolve, ref))
  {
    ghost var before := cache.store;
    commit := cache.Get(ref);
    assert commit == LastAdded(adds, Lower(ref));
    if commit.Some? {
      return;
    }
    commit := resolve(ref);
    if commit.Some? {
      cache.Add(commit.value);
      AddedIsLast(cache.store, before, adds, commit.value);
    }
  }

  ghost predicate AreCommitsOf(adds: seq<Commit>, commits: set<Commit>) {
    forall c <- adds :: c in commits
  }

  /** Only commits of the server are ever cached. */
  lemma AddsStayOfServer(adds: seq<Commit>, commits: set<Commit>, resolve: string -> Option<Commit>, ref: string)
    requires IsServer(commits, resolve) && AreCommitsOf(adds, commits)
    ensures AreCommitsOf(AddsAfter(adds, resolve, ref), commits)
    ensures Answer(adds, resolve, ref).Some? ==> Answer(adds, resolve, ref).value in commits
  {
    HitIsLatest(adds, Lower(ref));
  }

  /** For an unambiguous reference the cache makes no difference, whatever was cached before. */
  lemma CachedIsResolved(adds: seq<Commit>, commits: set<Commit>, resolve: string -> Option<Commit>, ref: string)
    requires IsServer(commits, resolve) && AreCommitsOf(adds, commits)
    requires IsUnambiguous(commits, ref)
    ensures Answer(adds, resolve, ref) == resolve(ref)
  {
    HitIsLatest(adds, Lower(ref));
  }

  /** For any other reference it does: some commit, once cached, is answered against the server. */
  lemma AmbiguousIsNotResolved(commits: set<Commit>, resolve: string -> Option<Commit>, ref: string)
    returns (cached: Commit)
    requires !IsUnambiguous(commits, ref)
    ensures cached in commits && Answer([cached], resolve, ref) == Some(cached) != resolve(ref)
  {
    var c, d :| c in commits && d in commits && IsKeyOf(Lower(ref), c) && IsKeyOf(Lower(ref), d) && c != d;
    cached := if resolve(ref) == Some(c) then d else c;
    assert LastAdded([cached], Lower(ref)) == Some(cached);
  }

  /**
    Two commits that share eight characters. Once both were asked for by their whole SHAs, the
    prefix leads to the second, though the server refuses it.
  */
  lemma AmbiguousExample(resolve: string -> Option<Commit>)
    requires resolve("abcdefab1") == Some(Commit("abcdefab1", 1))
    requires resolve("abcdefab2") == Some(Commit("abcdefab2", 2))
    requires resolve("abcdefab") == None
    ensures var adds := AddsAfter(AddsAfter([], resolve, "abcdefab1"), resolve, "abcdefab2");
            Answer(adds, resolve, "abcdefab") == Some(Commit("abcdefab2", 2))
  {
    var first, second := Commit("abcdefab1", 1), Commit("abcdefab2", 2);
    assert Lower("abcdefab1") == "abcdefab1" && Lower("abcdefab2") == "abcdefab2" && Lower("abcdefab") == "abcdefab";
    assert "abcdefab1"[8] != "abcdefab2"[8];
    assert "abcdefab" <= "abcdefab2";
    assert AddsAfter([], resolve, "abcdefab1") == [first];
    assert LastAdded([first], "abcdefab2") == None;
    assert AddsAfter([first], resolve, "abcdefab2") == [first, second];
  }

  // ---------- Many references ----------

  /** The history after the first n references, and the answer to each of them. */
  function AddsAfterAll(adds: seq<Commit>, resolve: string -> Option<Commit>, refs: seq<string>): seq<Commit> {
    if refs == [] then adds
    else AddsAfter(AddsAfterAll(adds, resolve, refs[..|refs| - 1]), resolve, refs[|refs| - 1])
  }

  function Answers(adds: seq<Commit>, resolve: string -> Option<Commit>, refs: seq<string>): (r: seq<Option<Commit>>)
    ensures |r| == |refs|
  {
    if refs == [] then []
    else
      var before := refs[..|refs| - 1];
      Answers(adds, resolve, before) + [Answer(AddsAfterAll(adds, resolve, before), resolve, refs[|refs| - 1])]
  }

  datatype ManySha = Found(shas: set<string>) | NotFound(refs: set<string>)

  /** What get_many_sha promises: the SHAs of all the references, or the references that lead nowhere. */
  ghost predicate AreShasOf(answer: ManySha, refs: seq<string>, answers: seq<Option<Commit>>)
    requires |answers| == |refs|
  {
    match answer
    case Found(shas) =>
      && (forall i :: 0 <= i < |refs| ==> answers[i].Some? && answers[i].value.sha in shas)
      && (forall sha <- shas :: HasSha(answers, sha))
    case NotFound(missing) =>
      missing != {} && forall ref :: ref in missing <==> IsMissing(refs, answers, ref)
  }

  ghost predicate HasSha(answers: seq<Option<Commit>>, sha: string) {
    exists i :: 0 <= i < |answers| && answers[i].Some? && answers[i].value.sha == sha
  }

  ghost predicate IsMissing(refs: seq<string>, answers: seq<Option<Commit>>, ref: string)
    requires |answers| == |refs|
  {
    exists i :: 0 <= i < |refs| && refs[i] == ref && answers[i].None?
  }

  /** The two sets of get_many_sha once these references were answered so. */
  ghost predicate AreSorted(shas: set<string>, missing: set<string>, refs: seq<string>, answers: seq<Option<Commit>>)
    requires |answers| == |refs|
  {
    && (forall i :: 0 <= i < |refs| ==> answers[i].Some? ==> answers[i].value.sha in shas)
    && (forall sha <- shas :: HasSha(answers, sha))
    && (forall ref :: ref in missing <==> IsMissing(refs, answers, ref))
  }

  lemma OneMoreSorted(shas: set<string>, missing: set<string>, refs: seq<string>, answers: seq<Option<Commit>>,
                      ref: string, answer: Option<Commit>)
    requires |answers| == |refs| && AreSorted(shas, missing, refs, answers)
    ensures AreSorted(if answer.Some? then shas + {answer.value.sha} else shas,
                      if answer.None? then missing + {ref} else missing, refs + [ref], answers + [answer])
  {
    forall sha | HasSha(answers, sha) ensures HasSha(answers + [answer], sha) {
      var i :| 0 <= i < |answers| && answers[i].Some? && answers[i].value.sha == sha;
      assert (answers + [answer])[i] == answers[i];
    }
    assert (answers + [answer])[|refs|] == answer;
    forall r ensures IsMissing(refs + [ref], answers + [answer], r)
                     <==> IsMissing(refs, answers, r) || (r == ref && answer.None?)
    {
      if IsMissing(refs, answers, r) {
        var i :| 0 <= i < |refs| && refs[i] == r && answers[i].None?;
        assert (refs + [ref])[i] == r && (answers + [answer])[i].None?;
      }
      assert (refs + [ref])[|refs|] == ref;
    }
  }

  lemma SortedIsAnswer(shas: set<string>, missing: set<string>, refs: seq<string>, answers: seq<Option<Commit>>)
    requires |answers| == |refs| && AreSorted(shas, missing, refs, answers)
    ensures AreShasOf(if missing != {} then NotFound(missing) else Found(shas), refs, answers)
  {
    if missing == {} {
      forall i | 0 <= i < |refs| ensures answers[i].Some? {
        assert !IsMissing(refs, answers, refs[i]);
      }
    }
  }

  lemma {:induction false} OneMoreAnswer(adds: seq<Commit>, resolve: string -> Option<Commit>, refs: seq<string>, i: nat)
    requires i < |refs|
    ensures var before := AddsAfterAll(adds, resolve, refs[..i]);
            && refs[..i + 1] == refs[..i] + [refs[i]]
            && AddsAfterAll(adds, resolve, refs[..i + 1]) == AddsAfter(before, resolve, refs[i])
            && Answers(adds, resolve, refs[..i + 1]) == Answers(adds, resolve, refs[..i]) + [Answer(before, resolve, refs[i])]
  {
    assert refs[..i + 1][..i] == refs[..i];
  }

  method GetManySha(cache: Cache, ghost adds: seq<Commit>, resolve: string -> Option<Commit>, refs: seq<string>)
    returns (answer: ManySha)
    requires Represents(cache.store, adds)
    modifies cache
    ensures Represents(cache.store, AddsAfterAll(adds, resolve, refs))
    ensures AreShasOf(answer, refs, Answers(adds, resolve, refs))
  {
    var shas, missing := {}, {};
    var i := 0;
    while i < |refs|
      invariant i <= |refs|
      invariant Represents(cache.store, AddsAfterAll(adds, resolve, refs[..i]))
      invariant AreSorted(shas, missing, refs[..i], Answers(adds, resolve, refs[..i]))
    {
      var commit := GetCommit(cache, AddsAfterAll(adds, resolve, refs[..i]), resolve, refs[i]);
      OneMoreSorted(shas, missing, refs[..i], Answers(adds, resolve, refs[..i]), refs[i], commit);
      OneMoreAnswer(adds, resolve, refs, i);
      if commit.Some? {
        shas := shas + {commit.value.sha};
      } else {
        missing := missing + {refs[i]};
      }
      i := i + 1;
    }
    assert refs[..i] == refs;
    SortedIsAnswer(shas, missing, refs, Answers(adds, resolve, refs));
    answer := if missing != {} then NotFound(missing) else Found(shas);
  }

  /** The answer to an unambiguous reference does not depend on the cache or on the other references. */
  lemma {:induction false} AnswersAreResolved(adds: seq<Commit>, commits: set<Commit>,
                                              resolve: string -> Option<Commit>, refs: seq<string>)
    requires IsServer(commits, resolve) && AreCommitsOf(adds, commits)
    ensures AreCommitsOf(AddsAfterAll(adds, resolve, refs), commits)
    ensures forall i :: 0 <= i < |refs| && IsUnambiguous(commits, refs[i]) ==>
              Answers(adds, resolve, refs)[i] == resolve(refs[i])
    decreases |refs|
  {
    if refs != [] {
      var n := |refs| - 1;
      AnswersAreResolved(adds, commits, resolve, refs[..n]);
      AddsStayOfServer(AddsAfterAll(adds, resolve, refs[..n]), commits, resolve, refs[n]);
      if IsUnambiguous(commits, refs[n]) {
        CachedIsResolved(AddsAfterAll(adds, resolve, refs[..n]), commits, resolve, refs[n]);
      }
    }
  }

  // ---------- Exactly when the cache makes no difference ----------

  /** The SHAs are whole: all of one length, and each names one commit. */
  ghost predicate AreWholeShas(commits: set<Commit>) {
    forall c <- commits, d <- commits :: |c.sha| == |d.sha| && (Lower(c.sha) == Lower(d.sha) ==> c == d)
  }

  lemma WholeShaIsUnambiguous(commits: set<Commit>, c: Commit)
    requires AreWholeShas(commits) && c in commits
    ensures IsUnambiguous(commits, c.sha)
  {
    forall d <- commits | IsKeyOf(Lower(c.sha), d) ensures d == c {
      assert Lower(c.sha) == Lower(d.sha)[..|c.sha|] == Lower(d.sha);
    }
  }

  /** A single lookup by its SHA brings a commit, and nothing else, into a new cache. */
  lemma {:induction false} LookupCaches(commits: set<Commit>, resolve: string -> Option<Commit>, c: Commit)
    requires IsServer(commits, resolve) && AreWholeShas(commits) && c in commits
    ensures AddsAfterAll([], resolve, [c.sha]) == [c]
  {
    WholeShaIsUnambiguous(commits, c);
    assert IsKeyOf(Lower(c.sha), c);
    assert [c.sha][..0] == [];
  }

  /** After any lookups from a new cache on, this reference is answered as the server does. */
  ghost predicate CacheIsTransparent(resolve: string -> Option<Commit>, ref: string) {
    forall refs: seq<string> :: Answer(AddsAfterAll([], resolve, refs), resolve, ref) == resolve(ref)
  }

  /** The cached and the uncached get_commit agree exactly on the unambiguous references. */
  lemma {:induction false} TransparentExactlyIfUnambiguous(commits: set<Commit>, resolve: string -> Option<Commit>,
                                                           ref: string)
    requires IsServer(commits, resolve) && AreWholeShas(commits)
    ensures CacheIsTransparent(resolve, ref) <==> IsUnambiguous(commits, ref)
  {
    if IsUnambiguous(commits, ref) {
      forall refs: seq<string> ensures Answer(AddsAfterAll([], resolve, refs), resolve, ref) == resolve(ref) {
        AnswersAreResolved([], commits, resolve, refs);
        CachedIsResolved(AddsAfterAll([], resolve, refs), commits, resolve, ref);
      }
    } else {
      var cached := AmbiguousIsNotResolved(commits, resolve, ref);
      LookupCaches(commits, resolve, cached);
    }
  }
}
