/** Bytes, and where one sequence occurs in another. */
module ByteStrings {
  newtype Byte = b: int | 0 <= b < 256
  type Bytes = seq<Byte>

  predicate OccursAt<T(==)>(part: seq<T>, s: seq<T>, i: nat) {
    i + |part| <= |s| && s[i..i + |part|] == part
  }

  /** i is the first place where part occurs in s, or the length of s. */
  predicate IsFirst<T(==)>(s: seq<T>, part: seq<T>, i: nat) {
    && i <= |s|
    && (i < |s| ==> OccursAt(part, s, i))
    && forall j :: 0 <= j < i ==> !OccursAt(part, s, j)
  }

  lemma FirstExists<T>(s: seq<T>, part: seq<T>)
    ensures exists i: nat :: i <= |s| && IsFirst(s, part, i)
  {
    var i := 0;
    while i < |s| && !OccursAt(part, s, i)
      invariant i <= |s|
      invariant forall j :: 0 <= j < i ==> !OccursAt(part, s, j)
    {
      i := i + 1;
    }
    assert IsFirst(s, part, i);
  }

  function Find<T(==)>(s: seq<T>, part: seq<T>): (i: nat)
    ensures IsFirst(s, part, i)
  {
    FirstExists(s, part);
    var i: nat :| i <= |s| && IsFirst(s, part, i);
    i
  }

  /** part in s, for a part that is not empty. */
  predicate Contains<T(==)>(s: seq<T>, part: seq<T>) {
    Find(s, part) < |s|
  }

  lemma ContainsExactlyIfOccurs<T>(s: seq<T>, part: seq<T>)
    requires part != []
    ensures Contains(s, part) <==> exists i :: 0 <= i < |s| && OccursAt(part, s, i)
  {
    var i := Find(s, part);
    if i < |s| {
      assert OccursAt(part, s, i);
    }
  }
}
