/**
  Listing a directory tree with a stack (directories/_directories.py, list_entries): it agrees
  with the recursive listing, which in turn yields every path that exists exactly once.
*/
module Directories {

  /** What os.stat() says of an entry; Special stands for links, sockets and the like. */
  datatype Node =
    | Directory(name: string, entries: seq<Node>)
    | File(name: string)
    | Special(name: string)

  type Path = seq<string>

  datatype Entry = Entry(path: Path, isDirectory: bool)

  /** A directory waits on the stack to be scanned. */
  datatype Pending = Pending(path: Path, entries: seq<Node>)

  // What one entry of a directory adds to the result and to the stack.
  function Yielded(path: Path, node: Node): seq<Entry> {
    if node.Special? then [] else [Entry(path + [node.name], node.Directory?)]
  }

  function Pushed(path: Path, node: Node): seq<Pending> {
    if node.Directory? then [Pending(path + [node.name], node.entries)] else []
  }

  /** The recursive listing: each directory before what it holds. */
  function Below(path: Path, entries: seq<Node>): seq<Entry>
    decreases entries
  {
    if entries == [] then []
    else Yielded(path, entries[0]) + Inside(path, entries[0]) + Below(path, entries[1..])
  }

  function Inside(path: Path, node: Node): seq<Entry>
    decreases node
  {
    if node.Directory? then Below(path + [node.name], node.entries) else []
  }

  // ---------- The loop ----------

  function AllBelow(stack: seq<Pending>): multiset<Entry> {
    if stack == [] then multiset{}
    else AllBelow(stack[..|stack| - 1]) + multiset(Below(stack[|stack| - 1].path, stack[|stack| - 1].entries))
  }

  /** The number of directories and entries still to be looked at. */
  function Size(entries: seq<Node>): nat
    decreases entries
  {
    if entries == [] then 0 else 1 + SizeInside(entries[0]) + Size(entries[1..])
  }

  function SizeInside(node: Node): nat
    decreases node
  {
    if node.Directory? then Size(node.entries) else 0
  }

  function TotalSize(stack: seq<Pending>): nat {
    if stack == [] then 0 else TotalSize(stack[..|stack| - 1]) + 1 + Size(stack[|stack| - 1].entries)
  }

  lemma {:induction false} PushKeepsAccount(stack: seq<Pending>, path: Path, node: Node)
    ensures AllBelow(stack + Pushed(path, node)) == AllBelow(stack) + multiset(Inside(path, node))
    ensures TotalSize(stack + Pushed(path, node)) <= TotalSize(stack) + 1 + SizeInside(node)
  {
    if node.Directory? {
      assert (stack + Pushed(path, node))[..|stack|] == stack;
    } else {
      assert stack + Pushed(path, node) == stack;
    }
  }

  /**
    The account of one scandir(): what was yielded so far, what the stack will still yield, and
    the entries not looked at yet make up the whole.
  */
  ghost predicate Accounts(stack: seq<Pending>, result: seq<Entry>, path: Path, entries: seq<Node>,
                           whole: multiset<Entry>, size: nat)
  {
    && multiset(result) + AllBelow(stack) + multiset(Below(path, entries)) == whole
    && TotalSize(stack) + Size(entries) <= size
  }

  lemma Regroup(result: multiset<Entry>, stack: multiset<Entry>, yielded: multiset<Entry>, inside: multiset<Entry>,
                rest: multiset<Entry>)
    ensures (result + yielded) + (stack + inside) + rest == result + stack + (yielded + inside + rest)
  {
  }

  lemma ScanKeepsAccount(stack: seq<Pending>, result: seq<Entry>, path: Path, entries: seq<Node>,
                         whole: multiset<Entry>, size: nat)
    requires entries != [] && Accounts(stack, result, path, entries, whole, size)
    ensures Accounts(stack + Pushed(path, entries[0]), result + Yielded(path, entries[0]), path, entries[1..], whole, size)
  {
    PushKeepsAccount(stack, path, entries[0]);
    Regroup(multiset(result), AllBelow(stack), multiset(Yielded(path, entries[0])), multiset(Inside(path, entries[0])),
            multiset(Below(path, entries[1..])));
  }

  // The inner loop, over one scandir().
  method Scan(ghost whole: multiset<Entry>, ghost size: nat, path: Path, entries: seq<Node>,
              stackBefore: seq<Pending>, resultBefore: seq<Entry>)
    returns (stack: seq<Pending>, result: seq<Entry>)
    requires Accounts(stackBefore, resultBefore, path, entries, whole, size)
    ensures Accounts(stack, result, path, [], whole, size)
  {
    stack, result := stackBefore, resultBefore;
    var i := 0;
    assert entries[0..] == entries;
    while i < |entries|
      invariant i <= |entries|
      invariant Accounts(stack, result, path, entries[i..], whole, size)
    {
      ScanKeepsAccount(stack, result, path, entries[i..], whole, size);
      assert entries[i..][1..] == entries[i + 1..];
      stack := stack + Pushed(path, entries[i]);
      result := result + Yielded(path, entries[i]);
      i := i + 1;
    }
  }

  // ---------- Each exactly once ----------

  /** No two entries of a directory share a name, at any depth. */
  predicate WellNamed(entries: seq<Node>)
    decreases entries
  {
    entries == [] ||
    ((forall other <- entries[1..] :: other.name != entries[0].name)
     && WellNamedInside(entries[0]) && WellNamed(entries[1..]))
  }

  predicate WellNamedInside(node: Node)
    decreases node
  {
    node.Directory? ==> WellNamed(node.entries)
  }

  /** Whether following the path from these entries ends at a directory, or at a regular file. */
  predicate Leads(entries: seq<Node>, path: Path, toDirectory: bool)
    decreases |path|, |entries|
  {
    path != [] && entries != [] &&
    if entries[0].name != path[0] then Leads(entries[1..], path, toDirectory)
    else if |path| == 1 then (if toDirectory then entries[0].Directory? else entries[0].File?)
    else entries[0].Directory? && Leads(entries[0].entries, path[1..], toDirectory)
  }

  predicate Exists(root: Path, entries: seq<Node>, e: Entry) {
    root <= e.path && Leads(entries, e.path[|root|..], e.isDirectory)
  }

  lemma {:induction false} NoSuchName(entries: seq<Node>, path: Path, toDirectory: bool)
    requires path != [] && forall node <- entries :: node.name != path[0]
    ensures !Leads(entries, path, toDirectory)
    decreases |entries|
  {
    if entries != [] {
      NoSuchName(entries[1..], path, toDirectory);
    }
  }

  /**
    Every directory and regular file below the root is listed exactly once, by its path, and
    nothing else is listed.
  */
  lemma {:induction false} ListedExactlyOnce(root: Path, entries: seq<Node>, e: Entry)
    requires WellNamed(entries)
    ensures multiset(Below(root, entries))[e] == if Exists(root, entries, e) then 1 else 0
    decreases entries
  {
    if entries != [] {
      var node := entries[0];
      ListedExactlyOnce(root, entries[1..], e);
      InsideExactlyOnce(root, node, e);
      FirstOrOthers(root, entries, e);
    }
  }

  // What the first entry of a directory accounts for, as itself and as a directory.
  predicate IsItself(root: Path, node: Node, e: Entry) {
    e.path == root + [node.name] && !node.Special? && e.isDirectory == node.Directory?
  }

  predicate IsInside(root: Path, node: Node, e: Entry) {
    node.Directory? && Exists(root + [node.name], node.entries, e)
  }

  lemma {:induction false} InsideExactlyOnce(root: Path, node: Node, e: Entry)
    requires WellNamedInside(node)
    ensures multiset(Yielded(root, node))[e] == if IsItself(root, node, e) then 1 else 0
    ensures multiset(Inside(root, node))[e] == if IsInside(root, node, e) then 1 else 0
    decreases node
  {
    if node.Directory? {
      ListedExactlyOnce(root + [node.name], node.entries, e);
    }
  }

  lemma {:induction false} FirstOrOthers(root: Path, entries: seq<Node>, e: Entry)
    requires entries != [] && WellNamed(entries)
    ensures Exists(root, entries, e) <==>
              IsItself(root, entries[0], e) || IsInside(root, entries[0], e) || Exists(root, entries[1..], e)
    ensures !(IsItself(root, entries[0], e) && IsInside(root, entries[0], e))
    ensures Exists(root, entries[1..], e) ==> !IsItself(root, entries[0], e) && !IsInside(root, entries[0], e)
  {
    if root <= e.path && e.path != root && e.path[|root|] == entries[0].name {
      var path := e.path[|root|..];
      NoSuchName(entries[1..], path, e.isDirectory);
      assert path[1..] == e.path[|root| + 1..];
      assert root + [entries[0].name] == e.path[..|root| + 1];
      assert |path| == 1 <==> e.path == root + [entries[0].name];
    }
  }

  // ---------- The whole ----------

  ghost predicate ListsAllOnce(root: Path, entries: seq<Node>, result: multiset<Entry>) {
    forall e :: result[e] == if Exists(root, entries, e) then 1 else 0
  }

  lemma {:induction false} AllListedOnce(root: Path, entries: seq<Node>)
    requires WellNamed(entries)
    ensures ListsAllOnce(root, entries, multiset(Below(root, entries)))
  {
    forall e ensures multiset(Below(root, entries))[e] == if Exists(root, entries, e) then 1 else 0 {
      ListedExactlyOnce(root, entries, e);
    }
  }

  // The outer loop, over the stack.
  method Traverse(root: Path, entries: seq<Node>) returns (result: seq<Entry>)
    ensures multiset(result) == multiset(Below(root, entries))
  {
    var stack := [Pending(root, entries)];
    result := [];
    assert stack[..0] == [];
    while stack != []
      invariant multiset(result) + AllBelow(stack) == multiset(Below(root, entries))
      decreases TotalSize(stack)
    {
      var current := stack[|stack| - 1];
      stack := stack[..|stack| - 1];
      stack, result := Scan(multiset(Below(root, entries)), TotalSize(stack) + Size(current.entries),
                            current.path, current.entries, stack, result);
    }
  }

  /**
    On every finite tree it ends, and yields what the recursive listing does; so every directory
    and regular file below the root comes exactly once, and nothing else.
  */
  method ListEntries(root: Path, entries: seq<Node>) returns (result: seq<Entry>)
    requires WellNamed(entries)
    ensures multiset(result) == multiset(Below(root, entries))
    ensures ListsAllOnce(root, entries, multiset(result))
  {
    result := Traverse(root, entries);
    AllListedOnce(root, entries);
  }
}
