/**
  The shared directory of listening sockets (arms/market.py, SingleDirectoryStorage), with
  any number of openers and scanners interleaved.

  An opener publishes a socket in four steps under an exclusive lock: it sweeps orphaned
  temporary names, binds a temporary name, listens, and renames it. A scanner takes a
  snapshot of the visible names and connects to them one by one, removing each name that
  refuses. Any process may die at any step. Names are unique, so an opener is identified
  with the name it publishes: opener n owns 'n.sock.tmp' and then 'n.sock'.
*/
module SocketDirectory {
  import opened Wrappers

  type Name = nat
  type Scanner = nat

  datatype Opener =
    | Entered                      // open_new called, lock not taken yet
    | Sweeping(todo: seq<Name>)    // lock taken, the glob of temporary names is being unlinked
    | Bound                        // temporary name bound, not listening
    | Listening                    // listening under the temporary name
    | Renamed                      // visible, lock still held
    | Live                         // lock released, accepting connections
    | Closed                       // listening socket closed, or the process died

  datatype Scan =
    | Scanning(todo: seq<Name>)
    | Refused(name: Name, todo: seq<Name>)   // connection refused, name about to be removed

  /** failures counts the steps that found a name missing where the code does not expect it. */
  datatype State = State(lock: Option<Name>, temporary: set<Name>, visible: set<Name>,
                         openers: map<Name, Opener>, scans: map<Scanner, Scan>, failures: nat)

  const INIT := State(None, {}, {}, map[], map[], 0)

  datatype OpenerLabel = TakeLock(order: seq<Name>) | Unlink | Bind | Listen | Rename | ReleaseLock | Close

  datatype Label =
    | Enter(n: Name) | OpenerDoes(n: Name, step: OpenerLabel)
    | Glob(r: Scanner, order: seq<Name>) | Connect(r: Scanner) | Pass(r: Scanner) | Remove(r: Scanner)

  predicate Accepting(o: Opener) { o.Listening? || o.Renamed? || o.Live? }

  predicate InCriticalSection(o: Opener) { o.Sweeping? || o.Bound? || o.Listening? || o.Renamed? }

  predicate Enumerates(order: seq<Name>, names: set<Name>) {
    && (forall i :: 0 <= i < |order| ==> order[i] in names)
    && (forall n <- names :: n in order)
    && (forall i, j :: 0 <= i < j < |order| ==> order[i] != order[j])
  }

  /** A step of the whole system; a label that is not enabled leaves everything as it is. */
  function Step(g: State, l: Label): State
  {
    match l
    case Enter(n) => if n in g.openers then g else g.(openers := g.openers[n := Entered])
    case OpenerDoes(n, step) => if n in g.openers then OpenerStep(g, n, g.openers[n], step) else g
    case Glob(r, order) =>
      if r in g.scans || !Enumerates(order, g.visible) then g else g.(scans := g.scans[r := Scanning(order)])
    case _ => if l.r in g.scans then ScanStep(g, l.r, g.scans[l.r], l) else g
  }

  function Goes(g: State, n: Name, o: Opener): State {
    g.(openers := g.openers[n := o])
  }

  function OpenerStep(g: State, n: Name, o: Opener, l: OpenerLabel): State
  {
    match l
    case TakeLock(order) =>
      if o.Entered? && g.lock == None && Enumerates(order, g.temporary)
      then Goes(g, n, Sweeping(order)).(lock := Some(n)) else g
    case Unlink => if o.Sweeping? && o.todo != [] then UnlinkStep(g, n, o.todo) else g
    case Bind =>
      if o.Sweeping? && o.todo == [] then Goes(g, n, Bound).(temporary := g.temporary + {n}) else g
    case Listen => if o.Bound? then Goes(g, n, Listening) else g
    case Rename => if o.Listening? then RenameStep(g, n) else g
    case ReleaseLock => if o.Renamed? then Goes(g, n, Live).(lock := None) else g
    case Close => CloseStep(g, n)
  }

  // Path.unlink raises if the name is missing, and so does Path.replace.
  function UnlinkStep(g: State, n: Name, todo: seq<Name>): State
    requires todo != []
  {
    if todo[0] in g.temporary then Goes(g, n, Sweeping(todo[1..])).(temporary := g.temporary - {todo[0]})
    else CloseStep(g, n).(failures := g.failures + 1)
  }

  function RenameStep(g: State, n: Name): State {
    if n in g.temporary then Goes(g, n, Renamed).(temporary := g.temporary - {n}, visible := g.visible + {n})
    else CloseStep(g, n).(failures := g.failures + 1)
  }

  // Closing, dying or raising: the operating system drops the lock, the names stay.
  function CloseStep(g: State, n: Name): State {
    Goes(g, n, Closed).(lock := if g.lock == Some(n) then None else g.lock)
  }

  /** A connection is refused exactly when the name is there and nobody listens behind it. */
  function ScanStep(g: State, r: Scanner, scan: Scan, l: Label): State
  {
    match (l, scan)
    case (Connect(_), Scanning(todo)) =>
      if todo == [] then g
      else if todo[0] !in g.visible || (todo[0] in g.openers && Accepting(g.openers[todo[0]]))
      then g.(scans := g.scans[r := Scanning(todo[1..])])
      else g.(scans := g.scans[r := Refused(todo[0], todo[1..])])
    case (Pass(_), Scanning(todo)) =>   // busy, timed out or not permitted
      if todo == [] then g else g.(scans := g.scans[r := Scanning(todo[1..])])
    case (Remove(_), Refused(name, todo)) =>
      g.(scans := g.scans[r := Scanning(todo)], visible := g.visible - {name})
    case _ => g
  }

  function Run(g: State, labels: seq<Label>): State
    decreases |labels|
  {
    if labels == [] then g else Run(Step(g, labels[0]), labels[1..])
  }

  // ---------- What is promised of every reachable state ----------

  ghost predicate Safe(g: State) {
    // A socket in service is reachable under its name, so no scanner ever removed it ...
    && (forall n <- g.openers :: g.openers[n].Renamed? || g.openers[n].Live? ==> n in g.visible)
    // ... and no scanner that was refused is about to remove a socket in service.
    && (forall r <- g.scans :: g.scans[r].Refused? ==> DefunctName(g, g.scans[r].name))
    // A visible name has been listening: it accepts connections unless its owner closed it.
    && (forall n <- g.visible :: n in g.openers && (Accepting(g.openers[n]) || g.openers[n].Closed?))
    // A temporary name in use was not swept, and all orphans of dead openers were.
    && (forall n <- g.openers :: g.openers[n].Bound? || g.openers[n].Listening? ==> g.temporary == {n})
    // At most one opener is in its critical section, and no unlink or rename ever failed.
    && (forall n <- g.openers, m <- g.openers ::
          InCriticalSection(g.openers[n]) && InCriticalSection(g.openers[m]) ==> n == m)
    && g.failures == 0
  }

  ghost predicate DefunctName(g: State, n: Name) {
    n in g.openers && g.openers[n].Closed?
  }

  // ---------- The inductive invariant ----------

  ghost predicate OpenersOk(g: State) {
    && (forall n <- g.openers :: InCriticalSection(g.openers[n]) <==> g.lock == Some(n))
    && (g.lock.Some? ==> g.lock.value in g.openers)
    && g.failures == 0
  }

  ghost predicate NamesOk(g: State) {
    && (forall n <- g.openers :: g.openers[n].Bound? || g.openers[n].Listening? ==> n in g.temporary)
    && (forall n <- g.openers :: g.openers[n].Renamed? || g.openers[n].Live? ==> n in g.visible)
    && (forall n <- g.visible :: n in g.openers && (g.openers[n].Renamed? || g.openers[n].Live? || g.openers[n].Closed?))
    && (forall n <- g.temporary :: n in g.openers && (g.openers[n].Bound? || g.openers[n].Listening? || g.openers[n].Closed?))
  }

  /** The lock holder's list is exactly what is left to sweep. */
  ghost predicate SweepOk(g: State) {
    && (forall n <- g.openers :: g.openers[n].Sweeping? ==> Enumerates(g.openers[n].todo, g.temporary))
    && (forall n <- g.openers :: g.openers[n].Bound? || g.openers[n].Listening? ==> g.temporary == {n})
    && (forall n <- g.openers :: g.openers[n].Renamed? ==> g.temporary == {})
  }

  /** Every name a scanner still holds was visible once, so it is in service or defunct for good. */
  ghost predicate ScansOk(g: State) {
    forall r <- g.scans ::
      && (g.scans[r].Refused? ==> DefunctName(g, g.scans[r].name))
      && (forall i :: 0 <= i < |g.scans[r].todo| ==> WasVisible(g, g.scans[r].todo[i]))
  }

  ghost predicate WasVisible(g: State, n: Name) {
    n in g.openers && (g.openers[n].Renamed? || g.openers[n].Live? || g.openers[n].Closed?)
  }

  ghost predicate Inv(g: State) {
    OpenersOk(g) && NamesOk(g) && SweepOk(g) && ScansOk(g)
  }

  /** What a step of opener n does to the scanners' view: names only get closer to defunct. */
  lemma OpenerKeepsScans(g: State, n: Name, l: OpenerLabel)
    requires ScansOk(g) && n in g.openers
    ensures ScansOk(OpenerStep(g, n, g.openers[n], l))
  {
  }

  lemma OpenerKeepsOpeners(g: State, n: Name, l: OpenerLabel)
    requires OpenersOk(g) && NamesOk(g) && SweepOk(g) && n in g.openers
    ensures OpenersOk(OpenerStep(g, n, g.openers[n], l))
  {
  }

  lemma OpenerKeepsNames(g: State, n: Name, l: OpenerLabel)
    requires OpenersOk(g) && NamesOk(g) && SweepOk(g) && n in g.openers
    ensures NamesOk(OpenerStep(g, n, g.openers[n], l))
  {
  }

  lemma OpenerKeepsSweep(g: State, n: Name, l: OpenerLabel)
    requires OpenersOk(g) && NamesOk(g) && SweepOk(g) && n in g.openers
    ensures SweepOk(OpenerStep(g, n, g.openers[n], l))
  {
  }

  lemma ScannerKeepsScans(g: State, r: Scanner, l: Label)
    requires NamesOk(g) && ScansOk(g) && r in g.scans
    ensures ScansOk(ScanStep(g, r, g.scans[r], l))
  {
  }

  lemma ScannerKeepsInv(g: State, r: Scanner, l: Label)
    requires Inv(g) && r in g.scans
    ensures Inv(ScanStep(g, r, g.scans[r], l))
  {
    ScannerKeepsScans(g, r, l);
  }

  lemma EnterKeepsInv(g: State, n: Name)
    requires Inv(g)
    ensures Inv(Step(g, Enter(n)))
  {
  }

  lemma GlobKeepsInv(g: State, r: Scanner, order: seq<Name>)
    requires Inv(g)
    ensures Inv(Step(g, Glob(r, order)))
  {
  }

  lemma StepKeepsInv(g: State, l: Label)
    requires Inv(g)
    ensures Inv(Step(g, l))
  {
    match l
    case Enter(n) => EnterKeepsInv(g, n);
    case OpenerDoes(n, step) =>
      if n in g.openers {
        OpenerKeepsScans(g, n, step);
        OpenerKeepsOpeners(g, n, step);
        OpenerKeepsNames(g, n, step);
        OpenerKeepsSweep(g, n, step);
      }
    case Glob(r, order) => GlobKeepsInv(g, r, order);
    case _ => if l.r in g.scans { ScannerKeepsInv(g, l.r, l); }
  }

  lemma {:induction false} RunKeepsInv(g: State, labels: seq<Label>)
    requires Inv(g)
    ensures Inv(Run(g, labels))
    decreases |labels|
  {
    if labels != [] {
      StepKeepsInv(g, labels[0]);
      RunKeepsInv(Step(g, labels[0]), labels[1..]);
    }
  }

  /** The main theorem: in every interleaving of openers, scanners and deaths. */
  lemma {:induction false} DirectoryIsSafe(labels: seq<Label>)
    ensures Safe(Run(INIT, labels))
  {
    RunKeepsInv(INIT, labels);
  }

  /** In particular, the name a scanner removes belongs to no socket in service. */
  lemma {:induction false} RemovalSparesLiveSockets(labels: seq<Label>, r: Scanner)
    ensures var g, g' := Run(INIT, labels), Step(Run(INIT, labels), Remove(r));
            forall n <- g.visible :: n !in g'.visible ==> n in g.openers && g.openers[n].Closed?
  {
    RunKeepsInv(INIT, labels);
  }

  // ---------- What the steps lead to ----------

  lemma {:induction false} RunOfFirst(g: State, l: Label, rest: seq<Label>)
    ensures Run(g, [l] + rest) == Run(Step(g, l), rest)
  {
    assert ([l] + rest)[1..] == rest;
  }

  function Unlinks(n: Name, count: nat, rest: seq<Label>): seq<Label> {
    if count == 0 then rest else [OpenerDoes(n, Unlink)] + Unlinks(n, count - 1, rest)
  }

  lemma {:induction false} SweepRemovesOrphans(g: State, n: Name, todo: seq<Name>, rest: seq<Label>)
    requires n in g.openers && g.openers[n] == Sweeping(todo) && Enumerates(todo, g.temporary)
    ensures Run(g, Unlinks(n, |todo|, rest))
         == Run(g.(openers := g.openers[n := Sweeping([])], temporary := {}), rest)
    decreases |todo|
  {
    if todo == [] {
      assert g.openers[n := Sweeping([])] == g.openers;
      assert g.temporary == {};
    } else {
      var h := Step(g, OpenerDoes(n, Unlink));
      RunOfFirst(g, OpenerDoes(n, Unlink), Unlinks(n, |todo| - 1, rest));
      SweptEnumerates(todo, g.temporary);
      SweepRemovesOrphans(h, n, todo[1..], rest);
      assert h.openers[n := Sweeping([])] == g.openers[n := Sweeping([])];
    }
  }

  lemma SweptEnumerates(todo: seq<Name>, names: set<Name>)
    requires todo != [] && Enumerates(todo, names)
    ensures todo[0] in names && Enumerates(todo[1..], names - {todo[0]})
  {
    assert forall i :: 0 <= i < |todo[1..]| ==> todo[1..][i] == todo[i + 1];
    forall n <- names - {todo[0]} ensures n in todo[1..] {
      assert n in todo;
    }
  }

  function Publication(n: Name): seq<Label> {
    [OpenerDoes(n, Bind)] + ([OpenerDoes(n, Listen)] + ([OpenerDoes(n, Rename)] + ([OpenerDoes(n, ReleaseLock)] + [])))
  }

  function Opening(n: Name, order: seq<Name>): seq<Label> {
    [Enter(n)] + ([OpenerDoes(n, TakeLock(order))] + Unlinks(n, |order|, Publication(n)))
  }

  lemma {:induction false} PublicationIsVisible(g: State, n: Name)
    requires n in g.openers && g.openers[n] == Sweeping([]) && g.temporary == {} && g.lock == Some(n)
    ensures Run(g, Publication(n))
         == g.(openers := g.openers[n := Live], visible := g.visible + {n}, lock := None)
  {
    var bound := g.(openers := g.openers[n := Bound], temporary := {n});
    var listening := g.(openers := g.openers[n := Listening], temporary := {n});
    var renamed := g.(openers := g.openers[n := Renamed], visible := g.visible + {n});
    RunOfFirst(g, OpenerDoes(n, Bind), [OpenerDoes(n, Listen)] + ([OpenerDoes(n, Rename)] + ([OpenerDoes(n, ReleaseLock)] + [])));
    assert Step(g, OpenerDoes(n, Bind)) == bound;
    RunOfFirst(bound, OpenerDoes(n, Listen), [OpenerDoes(n, Rename)] + ([OpenerDoes(n, ReleaseLock)] + []));
    assert bound.openers[n := Listening] == g.openers[n := Listening];
    RunOfFirst(listening, OpenerDoes(n, Rename), [OpenerDoes(n, ReleaseLock)] + []);
    assert listening.openers[n := Renamed] == g.openers[n := Renamed];
    RunOfFirst(renamed, OpenerDoes(n, ReleaseLock), []);
    assert renamed.openers[n := Live] == g.openers[n := Live];
  }

  /** Undisturbed, open_new removes every orphan and leaves a visible, listening socket and a free lock. */
  lemma {:induction false} OpeningPublishes(g: State, n: Name, order: seq<Name>)
    requires n !in g.openers && g.lock.None? && Enumerates(order, g.temporary)
    ensures Run(g, Opening(n, order))
         == g.(openers := g.openers[n := Live], visible := g.visible + {n}, temporary := {}, lock := None)
  {
    var entered := g.(openers := g.openers[n := Entered]);
    var locked := g.(openers := g.openers[n := Sweeping(order)], lock := Some(n));
    var swept := g.(openers := g.openers[n := Sweeping([])], temporary := {}, lock := Some(n));
    RunOfFirst(g, Enter(n), [OpenerDoes(n, TakeLock(order))] + Unlinks(n, |order|, Publication(n)));
    RunOfFirst(entered, OpenerDoes(n, TakeLock(order)), Unlinks(n, |order|, Publication(n)));
    assert entered.openers[n := Sweeping(order)] == g.openers[n := Sweeping(order)];
    SweepRemovesOrphans(locked, n, order, Publication(n));
    assert locked.openers[n := Sweeping([])] == g.openers[n := Sweeping([])];
    PublicationIsVisible(swept, n);
    assert swept.openers[n := Live] == g.openers[n := Live];
  }

  /** An opener that closes or dies keeps its names, and gives the lock back if it held it. */
  lemma ClosingKeepsNames(g: State, n: Name)
    requires n in g.openers
    ensures Step(g, OpenerDoes(n, Close))
         == g.(openers := g.openers[n := Closed], lock := if g.lock == Some(n) then None else g.lock)
  {
  }

  /**
    A scanner goes through its names one by one. A name with nobody listening behind it is removed;
    all others stay, whether they accept, are gone by now or are passed by.
  */
  lemma {:induction false} NamesAreScanned(g: State, r: Scanner, n: Name, rest: seq<Name>)
    requires r in g.scans && g.scans[r] == Scanning([n] + rest)
    ensures var next := g.(scans := g.scans[r := Scanning(rest)]);
            && Step(g, Pass(r)) == next
            && (n !in g.visible || (n in g.openers && (g.openers[n].Listening? || g.openers[n].Renamed? || g.openers[n].Live?))
                ==> Step(g, Connect(r)) == next)
            && (n in g.visible && (n !in g.openers || g.openers[n].Closed?)
                ==> Run(g, [Connect(r), Remove(r)]) == next.(visible := g.visible - {n}))
  {
    assert ([n] + rest)[1..] == rest;
    var refused := g.(scans := g.scans[r := Refused(n, rest)]);
    if n in g.visible && (n !in g.openers || g.openers[n].Closed?) {
      assert [Connect(r), Remove(r)][1..] == [Remove(r)];
      assert Run(g, [Connect(r), Remove(r)]) == Run(refused, [Remove(r)]);
      assert Run(refused, [Remove(r)]) == Run(Step(refused, Remove(r)), []);
      assert refused.scans[r := Scanning(rest)] == g.scans[r := Scanning(rest)];
    }
  }

  /** A scan starts with all the names visible at that moment. */
  lemma ScanStartsWithVisible(g: State, r: Scanner, order: seq<Name>)
    requires r !in g.scans && Enumerates(order, g.visible)
    ensures Step(g, Glob(r, order)) == g.(scans := g.scans[r := Scanning(order)])
  {
  }
}
