/**
  The queue over a server log that is loaded as a whole again and again
  (mediaserver_api/_base_queue.py, BaseQueue).
*/
module EventQueue {

  /** Broken is an IndexError: more events were returned than are buffered. */
  datatype Outcome<E> = Event(event: E) | TimedOut | Skipped | Contradiction | Broken

  datatype State<E> = State(events: seq<E>, returned: nat)
  datatype Result<E> = Result(state: State<E>, outcome: Outcome<E>)

  // all(a == b for a, b in zip(old, new))
  predicate Agree<E(==)>(old_: seq<E>, new_: seq<E>) {
    forall i :: 0 <= i < |old_| && i < |new_| ==> old_[i] == new_[i]
  }

  /** Waiting for an event: loads are the logs loaded until one has news or the time is over. */
  function Poll<E(==)>(s: State<E>, loads: seq<seq<E>>): Result<E>
    decreases |loads|
  {
    if loads == [] then Result(s, TimedOut)
    else if !Agree(s.events, loads[0]) then Result(s, Contradiction)
    else if s.returned < |loads[0]| then Result(State(loads[0], s.returned + 1), Event(loads[0][s.returned]))
    else Poll(State(loads[0], s.returned), loads[1..])
  }

  function Next<E(==)>(s: State<E>, loads: seq<seq<E>>): Result<E> {
    if s.returned == |s.events| then Poll(s, loads)
    else if s.returned < |s.events| then Result(s.(returned := s.returned + 1), Event(s.events[s.returned]))
    else Result(s, Broken)
  }

  function Skip<E(==)>(s: State<E>, load: seq<E>): Result<E> {
    if !Agree(s.events, load) then Result(s, Contradiction) else Result(State(load, |load|), Skipped)
  }

  class Queue<E(==)> {
    var events: seq<E>
    var returnedEventCount: nat

    constructor ()
      ensures Value() == State([], 0)
    {
      events, returnedEventCount := [], 0;
    }

    function Value(): State<E>
      reads this
    {
      State(events, returnedEventCount)
    }

    // A load that contradicts what is buffered changes nothing.
    method ReloadEvents(load: seq<E>) returns (ok: bool)
      modifies this
      ensures ok <==> Agree(old(events), load)
      ensures Value() == if ok then State(load, old(returnedEventCount)) else old(Value())
    {
      var i := 0;
      while i < |events| && i < |load|
        invariant i <= |events| && i <= |load|
        invariant forall j :: 0 <= j < i ==> events[j] == load[j]
      {
        if events[i] != load[i] {
          return false;
        }
        i := i + 1;
      }
      events := load;
      ok := true;
    }

    method WaitForNext(loads: seq<seq<E>>) returns (outcome: Outcome<E>)
      requires loads != []
      modifies this
      ensures Result(Value(), outcome) == Next(old(Value()), loads)
    {
      if returnedEventCount == |events| {
        var i := 0;
        while true
          invariant i < |loads|
          invariant Poll(Value(), loads[i..]) == Next(old(Value()), loads)
          decreases |loads| - i
        {
          var ok := ReloadEvents(loads[i]);
          if !ok {
            return Contradiction;
          }
          if returnedEventCount < |events| {
            break;
          }
          i := i + 1;
          if i == |loads| {
            return TimedOut;
          }
        }
      }
      if returnedEventCount >= |events| {
        return Broken;
      }
      outcome := Event(events[returnedEventCount]);
      returnedEventCount := returnedEventCount + 1;
    }

    method SkipExistingEvents(load: seq<E>) returns (ok: bool)
      modifies this
      ensures ok <==> !Skip(old(Value()), load).outcome.Contradiction?
      ensures Value() == Skip(old(Value()), load).state
    {
      ok := ReloadEvents(load);
      if ok {
        returnedEventCount := |events|;
      }
    }
  }

  // ---------- Over an append-only log ----------

  datatype Call<E> = NextCall(loads: seq<seq<E>>) | SkipCall(load: seq<E>)

  function Loads<E>(call: Call<E>): seq<seq<E>> {
    if call.SkipCall? then [call.load] else call.loads
  }

  function Do<E(==)>(s: State<E>, call: Call<E>): Result<E> {
    match call
    case NextCall(loads) => Next(s, loads)
    case SkipCall(load) => Skip(s, load)
  }

  /** Each load is what the log was by then: it begins with all that was loaded before. */
  ghost predicate AreSnapshots<E>(known: seq<E>, loads: seq<seq<E>>)
    decreases |loads|
  {
    loads != [] ==> known <= loads[0] && AreSnapshots(loads[0], loads[1..])
  }

  ghost predicate IsAppendOnly<E>(s: State<E>, calls: seq<Call<E>>)
    decreases |calls|
  {
    calls != [] ==> AreSnapshots(s.events, Loads(calls[0])) && IsAppendOnly(Do(s, calls[0]).state, calls[1..])
  }

  function Run<E(==)>(s: State<E>, calls: seq<Call<E>>): State<E>
    decreases |calls|
  {
    if calls == [] then s else Run(Do(s, calls[0]).state, calls[1..])
  }

  /** The events returned since the last skip, after those already returned. */
  function Returned<E(==)>(s: State<E>, calls: seq<Call<E>>, before: seq<E>): seq<E>
    decreases |calls|
  {
    if calls == [] then before
    else
      var done := Do(s, calls[0]);
      Returned(done.state, calls[1..],
               if calls[0].SkipCall? then [] else if done.outcome.Event? then before + [done.outcome.event] else before)
  }

  predicate Valid<E>(s: State<E>) {
    s.returned <= |s.events|
  }

  lemma {:induction false} PollOfSnapshots<E>(s: State<E>, loads: seq<seq<E>>)
    requires Valid(s) && AreSnapshots(s.events, loads)
    ensures var r := Poll(s, loads);
            && Valid(r.state) && s.events <= r.state.events
            && (r.outcome.Event? || r.outcome.TimedOut?)
            && (r.outcome.Event? ==>
                  r.state.returned == s.returned + 1 && r.outcome.event == r.state.events[s.returned])
            && (r.outcome.TimedOut? ==> r.state.returned == s.returned)
    decreases |loads|
  {
    if loads != [] && s.returned >= |loads[0]| {
      PollOfSnapshots(State(loads[0], s.returned), loads[1..]);
    }
  }

  /** No call fails on an append-only log, other than by waiting in vain, and nothing buffered is lost. */
  lemma CallOnAppendOnly<E>(s: State<E>, call: Call<E>)
    requires Valid(s) && AreSnapshots(s.events, Loads(call))
    ensures var r := Do(s, call);
            && Valid(r.state) && s.events <= r.state.events
            && (if call.SkipCall? then r.outcome.Skipped? else r.outcome.Event? || r.outcome.TimedOut?)
            && (r.outcome.Event? ==>
                  r.state.returned == s.returned + 1 && r.outcome.event == r.state.events[s.returned])
            && (call.NextCall? && r.outcome.TimedOut? ==> r.state.returned == s.returned)
            && (call.SkipCall? ==> r.state == State(call.load, |call.load|))
  {
    if call.NextCall? && s.returned == |s.events| {
      PollOfSnapshots(s, call.loads);
    }
  }

  /** How much of the log the last skip has passed over, or the start if there is none. */
  function SkippedTo<E>(calls: seq<Call<E>>, start: nat): nat
    decreases |calls|
  {
    if calls == [] then start
    else SkippedTo(calls[1..], if calls[0].SkipCall? then |calls[0].load| else start)
  }

  /** The events from some place of the log up to the count. */
  ghost predicate IsReturnedFrom<E>(returned: seq<E>, s: State<E>, start: nat) {
    Valid(s) && start <= s.returned && returned == s.events[start..s.returned]
  }

  lemma NextIsReturned<E>(returned: seq<E>, s: State<E>, start: nat, call: Call<E>)
    requires IsReturnedFrom(returned, s, start) && AreSnapshots(s.events, Loads(call)) && call.NextCall?
    ensures var done := Do(s, call);
            IsReturnedFrom(if done.outcome.Event? then returned + [done.outcome.event] else returned, done.state, start)
  {
    CallOnAppendOnly(s, call);
    var t := Do(s, call).state;
    assert t.events[..|s.events|] == s.events;
    assert t.events[start..s.returned] == s.events[start..s.returned];
    if t.returned == s.returned + 1 {
      assert t.events[start..s.returned + 1] == t.events[start..s.returned] + [t.events[s.returned]];
    }
  }

  /**
    Over every run, the events returned since the last skip are exactly those of the log from
    where that skip has left it: each once, in order, and none passed over.
  */
  lemma {:induction false} EachEventOnceInOrder<E>(s: State<E>, calls: seq<Call<E>>, before: seq<E>, start: nat)
    requires IsReturnedFrom(before, s, start) && IsAppendOnly(s, calls)
    ensures IsReturnedFrom(Returned(s, calls, before), Run(s, calls), SkippedTo(calls, start))
    decreases |calls|
  {
    if calls != [] {
      var done := Do(s, calls[0]);
      CallOnAppendOnly(s, calls[0]);
      if calls[0].SkipCall? {
        EachEventOnceInOrder(done.state, calls[1..], [], |calls[0].load|);
      } else {
        NextIsReturned(before, s, start, calls[0]);
        EachEventOnceInOrder(done.state, calls[1..],
                             if done.outcome.Event? then before + [done.outcome.event] else before, start);
      }
    }
  }

  /** For a new queue: from the end of the last log skipped, or from the beginning of the log. */
  lemma {:induction false} NewQueueReturnsTheLog<E>(calls: seq<Call<E>>)
    requires IsAppendOnly(State([], 0), calls)
    ensures var s, start := Run(State([], 0), calls), SkippedTo(calls, 0);
            start <= s.returned <= |s.events| && Returned(State([], 0), calls, []) == s.events[start..s.returned]
  {
    EachEventOnceInOrder(State([], 0), calls, [], 0);
  }

  // ---------- Exactly what a wait returns ----------

  /** Agreeing is being a prefix, one way or the other. */
  lemma AgreeIsPrefix<E>(a: seq<E>, b: seq<E>)
    ensures Agree(a, b) <==> a <= b || b <= a
  {
  }

  ghost predicate HasNews<E>(returned: nat, loads: seq<seq<E>>) {
    exists i :: 0 <= i < |loads| && |loads[i]| > returned
  }

  lemma {:induction false} PollDelivers<E>(s: State<E>, loads: seq<seq<E>>)
    requires AreSnapshots(s.events, loads)
    ensures Poll(s, loads).outcome.Event? <==> HasNews(s.returned, loads)
    decreases |loads|
  {
    if loads != [] && |loads[0]| <= s.returned {
      PollDelivers(State(loads[0], s.returned), loads[1..]);
      assert forall i :: 0 <= i < |loads[1..]| ==> loads[1..][i] == loads[i + 1];
      if HasNews(s.returned, loads) {
        var i :| 0 <= i < |loads| && |loads[i]| > s.returned;
        assert loads[1..][i - 1] == loads[i];
      }
    }
  }

  /** On an append-only log a wait returns the next event exactly if it is buffered or some load has it. */
  lemma {:induction false} WaitDelivers<E>(s: State<E>, loads: seq<seq<E>>)
    requires Valid(s) && AreSnapshots(s.events, loads)
    ensures Next(s, loads).outcome.Event? <==> s.returned < |s.events| || HasNews(s.returned, loads)
    ensures s.returned < |s.events| ==>
              Next(s, loads) == Result(State(s.events, s.returned + 1), Event(s.events[s.returned]))
  {
    PollDelivers(s, loads);
  }

  /** A load that is no continuation and no beginning of the buffer is refused, and changes nothing. */
  lemma ContradictionIsRaised<E>(s: State<E>, load: seq<E>, more: seq<seq<E>>)
    requires !(s.events <= load) && !(load <= s.events)
    ensures s.returned == |s.events| ==> Next(s, [load] + more) == Result(s, Contradiction)
    ensures Skip(s, load) == Result(s, Contradiction)
  {
    AgreeIsPrefix(s.events, load);
  }

  /** Any other load is taken over by a skip as a whole. */
  lemma SkipTakesAll<E>(s: State<E>, load: seq<E>)
    requires s.events <= load || load <= s.events
    ensures Skip(s, load) == Result(State(load, |load|), Skipped)
  {
    AgreeIsPrefix(s.events, load);
  }

  // ---------- When the log is not append-only ----------

  lemma {:induction false} PollDoesNotBreak<E>(s: State<E>, loads: seq<seq<E>>)
    ensures !Poll(s, loads).outcome.Broken?
    decreases |loads|
  {
    if loads != [] {
      PollDoesNotBreak(State(loads[0], s.returned), loads[1..]);
    }
  }

  lemma {:induction false} PollTimesOut<E>(s: State<E>, loads: seq<seq<E>>)
    requires loads != [] && Poll(s, loads).outcome.TimedOut?
    ensures Poll(s, loads).state == State(loads[|loads| - 1], s.returned)
    ensures |loads[|loads| - 1]| <= s.returned
    decreases |loads|
  {
    if |loads| == 1 {
      assert Poll(s, loads) == Poll(State(loads[0], s.returned), loads[1..]);
    } else {
      PollTimesOut(State(loads[0], s.returned), loads[1..]);
    }
  }

  /** A wait fails at once exactly when more was returned than is buffered; it then loads nothing. */
  lemma WaitBreaksExactlyIfInvalid<E>(s: State<E>, loads: seq<seq<E>>)
    ensures Next(s, loads).outcome.Broken? <==> !Valid(s)
    ensures !Valid(s) ==> Next(s, loads).state == s
  {
    PollDoesNotBreak(s, loads);
  }

  /**
    A wait that times out has accepted logs that agree and have no news, but may be cut short.
    The count stays within the buffer exactly when the last of them holds all that was returned;
    otherwise, until a skip loads the log, every wait fails without loading anything.
  */
  lemma ShortLoadBreaksQueue<E>(s: State<E>, loads: seq<seq<E>>, more: seq<seq<E>>)
    requires s.returned == |s.events| && loads != [] && Next(s, loads).outcome.TimedOut?
    ensures var last, r := loads[|loads| - 1], Next(s, loads);
            && r.state == State(last, s.returned)
            && (Valid(r.state) <==> |last| == s.returned)
            && (Next(r.state, more).outcome.Broken? <==> |last| < s.returned)
            && (|last| < s.returned ==> Next(r.state, more).state == r.state)
  {
    PollTimesOut(s, loads);
    WaitBreaksExactlyIfInvalid(Next(s, loads).state, more);
  }

  lemma ShortLoadExample()
    ensures var broken := Next(State([1, 2], 2), [[1, 2], [1]]).state;
            Next(broken, [[1, 2, 3]]).outcome == Broken
  {
    var s := State([1, 2], 2);
    assert [[1, 2], [1]][1..] == [[1]] && [[1]][1..] == [];
    assert Poll(s, [[1, 2], [1]]) == Poll(s, [[1]]) == Poll(State([1], 2), []);
    ShortLoadBreaksQueue(s, [[1, 2], [1]], [[1, 2, 3]]);
  }
}
