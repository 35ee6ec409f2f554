/** Following the events of a Run whose log grows while it is read. */
module RunWatch {
  import opened Optional
  datatype Event = Event(sequence: int, kind: string)

  /** Success and failure of the command; Polling when the Run was still active after
      all the rounds considered. */
  datatype Exit = Success | Failure | Polling

  ghost predicate Ordered(log: seq<Event>) {
    forall i, j | 0 <= i < j < |log| :: log[i].sequence < log[j].sequence
  }

  /** An event the cursor has not passed; no cursor means from the start. */
  predicate After(e: Event, cursor: Option<int>) { cursor.None? || e.sequence > cursor.value }

  /** How many events of an ordered log the cursor has passed. */
  function Position(log: seq<Event>, cursor: Option<int>): (p: nat)
    ensures p <= |log|
  {
    if log == [] || After(log[0], cursor) then 0 else 1 + Position(log[1..], cursor)
  }

  lemma {:induction false} PositionSplits(log: seq<Event>, cursor: Option<int>)
    requires Ordered(log)
    ensures forall i | 0 <= i < |log| :: After(log[i], cursor) <==> Position(log, cursor) <= i
  {
    if log != [] {
      if After(log[0], cursor) {
        forall i | 0 <= i < |log| ensures After(log[i], cursor) {
          if i > 0 { assert log[0].sequence < log[i].sequence; }
        }
      } else {
        var tail := log[1..];
        PositionSplits(tail, cursor);
        forall i | 0 <= i < |log| ensures After(log[i], cursor) <==> Position(log, cursor) <= i {
          if i > 0 { assert log[i] == tail[i - 1]; }
        }
      }
    }
  }

  lemma PositionOf(log: seq<Event>, i: nat)
    requires Ordered(log) && i < |log|
    ensures Position(log, Some(log[i].sequence)) == i + 1
  {
    PositionSplits(log, Some(log[i].sequence));
  }

  lemma SplitAt(log: seq<Event>, cursor: Option<int>, i: nat)
    requires Ordered(log) && i < |log|
    ensures After(log[i], cursor) <==> Position(log, cursor) <= i
  {
    PositionSplits(log, cursor);
  }

  /** What printing a slice from the cursor's position means: exactly the events
      after the cursor among the first `upTo`, each once and in order. */
  lemma SliceMeaning(log: seq<Event>, cursor: Option<int>, upTo: nat, e: Event)
    requires Ordered(log) && Position(log, cursor) <= upTo <= |log|
    ensures e in log[Position(log, cursor)..upTo] <==> e in log[..upTo] && After(e, cursor)
  {
    var p := Position(log, cursor);
    var slice := log[p..upTo];
    if e in slice {
      var i: nat :| i < |slice| && slice[i] == e;
      assert log[..upTo][p + i] == e;
      SplitAt(log, cursor, p + i);
    }
    if e in log[..upTo] && After(e, cursor) {
      var i: nat :| i < upTo && log[i] == e;
      SplitAt(log, cursor, i);
      assert slice[i - p] == e;
    }
  }

  lemma SliceOrdered(log: seq<Event>, p: nat, upTo: nat)
    requires Ordered(log) && p <= upTo <= |log|
    ensures Ordered(log[p..upTo])
  {
    var slice := log[p..upTo];
    forall i, j | 0 <= i < j < |slice| ensures slice[i].sequence < slice[j].sequence {
      assert slice[i] == log[p + i] && slice[j] == log[p + j];
    }
  }

  /** What the command hears: a page, the last one or not, a status, or a failure. */
  datatype Call = Page(last: bool) | Active | Terminal | Broken

  /** Where the command stands after what it has heard. */
  datatype Mode = Draining(failures: nat) | Asking(failures: nat) | LastDrain | Over(success: bool)

  function Broke(m: Mode): Mode {
    match m
    case Draining(f) => if f >= 2 then Over(false) else Draining(f + 1)
    case Asking(f) => if f >= 2 then Over(false) else Draining(f + 1)
    case _ => Over(false)
  }

  /** Drain to the last page, then ask; an active Run starts over with the failures forgotten, a finished one
      is drained once more; the third failure in a row ends it, and so does any in the last drain. */
  function Next(m: Mode, c: Call): Mode {
    if c.Broken? then Broke(m)
    else
      match m
      case Draining(f) => if c == Page(true) then Asking(f) else m
      case Asking(_) => if c.Terminal? then LastDrain else if c.Active? then Draining(0) else m
      case LastDrain => if c == Page(true) then Over(true) else m
      case Over(_) => m
  }

  ghost function Reached(calls: seq<Call>): Mode {
    if calls == [] then Draining(0) else Next(Reached(calls[..|calls| - 1]), calls[|calls| - 1])
  }

  lemma Hears(calls: seq<Call>, c: Call)
    ensures Reached(calls + [c]) == Next(Reached(calls), c)
  {
    assert (calls + [c])[..|calls|] == calls;
  }

  /** The API: a log of which a growing part exists. */
  class Server {
    const log: seq<Event>
    var existing: nat
    /** How much existed when a status call last reported a terminal status. */
    ghost var terminalAt: nat
    /** What the command heard so far. */
    ghost var calls: seq<Call>

    ghost predicate Valid()
      reads this
    {
      Ordered(log) && terminalAt <= existing <= |log|
    }

    constructor (log: seq<Event>)
      requires Ordered(log)
      ensures Valid() && this.log == log && existing == 0 && calls == []
    {
      this.log, existing, terminalAt, calls := log, 0, 0, [];
    }

    method Grow()
      requires Valid()
      modifies this`existing
      ensures Valid() && old(existing) <= existing
    {
      var more: nat := *;
      if existing <= more <= |log| { existing := more; }
    }

    /** A page: some of the events after the cursor, in order; the last page, or an
        empty one, only when nothing after it exists. */
    method Events(cursor: Option<int>) returns (ok: bool, items: seq<Event>, more: bool)
      requires Valid()
      modifies this`existing, this`calls
      ensures Valid() && old(existing) <= existing
      ensures calls == old(calls) + [if ok then Page(!more || items == []) else Broken]
      ensures ok ==> Position(log, cursor) + |items| <= |log|
      ensures ok ==> items == log[Position(log, cursor)..Position(log, cursor) + |items|]
      ensures ok && (!more || items == []) ==> existing <= Position(log, cursor) + |items|
    {
      Grow();
      ok, items, more := *, [], false;
      var p := Position(log, cursor);
      if ok && p < existing {
        var end: nat := *;
        if p < end < existing {
          items, more := log[p..end], true;
        } else {
          items, more := log[p..existing], *;
        }
      }
      calls := calls + [if ok then Page(!more || items == []) else Broken];
    }

    method Get() returns (ok: bool, terminal: bool)
      requires Valid()
      modifies this
      ensures Valid() && old(existing) <= existing
      ensures if ok && terminal then terminalAt >= old(existing) else terminalAt == old(terminalAt)
      ensures calls == old(calls) + [if !ok then Broken else if terminal then Terminal else Active]
    {
      Grow();
      ok, terminal := *, *;
      if ok && terminal { terminalAt := existing; }
      calls := calls + [if !ok then Broken else if terminal then Terminal else Active];
    }

    /** The encoder, whose failures the command hears like the API's. */
    method Encode() returns (ok: bool)
      requires Valid()
      modifies this`calls
      ensures Valid() && calls == if ok then old(calls) else old(calls) + [Broken]
    {
      ok := *;
      if !ok { calls := calls + [Broken]; }
    }
  }

  /** Three failed rounds in a row, ending at n. */
  ghost predicate ThreeFailures(rounds: seq<bool>, n: nat)
    requires n <= |rounds|
  {
    n >= 3 && !rounds[n - 1] && !rounds[n - 2] && !rounds[n - 3]
  }

  /** The number of failures since the last round that worked. */
  ghost function Streak(rounds: seq<bool>): nat {
    if rounds == [] || rounds[|rounds| - 1] then 0 else 1 + Streak(rounds[..|rounds| - 1])
  }

  /** No earlier moment to give up. */
  ghost predicate Patient(rounds: seq<bool>) {
    forall n | 0 <= n < |rounds| :: !ThreeFailures(rounds, n)
  }

  lemma StreakCounts(rounds: seq<bool>)
    ensures Streak(rounds) >= 3 <==> ThreeFailures(rounds, |rounds|)
  {
    var n := |rounds|;
    if n >= 3 {
      assert rounds[..n - 1][..n - 2] == rounds[..n - 2];
      assert rounds[..n - 2][..n - 3] == rounds[..n - 3];
    }
  }

  lemma NextRound(rounds: seq<bool>, ok: bool)
    requires Patient(rounds) && Streak(rounds) < 3
    ensures Patient(rounds + [ok]) && Streak(rounds + [ok]) == if ok then 0 else Streak(rounds) + 1
  {
    StreakCounts(rounds);
    var longer := rounds + [ok];
    assert longer[..|rounds|] == rounds;
    forall n | 0 <= n <= |rounds| ensures !ThreeFailures(longer, n) {
      assert !ThreeFailures(rounds, n);
    }
  }

  /** A drain leads to the question, or to the end if it was the last one. */
  function Drained(m: Mode, ok: bool): Mode
    requires m.Draining? || m.LastDrain?
  {
    if !ok then Broke(m) else if m.Draining? then Asking(m.failures) else Over(true)
  }

  function Rounded(m: Mode, ok: bool, terminal: bool): Mode
    requires m.Draining?
  {
    if !ok then Broke(m) else if terminal then LastDrain else Draining(0)
  }

  class Watcher {
    const server: Server
    var printed: seq<Event>

    constructor (server: Server)
      ensures this.server == server && printed == []
    {
      this.server, printed := server, [];
    }

    ghost predicate Valid()
      reads this, server
    {
      server.Valid()
    }

    /** The printed events are those from position `start`, and the cursor stands
        behind the last of them. */
    ghost predicate PrintedFrom(start: nat, cursor: Option<int>)
      reads this, server
    {
      && start + |printed| <= |server.log|
      && Position(server.log, cursor) == start + |printed|
      && printed == server.log[start..start + |printed|]
    }

    /** Prints one page; an event that cannot be encoded stops it. */
    method PrintPage(items: seq<Event>, cursor: Option<int>, ghost start: nat) returns (next: Option<int>, ok: bool)
      requires Valid() && PrintedFrom(start, cursor)
      requires start + |printed| + |items| <= |server.log|
      requires items == server.log[start + |printed|..start + |printed| + |items|]
      modifies this, server`calls
      ensures Valid() && PrintedFrom(start, next)
      ensures |printed| >= |old(printed)| && (ok ==> |printed| == |old(printed)| + |items|)
      ensures server.calls == if ok then old(server.calls) else old(server.calls) + [Broken]
    {
      next := cursor;
      ghost var log := server.log;
      ghost var begin := |printed|;
      for i := 0 to |items|
        invariant Valid() && PrintedFrom(start, next) && |printed| == begin + i && server.calls == old(server.calls)
      {
        ok := server.Encode();
        if !ok { return; }
        printed := printed + [items[i]];
        next := Some(items[i].sequence);
        assert items[i] == log[start + begin + i];
        PositionOf(log, start + begin + i);
      }
      ok := true;
    }

    method DrainRunEvents(cursor: Option<int>, ghost start: nat) returns (next: Option<int>, ok: bool)
      requires Valid() && PrintedFrom(start, cursor)
      requires Reached(server.calls).Draining? || Reached(server.calls).LastDrain?
      modifies this, server`existing, server`calls
      ensures Valid() && PrintedFrom(start, next) && |printed| >= |old(printed)|
      ensures Reached(server.calls) == Drained(old(Reached(server.calls)), ok)
      ensures old(server.existing) <= server.existing
      ensures ok ==> server.existing <= start + |printed|
    {
      next := cursor;
      var items, more := [], true;
      while true
        invariant Valid() && PrintedFrom(start, next) && |printed| >= |old(printed)|
        invariant old(server.existing) <= server.existing
        invariant Reached(server.calls) == old(Reached(server.calls))
        decreases |server.log| - |printed|
      {
        ghost var calls := server.calls;
        ok, items, more := server.Events(next);
        Hears(calls, server.calls[|calls|]);
        if !ok { return; }
        calls := server.calls;
        next, ok := PrintPage(items, next, start);
        Hears(calls, Broken);
        if !ok || !more || items == [] { return; }
      }
    }

    /** One round: everything new, then the status. */
    method Round(cursor: Option<int>, ghost start: nat) returns (next: Option<int>, ok: bool, terminal: bool)
      requires Valid() && PrintedFrom(start, cursor) && Reached(server.calls).Draining?
      modifies this, server
      ensures Valid() && PrintedFrom(start, next)
      ensures Reached(server.calls) == Rounded(old(Reached(server.calls)), ok, terminal)
      ensures old(server.existing) <= server.existing
      ensures ok && terminal ==> old(server.existing) <= server.terminalAt
    {
      terminal := false;
      next, ok := DrainRunEvents(cursor, start);
      if ok {
        ghost var calls := server.calls;
        ok, terminal := server.Get();
        Hears(calls, server.calls[|calls|]);
      }
    }

    /** The watch loop over at most `limit` rounds. */
    method Watch(cursor: Option<int>, limit: nat) returns (exit: Exit, ghost rounds: seq<bool>)
      requires Valid() && printed == [] && server.calls == []
      modifies this, server
      ensures exit == Success <==> Reached(server.calls) == Over(true)
      ensures exit == Failure <==> Reached(server.calls) == Over(false)
      ensures Valid() && Position(server.log, cursor) + |printed| <= |server.log|
      ensures printed == server.log[Position(server.log, cursor)..Position(server.log, cursor) + |printed|]
      ensures exit == Success ==>
        old(server.existing) <= server.terminalAt <= Position(server.log, cursor) + |printed|
      ensures Patient(rounds)
      ensures exit == Polling ==> |rounds| == limit && !ThreeFailures(rounds, limit)
      ensures exit == Failure ==> ThreeFailures(rounds, |rounds|) || (rounds != [] && rounds[|rounds| - 1])
    {
      ghost var start := Position(server.log, cursor);
      var at, failures := cursor, 0;
      rounds := [];
      for round := 0 to limit
        invariant Valid() && PrintedFrom(start, at)
        invariant old(server.existing) <= server.existing
        invariant |rounds| == round && Patient(rounds) && failures == Streak(rounds) < 3
        invariant Reached(server.calls) == Draining(failures)
      {
        var ok, terminal;
        at, ok, terminal := Round(at, start);
        NextRound(rounds, ok);
        rounds := rounds + [ok];
        if ok {
          failures := 0;
          if terminal {
            at, ok := DrainRunEvents(at, start);
            return if ok then Success else Failure, rounds;
          }
        } else {
          failures := failures + 1;
          if failures >= 3 {
            StreakCounts(rounds);
            return Failure, rounds;
          }
        }
      }
      StreakCounts(rounds);
      exit := Polling;
    }
  }
}
