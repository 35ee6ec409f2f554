/** Closing the process tree of a harness run on Linux. */
module ProcessTree {
  import opened Choice
  import opened Optional

  /** The parent chain of a process leads to `root` within n further links. */
  ghost predicate ChainReaches(root: int, parents: map<int, int>, pid: int, n: nat)
    decreases n
  {
    && pid != root && pid in parents
    && (parents[pid] == root || (n > 0 && ChainReaches(root, parents, parents[pid], n - 1)))
  }

  ghost predicate Descends(root: int, parents: map<int, int>, pid: int) {
    exists n: nat :: ChainReaches(root, parents, pid, n)
  }

  /** A set that no process can be added to. */
  ghost predicate Closed(root: int, parents: map<int, int>, result: set<int>) {
    forall pid | pid in parents && pid != root && pid !in result ::
      parents[pid] != root && parents[pid] !in result
  }

  /** The same for the processes a pass has already seen. */
  ghost predicate ClosedUpTo(root: int, parents: map<int, int>, rest: set<int>, result: set<int>) {
    forall pid | pid in parents && pid !in rest && pid != root && pid !in result ::
      parents[pid] != root && parents[pid] !in result
  }

  lemma {:induction false} ClosedContainsChains(root: int, parents: map<int, int>, result: set<int>, pid: int, n: nat)
    requires Closed(root, parents, result) && ChainReaches(root, parents, pid, n)
    ensures pid in result
    decreases n
  {
    if parents[pid] != root { ClosedContainsChains(root, parents, result, parents[pid], n - 1); }
  }

  lemma JoinsChain(root: int, parents: map<int, int>, pid: int)
    requires pid != root && pid in parents
    requires parents[pid] == root || Descends(root, parents, parents[pid])
    ensures Descends(root, parents, pid)
  {
    if parents[pid] == root {
      assert ChainReaches(root, parents, pid, 0);
    } else {
      var n: nat :| ChainReaches(root, parents, parents[pid], n);
      assert ChainReaches(root, parents, pid, n + 1);
    }
  }

  /** Grows the set until a whole pass over the map, in any order, adds nothing. */
  method DescendantSet(parent: int, parents: map<int, int>) returns (result: set<int>)
    ensures forall pid :: pid in result <==> Descends(parent, parents, pid)
  {
    result := {};
    var changed := true;
    while changed
      invariant result <= parents.Keys
      invariant forall pid | pid in result :: Descends(parent, parents, pid)
      invariant !changed ==> Closed(parent, parents, result)
      decreases parents.Keys - result, changed
    {
      result, changed := Pass(parent, parents, result);
    }
    forall pid | Descends(parent, parents, pid) ensures pid in result {
      var n: nat :| ChainReaches(parent, parents, pid, n);
      ClosedContainsChains(parent, parents, result, pid, n);
    }
  }

  method Pass(parent: int, parents: map<int, int>, start: set<int>) returns (result: set<int>, changed: bool)
    requires start <= parents.Keys && forall pid | pid in start :: Descends(parent, parents, pid)
    ensures start <= result <= parents.Keys
    ensures forall pid | pid in result :: Descends(parent, parents, pid)
    ensures if changed then start < result else start == result && Closed(parent, parents, result)
  {
    result, changed := start, false;
    var rest := parents.Keys;
    while rest != {}
      invariant rest <= parents.Keys && start <= result <= parents.Keys
      invariant forall pid | pid in result :: Descends(parent, parents, pid)
      invariant if changed then start < result else start == result
      invariant !changed ==> ClosedUpTo(parent, parents, rest, result)
      decreases rest
    {
      var pid := Any(rest);
      rest := rest - {pid};
      if pid == parent || pid in result { continue; }
      if parents[pid] == parent || parents[pid] in result {
        JoinsChain(parent, parents, pid);
        result, changed := result + {pid}, true;
      }
    }
  }

  // ---- cleanup ----

  /** What a round finds: the inventory before the signals, whether the group is gone after them, and the
      inventory then. An inventory may be anything, and may be unreadable. */
  datatype View = View(before: Option<map<int, int>>, gone: bool, after: Option<map<int, int>>)

  ghost function Descendants(root: int, parents: map<int, int>): set<int> {
    set pid | pid in parents && Descends(root, parents, pid)
  }

  /** One round: the inventory before, the processes signalled one by one, whether the group was gone,
      and the inventory after, if it could be read. */
  datatype Round = Round(before: map<int, int>, signalled: set<int>, groupGone: bool, after: Option<map<int, int>>)

  datatype Tracker = Tracker(parent: int, baseline: set<int>) {
    /** The round signalled exactly the new descendants and the group leader if it exists. */
    ghost predicate Targets(group: int, r: Round) {
      r.signalled == Descendants(parent, r.before) - baseline + (if group in r.before then {group} else {})
    }

    /** Nothing but the baseline was left below the parent. */
    ghost predicate Quiet(r: Round) {
      && r.groupGone && r.after.Some? && parent in r.after.value
      && Descendants(parent, r.after.value) <= baseline
    }

    method DescendantsNow(parents: map<int, int>) returns (result: set<int>)
      ensures result == Descendants(parent, parents) - baseline
    {
      var all := DescendantSet(parent, parents);
      forall pid | pid in all ensures pid in parents {
        var n: nat :| ChainReaches(parent, parents, pid, n);
      }
      assert all == Descendants(parent, parents);
      result := all - baseline;
    }

    lemma QuietMeans(r: Round, remaining: set<int>)
      requires r.after.Some? && parent in r.after.value && remaining == Descendants(parent, r.after.value) - baseline
      ensures Quiet(r) <==> r.groupGone && remaining == {}
    {
      if remaining == {} {
        forall pid | pid in Descendants(parent, r.after.value) ensures pid in baseline {
          assert pid !in remaining;
        }
      }
    }

    /** An inventory that can be read and has the parent in it. */
    predicate Readable(inventory: Option<map<int, int>>) { inventory.Some? && parent in inventory.value }

    /** The round made of what it found. */
    ghost predicate Records(group: int, v: View, r: Round) {
      && v.before == Some(r.before) && v.gone == r.groupGone && v.after == r.after && Targets(group, r)
    }

    /** The loop against everything it will find, until two quiet rounds in a row, an inventory that cannot be
        read, or the deadline, which passes after `patience` further rounds. */
    method Cleanup(group: int, patience: nat, world: nat -> View)
      returns (groupGone: bool, clean: bool, rounds: seq<Round>)
      ensures forall i | 0 <= i < |rounds| :: Records(group, world(i), rounds[i])
      ensures clean <==> |rounds| >= 2 && Quiet(rounds[|rounds| - 1]) && Quiet(rounds[|rounds| - 2])
      ensures forall i | 1 <= i < |rounds| - 1 :: !(Quiet(rounds[i - 1]) && Quiet(rounds[i]))
      ensures clean ==> groupGone && |rounds| <= patience + 1
      ensures !clean ==>
        || (|rounds| == patience + 1 && Readable(world(patience).after) && groupGone == world(patience).gone)
        || (!groupGone && |rounds| <= patience && !Readable(world(|rounds|).before))
        || (!groupGone && 1 <= |rounds| <= patience + 1 && !Readable(world(|rounds| - 1).after))
    {
      rounds := [];
      var quiet := 0;
      for n := 0 to patience + 1
        invariant |rounds| == n && 0 <= quiet <= 1
        invariant forall i | 0 <= i < n :: Records(group, world(i), rounds[i])
        invariant n > 0 ==> Readable(world(n - 1).after)
        invariant quiet == (if n > 0 && Quiet(rounds[n - 1]) then 1 else 0)
        invariant forall i | 1 <= i < n :: !(Quiet(rounds[i - 1]) && Quiet(rounds[i]))
      {
        var before := world(n).before;
        if !Readable(before) { return false, false, rounds; }
        var targets := DescendantsNow(before.value);
        if group in before.value { targets := targets + {group}; }
        var gone, after := world(n).gone, world(n).after;
        if !Readable(after) { return false, false, rounds + [Round(before.value, targets, gone, after)]; }
        var remaining := DescendantsNow(after.value);
        var r := Round(before.value, targets, gone, after);
        QuietMeans(r, remaining);
        rounds := rounds + [r];
        if gone && remaining == {} {
          quiet := quiet + 1;
          if quiet >= 2 { return true, true, rounds; }
        } else {
          quiet := 0;
        }
      }
      return world(patience).gone, false, rounds;
    }

    /** Neither the parent nor a process that was there before the run is signalled on its own, unless
        it is the group leader itself. */
    lemma SparesBaseline(group: int, r: Round, pid: int)
      requires Targets(group, r) && pid in r.signalled && (pid == parent || pid in baseline)
      ensures pid == group
    {}
  }
}
