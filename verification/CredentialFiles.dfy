/** A directory of credential files as a crash sees it: what processes read now, and
    for every name which entries a power loss may leave on disk. */
module CredentialFiles {
  import opened Choice
  import opened Bytes
  import opened Optional

  /** A file whose bytes were never flushed is torn: a power loss may leave anything in it. */
  datatype Entry = Absent | Whole(bytes: seq<Byte>) | Torn

  datatype Outcome = Done | Failed | Crashed

  const LIMIT: nat := 0x100000

  predicate HasPrefix(name: string, prefix: string) {
    |prefix| <= |name| && name[..|prefix|] == prefix
  }

  function Staging(base: string): string { "." + base + ".tmp." }

  /** The file of one origin: a fixed-length digest between fixed parts. */
  function AccountFile(digest: string): string { "session-" + digest + ".json" }

  lemma NamesSpelled(digest: string)
    ensures AccountFile(digest) == "session-" + digest + ".json"
    ensures Staging(AccountFile(digest)) == ".session-" + digest + ".json.tmp."
  {
    assert "." + "session-" == ".session-" && ".json" + ".tmp." == ".json.tmp.";
  }

  /** Staging files of two origins never meet, and no origin's staging prefix
      covers a credential file. */
  lemma OriginsSeparate(d: string, e: string, name: string)
    requires |d| == |e| && d != e
    ensures HasPrefix(name, Staging(AccountFile(d))) ==> !HasPrefix(name, Staging(AccountFile(e)))
    ensures !HasPrefix(AccountFile(e), Staging(AccountFile(d)))
  {
    var p, q := Staging(AccountFile(d)), Staging(AccountFile(e));
    assert p[9..9 + |d|] == d && q[9..9 + |e|] == e;
    assert HasPrefix(name, p) ==> name[..|p|][9..9 + |d|] == d;
    assert HasPrefix(name, q) ==> name[..|q|][9..9 + |e|] == e;
    assert AccountFile(e)[0] == 's' && p[0] == '.';
  }

  /** The separation needs the fixed length: in general one prefix may extend another. */
  lemma FreeNamesCollide()
    ensures Staging("x.tmp.y") != Staging("x") && HasPrefix(Staging("x.tmp.y"), Staging("x"))
  {
    assert Staging("x.tmp.y") == ".x.tmp." + "y.tmp.";
    assert Staging("x") == ".x.tmp.";
  }

  class Directory {
    var live: map<string, Entry>
    /** Entries a power loss may leave; a name not listed is certainly absent. */
    var pending: map<string, set<Entry>>
    /** Steps that failed or were the last before a crash. */
    var faults: nat

    ghost predicate Valid()
      reads this`live, this`pending
    {
      && (forall n | n in live :: live[n] != Absent)
      && forall n: string :: At(n) in May(n)
    }

    function At(name: string): Entry
      reads this`live
    {
      if name in live then live[name] else Absent
    }

    function May(name: string): set<Entry>
      reads this`pending
    {
      if name in pending then pending[name] else {Absent}
    }

    /** The credential at this name was never exposed half-written. */
    ghost predicate Intact(name: string)
      reads this`pending
    {
      Torn !in May(name)
    }

    constructor ()
      ensures Valid() && live == map[] && pending == map[]
    {
      live, pending, faults := map[], map[], 0;
    }

    /** One directory operation: visible at once, durable or not. */
    method Set(name: string, e: Entry)
      requires Valid()
      modifies this
      ensures Valid()
      ensures live == if e == Absent then old(live) - {name} else old(live)[name := e]
      ensures At(name) == e && May(name) == old(May(name)) + {e}
      ensures forall n | n != name :: At(n) == old(At(n)) && May(n) == old(May(n))
      ensures faults == old(faults)
    {
      live := if e == Absent then live - {name} else live[name := e];
      pending := pending[name := May(name) + {e}];
      assert forall n: string | n != name :: At(n) == old(At(n)) && May(n) == old(May(n));
    }

    method Rename(from: string, to: string)
      requires Valid() && from != to && from in live
      modifies this
      ensures Valid()
      ensures At(from) == Absent && At(to) == old(At(from))
      ensures May(to) == old(May(to)) + {old(At(from))}
      ensures forall n | n != from && n != to :: At(n) == old(At(n)) && May(n) == old(May(n))
      ensures faults == old(faults)
    {
      var e := live[from];
      Set(from, Absent);
      Set(to, e);
    }

    /** A fresh name with the given prefix. */
    method TempName(prefix: string) returns (name: string)
      ensures name !in live && HasPrefix(name, prefix)
    {
      name := prefix;
      var names := live.Keys;
      while name in live
        invariant HasPrefix(name, prefix)
        invariant forall n | n in live && n !in names :: |n| < |name|
        decreases names
      {
        names := names - {name};
        name := name + "0";
      }
    }

    /** A directory sync leaves exactly the visible entries. */
    method Sync() returns (ok: bool)
      requires Valid()
      modifies this
      ensures Valid() && live == old(live)
      ensures forall n: string :: (if ok then May(n) == {At(n)} else May(n) == old(May(n)))
      ensures faults == old(faults) + if ok then 0 else 1
    {
      ok := *;
      if ok { pending := map n | n in live :: {live[n]}; } else { faults := faults + 1; }
    }

    /** Power loss: every name keeps one of its possible entries. */
    method PowerLoss()
      requires Valid()
      modifies this
      ensures Valid()
      ensures forall n: string :: At(n) in old(May(n)) && May(n) == {At(n)}
      ensures faults == old(faults)
    {
      var kept: map<string, Entry> := map[];
      var names := pending.Keys;
      while names != {}
        invariant Valid() && names <= pending.Keys && live == old(live) && pending == old(pending)
        invariant faults == old(faults)
        invariant forall n | n in kept :: kept[n] != Absent && n in pending && n !in names
        invariant forall n | n in pending && n !in names :: (if n in kept then kept[n] else Absent) in pending[n]
        decreases names
      {
        var n := Any(names);
        assert At(n) in May(n);
        var e := Any(pending[n]);
        if e != Absent { kept := kept[n := e]; }
        names := names - {n};
      }
      live := kept;
      pending := map n | n in live :: {live[n]};
      forall n: string ensures At(n) in old(May(n)) {
        if n in old(pending) { assert At(n) in old(pending)[n]; }
      }
    }
  }

  /** What reading a file gives: nothing for a missing or empty one. */
  function Read(e: Entry): Option<seq<Byte>>
    requires e != Torn
  {
    if e == Absent || e.bytes == [] then None
    else Some(if |e.bytes| <= LIMIT then e.bytes else e.bytes[..LIMIT])
  }

  method Garbage() returns (value: Option<seq<Byte>>) {
    value := None;
    if * { value :| true; }
  }

  /** The protected-file store of one origin. Every step may fail or be the last
      one before a crash. */
  class FileStore {
    const dir: Directory
    const base: string

    constructor (dir: Directory, base: string)
      ensures this.dir == dir && this.base == base
    {
      this.dir, this.base := dir, base;
    }

    ghost predicate IsStaging(name: string) { HasPrefix(name, Staging(base)) }

    ghost predicate NothingStaged()
      reads dir`live
    {
      forall n: string | IsStaging(n) :: dir.At(n) == Absent
    }

    method Step() returns (o: Outcome)
      modifies dir`faults
      ensures dir.faults == old(dir.faults) + if o == Done then 0 else 1
    {
      if { case true => o := Done; case true => o := Failed; case true => o := Crashed; }
      if o != Done { dir.faults := dir.faults + 1; }
    }

    /** Removes what interrupted writes of this origin left behind. */
    method Reconcile() returns (o: Outcome)
      requires dir.Valid()
      modifies dir
      ensures dir.Valid()
      ensures forall n: string | !IsStaging(n) :: dir.At(n) == old(dir.At(n)) && dir.May(n) <= old(dir.May(n))
      ensures o == Done ==> NothingStaged()
      ensures old(NothingStaged()) ==> dir.live == old(dir.live) && dir.pending == old(dir.pending)
      ensures o == Done && !old(NothingStaged()) ==> forall n: string :: dir.May(n) == {dir.At(n)}
      ensures o == Done <==> dir.faults == old(dir.faults)
      ensures dir.faults >= old(dir.faults)
    {
      o := Step();
      if o != Done { return; }
      var entries, removed := dir.live.Keys, false;
      while entries != {}
        invariant dir.Valid() && entries <= dir.live.Keys && dir.faults == old(dir.faults)
        invariant forall n: string | !IsStaging(n) :: dir.At(n) == old(dir.At(n)) && dir.May(n) == old(dir.May(n))
        invariant forall n | n in dir.live && n !in entries :: !IsStaging(n)
        invariant !removed ==> dir.live == old(dir.live) && dir.pending == old(dir.pending)
        invariant removed ==> !old(NothingStaged())
        decreases entries
      {
        var name := Any(entries);
        entries := entries - {name};
        if HasPrefix(name, Staging(base)) {
          o := Step();
          if o != Done { return; }
          dir.Set(name, Absent);
          removed := true;
        }
      }
      o := Done;
      if removed {
        var ok := dir.Sync();
        o := if ok then Done else Failed;
      }
    }

    method Get() returns (o: Outcome, value: Option<seq<Byte>>)
      requires dir.Valid()
      modifies dir
      ensures dir.Valid()
      ensures forall n: string | !IsStaging(n) :: dir.At(n) == old(dir.At(n)) && dir.May(n) <= old(dir.May(n))
      ensures dir.At(base) == old(dir.At(base)) && dir.May(base) <= old(dir.May(base))
      ensures o == Done && old(dir.Intact(base)) ==> value == Read(dir.At(base))
      ensures o == Done ==> NothingStaged()
      ensures o == Done <==> dir.faults == old(dir.faults)
    {
      value := None;
      o := Reconcile();
      if o != Done || dir.At(base) == Absent { return; }
      o := Step();
      if o != Done { return; }
      if dir.At(base) == Torn {
        value := Garbage();
      } else {
        value := Read(dir.At(base));
      }
    }

    /** Stages the secret, flushes it, and only then renames it over the old one. */
    method Put(secret: seq<Byte>) returns (o: Outcome)
      requires dir.Valid()
      modifies dir
      ensures dir.Valid()
      ensures !(0 < |secret| <= LIMIT) ==>
        o == Failed && dir.live == old(dir.live) && dir.pending == old(dir.pending)
      ensures dir.At(base) in {old(dir.At(base)), Whole(secret)}
      ensures dir.May(base) <= old(dir.May(base)) + {Whole(secret)}
      ensures o == Done ==> dir.At(base) == Whole(secret) && dir.May(base) == {Whole(secret)}
      ensures forall n: string | n != base && !IsStaging(n) ::
        dir.At(n) == old(dir.At(n)) && dir.May(n) <= old(dir.May(n))
      ensures o == Done <==> dir.faults == old(dir.faults) && 0 < |secret| <= LIMIT
      ensures o == Done ==> NothingStaged()
    {
      if |secret| == 0 || |secret| > LIMIT { return Failed; }
      o := Step();
      if o != Done { return; }
      o := Reconcile();
      if o != Done { return; }
      o := Step();
      if o != Done { return; }
      o := Replace(secret);
    }

    method Stage(secret: seq<Byte>) returns (o: Outcome, temp: string)
      requires dir.Valid()
      modifies dir
      ensures dir.Valid() && IsStaging(temp)
      ensures forall n: string | n != temp :: dir.At(n) == old(dir.At(n)) && dir.May(n) == old(dir.May(n))
      ensures o == Done ==> dir.At(temp) == Whole(secret)
      ensures o == Done <==> dir.faults == old(dir.faults)
      ensures dir.faults >= old(dir.faults)
    {
      temp := dir.TempName(Staging(base));
      dir.Set(temp, Torn);
      o := Step();
      if o == Done { o := WriteAndFlush(temp, secret); }
      if o == Done { o := Step(); }
      if o == Failed { Discard(temp); }
    }

    method Replace(secret: seq<Byte>) returns (o: Outcome)
      requires dir.Valid()
      modifies dir
      ensures dir.Valid()
      ensures dir.At(base) in {old(dir.At(base)), Whole(secret)}
      ensures dir.May(base) <= old(dir.May(base)) + {Whole(secret)}
      ensures o == Done ==> dir.At(base) == Whole(secret) && dir.May(base) == {Whole(secret)}
      ensures forall n: string | n != base && !IsStaging(n) ::
        dir.At(n) == old(dir.At(n)) && dir.May(n) <= old(dir.May(n))
      ensures o == Done <==> dir.faults == old(dir.faults)
      ensures o == Done && old(NothingStaged()) ==> NothingStaged()
      ensures dir.faults >= old(dir.faults)
    {
      var temp;
      o, temp := Stage(secret);
      if o != Done { return; }
      dir.Rename(temp, base);
      o := Step();
      if o != Done { return; }
      var ok := dir.Sync();
      o := if ok then Done else Failed;
    }

    /** Write, fsync and close; until the fsync the file is torn. */
    method WriteAndFlush(temp: string, secret: seq<Byte>) returns (o: Outcome)
      requires dir.Valid() && IsStaging(temp) && dir.At(temp) == Torn
      modifies dir
      ensures dir.Valid()
      ensures forall n: string | n != temp :: dir.At(n) == old(dir.At(n)) && dir.May(n) == old(dir.May(n))
      ensures o == Done ==> dir.At(temp) == Whole(secret)
      ensures o == Done <==> dir.faults == old(dir.faults)
      ensures dir.faults >= old(dir.faults)
    {
      o := Step();
      if o != Done { return; }
      o := Step();
      if o != Done { return; }
      dir.Set(temp, Whole(secret));
      o := Step();
    }

    /** The deferred removal, whose own failure is ignored. */
    method Discard(temp: string)
      requires dir.Valid()
      modifies dir
      ensures dir.Valid()
      ensures forall n: string | n != temp :: dir.At(n) == old(dir.At(n)) && dir.May(n) == old(dir.May(n))
      ensures dir.faults >= old(dir.faults)
    {
      var o := Step();
      if o == Done { dir.Set(temp, Absent); }
    }

    /** A nil deletion is durable exactly when there was a file to remove, its absence
        already was, or something staged had to be cleared: repeating a deletion whose
        sync failed reports success without syncing. */
    method Delete() returns (o: Outcome)
      requires dir.Valid()
      modifies dir
      ensures dir.Valid()
      ensures dir.At(base) in {old(dir.At(base)), Absent}
      ensures dir.May(base) <= old(dir.May(base)) + {Absent}
      ensures o == Done ==> dir.At(base) == Absent
      ensures o == Done && old(dir.At(base)) != Absent ==> dir.May(base) == {Absent}
      ensures o == Done ==>
        (dir.May(base) == {Absent} <==>
          old(dir.At(base)) != Absent || old(dir.May(base)) == {Absent} || !old(NothingStaged()))
      ensures forall n: string | n != base && !IsStaging(n) ::
        dir.At(n) == old(dir.At(n)) && dir.May(n) <= old(dir.May(n))
      ensures o == Done <==> dir.faults == old(dir.faults)
      ensures o == Done ==> NothingStaged()
      ensures dir.faults >= old(dir.faults)
    {
      o := Reconcile();
      if o != Done || dir.At(base) == Absent { return; }
      o := Step();
      if o != Done { return; }
      dir.Set(base, Absent);
      o := Step();
      if o != Done { return; }
      var ok := dir.Sync();
      o := if ok then Done else Failed;
    }

    /** A write that stops anywhere, possibly by power loss, and the next read: the
        whole old value or the whole new one. */
    method PutThenRecover(secret: seq<Byte>, power: bool)
      returns (put: Outcome, get: Outcome, value: Option<seq<Byte>>)
      requires dir.Valid() && dir.May(base) == {dir.At(base)} && dir.At(base) != Torn
      modifies dir
      ensures get == Done ==> value in {Read(old(dir.At(base))), Read(Whole(secret))}
      ensures get == Done && put == Done ==> value == Some(secret)
      ensures get == Done ==> NothingStaged()
    {
      put := Put(secret);
      if power { dir.PowerLoss(); }
      get, value := Get();
    }

    /** One operation of some process, or a power loss. */
    method Perform(op: Op) returns (did: Did)
      requires dir.Valid()
      modifies dir
      ensures dir.Valid() && did.op == op && dir.May(base) <= old(dir.May(base)) + Adds(op)
      ensures Stores(did) ==> dir.May(base) == {Whole(op.secret)} && 0 < |op.secret| <= LIMIT
      ensures !Mutates(op) ==> dir.May(base) <= old(dir.May(base))
      ensures Reads(did) && old(dir.Intact(base)) ==> did.value == Read(dir.At(base))
    {
      match op
      case DoPut(secret) =>
        var o := Put(secret);
        did := Did(op, o, None);
      case DoGet =>
        var o, value := Get();
        did := Did(op, o, value);
      case DoDelete =>
        var o := Delete();
        did := Did(op, o, None);
      case LosePower =>
        dir.PowerLoss();
        did := Did(op, Crashed, None);
    }

    /** Any sequence of writes, reads and deletions, each failing or crashing anywhere, with power losses in
        between: every read gives nothing or a value that was written, whole, and a read with no write or
        deletion since a successful write gives what that wrote. */
    method AnyOperations(ops: seq<Op>) returns (history: seq<Did>)
      requires dir.Valid() && dir.May(base) == {Absent}
      modifies dir
      ensures |history| == |ops| && forall i | 0 <= i < |ops| :: history[i].op == ops[i]
      ensures Faithful(history)
    {
      history := [];
      for n := 0 to |ops|
        invariant dir.Valid() && |history| == n && forall i | 0 <= i < n :: history[i].op == ops[i]
        invariant OnlyWritten(dir.May(base), history) && Fixed(dir.May(base), history) && Faithful(history)
      {
        ghost var before := dir.May(base);
        assert dir.At(base) in before;
        var did := Perform(ops[n]);
        assert dir.At(base) in dir.May(base);
        OnlyWrittenStays(before, dir.May(base), history, did);
        FixedStays(before, dir.May(base), history, did);
        FaithfulStays(dir.At(base), dir.May(base), history, did);
        history := history + [did];
      }
    }
  }

  datatype Op = DoPut(secret: seq<Byte>) | DoGet | DoDelete | LosePower

  datatype Did = Did(op: Op, outcome: Outcome, value: Option<seq<Byte>>)

  predicate Mutates(op: Op) { op.DoPut? || op.DoDelete? }
  predicate Stores(d: Did) { d.op.DoPut? && d.outcome == Done }
  predicate Reads(d: Did) { d.op.DoGet? && d.outcome == Done }

  ghost function Adds(op: Op): set<Entry> {
    match op
    case DoPut(secret) => if 0 < |secret| <= LIMIT then {Whole(secret)} else {}
    case DoDelete => {Absent}
    case _ => {}
  }

  /** Nothing was written or deleted from entry i + 1 on. */
  ghost predicate Rests(h: seq<Did>, i: nat) { forall k | i < k < |h| :: !Mutates(h[k].op) }

  ghost predicate Faithful(h: seq<Did>) {
    && (forall j | 0 <= j < |h| && Reads(h[j]) && h[j].value.Some? :: DoPut(h[j].value.value) in Ops(h[..j]))
    && (forall i, j | 0 <= i < j < |h| && Stores(h[i]) && Reads(h[j]) && Rests(h[..j], i) ::
          h[j].value == Some(h[i].op.secret))
  }

  ghost function Ops(h: seq<Did>): set<Op> { set d | d in h :: d.op }

  /** Every entry that the disk may have for the credential was written whole. */
  ghost predicate OnlyWritten(may: set<Entry>, h: seq<Did>) {
    forall e | e in may :: e == Absent || (e.Whole? && 0 < |e.bytes| <= LIMIT && DoPut(e.bytes) in Ops(h))
  }

  /** After a successful write that nothing followed, the disk has that and nothing else. */
  ghost predicate Fixed(may: set<Entry>, h: seq<Did>) {
    forall i | 0 <= i < |h| && Stores(h[i]) && Rests(h, i) ::
      may == {Whole(h[i].op.secret)} && 0 < |h[i].op.secret| <= LIMIT
  }

  lemma OnlyWrittenStays(before: set<Entry>, after: set<Entry>, h: seq<Did>, d: Did)
    requires OnlyWritten(before, h) && after <= before + Adds(d.op)
    ensures OnlyWritten(after, h + [d])
  {
    assert d in h + [d] && forall x | x in h :: x in h + [d];
    assert d.op in Ops(h + [d]) && forall op | op in Ops(h) :: op in Ops(h + [d]);
  }

  lemma FixedStays(before: set<Entry>, after: set<Entry>, h: seq<Did>, d: Did)
    requires Fixed(before, h) && after != {}
    requires Stores(d) ==> after == {Whole(d.op.secret)} && 0 < |d.op.secret| <= LIMIT
    requires !Mutates(d.op) ==> after <= before
    ensures Fixed(after, h + [d])
  {
    var g := h + [d];
    forall i | 0 <= i < |g| && Stores(g[i]) && Rests(g, i)
      ensures after == {Whole(g[i].op.secret)} && 0 < |g[i].op.secret| <= LIMIT
    {
      if i < |h| {
        assert !Mutates(g[|h|].op);
        assert Rests(h, i) by { forall k | i < k < |h| ensures !Mutates(h[k].op) { assert g[k] == h[k]; } }
        assert before == {Whole(h[i].op.secret)};
      }
    }
  }

  lemma FaithfulStays(at: Entry, may: set<Entry>, h: seq<Did>, d: Did)
    requires Faithful(h) && at in may && OnlyWritten(may, h + [d]) && Fixed(may, h + [d])
    requires Reads(d) ==> at != Torn && d.value == Read(at)
    ensures Faithful(h + [d])
  {
    var g := h + [d];
    forall j | 0 <= j < |g| && Reads(g[j]) && g[j].value.Some? ensures DoPut(g[j].value.value) in Ops(g[..j]) {
      if j < |h| { assert g[..j] == h[..j]; } else { WrittenBefore(at, h, d); assert g[..j] == h; }
    }
    forall i, j | 0 <= i < j < |g| && Stores(g[i]) && Reads(g[j]) && Rests(g[..j], i)
      ensures g[j].value == Some(g[i].op.secret)
    {
      if j < |h| {
        assert g[..j] == h[..j];
      } else {
        assert g[..j] == h;
        assert Rests(g, i);
      }
    }
  }

  lemma WrittenBefore(at: Entry, h: seq<Did>, d: Did)
    requires Reads(d) && at.Whole? && DoPut(at.bytes) in Ops(h + [d]) && d.value == Some(at.bytes)
    ensures DoPut(d.value.value) in Ops(h)
  {
    var x :| x in h + [d] && x.op == DoPut(at.bytes);
    assert x in h;
  }
}
