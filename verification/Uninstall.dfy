/** Removing an installation: staged receipt, lifecycle lock, journal, and a report of
    everything that could not be cleaned up. */
module Uninstall {
  import opened Optional

  datatype File = Binary | Receipt | Staged | Candidate | Lock | Journal

  /** The files that only an operation in progress should leave in the directory. */
  const LIFECYCLE: set<File> := {Staged, Candidate, Lock, Journal}

  datatype Status = Removed | RemovedWithResidue | FailedWithResidue

  datatype Report = Report(status: Status, residues: seq<File>)

  datatype Removal = Gone | Missing | Refused

  /** The residues are exactly those of the named files that are still there. */
  ghost predicate Lists(residues: seq<File>, names: set<File>, files: map<File, string>) {
    forall f: File :: f in residues <==> f in names && f in files
  }

  ghost predicate Same(before: map<File, string>, after: map<File, string>, except: set<File>) {
    forall f: File | f !in except :: (f in before <==> f in after) && (f in before ==> before[f] == after[f])
  }

  /** The installation directory. A failed call changes nothing; `faults` counts the
      failures other than those of files that are not there, and `stuck` are the files
      whose removal failed. */
  class Directory {
    var files: map<File, string>
    var faults: nat
    var stuck: set<File>
    /** Binary and receipts were only touched under lock and journal. */
    ghost var guarded: bool

    constructor (files: map<File, string>)
      ensures this.files == files && faults == 0 && stuck == {} && guarded
    {
      this.files, faults, stuck, guarded := files, 0, {}, true;
    }

    method Try() returns (ok: bool)
      modifies this`faults
      ensures faults == old(faults) + if ok then 0 else 1
    {
      ok := *;
      if !ok { faults := faults + 1; }
    }

    method Remove(f: File) returns (r: Removal)
      modifies this
      ensures r == Missing <==> f !in old(files)
      ensures files == if r == Gone then old(files) - {f} else old(files)
      ensures faults == old(faults) + if r == Refused then 1 else 0
      ensures stuck == old(stuck) + if r == Refused then {f} else {}
      ensures guarded == (old(guarded) && (f in {Binary, Receipt, Staged} ==> {Lock, Journal} <= old(files).Keys))
    {
      guarded := guarded && (f in {Binary, Receipt, Staged} ==> {Lock, Journal} <= files.Keys);
      if f !in files { return Missing; }
      var ok := Try();
      if ok { files := files - {f}; } else { stuck := stuck + {f}; }
      r := if ok then Gone else Refused;
    }

    method Rename(from: File, to: File) returns (ok: bool)
      requires from in files && from != to
      modifies this
      ensures files == if ok then old(files)[to := old(files)[from]] - {from} else old(files)
      ensures stuck == old(stuck)
      ensures faults == old(faults) + if ok then 0 else 1
      ensures guarded == (old(guarded) && {Lock, Journal} <= old(files).Keys)
    {
      guarded := guarded && {Lock, Journal} <= files.Keys;
      ok := Try();
      if ok { files := files[to := files[from]] - {from}; }
    }

    /** A hard link; refused when the target exists. */
    method Link(from: File, to: File) returns (ok: bool)
      requires from in files
      modifies this
      ensures ok ==> to !in old(files)
      ensures files == if ok then old(files)[to := old(files)[from]] else old(files)
      ensures stuck == old(stuck) && guarded == old(guarded)
      ensures faults == old(faults) + if ok || to in old(files) then 0 else 1
    {
      if to in files { return false; }
      ok := Try();
      if ok { files := files[to := files[from]]; }
    }

    /** Creates or overwrites a file; a failed write may leave part of it. */
    method Write(f: File, content: string) returns (ok: bool)
      modifies this
      ensures faults == old(faults) + if ok then 0 else 1
      ensures ok ==> files == old(files)[f := content]
      ensures Same(old(files), files, {f}) && stuck == old(stuck) && guarded == old(guarded)
    {
      ok := Try();
      var begun: bool := *;
      if ok {
        files := files[f := content];
      } else if begun {
        files := files[f := ""];
      }
    }

    /** The receipt and the binary it vouches for are here, and nothing of an
        operation in progress but perhaps a stale journal. */
    ghost predicate Ready(regular: bool, vouches: (string, string) -> bool)
      reads this
    {
      && Binary in files && regular && Receipt in files && vouches(files[Receipt], files[Binary])
      && Staged !in files && Candidate !in files && Lock !in files
    }

    method CreateCandidate(owner: string) returns (ok: bool)
      modifies this
      ensures ok ==> Candidate !in old(files) && files == old(files)[Candidate := owner] && faults == old(faults)
      ensures Same(old(files), files, {Candidate})
      ensures Candidate in old(files) ==> files == old(files)
      ensures ok ==> stuck == old(stuck)
      ensures stuck == old(stuck) + if !ok && Candidate !in old(files) && Candidate in files then {Candidate} else {}
      ensures !ok ==> faults > old(faults) || (faults == old(faults) && Candidate in old(files))
      ensures guarded == old(guarded)
    {
      if Candidate in files { return false; }
      ok := Write(Candidate, owner);
      if !ok { var _ := Remove(Candidate); }
    }

    /** Everything done under the lifecycle lock; None is an error. */
    method RemoveInstallation(vouches: (string, string) -> bool) returns (result: Option<Report>)
      requires Binary in files
      modifies this
      ensures Same(old(files), files, {Journal, Binary, Receipt, Staged})
      ensures result == None ==> Same(old(files), files, {Journal})
      ensures old(stuck) <= stuck <= old(stuck) + if result == None then {Binary} else {Binary, Staged}
      ensures result.Some? ==> Lists(result.value.residues, {Staged}, files) && Staged !in old(files)
      ensures result.Some? ==> Settled(old(files), files, result.value.status)
      ensures result.Some? ==> (result.value.status == Removed <==> result.value.residues == [])
      ensures faults >= old(faults)
      ensures result == Some(Report(Removed, [])) <==>
        (&& faults == old(faults) && Receipt in old(files) && Staged !in old(files)
         && vouches(old(files)[Receipt], old(files)[Binary]))
      ensures old(guarded) && Lock in old(files) ==> guarded
    {
      var ok := Write(Journal, "state=uninstall_preparing");
      if !ok { return None; }
      if Receipt !in files { return None; }
      ok := Try();
      if !ok || !vouches(files[Receipt], files[Binary]) { return None; }
      if Staged in files { return None; }
      ok := Rename(Receipt, Staged);
      if !ok { return None; }
      var removal := Remove(Binary);
      if removal != Gone {
        ok := Rename(Staged, Receipt);
        return if ok then None else Some(Report(FailedWithResidue, [Staged]));
      }
      removal := Remove(Staged);
      return if removal != Gone then Some(Report(RemovedWithResidue, [Staged])) else Some(Report(Removed, []));
    }

    /** The deferred clean-up: journal, then lock; what stays is added to the residues. */
    method CleanUp(residues: seq<File>) returns (all: seq<File>)
      modifies this
      ensures Same(old(files), files, {Journal, Lock})
      ensures forall f: File :: f in all <==> f in residues || (f in {Journal, Lock} && f in files)
      ensures faults == old(faults) ==> Journal !in files && Lock !in files
      ensures stuck == old(stuck) + {Journal, Lock} * files.Keys
      ensures |all| >= |residues| && (all == residues <==> faults == old(faults))
      ensures faults >= old(faults)
      ensures guarded == old(guarded)
    {
      all := residues;
      var removal := Remove(Journal);
      if removal == Refused { all := all + [Journal]; }
      removal := Remove(Lock);
      if removal == Refused { all := all + [Lock]; }
    }

    /** Takes the lifecycle lock by linking a private candidate to its name. */
    method AcquireLock(owner: string) returns (ok: bool, residues: seq<File>)
      requires stuck == {}
      modifies this
      ensures stuck == if Candidate !in old(files) && Candidate in files then {Candidate} else {}
      ensures Same(old(files), files, if ok then {Candidate, Lock} else {Candidate})
      ensures ok ==> Candidate !in old(files) && Lock !in old(files)
      ensures ok ==> Lists(residues, {Candidate}, files) && (residues == [] <==> faults == old(faults))
      ensures faults >= old(faults)
      ensures !ok && faults == old(faults) ==>
        Same(old(files), files, {}) && (Candidate in old(files) || Lock in old(files))
      ensures guarded == old(guarded) && (ok ==> Lock in files)
    {
      residues := [];
      ok := CreateCandidate(owner);
      if !ok { return; }
      ok := Link(Candidate, Lock);
      var removal := Remove(Candidate);
      if ok && removal != Gone { residues := [Candidate]; }
    }

    /** Everything after the lock is held, with the deferred clean-up at the end. */
    method UnderLock(residues: seq<File>, vouches: (string, string) -> bool) returns (result: Option<Report>)
      requires Binary in files && Lists(residues, {Candidate}, files)
      modifies this
      ensures Same(old(files), files, {Journal, Lock, Binary, Receipt, Staged})
      ensures result == None ==> Same(old(files), files, {Journal, Lock})
      ensures result.Some? ==> Lists(result.value.residues, LIFECYCLE, files)
      ensures result.Some? ==> Settled(old(files), files, result.value.status)
      ensures result.Some? ==> (result.value.status == Removed <==> result.value.residues == [])
      ensures faults >= old(faults)
      ensures result == None && faults == old(faults) ==> Lock !in files && Journal !in files
      ensures result == None ==> old(stuck) <= stuck <= old(stuck) + {Binary, Journal, Lock}
      ensures result == None ==> forall f | f in {Journal, Lock} && f !in old(stuck) :: f in stuck <==> f in files
      ensures (result.Some? && result.value.status == Removed) <==>
        (&& faults == old(faults) && residues == [] && Receipt in old(files) && Staged !in old(files)
         && vouches(old(files)[Receipt], old(files)[Binary]))
      ensures old(guarded) && Lock in old(files) ==> guarded
    {
      result := RemoveInstallation(vouches);
      var cleanup := CleanUp(residues);
      if result.Some? && cleanup != [] {
        var status := if result.value.status == Removed then RemovedWithResidue else result.value.status;
        result := Some(Report(status, result.value.residues + cleanup));
      }
    }

    /** The whole command. Without a report (an error) the installation is untouched, and
        what is new in the directory is exactly what could not be removed again; with a
        report, the residues are exactly the lifecycle files still present. */
    method RunUninstall(owner: string, regular: bool, vouches: (string, string) -> bool)
      returns (result: Option<Report>)
      modifies this
      ensures result == None ==> Same(old(files), files, {Candidate, Lock, Journal})
      ensures result.Some? ==> Lists(result.value.residues, LIFECYCLE, files)
      ensures result.Some? ==> Settled(old(files), files, result.value.status)
      ensures result.Some? && result.value.status == Removed <==> old(Ready(regular, vouches)) && faults == old(faults)
      ensures result.Some? && result.value.status == Removed ==> forall f: File :: f !in files
      ensures result.Some? && result.value.status != Removed ==> result.value.residues != []
      ensures result == None && faults == old(faults) ==> Same(old(files), files, {Journal})
      ensures result == None ==> forall f: File | f !in old(files) :: f in files <==> f in stuck
      ensures result == None && faults == old(faults) ==> forall f: File | f in files :: f in old(files)
      ensures Lock in old(files) ==> result == None && Same(old(files), files, {Candidate})
      ensures old(guarded) ==> guarded
    {
      stuck := {};
      if Binary !in files || !regular { return None; }
      var ok, residues := AcquireLock(owner);
      if !ok { return None; }
      result := UnderLock(residues, vouches);
      forall f: File ensures f in LIFECYCLE || f in {Binary, Receipt} {
        assert f.Binary? || f.Receipt? || f.Staged? || f.Candidate? || f.Lock? || f.Journal?;
      }
    }
  }

  /** What a status says about the binary and its receipt. */
  ghost predicate Settled(before: map<File, string>, after: map<File, string>, status: Status) {
    && Receipt !in after && Receipt in before
    && (Staged in after ==> after[Staged] == before[Receipt])
    && (if status == FailedWithResidue
        then Binary in before && Binary in after && after[Binary] == before[Binary] && Staged in after
        else Binary !in after)
  }
}
