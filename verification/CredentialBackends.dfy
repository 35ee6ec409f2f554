/** Choosing between Secret Service and the protected file on Linux, once and for all. */
module CredentialBackends {
  import opened Optional
  datatype Backend = ProtectedFile | SecretService

  type Secret = seq<int>

  function Name(b: Backend): string {
    if b == ProtectedFile then "protected-file" else "secret-service"
  }

  function Other(b: Backend): Backend { if b == ProtectedFile then SecretService else ProtectedFile }

  datatype Command = Select(available: bool) | Put(secret: Secret) | Delete

  class Selector {
    var receipt: Option<string>
    var file: Option<Secret>
    var service: Option<Secret>
    var faults: nat  // calls that failed
    /** Backends some selection returned, and what the last writes may have stored:
        a failed write or deletion may have taken place. */
    ghost var handed: set<Backend>
    ghost var possible: set<Option<Secret>>

    constructor ()
      ensures Valid() && receipt == None && handed == {} && possible == {None}
    {
      receipt, file, service, faults := None, None, None, 0;
      handed, possible := {}, {None};
    }

    function Content(b: Backend): Option<Secret>
      reads this
    {
      if b == ProtectedFile then file else service
    }

    ghost predicate Bound(b: Backend)
      reads this
    {
      receipt == Some(Name(b)) && handed <= {b} && Content(Other(b)) == None && Content(b) in possible
    }

    /** Nothing stored before the first selection; afterwards only the selected
        backend is ever used. */
    ghost predicate Valid()
      reads this
    {
      if receipt == None
      then handed == {} && file == None && service == None && possible == {None}
      else Bound(ProtectedFile) || Bound(SecretService)
    }

    /** When a selection whose calls all work succeeds, in any state at all. */
    ghost predicate Selectable(available: bool)
      reads this
    {
      if receipt == Some("protected-file") then !(available && service.Some?)
      else if receipt == Some("secret-service") then available && file.None?
      else receipt == None && !(file.Some? && available && service.Some?)
    }

    /** In other words: what can be seen to hold credentials is at most the recorded backend, which must be
        usable, or without a record at most one. */
    lemma SelectableExactly(available: bool)
      ensures var seen := (if file.Some? then {ProtectedFile} else {})
                          + (if available && service.Some? then {SecretService} else {});
        Selectable(available) <==>
          if receipt.None? then seen != {ProtectedFile, SecretService}
          else if receipt.value == Name(ProtectedFile) then seen <= {ProtectedFile}
          else receipt.value == Name(SecretService) && available && seen <= {SecretService}
    {
      var seen := (if file.Some? then {ProtectedFile} else {})
                  + (if available && service.Some? then {SecretService} else {});
      assert ProtectedFile in seen <==> file.Some?;
      assert SecretService in seen <==> available && service.Some?;
    }

    method Try() returns (ok: bool)
      modifies this`faults
      ensures faults == old(faults) + if ok then 0 else 1
    {
      ok := *;
      if !ok { faults := faults + 1; }
    }

    method Exists(b: Backend) returns (ok: bool, held: bool)
      modifies this`faults
      ensures ok ==> held == Content(b).Some?
      ensures faults == old(faults) + if ok then 0 else 1
    {
      ok := Try();
      held := ok && Content(b).Some?;
    }

    method SelectBackend(available: bool) returns (chosen: Option<Backend>)
      modifies this
      ensures file == old(file) && service == old(service) && possible == old(possible)
      ensures chosen.Some? <==> faults == old(faults) && old(Selectable(available))
      ensures faults >= old(faults)
      ensures receipt != old(receipt) ==> old(receipt) == None
      ensures chosen.Some? ==> receipt == Some(Name(chosen.value)) && handed == old(handed) + {chosen.value}
      ensures chosen.None? ==> handed == old(handed)
      ensures chosen.Some? ==> Content(Other(chosen.value)).None? || (chosen.value == ProtectedFile && !available)
      ensures chosen.Some? && Content(chosen.value).None? && old(receipt) == None ==>
        chosen.value == if available then SecretService else ProtectedFile
      ensures old(Valid()) ==> Valid()
    {
      var ok := Try();
      if !ok { return None; }
      if receipt.Some? {
        chosen := Recorded(available);
      } else {
        chosen := First(available);
      }
      if chosen.Some? { handed := handed + {chosen.value}; }
    }

    method Recorded(available: bool) returns (chosen: Option<Backend>)
      requires receipt.Some?
      modifies this`faults
      ensures chosen.Some? <==> faults == old(faults) && Selectable(available)
      ensures faults >= old(faults)
      ensures chosen.Some? ==> receipt == Some(Name(chosen.value))
      ensures chosen.Some? ==> Content(Other(chosen.value)).None? || (chosen.value == ProtectedFile && !available)
    {
      var ok, held;
      if receipt.value == "protected-file" {
        if available {
          ok, held := Exists(SecretService);
          if !ok { return None; }
          if held { return None; }
        }
        return Some(ProtectedFile);
      } else if receipt.value == "secret-service" {
        if !available { return None; }
        ok, held := Exists(ProtectedFile);
        if !ok { return None; }
        if held { return None; }
        return Some(SecretService);
      }
      return None;
    }

    method First(available: bool) returns (chosen: Option<Backend>)
      requires receipt == None
      modifies this`receipt, this`faults
      ensures chosen.Some? <==> faults == old(faults) && old(Selectable(available))
      ensures faults >= old(faults)
      ensures receipt == None || receipt == Some(Name(ProtectedFile)) || receipt == Some(Name(SecretService))
      ensures chosen.Some? ==> receipt == Some(Name(chosen.value))
      ensures chosen.Some? ==> Content(Other(chosen.value)).None? || (chosen.value == ProtectedFile && !available)
      ensures chosen.Some? && Content(chosen.value).None? ==>
        chosen.value == if available then SecretService else ProtectedFile
    {
      var ok, inFile := Exists(ProtectedFile);
      if !ok { return None; }
      var inService := false;
      if available {
        ok, inService := Exists(SecretService);
        if !ok { return None; }
      }
      if inFile && inService { return None; }
      var selection := if inService || (!inFile && available) then SecretService else ProtectedFile;
      // The receipt may have been renamed into place although the write reports an error.
      ok := Try();
      var renamed: bool := *;
      if ok || renamed { receipt := Some(Name(selection)); }
      if !ok { return None; }
      return Some(selection);
    }

    /** A write or a deletion (None) through a backend that a selection returned. */
    method Store(b: Backend, value: Option<Secret>) returns (ok: bool)
      requires b in handed
      modifies this
      ensures receipt == old(receipt) && handed == old(handed)
      ensures Content(Other(b)) == old(Content(Other(b)))
      ensures Content(b) == value || (!ok && Content(b) == old(Content(b)))
      ensures possible == if ok then {value} else old(possible) + {value}
      ensures ok <==> faults == old(faults)
      ensures old(Valid()) ==> Valid()
    {
      ok := Try();
      var applied: bool := *;
      if ok || applied {
        if b == ProtectedFile { file := value; } else { service := value; }
      }
      possible := if ok then {value} else possible + {value};
    }

    /** Any sequence of commands, each its own process: all selections that succeed
        agree, one backend at most holds a credential, and if the last write succeeded
        that backend holds what it wrote. */
    method Run(commands: seq<Command>) returns (picks: seq<Backend>, last: Option<Secret>, clean: bool)
      requires Valid() && receipt == None
      modifies this
      ensures Valid()
      ensures forall i | 0 <= i < |picks| :: receipt == Some(Name(picks[i]))
      ensures file == None || service == None
      ensures clean ==> forall i | 0 <= i < |picks| :: Content(picks[i]) == last
    {
      picks, last, clean := [], None, true;
      for i := 0 to |commands|
        invariant Valid()
        invariant forall j | 0 <= j < |picks| :: receipt == Some(Name(picks[j])) && picks[j] in handed
        invariant clean ==> possible == {last}
      {
        match commands[i]
        case Select(available) =>
          var chosen := SelectBackend(available);
          if chosen.Some? { picks := picks + [chosen.value]; }
        case Put(secret) =>
          if picks != [] {
            var ok := Store(picks[|picks| - 1], Some(secret));
            last, clean := Some(secret), ok;
          }
        case Delete =>
          if picks != [] {
            var ok := Store(picks[|picks| - 1], None);
            last, clean := None, ok;
          }
      }
    }
  }
}
