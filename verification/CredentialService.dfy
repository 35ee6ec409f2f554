/** The authentication commands. Every method runs for one process p against a machine and a server
    that other processes use at the same time: between its own effects any permitted action of the
    others may happen, and p itself may die after any effect. */
module CredentialService {
  import opened Optional
  import opened Processes
  import opened CredentialProtocol

  /** Error codes of the API; Other stands for every remaining code and for lost responses. */
  datatype Code =
    | AccessExpired | SessionRevoked | RefreshInvalid | SessionInvalid | DeviceRevoked | DeviceNotFound
    | AuthorizationPending | SlowDown | Other

  /** The codes an honest server gives only for a device that has no live session. */
  predicate Confirms(code: Code) { code.DeviceRevoked? || code.DeviceNotFound? || code.SessionInvalid? }

  /** isDefinitiveCredentialError. */
  predicate Definitive(code: Code) {
    code.SessionInvalid? || code.RefreshInvalid? || code.SessionRevoked? || code.DeviceRevoked?
  }

  /** The codes by name. */
  lemma CodesExactly(code: Code)
    ensures Confirms(code) <==> code in {DeviceRevoked, DeviceNotFound, SessionInvalid}
    ensures Definitive(code) <==> code in {SessionInvalid, RefreshInvalid, SessionRevoked, DeviceRevoked}
  {}

  datatype Reply<+T> = Good(value: T) | Bad(code: Code)

  /** A session as the API returns it. */
  datatype Issued = Issued(device: nat, generation: nat, complete: bool, lifetime: int) {
    /** save refuses a session with a missing field or a lifetime outside 1 second to 24 hours. */
    predicate Storable() { complete && 0 < lifetime <= 24 * 60 * 60 }
  }

  /** Errors as the callers tell them apart: a missing session, an API code found by unwrapping, or
      anything else. */
  datatype Failure = NotFound | Coded(code: Code) | Plain

  datatype Result<+T> = Ok(value: T) | Fail(failure: Failure)

  datatype Call = WhoAmI | ListDevices | RevokeOne(target: nat)

  /** A command's result: the credentials it worked with, if the caller gets them, and its error. */
  datatype Attempt = Attempt(credentials: Option<Credentials>, failure: Option<Failure>)

  datatype Command = Login | Logout | Devices | RevokeDevice(target: nat) | Status

  /** The causes for which a command can be blamed. */
  ghost function Risk(command: Command): set<Cause> {
    match command
    case Login => {Crashed, RetainFailed, Overwritten, ExchangeLost}
    case Status => {DeletedUnconfirmed}
    case _ => {}
  }

  ghost function Risks(commands: seq<Command>): set<Cause> {
    if commands == [] then {} else Risks(commands[..|commands| - 1]) + Risk(commands[|commands| - 1])
  }

  lemma {:induction false} RisksOf(commands: seq<Command>, i: nat)
    requires i < |commands|
    ensures Risk(commands[i]) <= Risks(commands)
  {
    if i < |commands| - 1 { RisksOf(commands[..|commands| - 1], i); }
  }

  lemma {:induction false} NoRisks(commands: seq<Command>)
    requires forall c | c in commands :: !c.Login? && !c.Status?
    ensures Risks(commands) == {}
  {
    if commands != [] {
      assert commands[|commands| - 1] in commands;
      NoRisks(commands[..|commands| - 1]);
    }
  }

  /** A live session's key is stored, or a process still carries it, or the ledger blames another
      process, or p for one of these causes or for what it did before. */
  ghost predicate KeptOrBlamed(before: State, s: State, d: nat, p: nat, causes: set<Cause>) {
    || Revocable(s, d) || (exists q :: HeldBy(s, q, d))
    || (d in s.lost && (
        || s.lost[d].process != p || s.lost[d].cause in causes
        || (d in before.lost && before.lost[d] == s.lost[d])))
  }

  datatype StatusOutcome =
    | Authenticated
    | NotAuthenticated(because: Option<Code>)  // with the code on which credentials were deleted unconfirmed
    | StatusFailed(failure: Failure)

  /** What the process asked for, and whether it was told that it worked. */
  datatype Sent =
    | AskedByToken(device: nat, confirmed: bool)
    | AskedByProof(device: nat, confirmed: bool)
    | SaveTried(device: nat, stored: bool)
    | NoLock(device: nat)
    | Verified(device: nat, known: bool)  // the new session was used to ask who it belongs to

  /** Every way to revoke the session and the retaining save were tried and none was confirmed. */
  predicate GaveUp(log: seq<Sent>, device: nat, stable: bool) {
    && AskedByToken(device, false) in log
    && (stable ==> AskedByProof(device, false) in log)
    && (SaveTried(device, false) in log || NoLock(device) in log)
  }

  lemma GaveUpBy(before: seq<Sent>, log: seq<Sent>, device: nat, stable: bool, last: Sent)
    requires last == SaveTried(device, false) || last == NoLock(device)
    requires log ==
      before + [AskedByToken(device, false)] + (if stable then [AskedByProof(device, false)] else []) + [last]
    ensures GaveUp(log[|before|..], device, stable)
  {
    var added := [AskedByToken(device, false)] + (if stable then [AskedByProof(device, false)] else []) + [last];
    assert log[|before|..] == added;
    assert added[0] == AskedByToken(device, false) && added[|added| - 1] == last;
    if stable { assert added[1] == AskedByProof(device, false); }
  }

  /** What became of an issued session, and whether the login command reports success. */
  datatype LoginResult = LoginResult(success: bool, ending: Option<Ending>)

  /** The losses that p is to blame for between two states have one of these causes. */
  ghost predicate Blames(s: State, t: State, p: nat, causes: set<Cause>) {
    forall d | d in t.lost && t.lost[d].process == p ::
      (d in s.lost && s.lost[d] == t.lost[d]) || t.lost[d].cause in causes
  }

  /** What p's own steps and everybody else's may have changed. A dead process is to blame for at most
      the session it carried. */
  ghost predicate Safe(s: State, t: State, p: nat, died: bool, causes: set<Cause>)
    requires p in s.procs
  {
    && Inv(t) && Evolves(s, t)
    && (if died then p !in t.procs else p in t.procs && t.procs[p] == s.procs[p])
    && Blames(s, t, p, causes + (if died && s.procs[p].Holding? then {Crashed} else {}))
  }

  /** The same while p has the credential lock: nobody else touches the store or the fence. */
  ghost predicate LockSafe(s: State, t: State, p: nat, died: bool, causes: set<Cause>)
    requires p in s.procs
  {
    Safe(s, t, p, died, causes) && t.fence == s.fence && t.unfenced == s.unfenced
  }

  /** Nothing that needs the lock has changed. */
  predicate Untouched(s: State, t: State) { t.store == s.store && t.fence == s.fence && t.unfenced == s.unfenced }

  /** Credentials that were in the store are still there, or the store is empty and the session dead. */
  ghost predicate KeptOrDead(t: State, device: nat, key: nat) {
    || (t.store.Holds? && t.store.credentials.device == device && t.store.credentials.key == key)
    || (t.store.Empty? && !Live(t, device))
  }

  /** The store holds exactly these credentials' device and key. */
  predicate Keeps(t: State, c: Credentials) {
    t.store.Holds? && t.store.credentials.device == c.device && t.store.credentials.key == c.key
  }

  /** The old credentials with the tokens of this session and an expiry that its lifetime gives. */
  ghost predicate Renews(c: Credentials, before: Credentials, session: Issued) {
    exists now: int :: c == before.(generation := session.generation, expires := Add(now, session.lifetime))
  }

  function Add(a: int, b: int): int { a + b }

  predicate Foreign(a: Action, p: nat) {
    match a
    case Spawn => true
    case Kill(_) => true
    case Rotate(_) => true
    case DropFence => true
    case _ => a.p != p
  }

  predicate NeedsLock(a: Action) {
    || a.WriteFence? || a.DropFence? || a.SaveLogin? || a.SaveUnfenced? || a.SaveRotated?
    || a.DeleteDead? || a.DeleteUnconfirmed?
  }

  lemma ForeignStep(s: State, a: Action, p: nat)
    requires Inv(s) && p in s.procs && Enabled(s, a) && Foreign(a, p)
    ensures Safe(s, Apply(s, a), p, false, {})
    ensures !NeedsLock(a) ==> Untouched(s, Apply(s, a))
  {
    InvStep(s, a);
    EvolvesStep(s, a);
  }

  lemma SafeTrans(s: State, t: State, u: State, p: nat, died: bool, causes: set<Cause>)
    requires p in s.procs && Safe(s, t, p, false, causes) && Safe(t, u, p, died, causes)
    ensures Safe(s, u, p, died, causes)
  {}

  lemma SafeWiden(s: State, t: State, p: nat, died: bool, causes: set<Cause>)
    requires p in s.procs && Safe(s, t, p, died, {})
    ensures Safe(s, t, p, died, causes)
  {}

  lemma Widen(s: State, t: State, p: nat, died: bool, causes: set<Cause>, wider: set<Cause>)
    requires p in s.procs && Safe(s, t, p, died, causes) && causes <= wider
    ensures Safe(s, t, p, died, wider)
  {}

  ghost function DeletionCauses(a: Action): set<Cause> { if a.DeleteUnconfirmed? then {DeletedUnconfirmed} else {} }

  lemma DeletionStep(s: State, a: Action, p: nat)
    requires Inv(s) && p in s.procs && Enabled(s, a) && (a == DeleteDead(p) || a == DeleteUnconfirmed(p))
    ensures LockSafe(s, Apply(s, a), p, false, DeletionCauses(a)) && Apply(s, a).store.Empty?
  {
    InvStep(s, a);
    EvolvesStep(s, a);
  }

  predicate IsSave(a: Action, p: nat) { (a.SaveLogin? || a.SaveUnfenced? || a.SaveRotated?) && a.p == p }

  /** A save costs another session its place exactly where it replaces one. */
  ghost function SaveCauses(s: State, a: Action, p: nat): set<Cause> {
    if !a.SaveRotated? then ReplaceCauses(s, p) else {}
  }

  ghost function ReplaceCauses(s: State, p: nat): set<Cause> { if Replaces(s, p) then {Overwritten} else {} }

  lemma SaveStep(s: State, a: Action, p: nat)
    requires Inv(s) && p in s.procs && Enabled(s, a) && IsSave(a, p)
    ensures Safe(s, Apply(s, a), p, false, SaveCauses(s, a, p)) && Apply(s, a).fence == s.fence
    ensures Replaces(s, p) && !a.SaveRotated? ==> s.store.credentials.device in Apply(s, a).lost
  {
    InvStep(s, a);
    EvolvesStep(s, a);
    if !a.SaveRotated? { SaveReplacesExactly(s, a); }
  }

  /** Like Safe for steps that change p's own login: nothing is said about p's entry. */
  ghost predicate Sound(s: State, t: State, p: nat, causes: set<Cause>) {
    Inv(t) && Evolves(s, t) && Blames(s, t, p, causes)
  }

  lemma SoundTrans(s: State, t: State, u: State, p: nat, causes: set<Cause>)
    requires Sound(s, t, p, causes) && Sound(t, u, p, causes)
    ensures Sound(s, u, p, causes)
  {}

  lemma SafeIsSound(s: State, t: State, p: nat, died: bool, causes: set<Cause>, wider: set<Cause>)
    requires p in s.procs && Safe(s, t, p, died, causes)
    requires causes <= wider && (s.procs[p].Holding? ==> Crashed in wider)
    ensures Sound(s, t, p, wider)
  {}

  /** Steps of p that change only its own login record or the fence. */
  lemma LoginStep(s: State, a: Action, p: nat)
    requires Inv(s) && p in s.procs && Enabled(s, a)
    requires
      || a == DropFence || a == Issue(p) || a == IssueLost(p) || a == End(p)
      || ((a.WriteFence? || a.Settle?) && a.p == p)
    ensures Sound(s, Apply(s, a), p, if a.IssueLost? then {ExchangeLost} else if a.Settle? then {RetainFailed} else {})
    ensures Apply(s, a).store == s.store && p in Apply(s, a).procs
  {
    InvStep(s, a);
    EvolvesStep(s, a);
  }

  class Machine {
    var s: State
    var now: int
    var log: seq<Sent>  // of the process that is followed
    var faults: nat     // calls of that process that failed, were refused or found its fence lost
    const stable: bool  // the API offers revocation by device proof

    ghost predicate Valid()
      reads this
    {
      Inv(s)
    }

    // ---- Effects ----

    method Do(a: Action)
      requires Valid() && Enabled(s, a)
      modifies this`s
      ensures Valid() && s == Apply(old(s), a) && Evolves(old(s), s)
    {
      InvStep(s, a);
      EvolvesStep(s, a);
      s := Apply(s, a);
    }

    /** Any finite sequence of steps of the other processes and of the server, and time passing. */
    method Others(p: nat, locked: bool)
      requires Valid() && p in s.procs
      modifies this
      ensures Safe(old(s), s, p, false, {})
      ensures locked ==> Untouched(old(s), s)
      ensures log == old(log)
      ensures faults == old(faults)
    {
      now := *;
      var n: nat := *;
      while n > 0
        invariant Safe(old(s), s, p, false, {})
        invariant log == old(log) && faults == old(faults) && (locked ==> Untouched(old(s), s))
      {
        n := n - 1;
        var a: Action := *;
        if Enabled(s, a) && Foreign(a, p) && (locked ==> !NeedsLock(a)) {
          ForeignStep(s, a, p);
          SafeTrans(old(s), s, Apply(s, a), p, false, {});
          s := Apply(s, a);
        }
      }
    }

    method MayDie(p: nat) returns (r: Step<()>)
      requires Valid() && p in s.procs
      modifies this`s
      ensures LockSafe(old(s), s, p, r.Died?, {}) && s.store == old(s.store)
      ensures r.Done? ==> s == old(s)
    {
      if * {
        Do(Die(p));
        return Died;
      }
      return Done(());
    }

    /** A call that works or does not: the credential lock, the authorization request, the verification. */
    method Try() returns (ok: bool)
      modifies this`faults
      ensures faults == old(faults) + if ok then 0 else 1
    {
      ok := *;
      if !ok { faults := faults + 1; }
    }

    /** GetCurrentUser with the new session. */
    method Verify(device: nat) returns (known: bool)
      modifies this`faults, this`log
      ensures faults == old(faults) + if known then 0 else 1
      ensures log == old(log) + [Verified(device, known)]
    {
      known := Try();
      log := log + [Verified(device, known)];
    }

    // ---- The credential store ----

    method Load() returns (r: Result<Credentials>)
      modifies this`faults
      ensures r.Ok? ==> s.store == Holds(r.value)
      ensures r == Fail(NotFound) ==> s.store.Empty?
      ensures r.Fail? ==> r.failure.NotFound? || r.failure.Plain?
      ensures faults == old(faults) + if r == Fail(Plain) then 1 else 0
    {
      var readable: bool := *;
      if readable {
        match s.store {
          case Empty => return Fail(NotFound);
          case Holds(c) => return Ok(c);
          case Unreadable =>
        }
      }
      faults := faults + 1;
      return Fail(Plain);
    }

    /** Put may report an error whether or not the new value was written. */
    method Save(p: nat, session: Issued, a: Action) returns (r: Step<bool>)
      requires Valid() && p in s.procs && Enabled(s, a) && IsSave(a, p)
      modifies this`s, this`log, this`faults
      ensures Safe(old(s), s, p, r.Died?, SaveCauses(old(s), a, p)) && s.fence == old(s.fence)
      ensures (s.store == old(s.store) && s.unfenced == old(s.unfenced)) ||
              (s.store == Apply(old(s), a).store && s.unfenced == Apply(old(s), a).unfenced)
      ensures r == Done(true) ==> session.Storable() && s == Apply(old(s), a)
      ensures r == Done(true) && !a.SaveRotated? && Replaces(old(s), p) ==> old(s).store.credentials.device in s.lost
      ensures r.Done? ==> log == old(log) + [SaveTried(session.device, r.value)]
      ensures r == Done(true) ==> session.complete && 0 < session.lifetime <= 24 * 60 * 60
      ensures faults == old(faults) + if r == Done(false) then 1 else 0
    {
      if !session.Storable() {
        log, faults := log + [SaveTried(session.device, false)], faults + 1;
        return Done(false);
      }
      ghost var causes := SaveCauses(s, a, p);
      var written: bool, reported: bool := *, *;
      if written {
        SaveStep(s, a, p);
        Do(a);
      }
      ghost var t := s;
      var m := MayDie(p);
      SafeWiden(t, s, p, m.Died?, causes);
      SafeTrans(old(s), t, s, p, m.Died?, causes);
      if m.Died? { return Died; }
      log := log + [SaveTried(session.device, written && reported)];
      if !(written && reported) { faults := faults + 1; }
      return Done(written && reported);
    }

    /** Delete may report an error whether or not the value was removed. */
    method Remove(p: nat, a: Action) returns (r: Step<bool>)
      requires Valid() && p in s.procs && Enabled(s, a)
      requires a == DeleteDead(p) || a == DeleteUnconfirmed(p)
      modifies this`s, this`faults
      ensures LockSafe(old(s), s, p, r.Died?, DeletionCauses(a))
      ensures s.store == old(s.store) || s.store.Empty?
      ensures r == Done(true) ==> s == Apply(old(s), a)
      ensures r.Done? ==> s == old(s) || s == Apply(old(s), a)
      ensures faults == old(faults) + if r == Done(false) then 1 else 0
    {
      ghost var causes := DeletionCauses(a);
      var removed: bool, reported: bool := *, *;
      if removed {
        DeletionStep(s, a, p);
        Do(a);
      }
      ghost var t := s;
      var m := MayDie(p);
      SafeWiden(t, s, p, m.Died?, causes);
      SafeTrans(old(s), t, s, p, m.Died?, causes);
      if m.Died? { return Died; }
      if !(removed && reported) { faults := faults + 1; }
      return Done(removed && reported);
    }

    // ---- The API ----

    /** An error code for a call made as this device: the confirming codes are true. */
    method Answer(device: nat) returns (code: Code)
      ensures Confirms(code) ==> !Live(s, device)
    {
      code := *;
      if Confirms(code) && Live(s, device) { code := Other; }
    }

    /** The server may take a revocation, if it is authentic. */
    method Ends(p: nat, device: nat, authentic: bool)
      requires Valid() && p in s.procs
      modifies this`s
      ensures Safe(old(s), s, p, false, {}) && Untouched(old(s), s)
    {
      var accepted: bool := *;
      if authentic && accepted {
        ForeignStep(s, Kill({device}), p);
        Do(Kill({device}));
      }
    }

    /** The server may rotate a live session for its own key. */
    method Rotates(p: nat, c: Credentials) returns (rotated: bool)
      requires Valid() && p in s.procs
      modifies this`s
      ensures Safe(old(s), s, p, false, {}) && Untouched(old(s), s)
      ensures rotated ==> c.device in s.sessions
    {
      var accepted: bool := *;
      rotated := accepted && Live(s, c.device) && s.sessions[c.device].key == c.key;
      if rotated {
        ForeignStep(s, Rotate(c.device), p);
        Do(Rotate(c.device));
      }
    }

    /** A revocation: accepted and confirmed, accepted with a lost answer, or refused. */
    method Revocation(p: nat, locked: bool, device: nat, authentic: bool, proof: bool) returns (r: Step<Reply<()>>)
      requires Valid() && p in s.procs
      modifies this
      ensures Safe(old(s), s, p, r.Died?, {}) && (locked ==> Untouched(old(s), s))
      ensures r.Done? && (r.value.Good? || Confirms(r.value.code)) ==> !Live(s, device)
      ensures r.Done? && !proof ==> log == old(log) + [AskedByToken(device, r.value.Good?)]
      ensures r.Done? && proof ==> log == old(log) + [AskedByProof(device, r.value.Good? || Confirms(r.value.code))]
      ensures faults == old(faults) + if r.Done? && r.value.Bad? then 1 else 0
    {
      Others(p, locked);
      var answered: bool := *;
      ghost var t := s;
      Ends(p, device, authentic);
      SafeTrans(old(s), t, s, p, false, {});
      var _ :- MayDie(p);
      var reply := Good(());
      if Live(s, device) || !answered {
        var code := Answer(device);
        reply, faults := Bad(code), faults + 1;
      }
      log := log + [if proof then AskedByProof(device, reply.Good? || Confirms(reply.code))
                    else AskedByToken(device, reply.Good?)];
      return Done(reply);
    }

    /** revokeSessionStable: a nil answer or a confirming code counts as revoked. */
    method RevokeSessionStable(p: nat, locked: bool, device: nat, key: nat) returns (r: Step<bool>)
      requires Valid() && p in s.procs
      modifies this
      ensures Safe(old(s), s, p, r.Died?, {}) && (locked ==> Untouched(old(s), s))
      ensures r == Done(true) ==> !Live(s, device)
      ensures r.Done? ==> log == old(log) + (if stable then [AskedByProof(device, r.value)] else [])
      ensures r == Done(true) ==> stable
      ensures faults >= old(faults)
      ensures r == Done(false) && stable ==> faults > old(faults)
    {
      if !stable { return Done(false); }
      var reply :- Revocation(p, locked, device, device in s.sessions && s.sessions[device].key == key, true);
      return Done(reply.Good? || Confirms(reply.code));
    }

    /** revokeIssuedSession: by access token, then by device proof. */
    method RevokeIssuedSession(p: nat, locked: bool, device: nat, key: nat) returns (r: Step<bool>)
      requires Valid() && p in s.procs
      modifies this
      ensures Safe(old(s), s, p, r.Died?, {}) && (locked ==> Untouched(old(s), s))
      ensures r == Done(true) ==> !Live(s, device)
      ensures r.Done? ==> old(log) <= log
      ensures r == Done(false) ==>
        log == old(log) + [AskedByToken(device, false)] + (if stable then [AskedByProof(device, false)] else [])
      ensures faults >= old(faults)
      ensures r == Done(false) ==> faults > old(faults)
      ensures r.Done? ==> |log| > |old(log)| && old(log) <= log && log[|old(log)|].AskedByToken?
    {
      var reply :- Revocation(p, locked, device, true, false);
      if reply.Good? { return Done(true); }
      ghost var t := s;
      r := RevokeSessionStable(p, locked, device, key);
      SafeTrans(old(s), t, s, p, r.Died?, {});
    }

    /** RefreshSession may rotate the session and still report an error. */
    method Refresh(p: nat, c: Credentials) returns (r: Step<Reply<Issued>>)
      requires Valid() && p in s.procs
      modifies this
      ensures LockSafe(old(s), s, p, r.Died?, {}) && s.store == old(s.store)
      ensures r.Done? && r.value.Good? ==> r.value.value.device == c.device
      ensures r.Done? && r.value.Bad? && Confirms(r.value.code) ==> !Live(s, c.device)
      ensures r.Done? && r.value.Good? ==>
        c.device in s.sessions && r.value.value.generation == s.sessions[c.device].generation
      ensures faults == old(faults) + if r.Done? && r.value.Bad? then 1 else 0
      ensures log == old(log)
    {
      Others(p, true);
      ghost var t := s;
      var answered: bool := *;
      var rotated := Rotates(p, c);
      SafeTrans(old(s), t, s, p, false, {});
      var _ :- MayDie(p);
      if rotated && answered {
        var complete: bool := *;
        var lifetime: int := *;
        return Done(Good(Issued(c.device, s.sessions[c.device].generation, complete, lifetime)));
      }
      var code := Answer(c.device);
      faults := faults + 1;
      return Done(Bad(code));
    }

    // ---- Refreshing, under the lock ----

    method RefreshCredentialsLocked(p: nat, c: Credentials) returns (r: Step<Result<Credentials>>)
      requires Valid() && p in s.procs && s.store == Holds(c)
      modifies this
      ensures LockSafe(old(s), s, p, r.Died?, {}) && KeptOrDead(s, c.device, c.key)
      ensures r.Done? && r.value.Ok? ==>
        s.store == Holds(r.value.value) && r.value.value.device == c.device && r.value.value.key == c.key
      ensures r == Done(Fail(NotFound)) ==> s.store.Empty? && !Live(s, c.device)
      ensures r.Done? && r.value.Fail? && r.value.failure.Coded? ==>
        s.store == old(s.store) && !r.value.failure.code.SessionInvalid? && !r.value.failure.code.DeviceRevoked?
      ensures faults >= old(faults)
      ensures r.Done? && r.value.Fail? ==> faults > old(faults)
      ensures r.Done? && r.value.Ok? ==>
        c.device in s.sessions && r.value.value.generation == s.sessions[c.device].generation
      ensures r.Done? ==> old(log) <= log
      ensures r.Done? && r.value.Fail? && r.value.failure.Coded? && stable ==>
        (r.value.failure.code.SessionRevoked? || r.value.failure.code.RefreshInvalid? ==>
          AskedByProof(c.device, false) in log[|old(log)|..])
    {
      var reply :- Refresh(p, c);
      ghost var t := s;
      if reply.Bad? {
        var code := reply.code;
        if code.SessionRevoked? || code.RefreshInvalid? {
          var revoked := RevokeSessionStable(p, true, c.device, c.key);
          SafeTrans(old(s), t, s, p, revoked.Died?, {});
          if revoked.Died? { return Died; }
          if !revoked.value { return Done(Fail(Coded(code))); }
          r := ForgetDead(p, c);
          return;
        }
        if Definitive(code) {
          r := ForgetDead(p, c);
          return;
        }
        return Done(Fail(Coded(code)));
      }
      r := StoreRotated(p, c, reply.value);
      SafeTrans(old(s), t, s, p, r.Died?, {});
    }

    /** The session is known to be dead: drop its credentials and report it missing. */
    method ForgetDead(p: nat, c: Credentials) returns (r: Step<Result<Credentials>>)
      requires Valid() && p in s.procs && s.store == Holds(c) && !Live(s, c.device)
      modifies this`s, this`faults
      ensures LockSafe(old(s), s, p, r.Died?, {}) && KeptOrDead(s, c.device, c.key)
      ensures r == Done(Fail(NotFound)) || r == Done(Fail(Plain)) || r == Died
      ensures r == Done(Fail(NotFound)) ==> s.store.Empty? && !Live(s, c.device)
      ensures faults >= old(faults)
    {
      var ok :- Remove(p, DeleteDead(p));
      return Done(Fail(if ok then NotFound else Plain));
    }

    method StoreRotated(p: nat, c: Credentials, session: Issued) returns (r: Step<Result<Credentials>>)
      requires Valid() && p in s.procs && s.store == Holds(c) && session.device == c.device
      modifies this
      ensures LockSafe(old(s), s, p, r.Died?, {}) && KeptOrDead(s, c.device, c.key)
      ensures r.Done? && r.value.Ok? ==>
        s.store == Holds(r.value.value) && r.value.value.device == c.device && r.value.value.key == c.key
      ensures r.Done? && r.value.Fail? ==> r.value.failure.Plain?
      ensures faults >= old(faults)
      ensures r.Done? && r.value.Fail? ==> faults > old(faults)
      ensures r.Done? && r.value.Ok? ==>
        r.value.value == c.(generation := session.generation, expires := old(now) + session.lifetime)
      ensures r.Done? && r.value.Ok? ==> s.sessions == old(s).sessions
      ensures r.Done? ==> old(log) <= log
    {
      var expires := now + session.lifetime;
      var ok :- Save(p, session, SaveRotated(p, session.generation, expires));
      if ok { return Done(Ok(c.(generation := session.generation, expires := expires))); }
      ghost var t := s;
      var cleaned := CleanupRotatedSession(p, c, session);
      SafeTrans(old(s), t, s, p, cleaned.Died?, {});
      if cleaned.Died? { return Died; }
      return Done(Fail(Plain));
    }

    /** The rotated tokens could not be stored; the device key is the same as before, so the old
        credentials still revoke the session. */
    method CleanupRotatedSession(p: nat, c: Credentials, session: Issued) returns (r: Step<()>)
      requires Valid() && p in s.procs && s.store.Holds? && session.device == c.device
      requires s.store.credentials.device == c.device && s.store.credentials.key == c.key
      modifies this
      ensures LockSafe(old(s), s, p, r.Died?, {}) && KeptOrDead(s, c.device, c.key)
      ensures faults >= old(faults)
      ensures s.store.Holds? ==>
        s.store == old(s.store) || Renews(s.store.credentials, old(s).store.credentials, session)
      ensures r.Done? ==> |log| > |old(log)| && old(log) <= log && log[|old(log)|].AskedByToken?
    {
      var revoked :- RevokeIssuedSession(p, true, session.device, c.key);
      ghost var t := s;
      if revoked {
        var m := Remove(p, DeleteDead(p));
        SafeTrans(old(s), t, s, p, m.Died?, {});
        if m.Died? { return Died; }
      } else {
        assert Add(now, session.lifetime) == now + session.lifetime;
        var m := Save(p, session, SaveRotated(p, session.generation, now + session.lifetime));
        SafeTrans(old(s), t, s, p, m.Died?, {});
        if m.Died? { return Died; }
      }
      return Done(());
    }

    method CredentialsLocked(p: nat) returns (r: Step<Result<Credentials>>)
      requires Valid() && p in s.procs
      modifies this
      ensures LockSafe(old(s), s, p, r.Died?, {})
      ensures old(s.store).Holds? ==> KeptOrDead(s, old(s.store).credentials.device, old(s.store).credentials.key)
      ensures !old(s.store).Holds? ==> s.store == old(s.store) && (r.Done? ==> r.value.Fail?)
      ensures r.Done? && r.value.Ok? ==> s.store == Holds(r.value.value) && old(s.store).Holds?
      ensures r.Done? && r.value.Ok? && old(s.store).Holds? ==>
        r.value.value.device == old(s.store).credentials.device && r.value.value.key == old(s.store).credentials.key
      ensures r == Done(Fail(NotFound)) ==> s.store.Empty?
      ensures r == Done(Fail(NotFound)) && old(s.store).Holds? ==> !Live(s, old(s.store).credentials.device)
      ensures r.Done? && r.value.Fail? && r.value.failure.Coded? ==>
        s.store == old(s.store) && s.store.Holds?
        && !r.value.failure.code.SessionInvalid? && !r.value.failure.code.DeviceRevoked?
      ensures faults >= old(faults)
      ensures r.Done? && r.value.Fail? ==> faults > old(faults) || (r.value == Fail(NotFound) && old(s.store).Empty?)
      ensures old(s.store).Holds? && old(s.store).credentials.expires > old(now) + 30 ==>
        s == old(s) && (r == Done(Ok(old(s.store).credentials)) || r == Done(Fail(Plain)))
      ensures r.Done? && r.value.Ok? && old(s.store).credentials.expires <= old(now) + 30 ==>
        r.value.value.device in s.sessions
        && r.value.value.generation == s.sessions[r.value.value.device].generation
    {
      var loaded := Load();
      if loaded.Fail? { return Done(loaded); }
      if loaded.value.expires > now + 30 { return Done(loaded); }
      r := RefreshCredentialsLocked(p, loaded.value);
    }

    // ---- The login fence, under the lock ----

    /** CancelLogin removes whatever login is pending. */
    method CancelLogin(p: nat) returns (r: Step<bool>)
      requires Valid() && p in s.procs
      modifies this`s, this`faults
      ensures Safe(old(s), s, p, r.Died?, {}) && s.store == old(s.store)
      ensures s.unfenced == old(s.unfenced) && (s.fence == old(s.fence) || s.fence.None?)
      ensures r == Done(true) ==> s.fence.None?
      ensures faults == old(faults) + if r == Done(false) then 1 else 0
    {
      var readable: bool := *;
      if !readable {
        faults := faults + 1;
        return Done(false);
      }
      if s.fence.None? { return Done(true); }
      ForeignStep(s, DropFence, p);
      Do(DropFence);
      ghost var t := s;
      var m := MayDie(p);
      SafeTrans(old(s), t, s, p, m.Died?, {});
      if m.Died? { return Died; }
      var reported: bool := *;
      if !reported { faults := faults + 1; }
      return Done(reported);
    }

    /** ClaimLogin: a fence that has not expired and whose process is alive is never removed. */
    method ClaimLogin(p: nat, lifetime: int) returns (r: Step<bool>)
      requires Valid() && p in s.procs && s.procs[p].NoLogin? && s.store.Empty?
      modifies this`s, this`faults
      ensures Sound(old(s), s, p, {}) && s.unfenced == old(s.unfenced)
      ensures r.Done? ==> p in s.procs && s.store.Empty?
      ensures r == Done(true) ==> HasFence(s, p) && s.procs[p].Claimed? && s.procs[p].epoch == s.unfenced
      ensures r == Done(true) ==> s.fence.value.process == p && s.fence.value.expires == now + lifetime
      ensures r == Done(false) ==> s.procs[p].NoLogin?
      ensures old(s.fence).Some? && old(s.fence).value.expires > now && old(s.fence).value.process in old(s.procs) ==>
        s == old(s) && r == Done(false)
      ensures faults >= old(faults)
      ensures r == Done(false) ==> faults > old(faults) || (old(s.fence).Some? && old(s.fence).value.expires > now)
    {
      var readable: bool := *;
      if !readable {
        faults := faults + 1;
        return Done(false);
      }
      if s.fence.Some? {
        var reused: bool := *;
        var alive := s.fence.value.process in s.procs || reused;
        if s.fence.value.expires > now && alive { return Done(false); }
        var removed := CancelLogin(p);
        SafeIsSound(old(s), s, p, removed.Died?, {}, {});
        if removed.Died? { return Died; }
        if !removed.value { return Done(false); }
      }
      ghost var t := s;
      r := WriteLoginFence(p, now + lifetime);
      SoundTrans(old(s), t, s, p, {});
    }

    /** The new fence may be in place although writing it reported an error. */
    method WriteLoginFence(p: nat, expires: int) returns (r: Step<bool>)
      requires Valid() && p in s.procs && s.procs[p].NoLogin? && s.store.Empty? && s.fence.None?
      modifies this`s, this`faults
      ensures Sound(old(s), s, p, {}) && s.unfenced == old(s.unfenced) && s.store.Empty?
      ensures r.Done? ==> p in s.procs
      ensures r == Done(true) ==> HasFence(s, p) && s.procs[p].Claimed? && s.procs[p].epoch == s.unfenced
      ensures r == Done(true) ==> s.fence.value.process == p && s.fence.value.expires == expires
      ensures r == Done(false) ==> s.procs[p].NoLogin?
      ensures faults >= old(faults)
      ensures r == Done(false) ==> faults > old(faults)
    {
      var begun: bool := *;
      if !begun {
        faults := faults + 1;
        return Done(false);
      }
      LoginStep(s, WriteFence(p, expires), p);
      Do(WriteFence(p, expires));
      ghost var t := s;
      var m := MayDie(p);
      SafeIsSound(t, s, p, m.Died?, {}, {});
      SoundTrans(old(s), t, s, p, {});
      if m.Died? { return Died; }
      var reported: bool := *;
      if !reported {
        LoginStep(s, End(p), p);
        Do(End(p));
        faults := faults + 1;
        SoundTrans(old(s), t, s, p, {});
      }
      return Done(reported);
    }

    /** VerifyLogin: the record is this login's own and has not expired. */
    method VerifyLogin(p: nat) returns (ok: bool, readable: bool)
      requires p in s.procs && s.procs[p].Holding?
      modifies this`faults
      ensures ok <==> readable && HasFence(s, p) && s.fence.value.process == p && s.fence.value.expires > now
      ensures faults == old(faults) + if ok then 0 else 1
    {
      readable := *;
      ok := readable && s.fence.Some? && s.fence.value.nonce == s.procs[p].nonce
            && s.fence.value.process == p && s.fence.value.expires > now;
      if !ok { faults := faults + 1; }
    }

    /** ReleaseLogin removes only the fence with this login's nonce. */
    method ReleaseLogin(p: nat) returns (r: Step<bool>)
      requires Valid() && p in s.procs && !s.procs[p].NoLogin?
      modifies this`s, this`faults
      ensures Safe(old(s), s, p, r.Died?, {}) && s.store == old(s.store)
      ensures s.fence == old(s.fence) ||
        (s.fence.None? && old(s.fence).Some? && old(s.fence).value.nonce == old(s.procs)[p].nonce)
      ensures r == Done(true) ==> s.fence.None?
      ensures faults == old(faults) + if r == Done(false) then 1 else 0
    {
      var readable: bool := *;
      if !readable {
        faults := faults + 1;
        return Done(false);
      }
      if s.fence.None? { return Done(true); }
      if s.fence.value.nonce != s.procs[p].nonce {
        faults := faults + 1;
        return Done(false);
      }
      r := CancelLogin(p);
    }

    // ---- Commands, under the lock ----

    method Invoke(p: nat, c: Credentials, call: Call) returns (r: Step<Reply<()>>)
      requires Valid() && p in s.procs
      modifies this
      ensures LockSafe(old(s), s, p, r.Died?, {}) && s.store == old(s.store)
      ensures r.Done? && r.value.Bad? && !call.RevokeOne? && Confirms(r.value.code) ==> !Live(s, c.device)
      ensures r.Done? && r.value.Good? && call.RevokeOne? ==> !Live(s, call.target)
      ensures faults == old(faults) + if r.Done? && r.value.Bad? then 1 else 0
    {
      if call.RevokeOne? {
        r := Revocation(p, true, call.target, true, false);
        return;
      }
      Others(p, true);
      var _ :- MayDie(p);
      var accepted: bool := *;
      if accepted { return Done(Good(())); }
      var code := Answer(c.device);
      faults := faults + 1;
      return Done(Bad(code));
    }

    /** One call with the stored access token, and a second one after a refresh if the token expired. */
    method WithAccessRetryLocked(p: nat, call: Call)
      returns (r: Step<Attempt>, ghost answer: Option<Reply<()>>)
      requires Valid() && p in s.procs
      modifies this
      ensures LockSafe(old(s), s, p, r.Died?, {})
      ensures old(s.store).Holds? ==> KeptOrDead(s, old(s.store).credentials.device, old(s.store).credentials.key)
      ensures !old(s.store).Holds? ==> s.store == old(s.store)
      ensures r.Done? && r.value.failure.None? ==> r.value.credentials.Some? && old(s.store).Holds?
      ensures r.Done? && r.value.credentials.Some? ==> s.store == Holds(r.value.credentials.value)
      ensures r.Done? && r.value.failure.None? && call.RevokeOne? ==> !Live(s, call.target)
      ensures r.Done? && r.value.failure == Some(NotFound) ==> s.store.Empty?
      ensures r.Done? && r.value.failure == Some(NotFound) && old(s.store).Holds? ==>
        !Live(s, old(s.store).credentials.device)
      ensures r.Done? && r.value.failure.Some? && r.value.failure.value.Coded? ==>
        old(s.store).Holds? && Keeps(s, old(s.store).credentials)
      ensures r.Done? && r.value.failure.Some? && r.value.failure.value.Coded? && !call.RevokeOne? ==>
        var code := r.value.failure.value.code;
        (code.SessionInvalid? || code.DeviceRevoked?) && s.store.Holds? ==> !Live(s, s.store.credentials.device)
      ensures faults >= old(faults)
      ensures r.Done? ==> (r.value.failure.None? <==> answer.Some? && answer.value.Good?)
      ensures r.Done? && r.value.failure.Some? ==>
        faults > old(faults) || (r.value.failure == Some(NotFound) && old(s.store).Empty?)
      ensures r.Done? && r.value.failure.None? ==> Keeps(s, old(s.store).credentials)
      ensures r.Done? && r.value.failure == Some(Coded(AccessExpired)) ==>
        faults >= old(faults) + 2 || old(s.store).credentials.expires <= old(now) + 30
    {
      answer := None;
      var got := CredentialsLocked(p);
      if got.Died? { return Died, None; }
      var first := got.value;
      if first.Fail? { return Done(Attempt(None, Some(first.failure))), None; }
      var c := first.value;
      ghost var t := s;
      var reply := Invoke(p, c, call);
      SafeTrans(old(s), t, s, p, reply.Died?, {});
      if reply.Died? { return Died, None; }
      answer := Some(reply.value);
      if reply.value.Good? { return Done(Attempt(Some(c), None)), answer; }
      if !reply.value.code.AccessExpired? { return Done(Attempt(Some(c), Some(Coded(reply.value.code)))), answer; }
      r, answer := RetryAfterRefresh(p, c, call);
    }

    method RetryAfterRefresh(p: nat, c: Credentials, call: Call)
      returns (r: Step<Attempt>, ghost answer: Option<Reply<()>>)
      requires Valid() && p in s.procs && s.store == Holds(c)
      modifies this
      ensures LockSafe(old(s), s, p, r.Died?, {}) && KeptOrDead(s, c.device, c.key)
      ensures r.Done? && r.value.failure.None? ==> r.value.credentials.Some?
      ensures r.Done? && r.value.credentials.Some? ==> s.store == Holds(r.value.credentials.value) && Keeps(s, c)
      ensures r.Done? && r.value.failure.None? && call.RevokeOne? ==> !Live(s, call.target)
      ensures r.Done? && r.value.failure == Some(NotFound) ==> s.store.Empty? && !Live(s, c.device)
      ensures r.Done? && r.value.failure.Some? && r.value.failure.value.Coded? ==> Keeps(s, c)
      ensures r.Done? && r.value.failure.Some? && r.value.failure.value.Coded? && !call.RevokeOne? ==>
        var code := r.value.failure.value.code;
        code.SessionInvalid? || code.DeviceRevoked? ==> !Live(s, c.device)
      ensures faults >= old(faults)
      ensures r.Done? ==> (r.value.failure.None? <==> answer.Some? && answer.value.Good?)
      ensures r.Done? && r.value.failure.Some? ==> faults > old(faults)
      ensures r.Done? && r.value.failure == Some(Coded(AccessExpired)) ==> faults > old(faults)
    {
      answer := None;
      var got := RefreshCredentialsLocked(p, c);
      if got.Died? { return Died, None; }
      var second := got.value;
      if second.Fail? { return Done(Attempt(None, Some(second.failure))), None; }
      ghost var t := s;
      var reply := Invoke(p, second.value, call);
      SafeTrans(old(s), t, s, p, reply.Died?, {});
      if reply.Died? { return Died, None; }
      answer := Some(reply.value);
      if reply.value.Bad? { return Done(Attempt(Some(second.value), Some(Coded(reply.value.code)))), answer; }
      return Done(Attempt(Some(second.value), None)), answer;
    }

    /** Logout: without an error the store is empty and the session that was stored is dead; with an
        error, or a death on the way, the credentials are kept or the session is dead. */
    method LogoutLocked(p: nat) returns (r: Step<Option<Failure>>)
      requires Valid() && p in s.procs
      modifies this
      ensures Safe(old(s), s, p, r.Died?, {})
      ensures old(s.store).Holds? ==> KeptOrDead(s, old(s.store).credentials.device, old(s.store).credentials.key)
      ensures r == Done(None) ==> s.store.Empty?
      ensures r == Done(None) && old(s.store).Holds? ==> !Live(s, old(s.store).credentials.device)
      ensures faults >= old(faults)
      ensures r.Done? && r.value.Some? ==> faults > old(faults)
      ensures r == Done(None) && !old(s.store).Holds? ==> s.fence.None?
    {
      var first :- CredentialsLocked(p);
      ghost var t := s;
      if first.Fail? {
        if !first.failure.NotFound? { return Done(Some(first.failure)); }
        var m := CancelLogin(p);
        SafeTrans(old(s), t, s, p, m.Died?, {});
        if m.Died? { return Died; }
        return Done(if m.value then None else Some(Plain));
      }
      var c := first.value;
      var revoked;
      if stable {
        revoked := RevokeSessionStable(p, true, c.device, c.key);
      } else {
        var reply := Revocation(p, true, c.device, true, false);
        revoked := if reply.Died? then Died else Done(reply.value.Good?);
      }
      SafeTrans(old(s), t, s, p, revoked.Died?, {});
      if revoked.Died? { return Died; }
      if !revoked.value { return Done(Some(Plain)); }
      ghost var u := s;
      var m := Remove(p, DeleteDead(p));
      SafeTrans(old(s), u, s, p, m.Died?, {});
      if m.Died? { return Died; }
      return Done(if m.value then None else Some(Plain));
    }

    method DevicesLocked(p: nat) returns (r: Step<Option<Failure>>)
      requires Valid() && p in s.procs
      modifies this
      ensures LockSafe(old(s), s, p, r.Died?, {})
      ensures old(s.store).Holds? ==> KeptOrDead(s, old(s.store).credentials.device, old(s.store).credentials.key)
      ensures r == Done(None) ==> old(s.store).Holds? && s.store.Holds?
      ensures faults >= old(faults)
      ensures r.Done? && r.value.Some? ==> faults > old(faults) || (r == Done(Some(NotFound)) && old(s.store).Empty?)
    {
      var a, _ := WithAccessRetryLocked(p, ListDevices);
      return if a.Died? then Died else Done(a.value.failure);
    }

    /** Without an error the device is dead, and its credentials are gone if they were the stored ones. */
    method RevokeDeviceLocked(p: nat, target: nat) returns (r: Step<Option<Failure>>)
      requires Valid() && p in s.procs
      modifies this
      ensures LockSafe(old(s), s, p, r.Died?, {})
      ensures old(s.store).Holds? ==> KeptOrDead(s, old(s.store).credentials.device, old(s.store).credentials.key)
      ensures r == Done(None) ==> !Live(s, target) && old(s.store).Holds?
      ensures r == Done(None) && old(s.store).Holds? ==> (s.store.Empty? <==> target == old(s.store).credentials.device)
      ensures faults >= old(faults)
      ensures r.Done? && r.value.Some? ==> faults > old(faults) || (r == Done(Some(NotFound)) && old(s.store).Empty?)
    {
      var got, _ := WithAccessRetryLocked(p, RevokeOne(target));
      if got.Died? { return Died; }
      var a := got.value;
      if a.failure.Some? { return Done(a.failure); }
      if target == a.credentials.value.device {
        ghost var t := s;
        var m := Remove(p, DeleteDead(p));
        SafeTrans(old(s), t, s, p, m.Died?, {});
        if m.Died? { return Died; }
        return Done(if m.value then None else Some(Plain));
      }
      return Done(None);
    }

    /** Status deletes the stored credentials on a definitive error, `acted`, without looking whether the
        session is dead. However the command ends, a live session is lost by that only on
        refresh_invalid, and then it always is: session_invalid and device_revoked mean that it is dead,
        and session_revoked is confirmed by a device proof first. */
    method StatusLocked(p: nat)
      returns (r: Step<StatusOutcome>, ghost acted: Option<Code>, ghost at: State, ghost answer: Option<Reply<()>>)
      requires Valid() && p in s.procs
      modifies this
      ensures Safe(old(s), s, p, r.Died?, if acted == Some(RefreshInvalid) then {DeletedUnconfirmed} else {})
      ensures acted.Some? ==> Definitive(acted.value) && !acted.value.SessionRevoked?
      ensures r.Done? && r.value.NotAuthenticated? ==> s.store.Empty? && r.value.because == acted
      ensures r.Done? && r.value.NotAuthenticated? && acted == Some(RefreshInvalid) ==>
        Safe(old(s), at, p, false, {}) && Enabled(at, DeleteUnconfirmed(p)) && s == Apply(at, DeleteUnconfirmed(p))
      ensures r.Done? && r.value.NotAuthenticated? && old(s.store).Holds? ==>
        (Live(s, old(s.store).credentials.device) ==>
          acted == Some(RefreshInvalid) && old(s.store).credentials.device in s.lost)
      ensures faults >= old(faults)
      ensures r.Done? ==> (r.value == Authenticated <==> answer.Some? && answer.value.Good?)
      ensures r == Done(Authenticated) ==> old(s.store).Holds? && Keeps(s, old(s.store).credentials)
      ensures r.Done? && old(s.store).Empty? ==> r.value == NotAuthenticated(None) || r.value.StatusFailed?
      ensures r.Done? && r.value.StatusFailed? ==> faults > old(faults)
    {
      acted := None;
      var attempt;
      attempt, answer := WithAccessRetryLocked(p, WhoAmI);
      at := s;
      if attempt.Died? { return Died, None, at, answer; }
      var a := attempt.value;
      if a.failure.None? { return Done(Authenticated), None, at, answer; }
      var f := a.failure.value;
      if f.NotFound? { return Done(NotAuthenticated(None)), None, at, answer; }
      if !f.Coded? { return Done(StatusFailed(f)), None, at, answer; }
      if f.code.SessionRevoked? {
        r := ConfirmAndForget(p, a.credentials);
        SafeTrans(old(s), at, s, p, r.Died?, {});
        return;
      }
      if !Definitive(f.code) { return Done(StatusFailed(f)), None, at, answer; }
      acted := Some(f.code);
      ghost var causes := if f.code.RefreshInvalid? then {DeletedUnconfirmed} else {};
      r := ForgetUnconfirmed(p, f.code);
      Widen(old(s), at, p, false, {}, causes);
      SafeTrans(old(s), at, s, p, r.Died?, causes);
    }

    /** session_revoked: a failed refresh leaves empty credentials, whose proof cannot be made. */
    method ConfirmAndForget(p: nat, credentials: Option<Credentials>) returns (r: Step<StatusOutcome>)
      requires Valid() && p in s.procs && s.store.Holds?
      requires credentials.Some? ==> s.store == Holds(credentials.value)
      modifies this
      ensures LockSafe(old(s), s, p, r.Died?, {})
      ensures r.Done? ==> r.value.NotAuthenticated? || r.value.StatusFailed?
      ensures r.Done? && r.value.NotAuthenticated? ==>
        r.value.because.None? && s.store.Empty? && !Live(s, old(s.store).credentials.device)
      ensures faults >= old(faults)
    {
      if credentials.None? { return Done(StatusFailed(Plain)); }
      var c := credentials.value;
      var revoked :- RevokeSessionStable(p, true, c.device, c.key);
      if !revoked { return Done(StatusFailed(Plain)); }
      ghost var t := s;
      var m := Remove(p, DeleteDead(p));
      SafeTrans(old(s), t, s, p, m.Died?, {});
      if m.Died? { return Died; }
      return Done(if m.value then NotAuthenticated(None) else StatusFailed(Plain));
    }

    /** The deletion is a safe one exactly when the session is dead, which the code does not check. */
    method ForgetUnconfirmed(p: nat, code: Code) returns (r: Step<StatusOutcome>)
      requires Valid() && p in s.procs && s.store.Holds?
      requires code.SessionInvalid? || code.DeviceRevoked? ==> !Live(s, s.store.credentials.device)
      requires code.SessionInvalid? || code.DeviceRevoked? || code.RefreshInvalid?
      modifies this
      ensures LockSafe(old(s), s, p, r.Died?, if code.RefreshInvalid? then {DeletedUnconfirmed} else {})
      ensures r.Done? ==> r.value == NotAuthenticated(Some(code)) || r.value.StatusFailed?
      ensures r.Done? && r.value.NotAuthenticated? ==> s.store.Empty?
      ensures r.Done? && r.value.NotAuthenticated? && code.RefreshInvalid? ==> s == Apply(old(s), DeleteUnconfirmed(p))
      ensures r.Done? && r.value.NotAuthenticated? && Live(s, old(s.store).credentials.device) ==>
        code.RefreshInvalid? && old(s.store).credentials.device in s.lost
      ensures faults >= old(faults)
    {
      var a := if code.RefreshInvalid? then DeleteUnconfirmed(p) else DeleteDead(p);
      var ok := Remove(p, a);
      if ok.Died? { return Died; }
      return Done(if ok.value then NotAuthenticated(Some(code)) else StatusFailed(Plain));
    }

    // ---- Logging in ----

    /** BeginLogin: on success the process has claimed the fence; otherwise it has no login, and its own
        fence is released unless the release itself failed. */
    method BeginLogin(p: nat)
      returns (r: Step<bool>, ghost at: State, ghost clock: int,
      ghost claim: Option<Fence>)
      requires Valid() && p in s.procs && s.procs[p].NoLogin?
      modifies this
      ensures Sound(old(s), s, p, {})
      ensures r.Done? ==> p in s.procs && (if r.value then s.procs[p].Claimed? else s.procs[p].NoLogin?)
      ensures faults >= old(faults)
      ensures Safe(old(s), at, p, false, {})
      ensures r == Done(false) ==>
        faults > old(faults) || at.store.Holds? || (at.fence.Some? && at.fence.value.expires > clock)
      ensures r == Done(true) ==> at.store.Empty? && claim.Some? && claim.value.process == p
      ensures r == Done(true) ==> claim.value.nonce == s.procs[p].nonce && claim.value.expires == clock + 15 * 60
    {
      Others(p, false);
      at, clock, claim := s, now, None;
      var locked := Try();
      if !locked { return Done(false), at, clock, claim; }
      var loaded := Load();
      if loaded != Fail(NotFound) { return Done(false), at, clock, claim; }
      ghost var t := s;
      var claimed := ClaimLogin(p, 15 * 60);
      SoundTrans(old(s), t, s, p, {});
      if claimed.Died? { return Died, at, clock, claim; }
      if !claimed.value { return Done(false), at, clock, claim; }
      claim := s.fence;
      ghost var u := s;
      Others(p, false);
      SoundTrans(old(s), u, s, p, {});
      var authorized := Try();
      if authorized { return Done(true), at, clock, claim; }
      ghost var v := s;
      var done := LeaveLogin(p);
      SoundTrans(old(s), v, s, p, {});
      if done.Died? { return Died, at, clock, claim; }
      return Done(false), at, clock, claim;
    }

    /** The deferred release of the fence, after which the login attempt is over. */
    method LeaveLogin(p: nat) returns (r: Step<bool>)
      requires Valid() && p in s.procs && !s.procs[p].NoLogin? && !s.procs[p].Holding?
      modifies this
      ensures Sound(old(s), s, p, {}) && log == old(log)
      ensures r.Done? ==> p in s.procs && s.procs[p].NoLogin?
      ensures faults >= old(faults)
      ensures r == Done(false) ==> faults > old(faults)
      ensures r == Done(true) ==> s.fence.None?
    {
      Others(p, false);
      ghost var t := s;
      var locked := Try();
      var released := Done(false);
      if locked {
        released := ReleaseLogin(p);
        SafeIsSound(t, s, p, released.Died?, {}, {});
        SoundTrans(old(s), t, s, p, {});
        if released.Died? { return Died; }
      }
      ghost var u := s;
      LoginStep(s, End(p), p);
      Do(End(p));
      SoundTrans(old(s), u, s, p, {});
      return released;
    }

    /** One exchange: a session, a session whose answer is lost, or an error. */
    method Exchange(p: nat) returns (r: Step<Reply<Issued>>)
      requires Valid() && p in s.procs && s.procs[p].Claimed?
      modifies this
      ensures Sound(old(s), s, p, {ExchangeLost, Crashed}) && log == old(log)
      ensures r.Done? ==> p in s.procs
      ensures r.Done? && r.value.Bad? ==> s.procs[p] == old(s.procs)[p]
      ensures r.Done? && r.value.Good? ==> s.procs[p].Holding? && r.value.value.device == s.procs[p].device
      ensures r.Done? && r.value.Good? ==> s.procs[p].key == old(s).procs[p].key
      ensures r.Done? && r.value.Good? ==> r.value.value.generation == s.sessions[s.procs[p].device].generation
      ensures faults == old(faults) + if r.Done? && r.value.Bad? then 1 else 0
    {
      Others(p, false);
      ghost var t := s;
      var created: bool, answered: bool := *, *;
      if created {
        var a := if answered then Issue(p) else IssueLost(p);
        LoginStep(s, a, p);
        Do(a);
      }
      assert Sound(t, s, p, {ExchangeLost, Crashed});
      SoundTrans(old(s), t, s, p, {ExchangeLost, Crashed});
      ghost var u := s;
      var m := MayDie(p);
      SafeIsSound(u, s, p, m.Died?, {}, {ExchangeLost, Crashed});
      SoundTrans(old(s), u, s, p, {ExchangeLost, Crashed});
      if m.Died? { return Died; }
      if created && answered {
        var complete: bool, lifetime: int := *, *;
        return Done(Good(Issued(s.procs[p].device, 0, complete, lifetime)));
      }
      var code: Code := *;
      faults := faults + 1;
      return Done(Bad(code));
    }

    /** cleanupIssuedSession, under the lock: revoke, or keep what can revoke later. */
    method CleanupIssuedSession(p: nat, session: Issued, stored: bool, fenced: bool) returns (r: Step<Ending>)
      requires Valid() && p in s.procs && s.procs[p].Holding? && session.device == s.procs[p].device
      requires stored ==> s.store.Holds? && s.store.credentials.device == session.device
      requires stored ==> s.store.credentials.key == s.procs[p].key
      requires stored ==> s.store.credentials.generation == session.generation
      requires fenced ==> HasFence(s, p)
      modifies this
      ensures Safe(old(s), s, p, r.Died?, ReplaceCauses(old(s), p))
      ensures r.Done? && r.value.InStore? ==> Revocable(s, session.device)
      ensures r == Done(InStore) && Replaces(old(s), p) && Live(s, old(s).store.credentials.device) ==>
        old(s).store.credentials.device in s.lost
      ensures r.Done? && r.value.Revoked? ==> !Live(s, session.device)
      ensures r.Done? ==> old(log) <= log
      ensures r.Done? && r.value.Abandoned? ==> GaveUp(log[|old(log)|..], session.device, stable)
      ensures faults >= old(faults)
      ensures r.Done? && r.value.InStore? ==> s.store.credentials.generation == session.generation
      ensures r.Done? ==> |log| > |old(log)| && old(log) <= log && log[|old(log)|].AskedByToken?
    {
      ghost var causes := ReplaceCauses(s, p);
      var revoked := RevokeIssuedSession(p, true, session.device, s.procs[p].key);
      SafeWiden(old(s), s, p, revoked.Died?, causes);
      if revoked.Died? { return Died; }
      ghost var t := s;
      if revoked.value {
        if stored {
          var m := Remove(p, DeleteDead(p));
          SafeWiden(t, s, p, m.Died?, causes);
          SafeTrans(old(s), t, s, p, m.Died?, causes);
          if m.Died? { return Died; }
        }
        return Done(Revoked);
      }
      if stored { return Done(InStore); }
      if Replaces(s, p) { ReplacesFades(old(s), s, p); }
      r := Retain(p, session, fenced);
      SafeTrans(old(s), t, s, p, r.Died?, causes);
      if r == Done(Abandoned) { GaveUpBy(old(log), log, session.device, stable, SaveTried(session.device, false)); }
    }

    /** The retaining save: stored, or given up. */
    method Retain(p: nat, session: Issued, fenced: bool) returns (r: Step<Ending>)
      requires Valid() && p in s.procs && s.procs[p].Holding? && session.device == s.procs[p].device
      requires fenced ==> HasFence(s, p)
      modifies this
      ensures Safe(old(s), s, p, r.Died?, ReplaceCauses(old(s), p))
      ensures r.Done? ==> !r.value.Revoked? && log == old(log) + [SaveTried(session.device, r.value.InStore?)]
      ensures r == Done(InStore) ==> Revocable(s, session.device)
      ensures r == Done(InStore) && Replaces(old(s), p) ==> old(s).store.credentials.device in s.lost
      ensures faults >= old(faults)
      ensures r == Done(Abandoned) ==> faults > old(faults)
      ensures r == Done(InStore) ==> s.store == Holds(
        Credentials(session.device, s.procs[p].key, session.generation, old(now) + session.lifetime))
    {
      var expires := now + session.lifetime;
      var a := if fenced then SaveLogin(p, session.generation, expires)
               else SaveUnfenced(p, session.generation, expires);
      var kept :- Save(p, session, a);
      return Done(if kept then InStore else Abandoned);
    }

    /** finishLogin, under the lock and a verified fence. */
    method FinishLogin(p: nat, session: Issued) returns (r: Step<LoginResult>)
      requires Valid() && p in s.procs && s.procs[p].Holding? && session.device == s.procs[p].device && HasFence(s, p)
      modifies this
      ensures Safe(old(s), s, p, r.Died?, ReplaceCauses(old(s), p))
      ensures r.Done? ==> r.value.ending.Some? && (r.value.success ==> r.value.ending == Some(InStore))
      ensures r.Done? && r.value.ending == Some(InStore) ==> Revocable(s, session.device)
      ensures r.Done? && r.value.ending == Some(Revoked) ==> !Live(s, session.device)
      ensures r.Done? ==> old(log) <= log
      ensures r.Done? && r.value.ending == Some(Abandoned) ==> GaveUp(log[|old(log)|..], session.device, stable)
      ensures faults >= old(faults)
      ensures r.Done? && r.value.ending == Some(InStore) ==> s.store.credentials.generation == session.generation
      ensures r.Done? && !r.value.success ==> faults > old(faults)
      ensures r.Done? && r.value.success ==> s.store == Holds(
        Credentials(session.device, s.procs[p].key, session.generation, old(now) + session.lifetime))
      ensures r.Done? && r.value.success ==> Verified(session.device, true) in log[|old(log)|..]
    {
      ghost var causes := ReplaceCauses(s, p);
      var saved := Save(p, session, SaveLogin(p, session.generation, now + session.lifetime));
      if saved.Died? { return Died; }
      ghost var t := s;
      if saved.value {
        r := VerifyStored(p, session);
        SafeWiden(t, s, p, r.Died?, causes);
        SafeTrans(old(s), t, s, p, r.Died?, causes);
        if r.Done? && r.value.success { assert log[|old(log)|..][1] == Verified(session.device, true); }
        return;
      }
      var cleaned := CleanupIssuedSession(p, session, false, true);
      if Replaces(t, p) { ReplacesFades(old(s), t, p); }
      assert Safe(t, s, p, cleaned.Died?, causes);
      SafeTrans(old(s), t, s, p, cleaned.Died?, causes);
      if cleaned.Died? { return Died; }
      return Done(LoginResult(false, Some(cleaned.value)));
    }

    /** The stored session is used once; if that fails it is cleaned up. */
    method VerifyStored(p: nat, session: Issued) returns (r: Step<LoginResult>)
      requires Valid() && p in s.procs && s.procs[p].Holding? && session.device == s.procs[p].device && HasFence(s, p)
      requires s.store.Holds? && s.store.credentials.device == session.device
      requires s.store.credentials.key == s.procs[p].key && s.store.credentials.generation == session.generation
      modifies this
      ensures Safe(old(s), s, p, r.Died?, {})
      ensures r.Done? ==> r.value.ending.Some? && (r.value.success ==> r.value.ending == Some(InStore))
      ensures r.Done? && r.value.ending == Some(InStore) ==> Revocable(s, session.device)
      ensures r.Done? && r.value.ending == Some(InStore) ==> s.store.credentials.generation == session.generation
      ensures r.Done? && r.value.ending == Some(Revoked) ==> !Live(s, session.device)
      ensures r.Done? ==> |log| > |old(log)| && old(log) <= log
      ensures r.Done? && r.value.ending == Some(Abandoned) ==> GaveUp(log[|old(log)| + 1..], session.device, stable)
      ensures r.Done? && r.value.success ==>
        s.store == old(s.store) && log == old(log) + [Verified(session.device, true)]
      ensures faults >= old(faults) && (r.Done? && !r.value.success ==> faults > old(faults))
    {
      Others(p, true);
      ghost var u := s;
      var known := Verify(session.device);
      if known { return Done(LoginResult(true, Some(InStore))); }
      var cleaned := CleanupIssuedSession(p, session, true, true);
      SafeTrans(old(s), u, s, p, cleaned.Died?, {});
      if cleaned.Died? { return Died; }
      return Done(LoginResult(false, Some(cleaned.value)));
    }

    /** The locked part of CompleteLogin. A login that kept its fence since the claim, with no retaining
        save outside a fence in the meantime, replaces no other session. */
    method FinalizeLocked(p: nat, session: Issued) returns (r: Step<LoginResult>)
      requires Valid() && p in s.procs && s.procs[p].Holding? && session.device == s.procs[p].device
      modifies this
      ensures Safe(old(s), s, p, r.Died?, ReplaceCauses(old(s), p))
      ensures HasFence(old(s), p) && old(s).unfenced == old(s).procs[p].epoch ==> Safe(old(s), s, p, r.Died?, {})
      ensures r.Done? ==> r.value.ending.Some? && (r.value.success ==> r.value.ending == Some(InStore))
      ensures r.Done? && r.value.ending == Some(InStore) ==> Revocable(s, session.device)
      ensures r.Done? && r.value.ending == Some(Revoked) ==> !Live(s, session.device)
      ensures r.Done? ==> old(log) <= log
      ensures r.Done? && r.value.ending == Some(Abandoned) ==> GaveUp(log[|old(log)|..], session.device, stable)
      ensures faults >= old(faults)
      ensures r.Done? && r.value.ending == Some(InStore) ==> s.store.credentials.generation == session.generation
      ensures r.Done? && !r.value.success ==> faults > old(faults)
    {
      assert HasFence(s, p) && s.unfenced == s.procs[p].epoch ==> !Replaces(s, p);
      var ok, _ := VerifyLogin(p);
      if ok {
        r := FinishLogin(p, session);
        return;
      }
      var cleaned := CleanupIssuedSession(p, session, false, false);
      if cleaned.Died? { return Died; }
      return Done(LoginResult(false, Some(cleaned.value)));
    }

    /** The credential lock could not be had after the exchange: revoke without it, or try again to
        take it and keep the credentials. */
    method CleanupWithoutLock(p: nat, session: Issued) returns (r: Step<Ending>, ghost at: Option<State>)
      requires Valid() && p in s.procs && s.procs[p].Holding? && session.device == s.procs[p].device
      modifies this
      ensures Safe(old(s), s, p, r.Died?, if at.Some? then ReplaceCauses(at.value, p) else {})
      ensures at.Some? ==> Safe(old(s), at.value, p, false, {})
      ensures r == Done(InStore) ==> at.Some?
      ensures r == Done(InStore) && Replaces(at.value, p) ==> at.value.store.credentials.device in s.lost
      ensures r.Done? && r.value.InStore? ==> Revocable(s, session.device)
      ensures r.Done? && r.value.Revoked? ==> !Live(s, session.device)
      ensures r.Done? ==> old(log) <= log
      ensures r.Done? && r.value.Abandoned? ==> GaveUp(log[|old(log)|..], session.device, stable)
      ensures faults >= old(faults)
      ensures r.Done? && r.value.InStore? ==> s.store.credentials.generation == session.generation
      ensures r.Done? ==> |log| > |old(log)| && old(log) <= log && log[|old(log)|].AskedByToken?
    {
      at := None;
      var revoked := RevokeIssuedSession(p, false, session.device, s.procs[p].key);
      if revoked.Died? { return Died, None; }
      if revoked.value { return Done(Revoked), None; }
      ghost var t := s;
      Others(p, false);
      SafeTrans(old(s), t, s, p, false, {});
      var locked := Try();
      if !locked {
        log := log + [NoLock(session.device)];
        GaveUpBy(old(log), log, session.device, stable, NoLock(session.device));
        return Done(Abandoned), None;
      }
      ghost var u := s;
      r := Retain(p, session, false);
      Widen(old(s), u, p, false, {}, ReplaceCauses(u, p));
      SafeTrans(old(s), u, s, p, r.Died?, ReplaceCauses(u, p));
      if r == Done(Abandoned) { GaveUpBy(old(log), log, session.device, stable, SaveTried(session.device, false)); }
      at := Some(u);
    }

    /** With the lock or without it. */
    method DisposeIssued(p: nat, session: Issued) returns (r: Step<LoginResult>)
      requires Valid() && p in s.procs && s.procs[p].Holding? && session.device == s.procs[p].device
      modifies this
      ensures Safe(old(s), s, p, r.Died?, {Overwritten})
      ensures r.Done? ==> r.value.ending.Some? && (r.value.success ==> r.value.ending == Some(InStore))
      ensures r.Done? && r.value.ending == Some(InStore) ==> Revocable(s, session.device)
      ensures r.Done? && r.value.ending == Some(Revoked) ==> !Live(s, session.device)
      ensures r.Done? ==> old(log) <= log
      ensures r.Done? && r.value.ending == Some(Abandoned) ==> GaveUp(log[|old(log)|..], session.device, stable)
      ensures faults >= old(faults)
      ensures r.Done? && r.value.ending == Some(InStore) ==> s.store.credentials.generation == session.generation
      ensures r.Done? && !r.value.success ==> faults > old(faults)
    {
      var locked := Try();
      if locked {
        ghost var causes := ReplaceCauses(s, p);
        r := FinalizeLocked(p, session);
        Widen(old(s), s, p, r.Died?, causes, {Overwritten});
      } else {
        ghost var at;
        var ending;
        ending, at := CleanupWithoutLock(p, session);
        Widen(old(s), s, p, ending.Died?, if at.Some? then ReplaceCauses(at.value, p) else {}, {Overwritten});
        if ending.Died? { return Died; }
        return Done(LoginResult(false, Some(ending.value)));
      }
    }

    /** Everything CompleteLogin does with an issued session: it ends stored, revoked, or abandoned
        after both revocation and retention failed, and success means stored. The ending is true of
        the shared state at the moment the session leaves the process's hands. */
    method SettleIssued(p: nat, session: Issued) returns (r: Step<LoginResult>)
      requires Valid() && p in s.procs && s.procs[p].Holding? && session.device == s.procs[p].device
      modifies this
      ensures Sound(old(s), s, p, {Crashed, RetainFailed, Overwritten})
      ensures r.Done? ==> p in s.procs && r.value.ending.Some?
      ensures r.Done? ==> s.procs[p] == Settled(old(s.procs)[p].nonce, session.device, r.value.ending.value)
      ensures r.Done? && r.value.success ==> r.value.ending == Some(InStore)
      ensures r.Done? && r.value.ending == Some(InStore) ==> Revocable(s, session.device)
      ensures r.Done? && r.value.ending == Some(Revoked) ==> !Live(s, session.device)
      ensures r.Done? && r.value.ending == Some(Abandoned) && Live(s, session.device) ==>
        Revocable(s, session.device) || session.device in s.lost
      ensures r.Done? ==> old(log) <= log
      ensures r.Done? && r.value.ending == Some(Abandoned) ==> GaveUp(log[|old(log)|..], session.device, stable)
      ensures faults >= old(faults)
      ensures r.Done? && r.value.ending == Some(InStore) ==> s.store.credentials.generation == session.generation
      ensures r.Done? && !r.value.success ==> faults > old(faults)
    {
      Others(p, false);
      ghost var t := s;
      r := DisposeIssued(p, session);
      Widen(old(s), t, p, false, {}, {Overwritten});
      SafeTrans(old(s), t, s, p, r.Died?, {Overwritten});
      SafeIsSound(old(s), s, p, r.Died?, {Overwritten}, {Crashed, RetainFailed, Overwritten});
      if r.Done? { Settling(p, r.value.ending.value, old(s)); }
    }

    /** The session leaves the process's hands. */
    method Settling(p: nat, ending: Ending, ghost before: State)
      requires Valid() && p in s.procs && Enabled(s, Settle(p, ending))
      requires Sound(before, s, p, {Crashed, RetainFailed, Overwritten})
      modifies this`s
      ensures Sound(before, s, p, {Crashed, RetainFailed, Overwritten})
      ensures p in s.procs && s.procs[p] == Settled(old(s.procs)[p].nonce, old(s.procs)[p].device, ending)
      ensures s.store == old(s.store) && s.sessions == old(s.sessions)
      ensures ending.Abandoned? && Live(s, old(s.procs)[p].device) ==>
        Revocable(s, old(s.procs)[p].device) || old(s.procs)[p].device in s.lost
    {
      LoginStep(s, Settle(p, ending), p);
      Do(Settle(p, ending));
      SoundTrans(before, old(s), s, p, {Crashed, RetainFailed, Overwritten});
    }

    /** The polling loop: a session, or the error that ends it. The server answers "pending" at most
        `polls` times before the login context ends. */
    method AwaitSession(p: nat, polls: nat) returns (r: Step<Reply<Issued>>)
      requires Valid() && p in s.procs && s.procs[p].Claimed?
      modifies this
      ensures Sound(old(s), s, p, {ExchangeLost, Crashed}) && log == old(log)
      ensures r.Done? ==> p in s.procs
      ensures r.Done? && r.value.Bad? ==> s.procs[p] == old(s).procs[p]
      ensures r.Done? && r.value.Good? ==>
        s.procs[p].Holding? && s.procs[p].device == r.value.value.device && s.procs[p].key == old(s).procs[p].key
      ensures faults >= old(faults)
      ensures r.Done? && r.value.Bad? ==> faults > old(faults)
    {
      var left := polls;
      while true
        invariant Sound(old(s), s, p, {ExchangeLost, Crashed}) && log == old(log)
        invariant p in s.procs && s.procs[p] == old(s).procs[p] && faults >= old(faults)
        decreases left
      {
        ghost var t := s;
        r := Exchange(p);
        SoundTrans(old(s), t, s, p, {ExchangeLost, Crashed});
        if r.Died? || r.value.Good? { return; }
        var code := r.value.code;
        if (!code.AuthorizationPending? && !code.SlowDown?) || left == 0 { return; }
        left := left - 1;
      }
    }

    /** CompleteLogin: poll, settle the session that is issued, release the fence. */
    method CompleteLogin(p: nat, polls: nat) returns (r: Step<LoginResult>, ghost issued: Option<nat>)
      requires Valid() && p in s.procs && s.procs[p].Claimed?
      modifies this
      ensures Sound(old(s), s, p, {Crashed, RetainFailed, Overwritten, ExchangeLost})
      ensures r.Done? ==> p in s.procs && s.procs[p].NoLogin?
      ensures r.Done? ==> (r.value.ending.Some? <==> issued.Some?)
      ensures issued.Some? ==> issued.value in s.sessions && s.sessions[issued.value].key == old(s).procs[p].key
      ensures r.Done? && r.value.success ==> r.value.ending == Some(InStore)
      ensures r.Done? ==> old(log) <= log
      ensures r.Done? && r.value.ending == Some(Abandoned) ==> GaveUp(log[|old(log)|..], issued.value, stable)
      ensures faults >= old(faults)
      ensures r.Done? && !r.value.success ==> faults > old(faults)
      ensures r.Done? && r.value.success ==> s.fence.None?
    {
      ghost var causes := {Crashed, RetainFailed, Overwritten, ExchangeLost};
      issued := None;
      var reply := AwaitSession(p, polls);
      assert Sound(old(s), s, p, causes);
      if reply.Died? { return Died, None; }
      r := Done(LoginResult(false, None));
      if reply.value.Good? {
        issued := Some(reply.value.value.device);
        ghost var u := s;
        r := SettleIssued(p, reply.value.value);
        SoundTrans(old(s), u, s, p, causes);
        if r.Died? { return; }
      }
      ghost var v := s;
      var released := LeaveLogin(p);
      SoundTrans(old(s), v, s, p, causes);
      if released.Died? { return Died, issued; }
      if !released.value { return Done(LoginResult(false, r.value.ending)), issued; }
    }

    /** Any sequence of commands of one process, while the others and the server do what they may: which
        losses it can be blamed for. Without a login none but Status can cost a session its key, and
        without Status either none does. */
    method AnyCommands(p: nat, commands: seq<Command>, polls: nat) returns (r: Step<()>)
      requires Valid() && p in s.procs && s.procs[p].NoLogin?
      modifies this
      ensures Sound(old(s), s, p, Risks(commands))
      ensures forall d | Live(s, d) :: KeptOrBlamed(old(s), s, d, p, Risks(commands))
      ensures (forall c | c in commands :: !c.Login? && !c.Status?) ==>
        forall d | Live(s, d) :: KeptOrBlamed(old(s), s, d, p, {})
      ensures r.Done? ==> p in s.procs && s.procs[p].NoLogin?
    {
      ghost var causes := Risks(commands);
      r := Done(());
      for i := 0 to |commands|
        invariant Sound(old(s), s, p, causes) && r.Done? && p in s.procs && s.procs[p].NoLogin?
      {
        ghost var t := s;
        RisksOf(commands, i);
        r := Perform(p, commands[i], polls);
        SoundTrans(old(s), t, s, p, causes);
        if r.Died? { break; }
      }
      forall d | Live(s, d) ensures KeptOrBlamed(old(s), s, d, p, causes) {}
      if forall c | c in commands :: !c.Login? && !c.Status? { NoRisks(commands); }
      return if r.Died? then Died else Done(());
    }

    /** One command, from taking the lock to its result. */
    method Perform(p: nat, command: Command, polls: nat) returns (r: Step<()>)
      requires Valid() && p in s.procs && s.procs[p].NoLogin?
      modifies this
      ensures Sound(old(s), s, p, Risk(command))
      ensures r.Done? ==> p in s.procs && s.procs[p].NoLogin?
    {
      Others(p, false);
      ghost var t := s;
      if command.Login? {
        r := LogIn(p, polls);
        SafeIsSound(old(s), t, p, false, {}, Risk(command));
        SoundTrans(old(s), t, s, p, Risk(command));
        return;
      }
      r := Command(p, command);
      Widen(old(s), t, p, false, {}, Risk(command));
      SafeTrans(old(s), t, s, p, r.Died?, Risk(command));
      SafeIsSound(old(s), s, p, r.Died?, Risk(command), Risk(command));
    }

    method LogIn(p: nat, polls: nat) returns (r: Step<()>)
      requires Valid() && p in s.procs && s.procs[p].NoLogin?
      modifies this
      ensures Sound(old(s), s, p, Risk(Login))
      ensures r.Done? ==> p in s.procs && s.procs[p].NoLogin?
    {
      var begun, _, _, _ := BeginLogin(p);
      if begun.Died? { return Died; }
      if !begun.value { return Done(()); }
      ghost var t := s;
      var ended, _ := CompleteLogin(p, polls);
      SoundTrans(old(s), t, s, p, Risk(Login));
      return if ended.Died? then Died else Done(());
    }

    method Command(p: nat, command: Command) returns (r: Step<()>)
      requires Valid() && p in s.procs && !command.Login?
      modifies this
      ensures Safe(old(s), s, p, r.Died?, Risk(command))
    {
      match command {
        case Logout =>
          var _ :- LogoutLocked(p);
        case Devices =>
          var _ :- DevicesLocked(p);
        case RevokeDevice(target) =>
          var _ :- RevokeDeviceLocked(p, target);
        case Status =>
          var status, _, _, _ := StatusLocked(p);
          if status.Died? { return Died; }
      }
      return Done(());
    }
  }
}
