/** The development-session lock: a directory made by mkdir, an owner record inside it, and recovery
    of a stale lock by renaming the directory away. Any number of processes take these steps in any
    order and may die between any two of them. */
module SessionLock {
  import opened Optional

  /** A process is one incarnation: a process ID together with its start time. */
  datatype Owner = Owner(process: nat, token: nat)

  /** owner.json: still being written through the file that this token's process opened, or complete. */
  datatype OwnerFile = Absent | Partial(token: nat) | Record(owner: Owner)

  datatype Pc =
    | Idle
    | Fresh(attempt: nat)                                // about to mkdir
    | Made                                               // mkdir won, owner.json not created yet
    | Writing(dir: nat)                                  // owner.json open in this directory
    | Holding(dir: nat)
    | Undo                                               // a failed acquisition is about to remove the lock directory
    | Occupied(attempt: nat)                             // mkdir lost, about to read the owner
    | Suspect(attempt: nat, owner: Owner)                // about to inspect the owner's process
    | Stale(attempt: nat, owner: Owner)                  // about to rename the lock to a claim
    | Fenced(attempt: nat, owner: Owner, claim: nat)     // about to read the claim
    | Condemned(attempt: nat, owner: Owner, claim: nat)  // about to remove the claimed record
    | Emptied(attempt: nat, claim: nat)                  // about to remove the claimed directory
    | Changed(claim: nat)                                // about to rename the claim back

  datatype Proc = Proc(token: nat, pc: Pc)

  datatype State = State(
    files: map<nat, OwnerFile>,  // every directory, by identity, with its owner.json
    lock: Option<nat>,           // the directory that has the lock's name
    claims: map<nat, nat>,       // the directories that have a recovery name
    procs: map<nat, Proc>,       // the live processes
    next: nat)                   // fresh names come from here

  const INIT := State(map[], None, map[], map[], 0)

  datatype Action =
    | Spawn
    | Die(p: nat)
    | Begin(p: nat)
    | MkdirWins(p: nat)
    | MkdirLoses(p: nat)
    | CreateOwner(p: nat)
    | CreateFails(p: nat)
    | WriteOwner(p: nat)
    | WriteFails(p: nat)
    | RemoveLock(p: nat)
    | ReadOwner(p: nat)
    | InspectDead(p: nat)
    | Fence(p: nat)
    | FenceMisses(p: nat)
    | RecheckSame(p: nat)
    | RecheckChanged(p: nat)
    | Restore(p: nat)
    | RemoveRecord(p: nat)
    | RemoveDir(p: nat)
    | Release(p: nat)
    | Fail(p: nat)  // an error return from any step of an acquisition, or a busy session

  /** What the file at lock/owner.json is, if there is one. */
  function LockFile(s: State): Option<OwnerFile> {
    if s.lock.Some? && s.lock.value in s.files then Some(s.files[s.lock.value]) else None
  }

  function ClaimFile(s: State, c: nat): Option<OwnerFile> {
    if c in s.claims && s.claims[c] in s.files then Some(s.files[s.claims[c]]) else None
  }

  predicate Enabled(s: State, a: Action) {
    if a.Spawn? then true
    else
      a.p in s.procs &&
      var pc := s.procs[a.p].pc;
      match a
      case Die(_) => true
      case Begin(_) => pc.Idle?
      case MkdirWins(_) => pc.Fresh? && pc.attempt < 2 && s.lock.None?
      case MkdirLoses(_) => pc.Fresh? && pc.attempt < 2 && s.lock.Some?
      case CreateOwner(_) => pc.Made? && LockFile(s) == Some(Absent)
      case CreateFails(_) => pc.Made?
      case WriteOwner(_) => pc.Writing?
      case WriteFails(_) => pc.Writing?
      case RemoveLock(_) => pc.Undo?
      case ReadOwner(_) => pc.Occupied? && LockFile(s).Some? && LockFile(s).value.Record?
      case InspectDead(_) => pc.Suspect? && pc.owner.process !in s.procs
      case Fence(_) => pc.Stale? && s.lock.Some?
      case FenceMisses(_) => pc.Stale? && s.lock.None?
      case RecheckSame(_) => pc.Fenced? && ClaimFile(s, pc.claim) == Some(Record(pc.owner))
      case RecheckChanged(_) => pc.Fenced?
      case Restore(_) => pc.Changed? && s.lock.None? && pc.claim in s.claims
      case RemoveRecord(_) => pc.Condemned? && ClaimFile(s, pc.claim).Some?
      case RemoveDir(_) => pc.Emptied? && ClaimFile(s, pc.claim) == Some(Absent)
      case Release(_) => pc.Holding?
      case Fail(_) => !pc.Idle? && !pc.Holding? && !pc.Writing? && !pc.Made? && !pc.Fenced?
  }

  function At(s: State, p: nat, pc: Pc): State
    requires p in s.procs
  {
    s.(procs := s.procs[p := s.procs[p].(pc := pc)])
  }

  /** os.Remove on the lock's name: only an empty directory goes away. */
  function WithoutEmptyLock(s: State): State {
    if LockFile(s) == Some(Absent) then s.(files := s.files - {s.lock.value}, lock := None) else s
  }

  /** os.Remove on lock/owner.json, through whatever directory has the name now. */
  function WithoutLockFile(s: State): State {
    if LockFile(s).Some? then s.(files := s.files[s.lock.value := Absent]) else s
  }

  function Apply(s: State, a: Action): State
    requires Enabled(s, a)
  {
    if a.Spawn? then s.(procs := s.procs[s.next := Proc(s.next, Idle)], next := s.next + 1)
    else
      var p := a.p;
      var token := s.procs[p].token;
      var pc := s.procs[p].pc;
      match a
      case Die(_) => s.(procs := s.procs - {p})
      case Begin(_) => s.(procs := s.procs[p := Proc(s.next, Fresh(0))], next := s.next + 1)
      case MkdirWins(_) => At(s.(files := s.files[s.next := Absent], lock := Some(s.next), next := s.next + 1), p, Made)
      case MkdirLoses(_) => At(s, p, Occupied(pc.attempt))
      case CreateOwner(_) => At(s.(files := s.files[s.lock.value := Partial(token)]), p, Writing(s.lock.value))
      case CreateFails(_) => At(s, p, Undo)
      case WriteOwner(_) =>
        // The open file may have been unlinked by now: then the record goes nowhere.
        if pc.dir in s.files && s.files[pc.dir] == Partial(token)
        then At(s.(files := s.files[pc.dir := Record(Owner(p, token))]), p, Holding(pc.dir))
        else At(s, p, Holding(pc.dir))
      case WriteFails(_) => At(WithoutLockFile(s), p, Undo)
      case RemoveLock(_) => At(WithoutEmptyLock(s), p, Idle)
      case ReadOwner(_) => At(s, p, Suspect(pc.attempt, LockFile(s).value.owner))
      case InspectDead(_) => At(s, p, Stale(pc.attempt, pc.owner))
      case Fence(_) => At(s.(claims := s.claims[s.next := s.lock.value], lock := None, next := s.next + 1), p,
                          Fenced(pc.attempt, pc.owner, s.next))
      case FenceMisses(_) => At(s, p, Fresh(pc.attempt + 1))
      case RecheckSame(_) => At(s, p, Condemned(pc.attempt, pc.owner, pc.claim))
      case RecheckChanged(_) => At(s, p, Changed(pc.claim))
      case Restore(_) => At(s.(lock := Some(s.claims[pc.claim]), claims := s.claims - {pc.claim}), p, Idle)
      case RemoveRecord(_) => At(s.(files := s.files[s.claims[pc.claim] := Absent]), p, Emptied(pc.attempt, pc.claim))
      case RemoveDir(_) =>
        At(s.(files := s.files - {s.claims[pc.claim]}, claims := s.claims - {pc.claim}), p, Fresh(pc.attempt + 1))
      case Release(_) =>
        if LockFile(s) == Some(Record(Owner(p, token)))
        then At(s.(files := s.files - {s.lock.value}, lock := None), p, Idle)
        else At(s, p, Idle)
      case Fail(_) => At(s, p, Idle)
  }

  // ---- What holds in every reachable state ----

  /** Every directory has exactly one name. */
  ghost predicate NamesOk(s: State) {
    && (s.lock.Some? ==> s.lock.value in s.files)
    && (forall c | c in s.claims :: s.claims[c] in s.files && Some(s.claims[c]) != s.lock)
  }

  ghost predicate NamesApart(s: State) {
    forall c, e | c in s.claims && e in s.claims && c != e :: s.claims[c] != s.claims[e]
  }

  ghost predicate Named(s: State, d: nat) {
    s.lock == Some(d) || exists c :: c in s.claims && s.claims[c] == d
  }

  ghost predicate AllNamed(s: State) { forall d | d in s.files :: Named(s, d) }

  ghost predicate FreshOk(s: State) { FreshNames(s) && FreshRecords(s) }

  ghost predicate ProcTokensOk(s: State) {
    forall p, q | p in s.procs && q in s.procs && p != q :: s.procs[p].token != s.procs[q].token
  }

  /** A record is in one directory only. */
  ghost predicate RecordsOk(s: State) {
    forall d, e | d in s.files && e in s.files && d != e && s.files[d].Record? && s.files[e].Record? ::
      s.files[d].owner.token != s.files[e].owner.token
  }

  /** The process is in the middle of an acquisition: its token is not on disk. */
  predicate Acquiring(pc: Pc) { !pc.Idle? && !pc.Holding? }

  ghost predicate UnusedOk(s: State) {
    forall p, d | p in s.procs && Acquiring(s.procs[p].pc) && d in s.files && s.files[d].Record? ::
      s.files[d].owner.token != s.procs[p].token
  }

  ghost predicate WritersOk(s: State) {
    forall p | p in s.procs && s.procs[p].pc.Writing? ::
      s.procs[p].pc.dir in s.files && s.files[s.procs[p].pc.dir] == Partial(s.procs[p].token)
  }

  /** Every live holder's own record is intact. */
  ghost predicate HoldersOk(s: State) {
    forall p | p in s.procs && s.procs[p].pc.Holding? ::
      s.procs[p].pc.dir in s.files && s.files[s.procs[p].pc.dir] == Record(Owner(p, s.procs[p].token))
  }

  predicate Accuses(pc: Pc) { pc.Stale? || pc.Fenced? || pc.Condemned? }
  predicate HasClaim(pc: Pc) { pc.Fenced? || pc.Condemned? || pc.Emptied? || pc.Changed? }

  ghost predicate SuspectsKnown(s: State) {
    forall p | p in s.procs && s.procs[p].pc.Suspect? :: s.procs[p].pc.owner.process < s.next
  }

  /** Recovery acts on owners that are dead, and the dead do not come back. */
  ghost predicate AccusedDead(s: State) {
    forall p | p in s.procs && Accuses(s.procs[p].pc) ::
      s.procs[p].pc.owner.process < s.next && s.procs[p].pc.owner.process !in s.procs
  }

  ghost predicate ClaimsExist(s: State) {
    forall p | p in s.procs && HasClaim(s.procs[p].pc) :: s.procs[p].pc.claim in s.claims
  }

  /** A claim belongs to the process that made it. */
  ghost predicate ClaimsApart(s: State) {
    forall p, q | p in s.procs && q in s.procs && p != q && HasClaim(s.procs[p].pc) && HasClaim(s.procs[q].pc) ::
      s.procs[p].pc.claim != s.procs[q].pc.claim
  }

  ghost predicate CondemnedOk(s: State) {
    forall p | p in s.procs && s.procs[p].pc.Condemned? ::
      ClaimFile(s, s.procs[p].pc.claim) == Some(Record(s.procs[p].pc.owner))
  }

  ghost predicate EmptiedOk(s: State) {
    forall p | p in s.procs && s.procs[p].pc.Emptied? :: ClaimFile(s, s.procs[p].pc.claim) == Some(Absent)
  }

  ghost predicate Inv(s: State) {
    && NamesOk(s) && NamesApart(s) && AllNamed(s) && FreshOk(s)
    && ProcTokensOk(s) && RecordsOk(s) && UnusedOk(s)
    && WritersOk(s) && HoldersOk(s)
    && SuspectsKnown(s) && AccusedDead(s) && ClaimsExist(s) && ClaimsApart(s) && CondemnedOk(s) && EmptiedOk(s)
  }

  /** The process holds the session, or is about to, in the directory that has the lock's name. */
  predicate AtLock(s: State, q: nat) {
    && q in s.procs && (s.procs[q].pc.Holding? || s.procs[q].pc.Writing?)
    && s.lock == Some(s.procs[q].pc.dir)
  }

  /** A failed record write removes lock/owner.json by name; it is harmless when nobody else is there. */
  ghost predicate Spares(s: State, p: nat) { forall q | AtLock(s, q) :: q == p }

  ghost predicate Careful(s: State, a: Action) { a.WriteFails? ==> Spares(s, a.p) }

  lemma NamesApartStep(s: State, a: Action)
    requires NamesOk(s) && NamesApart(s) && FreshOk(s)
    requires Enabled(s, a)
    ensures NamesApart(Apply(s, a))
  {}

  lemma NamesStep(s: State, a: Action)
    requires NamesOk(s) && NamesApart(s) && FreshOk(s)
    requires Enabled(s, a)
    ensures NamesOk(Apply(s, a))
  {}

  ghost predicate FreshNames(s: State) {
    && (forall d | d in s.files :: d < s.next)
    && (forall c | c in s.claims :: c < s.next)
    && (forall p | p in s.procs :: p < s.next && s.procs[p].token < s.next)
  }

  ghost predicate FreshRecords(s: State) {
    forall d | d in s.files && s.files[d].Record? ::
      s.files[d].owner.process < s.next && s.files[d].owner.token < s.next
  }

  lemma FreshNamesStep(s: State, a: Action)
    requires NamesOk(s) && FreshNames(s) && Enabled(s, a)
    ensures FreshNames(Apply(s, a))
  {}

  lemma FreshRecordsStep(s: State, a: Action)
    requires FreshNames(s) && FreshRecords(s) && Enabled(s, a)
    ensures FreshRecords(Apply(s, a))
  {}

  lemma FreshStep(s: State, a: Action)
    requires NamesOk(s) && FreshOk(s)
    requires Enabled(s, a)
    ensures FreshOk(Apply(s, a))
  {
    FreshNamesStep(s, a);
    FreshRecordsStep(s, a);
  }

  lemma ProcTokensStep(s: State, a: Action)
    requires FreshOk(s) && ProcTokensOk(s)
    requires Enabled(s, a)
    ensures ProcTokensOk(Apply(s, a))
  {}

  lemma RecordsStep(s: State, a: Action)
    requires FreshOk(s) && RecordsOk(s) && UnusedOk(s)
    requires Enabled(s, a)
    ensures RecordsOk(Apply(s, a))
  {}

  lemma UnusedStep(s: State, a: Action)
    requires FreshOk(s) && UnusedOk(s) && ProcTokensOk(s)
    requires Enabled(s, a)
    ensures UnusedOk(Apply(s, a))
  {}

  lemma WritersStep(s: State, a: Action)
    requires FreshOk(s) && ProcTokensOk(s) && WritersOk(s) && CondemnedOk(s)
    requires Enabled(s, a) && Careful(s, a)
    ensures WritersOk(Apply(s, a))
  {
    if a.WriteFails? { assert forall q | q in s.procs && q != a.p :: !AtLock(s, q); }
  }

  lemma HoldersStep(s: State, a: Action)
    requires FreshOk(s) && HoldersOk(s) && WritersOk(s) && ProcTokensOk(s) && AccusedDead(s) && CondemnedOk(s)
    requires Enabled(s, a) && Careful(s, a)
    ensures HoldersOk(Apply(s, a))
  {
    if a.WriteFails? { assert forall q | q in s.procs && q != a.p :: !AtLock(s, q); }
  }

  lemma SuspectsStep(s: State, a: Action)
    requires FreshOk(s) && SuspectsKnown(s)
    requires Enabled(s, a)
    ensures SuspectsKnown(Apply(s, a))
  {}

  lemma AccusedStep(s: State, a: Action)
    requires FreshOk(s) && SuspectsKnown(s) && AccusedDead(s)
    requires Enabled(s, a)
    ensures AccusedDead(Apply(s, a))
  {}

  lemma ClaimsExistStep(s: State, a: Action)
    requires ClaimsExist(s) && ClaimsApart(s)
    requires Enabled(s, a)
    ensures ClaimsExist(Apply(s, a))
  {}

  lemma ClaimsApartStep(s: State, a: Action)
    requires FreshOk(s) && ClaimsExist(s) && ClaimsApart(s)
    requires Enabled(s, a)
    ensures ClaimsApart(Apply(s, a))
  {
    var t := Apply(s, a);
    forall p, q | p in t.procs && q in t.procs && p != q && HasClaim(t.procs[p].pc) && HasClaim(t.procs[q].pc)
      ensures t.procs[p].pc.claim != t.procs[q].pc.claim
    {
      ClaimFrom(s, a, p);
      ClaimFrom(s, a, q);
    }
  }

  /** A claim in a process's hands is its own from before, or the new one of a fence. */
  lemma ClaimFrom(s: State, a: Action, p: nat)
    requires Enabled(s, a) && p in Apply(s, a).procs && HasClaim(Apply(s, a).procs[p].pc)
    ensures
      || (a.Fence? && p == a.p && Apply(s, a).procs[p].pc.claim == s.next)
      || (p in s.procs && HasClaim(s.procs[p].pc) && s.procs[p].pc.claim == Apply(s, a).procs[p].pc.claim)
  {}

  lemma CondemnedStep(s: State, a: Action)
    requires NamesOk(s) && NamesApart(s) && FreshOk(s) && ClaimsApart(s) && CondemnedOk(s) && WritersOk(s)
    requires Enabled(s, a)
    ensures CondemnedOk(Apply(s, a))
  {}

  lemma EmptiedStep(s: State, a: Action)
    requires NamesOk(s) && NamesApart(s) && FreshOk(s) && ClaimsApart(s) && EmptiedOk(s) && WritersOk(s)
    requires Enabled(s, a)
    ensures EmptiedOk(Apply(s, a))
  {}

  lemma NamedStep(s: State, a: Action)
    requires NamesOk(s) && AllNamed(s) && FreshOk(s)
    requires Enabled(s, a)
    ensures AllNamed(Apply(s, a))
  {
    var t := Apply(s, a);
    forall d | d in t.files ensures Named(t, d) {
      if d !in s.files {
        assert t.lock == Some(d);
      } else if s.lock == Some(d) {
        if a.Fence? { assert s.next in t.claims && t.claims[s.next] == d; }
      } else {
        assert Named(s, d);
        var c :| c in s.claims && s.claims[c] == d;
        if c in t.claims { assert t.claims[c] == d; }
      }
    }
  }

  lemma InvStep(s: State, a: Action)
    requires Inv(s) && Enabled(s, a) && Careful(s, a)
    ensures Inv(Apply(s, a))
  {
    NamesStep(s, a);
    NamesApartStep(s, a);
    NamedStep(s, a);
    FreshStep(s, a);
    ProcTokensStep(s, a);
    RecordsStep(s, a);
    UnusedStep(s, a);
    WritersStep(s, a);
    HoldersStep(s, a);
    SuspectsStep(s, a);
    AccusedStep(s, a);
    ClaimsExistStep(s, a);
    ClaimsApartStep(s, a);
    CondemnedStep(s, a);
    EmptiedStep(s, a);
  }

  // ---- Runs ----

  /** A run: every action is enabled where it is taken. */
  ghost predicate Run(s: State, actions: seq<Action>)
    decreases |actions|
  {
    actions == [] || (Enabled(s, actions[0]) && Run(Apply(s, actions[0]), actions[1..]))
  }

  ghost function After(s: State, actions: seq<Action>): State
    requires Run(s, actions)
    decreases |actions|
  {
    if actions == [] then s else After(Apply(s, actions[0]), actions[1..])
  }

  /** A run in which every failed record write is harmless. */
  ghost predicate CarefulRun(s: State, actions: seq<Action>): (careful: bool)
    ensures careful ==> Run(s, actions)
    decreases |actions|
  {
    actions == [] ||
    (Enabled(s, actions[0]) && Careful(s, actions[0]) && CarefulRun(Apply(s, actions[0]), actions[1..]))
  }

  lemma {:induction false} InvRun(s: State, actions: seq<Action>)
    requires Inv(s) && CarefulRun(s, actions)
    ensures Inv(After(s, actions))
    decreases |actions|
  {
    if actions != [] {
      InvStep(s, actions[0]);
      InvRun(Apply(s, actions[0]), actions[1..]);
    }
  }

  predicate Holds(s: State, p: nat) { p in s.procs && s.procs[p].pc.Holding? }

  /** The directory holds this process's own record. */
  predicate RecordIn(s: State, p: nat, d: nat) {
    p in s.procs && d in s.files && s.files[d] == Record(Owner(p, s.procs[p].token))
  }

  /** The process's record is in this directory, which is the lock or a claim, and nowhere else. */
  ghost predicate SoleRecord(s: State, p: nat, d: nat) {
    RecordIn(s, p, d) && Named(s, d) && forall e | RecordIn(s, p, e) :: e == d
  }

  /** Record preservation, for any number of processes and any careful run: a live holder's record is
      in exactly one directory, and that directory is the lock or a fenced claim. */
  lemma HolderKeepsRecord(actions: seq<Action>, p: nat) returns (d: nat)
    requires CarefulRun(INIT, actions)
    requires Holds(After(INIT, actions), p)
    ensures SoleRecord(After(INIT, actions), p, d)
  {
    InvRun(INIT, actions);
    d := OneRecord(After(INIT, actions), p);
  }

  lemma OneRecord(s: State, p: nat) returns (d: nat)
    requires HoldersOk(s) && RecordsOk(s) && AllNamed(s) && Holds(s, p)
    ensures SoleRecord(s, p, d)
  {
    d := s.procs[p].pc.dir;
    assert d in s.files && Named(s, d);
    forall e | RecordIn(s, p, e) ensures e == d {
      assert s.files[e].Record? && s.files[d].Record?;
    }
    assert SoleRecord(s, p, d);
  }

  lemma OneHolder(s: State, p: nat, q: nat)
    requires Inv(s) && s.claims == map[] && Holds(s, p) && Holds(s, q)
    ensures p == q
  {
    assert Named(s, s.procs[p].pc.dir) && Named(s, s.procs[q].pc.dir);
  }

  /** Exclusion: with no fenced directory outstanding, at most one process holds the session. */
  lemma ExclusiveWithoutClaims(actions: seq<Action>, p: nat, q: nat)
    requires CarefulRun(INIT, actions)
    requires After(INIT, actions).claims == map[]
    requires Holds(After(INIT, actions), p) && Holds(After(INIT, actions), q)
    ensures p == q
  {
    InvRun(INIT, actions);
    OneHolder(After(INIT, actions), p, q);
  }

  /** More generally there is never more than one holder per lock or claim directory. */
  lemma HoldersBounded(actions: seq<Action>, p: nat, q: nat)
    requires CarefulRun(INIT, actions)
    requires var s := After(INIT, actions); Holds(s, p) && Holds(s, q) && s.procs[p].pc.dir == s.procs[q].pc.dir
    ensures p == q
  {
    InvRun(INIT, actions);
  }

  /** A record disappears only when its owner releases it, when recovery finds its owner's process
      dead, or when a failed write clears a record that nobody holds any more. */
  lemma OnlyDeadRecordsGo(actions: seq<Action>, a: Action, d: nat)
    requires CarefulRun(INIT, actions)
    requires var s := After(INIT, actions);
      Enabled(s, a) && Careful(s, a) && d in s.files && s.files[d].Record? &&
      !(d in Apply(s, a).files && Apply(s, a).files[d] == s.files[d])
    ensures var s := After(INIT, actions); Goes(s, a, d)
  {
    InvRun(INIT, actions);
    RecordGoes(After(INIT, actions), a, d);
  }

  /** The ways in which the record in a directory may go. */
  ghost predicate Goes(s: State, a: Action, d: nat)
    requires d in s.files && s.files[d].Record?
  {
    var owner := s.files[d].owner;
    || a == Release(owner.process)
    || (a.RemoveRecord? && owner.process !in s.procs)
    || (a.WriteFails? && s.lock == Some(d) && forall q | Holds(s, q) :: s.procs[q].pc.dir != d)
  }

  lemma RecordGoes(s: State, a: Action, d: nat)
    requires NamesOk(s) && FreshOk(s) && WritersOk(s) && AccusedDead(s) && CondemnedOk(s)
    requires Enabled(s, a) && Careful(s, a) && d in s.files && s.files[d].Record?
    requires !(d in Apply(s, a).files && Apply(s, a).files[d] == s.files[d])
    ensures Goes(s, a, d)
  {
    if a.RemoveRecord? {
      assert s.claims[s.procs[a.p].pc.claim] == d;
    } else if a.WriteFails? {
      forall q | Holds(s, q) ensures s.procs[q].pc.dir != d { assert q != a.p && !AtLock(s, q); }
    }
  }

  // ---- When two processes can hold ----

  /** A recovery renames a directory away in which a live process holds or is about to. */
  ghost predicate Displaces(s: State, a: Action) { a.Fence? && exists q :: AtLock(s, q) }

  /** Everyone who holds, or is about to, does so in the directory that has the lock's name. */
  ghost predicate AllAtLock(s: State) {
    forall q | q in s.procs && (s.procs[q].pc.Holding? || s.procs[q].pc.Writing?) :: AtLock(s, q)
  }

  lemma AtLockStep(s: State, a: Action)
    requires Inv(s) && AllAtLock(s) && Enabled(s, a) && !Displaces(s, a)
    ensures AllAtLock(Apply(s, a))
  {
    var t := Apply(s, a);
    forall q | q in t.procs && (t.procs[q].pc.Holding? || t.procs[q].pc.Writing?) ensures AtLock(t, q) {
      if !(a.CreateOwner? && q == a.p) {
        assert AtLock(s, q);
        StaysAtLock(s, a, q);
      }
    }
  }

  lemma StaysAtLock(s: State, a: Action, q: nat)
    requires WritersOk(s) && HoldersOk(s) && ProcTokensOk(s) && RecordsOk(s)
    requires AtLock(s, q) && Enabled(s, a) && !Displaces(s, a) && !(a.Release? && a.p == q)
    ensures Apply(s, a).lock == s.lock
  {
    assert s.files[s.lock.value] != Absent;
  }

  /** A careful run in which no live lock is renamed away. */
  ghost predicate SteadyRun(s: State, actions: seq<Action>): (steady: bool)
    ensures steady ==> CarefulRun(s, actions)
    decreases |actions|
  {
    actions == [] || (
      && Enabled(s, actions[0]) && Careful(s, actions[0]) && !Displaces(s, actions[0])
      && SteadyRun(Apply(s, actions[0]), actions[1..]))
  }

  lemma {:induction false} SteadyInv(s: State, actions: seq<Action>)
    requires Inv(s) && AllAtLock(s) && SteadyRun(s, actions)
    ensures Inv(After(s, actions)) && AllAtLock(After(s, actions))
    decreases |actions|
  {
    if actions != [] {
      InvStep(s, actions[0]);
      AtLockStep(s, actions[0]);
      SteadyInv(Apply(s, actions[0]), actions[1..]);
    }
  }

  lemma OneAtLock(s: State, p: nat, q: nat)
    requires Inv(s) && AllAtLock(s) && Holds(s, p) && Holds(s, q)
    ensures p == q
  {
    assert AtLock(s, p) && AtLock(s, q);
  }

  /** Plain mutual exclusion, whatever fenced directories are outstanding, unless a recovery renamed a live
      lock away. */
  lemma ExclusiveUnlessDisplaced(actions: seq<Action>, p: nat, q: nat)
    requires SteadyRun(INIT, actions)
    requires Holds(After(INIT, actions), p) && Holds(After(INIT, actions), q)
    ensures p == q
  {
    SteadyInv(INIT, actions);
    OneAtLock(After(INIT, actions), p, q);
  }

  lemma Chain(s: State, actions: seq<Action>, a: Action, t: State) returns (longer: seq<Action>, u: State)
    requires Run(s, actions) && After(s, actions) == t && Enabled(t, a)
    ensures Run(s, longer) && After(s, longer) == u == Apply(t, a)
  {
    longer, u := actions + [a], Apply(t, a);
    Then(s, actions, a);
  }

  /** A process may come and take a free lock. */
  lemma Arrives(s: State, p: nat) returns (actions: seq<Action>, q: nat)
    requires FreshOk(s) && s.lock.None? && Holds(s, p)
    ensures Run(s, actions) && q != p
    ensures Holds(After(s, actions), p) && Holds(After(s, actions), q)
  {
    q := s.next;
    var t := s;
    actions := [];
    actions, t := Chain(s, actions, Spawn, t);
    actions, t := Chain(s, actions, Begin(q), t);
    actions, t := Chain(s, actions, MkdirWins(q), t);
    actions, t := Chain(s, actions, CreateOwner(q), t);
    actions, t := Chain(s, actions, WriteOwner(q), t);
  }

  /** And whenever a live lock is renamed away, two processes can come to hold. */
  lemma DisplacedAdmitsTwo(s: State, a: Action) returns (actions: seq<Action>, p: nat, q: nat)
    requires Inv(s) && Enabled(s, a) && Displaces(s, a)
    ensures Run(s, [a] + actions) && p != q
    ensures Holds(After(s, [a] + actions), p) && Holds(After(s, [a] + actions), q)
  {
    p :| AtLock(s, p);
    var t := Apply(s, a);
    FreshStep(s, a);
    var first: seq<Action> := [];
    var u := t;
    if t.procs[p].pc.Writing? {
      FreshStep(t, WriteOwner(p));
      first, u := Chain(t, first, WriteOwner(p), u);
    }
    var rest;
    rest, q := Arrives(u, p);
    Join(t, first, rest);
    actions := first + rest;
    assert ([a] + actions)[1..] == actions;
  }

  lemma {:induction false} Join(s: State, first: seq<Action>, second: seq<Action>)
    requires Run(s, first) && Run(After(s, first), second)
    ensures Run(s, first + second) && After(s, first + second) == After(After(s, first), second)
    decreases |first|
  {
    if first == [] {
      assert first + second == second;
    } else {
      assert (first + second)[1..] == first[1..] + second;
      Join(Apply(s, first[0]), first[1..], second);
    }
  }

  // ---- What the steps achieve ----

  /** A release by a holder that still has the lock's name frees the name and leaves no record; one whose
      lock was renamed away touches nothing. */
  lemma ReleaseFrees(s: State, p: nat)
    requires Inv(s) && Holds(s, p)
    ensures var t := Apply(s, Release(p));
      && t.procs[p].pc == Idle
      && (AtLock(s, p) ==> t.lock.None? && t.files == s.files - {s.procs[p].pc.dir} && t.claims == s.claims)
      && (!AtLock(s, p) ==> t == At(s, p, Idle))
  {
    assert s.files[s.procs[p].pc.dir] == Record(Owner(p, s.procs[p].token));
    if !AtLock(s, p) && s.lock.Some? && s.lock.value in s.files {
      assert s.files[s.lock.value] != Record(Owner(p, s.procs[p].token));
    }
  }

  /** A free lock is taken: the process comes to hold, with its record under the lock's name. */
  lemma FreeLockIsTaken(s: State, p: nat) returns (actions: seq<Action>)
    requires FreshOk(s) && s.lock.None? && p in s.procs && s.procs[p].pc == Fresh(0)
    ensures Run(s, actions)
    ensures var t := After(s, actions); Holds(t, p) && AtLock(t, p) && RecordIn(t, p, t.procs[p].pc.dir)
  {
    var t := s;
    actions := [];
    actions, t := Chain(s, actions, MkdirWins(p), t);
    actions, t := Chain(s, actions, CreateOwner(p), t);
    actions, t := Chain(s, actions, WriteOwner(p), t);
  }

  /** A lock whose owner is dead can be fenced and removed: its directory is gone and its name is free. */
  lemma StaleLockIsRemoved(s: State, p: nat, d: nat) returns (actions: seq<Action>)
    requires FreshOk(s) && s.lock == Some(d) && d in s.files && s.files[d].Record?
    requires s.files[d].owner.process !in s.procs && p in s.procs && s.procs[p].pc == Fresh(0)
    ensures Run(s, actions)
    ensures var t := After(s, actions);
      && t.lock.None? && t.files == s.files - {d} && t.claims == s.claims
      && p in t.procs && t.procs[p].pc == Fresh(1)
  {
    var t := s;
    actions := [];
    actions, t := Chain(s, actions, MkdirLoses(p), t);
    actions, t := Chain(s, actions, ReadOwner(p), t);
    actions, t := Chain(s, actions, InspectDead(p), t);
    actions, t := Chain(s, actions, Fence(p), t);
    var rest, u := FencedLockIsRemoved(t, p, d);
    Join(s, actions, rest);
    actions := actions + rest;
    assert t.claims - {s.next} == s.claims;
  }

  lemma FencedLockIsRemoved(s: State, p: nat, d: nat) returns (actions: seq<Action>, t: State)
    requires p in s.procs && s.procs[p].pc.Fenced? && s.procs[p].pc.attempt == 0
    requires s.procs[p].pc.claim in s.claims && s.claims[s.procs[p].pc.claim] == d
    requires d in s.files && s.files[d] == Record(s.procs[p].pc.owner) && s.lock.None?
    ensures Run(s, actions) && After(s, actions) == t
    ensures t.lock.None? && t.files == s.files - {d} && t.claims == s.claims - {s.procs[p].pc.claim}
    ensures p in t.procs && t.procs[p].pc == Fresh(1)
  {
    t := s;
    actions := [];
    actions, t := Chain(s, actions, RecheckSame(p), t);
    actions, t := Chain(s, actions, RemoveRecord(p), t);
    actions, t := Chain(s, actions, RemoveDir(p), t);
  }

  /** A lock that changed hands while it was judged is put back as it was. */
  lemma ChangedLockIsRestored(s: State, p: nat) returns (actions: seq<Action>)
    requires FreshOk(s) && s.lock.Some? && p in s.procs && s.procs[p].pc.Stale?
    ensures Run(s, actions)
    ensures var t := After(s, actions);
      t.lock == s.lock && t.files == s.files && t.claims == s.claims && p in t.procs && t.procs[p].pc == Idle
  {
    var t := s;
    actions := [];
    actions, t := Chain(s, actions, Fence(p), t);
    actions, t := Chain(s, actions, RecheckChanged(p), t);
    actions, t := Chain(s, actions, Restore(p), t);
    assert t.claims == s.claims;
  }

  // ---- What does not hold ----

  lemma {:induction false} Then(s: State, actions: seq<Action>, a: Action)
    requires Run(s, actions) && Enabled(After(s, actions), a)
    ensures Run(s, actions + [a]) && After(s, actions + [a]) == Apply(After(s, actions), a)
    ensures CarefulRun(s, actions) && Careful(After(s, actions), a) ==> CarefulRun(s, actions + [a])
    decreases |actions|
  {
    if actions == [] {
      assert actions + [a] == [a] && [a][1..] == [];
    } else {
      assert (actions + [a])[1..] == actions[1..] + [a];
      Then(Apply(s, actions[0]), actions[1..], a);
    }
  }

  /** A careful run from the initial state that ends in s. */
  ghost predicate Trace(actions: seq<Action>, s: State) { CarefulRun(INIT, actions) && After(INIT, actions) == s }

  lemma Go(actions: seq<Action>, s: State, a: Action) returns (longer: seq<Action>, t: State)
    requires Trace(actions, s) && Enabled(s, a) && Careful(s, a)
    ensures Trace(longer, t) && t == Apply(s, a)
  {
    longer, t := actions + [a], Apply(s, a);
    Then(INIT, actions, a);
  }

  const ABANDONED := State(
    map[2 := Record(Owner(0, 1))], Some(2), map[],
    map[], 3)

  lemma ReachAbandoned() returns (actions: seq<Action>)
    ensures Trace(actions, ABANDONED)
  {
    actions := [];
    var s := INIT;
    actions, s := Go(actions, s, Spawn);
    actions, s := Go(actions, s, Begin(0));
    actions, s := Go(actions, s, MkdirWins(0));
    actions, s := Go(actions, s, CreateOwner(0));
    actions, s := Go(actions, s, WriteOwner(0));
    actions, s := Go(actions, s, Die(0));
    assert s == ABANDONED;
  }

  const SUSPICION := State(
    map[2 := Record(Owner(0, 1))], Some(2), map[],
    map[3 := Proc(4, Stale(0, Owner(0, 1)))], 5)

  lemma ReachSuspicion() returns (actions: seq<Action>)
    ensures Trace(actions, SUSPICION)
  {
    actions := ReachAbandoned();
    var s := ABANDONED;
    actions, s := Go(actions, s, Spawn);
    actions, s := Go(actions, s, Begin(3));
    actions, s := Go(actions, s, MkdirLoses(3));
    actions, s := Go(actions, s, ReadOwner(3));
    actions, s := Go(actions, s, InspectDead(3));
    assert s == SUSPICION;
  }

  const RETRY := State(
    map[2 := Record(Owner(0, 1))], Some(2), map[],
    map[3 := Proc(4, Stale(0, Owner(0, 1))), 5 := Proc(6, Occupied(0))], 7)

  lemma ReachRetry() returns (actions: seq<Action>)
    ensures Trace(actions, RETRY)
  {
    actions := ReachSuspicion();
    var s := SUSPICION;
    actions, s := Go(actions, s, Spawn);
    actions, s := Go(actions, s, Begin(5));
    actions, s := Go(actions, s, MkdirLoses(5));
    assert s == RETRY;
  }

  const RECOVERY := State(
    map[2 := Record(Owner(0, 1))], None, map[7 := 2],
    map[3 := Proc(4, Stale(0, Owner(0, 1))), 5 := Proc(6, Fenced(0, Owner(0, 1), 7))], 8)

  lemma ReachRecovery() returns (actions: seq<Action>)
    ensures Trace(actions, RECOVERY)
  {
    actions := ReachRetry();
    var s := RETRY;
    actions, s := Go(actions, s, ReadOwner(5));
    actions, s := Go(actions, s, InspectDead(5));
    actions, s := Go(actions, s, Fence(5));
    assert s == RECOVERY;
  }

  const EMPTIED := State(
    map[], None, map[],
    map[3 := Proc(4, Stale(0, Owner(0, 1))), 5 := Proc(6, Fresh(1))], 8)

  lemma ReachEmptied() returns (actions: seq<Action>)
    ensures Trace(actions, EMPTIED)
  {
    actions := ReachRecovery();
    var s := RECOVERY;
    actions, s := Go(actions, s, RecheckSame(5));
    actions, s := Go(actions, s, RemoveRecord(5));
    actions, s := Go(actions, s, RemoveDir(5));
    assert s == EMPTIED;
  }

  const CLEARED := State(
    map[8 := Partial(6)], Some(8), map[],
    map[3 := Proc(4, Stale(0, Owner(0, 1))), 5 := Proc(6, Writing(8))], 9)

  lemma ReachCleared() returns (actions: seq<Action>)
    ensures Trace(actions, CLEARED)
  {
    actions := ReachEmptied();
    var s := EMPTIED;
    actions, s := Go(actions, s, MkdirWins(5));
    actions, s := Go(actions, s, CreateOwner(5));
    assert s == CLEARED;
  }

  const ROBBED := State(
    map[8 := Record(Owner(5, 6))], None, map[9 := 8],
    map[3 := Proc(4, Fenced(0, Owner(0, 1), 9)), 5 := Proc(6, Holding(8)), 10 := Proc(10, Idle)], 11)

  lemma ReachRobbed() returns (actions: seq<Action>)
    ensures Trace(actions, ROBBED)
  {
    actions := ReachCleared();
    var s := CLEARED;
    actions, s := Go(actions, s, WriteOwner(5));
    actions, s := Go(actions, s, Fence(3));
    actions, s := Go(actions, s, Spawn);
    assert s == ROBBED;
  }

  const RIVAL := State(
    map[8 := Record(Owner(5, 6)), 12 := Absent], Some(12), map[9 := 8],
    map[3 := Proc(4, Fenced(0, Owner(0, 1), 9)), 5 := Proc(6, Holding(8)), 10 := Proc(11, Made)], 13)

  lemma ReachRival() returns (actions: seq<Action>)
    ensures Trace(actions, RIVAL)
  {
    actions := ReachRobbed();
    var s := ROBBED;
    actions, s := Go(actions, s, Begin(10));
    actions, s := Go(actions, s, MkdirWins(10));
    assert s == RIVAL;
  }

  const DOUBLED := State(
    map[8 := Record(Owner(5, 6)), 12 := Record(Owner(10, 11))], Some(12), map[9 := 8],
    map[3 := Proc(4, Fenced(0, Owner(0, 1), 9)), 5 := Proc(6, Holding(8)), 10 := Proc(11, Holding(12))], 13)

  lemma ReachDoubled() returns (actions: seq<Action>)
    ensures Trace(actions, DOUBLED)
  {
    actions := ReachRival();
    var s := RIVAL;
    actions, s := Go(actions, s, CreateOwner(10));
    actions, s := Go(actions, s, WriteOwner(10));
    assert s == DOUBLED;
  }

  const DISPLACED := State(
    map[8 := Partial(6)], None, map[9 := 8],
    map[3 := Proc(4, Fenced(0, Owner(0, 1), 9)), 5 := Proc(6, Writing(8)), 10 := Proc(10, Idle)], 11)

  lemma ReachDisplaced() returns (actions: seq<Action>)
    ensures Trace(actions, DISPLACED)
  {
    actions := ReachCleared();
    var s := CLEARED;
    actions, s := Go(actions, s, Fence(3));
    actions, s := Go(actions, s, Spawn);
    assert s == DISPLACED;
  }

  const INTRUDER := State(
    map[8 := Partial(6), 12 := Absent], Some(12), map[9 := 8],
    map[3 := Proc(4, Fenced(0, Owner(0, 1), 9)), 5 := Proc(6, Writing(8)), 10 := Proc(11, Made)], 13)

  lemma ReachIntruder() returns (actions: seq<Action>)
    ensures Trace(actions, INTRUDER)
  {
    actions := ReachDisplaced();
    var s := DISPLACED;
    actions, s := Go(actions, s, Begin(10));
    actions, s := Go(actions, s, MkdirWins(10));
    assert s == INTRUDER;
  }

  const WRITERS := State(
    map[8 := Partial(6), 12 := Partial(11)], Some(12), map[9 := 8],
    map[3 := Proc(4, Fenced(0, Owner(0, 1), 9)), 5 := Proc(6, Writing(8)), 10 := Proc(11, Writing(12))], 13)

  lemma ReachWriters() returns (actions: seq<Action>)
    ensures Trace(actions, WRITERS)
  {
    actions := ReachIntruder();
    var s := INTRUDER;
    actions, s := Go(actions, s, CreateOwner(10));
    assert s == WRITERS;
  }

  const EXPOSED := State(
    map[8 := Partial(6), 12 := Record(Owner(10, 11))], Some(12), map[9 := 8],
    map[3 := Proc(4, Fenced(0, Owner(0, 1), 9)), 5 := Proc(6, Writing(8)), 10 := Proc(11, Holding(12))], 13)

  lemma ReachExposed() returns (actions: seq<Action>)
    ensures Trace(actions, EXPOSED)
  {
    actions := ReachWriters();
    var s := WRITERS;
    actions, s := Go(actions, s, WriteOwner(10));
    assert s == EXPOSED;
  }

  const UNLINKED := State(
    map[8 := Partial(6), 12 := Absent], Some(12), map[9 := 8],
    map[3 := Proc(4, Fenced(0, Owner(0, 1), 9)), 5 := Proc(6, Undo), 10 := Proc(11, Writing(12))], 13)

  lemma ReachUnlinked() returns (actions: seq<Action>)
    ensures Run(INIT, actions) && After(INIT, actions) == UNLINKED
  {
    actions := ReachWriters();
    Then(INIT, actions, WriteFails(5));
    actions := actions + [WriteFails(5)];
    assert Apply(WRITERS, WriteFails(5)) == UNLINKED;
  }

  const UNRECORDED := State(
    map[8 := Partial(6)], None, map[9 := 8],
    map[3 := Proc(4, Fenced(0, Owner(0, 1), 9)), 5 := Proc(6, Idle), 10 := Proc(11, Holding(12))], 13)

  lemma ReachUnrecorded() returns (actions: seq<Action>)
    ensures Run(INIT, actions) && After(INIT, actions) == UNRECORDED
  {
    actions := ReachUnlinked();
    Then(INIT, actions, WriteOwner(10));
    actions := actions + [WriteOwner(10)];
    Then(INIT, actions, RemoveLock(5));
    actions := actions + [RemoveLock(5)];
    assert After(INIT, actions) == UNRECORDED;
  }

  /** Three processes and a dead one suffice for two holders at once: process 3 judged the dead owner
      before process 5 recovered, and renamed away the lock process 5 had taken since. */
  lemma TwoHolders() returns (actions: seq<Action>)
    ensures CarefulRun(INIT, actions)
    ensures var s := After(INIT, actions); Holds(s, 5) && Holds(s, 10) && |s.claims| == 1
  {
    actions := ReachDoubled();
    assert DOUBLED.claims == map[9 := 8];
  }

  /** A failed record write keeps the invariant exactly when no other process holds, or is about to
      hold, the directory that has the lock's name by then. */
  lemma FailedWriteExactly(s: State, p: nat)
    requires Inv(s) && Enabled(s, WriteFails(p))
    ensures Inv(Apply(s, WriteFails(p))) <==> Spares(s, p)
  {
    var t := Apply(s, WriteFails(p));
    if Spares(s, p) {
      InvStep(s, WriteFails(p));
    } else {
      var q :| AtLock(s, q) && q != p;
      assert t.procs[q] == s.procs[q] && t.files[s.procs[q].pc.dir] == Absent;
    }
  }

  /** And every other such process is robbed: it holds, or holds after its own next step, and its
      record is nowhere. */
  lemma FailedWriteRobs(s: State, p: nat, q: nat) returns (t: State)
    requires Inv(s) && Enabled(s, WriteFails(p)) && AtLock(s, q) && q != p
    ensures var u := Apply(s, WriteFails(p)); t == u || (Enabled(u, WriteOwner(q)) && t == Apply(u, WriteOwner(q)))
    ensures Holds(t, q) && forall d :: !RecordIn(t, q, d)
  {
    var u := Apply(s, WriteFails(p));
    t := if s.procs[q].pc.Holding? then u else Apply(u, WriteOwner(q));
    forall d ensures !RecordIn(t, q, d) {
      if s.procs[q].pc.Holding? && d in s.files && d != s.procs[q].pc.dir {
        assert s.files[d].Record? ==> s.files[d].owner.token != s.procs[q].token;
      }
    }
  }

  /** Such a moment can be reached by a careful run: process 10 holds and process 5's write is about to
      fail. */
  lemma HolderExposed() returns (actions: seq<Action>)
    ensures CarefulRun(INIT, actions) && Enabled(After(INIT, actions), WriteFails(5))
    ensures Holds(After(INIT, actions), 10) && AtLock(After(INIT, actions), 10)
  {
    actions := ReachExposed();
  }

  /** And with process 10 still writing: it ends up holding with no record, and the name is free. */
  lemma WriterRobbed() returns (actions: seq<Action>)
    ensures Run(INIT, actions)
    ensures var s := After(INIT, actions); Holds(s, 10) && s.lock.None? && forall d :: !RecordIn(s, 10, d)
  {
    actions := ReachUnrecorded();
  }
}
