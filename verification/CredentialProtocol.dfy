/** What the authentication code may do to shared state, for any number of processes on one machine
    and one API origin: the remote sessions, the credential store, the login fence, and what each
    process carries in memory. The server may lose responses, kill sessions and rotate tokens at any
    time, and processes may die between any two effects. */
module CredentialProtocol {
  import opened Optional

  /** A remote session of one device. It is revoked with the device key, whatever the token generation. */
  datatype Session = Session(live: bool, key: nat, generation: nat)

  datatype Credentials = Credentials(device: nat, key: nat, generation: nat, expires: int)

  datatype Stored = Empty | Unreadable | Holds(credentials: Credentials)

  datatype Fence = Fence(nonce: nat, process: nat, expires: int)

  /** How a login let go of the session that was issued to it. */
  datatype Ending =
    | InStore    // its credentials were stored
    | Revoked    // the remote session was dead
    | Abandoned  // neither revocation nor the retaining save was confirmed

  datatype Login =
    | NoLogin
    | Claimed(nonce: nat, epoch: nat, key: nat)
    | Holding(nonce: nat, epoch: nat, key: nat, device: nat)
    | Settled(nonce: nat, device: nat, ending: Ending)

  /** Why a live session may have no stored credentials, and which process is to blame. */
  datatype Cause =
    | ExchangeLost       // the session was created and the response was lost
    | Crashed            // the process died between the exchange and the save
    | RetainFailed       // revocation was not confirmed and the retaining save failed too
    | Overwritten        // another login's credentials replaced the stored ones
    | DeletedUnconfirmed // the stored credentials were deleted although revocation was not confirmed

  datatype Loss = Loss(cause: Cause, process: nat)

  datatype State = State(
    sessions: map<nat, Session>,
    store: Stored,
    fence: Option<Fence>,
    procs: map<nat, Login>,   // the live processes
    lost: map<nat, Loss>,     // the ledger of sessions whose key is missing in the store, and why
    broken: set<nat>,         // nonces whose fence was removed at some time
    unfenced: nat,            // retaining saves made without a fence so far
    next: nat)                // fresh devices, keys, nonces and processes

  datatype Action =
    | Spawn
    | Die(p: nat)
    | Kill(devices: set<nat>)                            // sessions end, for whatever reason
    | Rotate(device: nat)                                // a refresh takes effect
    | WriteFence(p: nat, expires: int)
    | DropFence
    | Issue(p: nat)                                      // an exchange takes effect and is answered
    | IssueLost(p: nat)                                  // an exchange takes effect, the answer is lost
    | SaveLogin(p: nat, generation: nat, expires: int)   // under a verified fence
    | SaveUnfenced(p: nat, generation: nat, expires: int)
    | SaveRotated(p: nat, generation: nat, expires: int)
    | DeleteDead(p: nat)
    | DeleteUnconfirmed(p: nat)
    | Settle(p: nat, ending: Ending)
    | End(p: nat)                                        // the login attempt is over

  predicate Live(s: State, d: nat) { d in s.sessions && s.sessions[d].live }

  /** The store holds this device's key, so the session can still be revoked from here. */
  predicate Revocable(s: State, d: nat) {
    && s.store.Holds? && s.store.credentials.device == d
    && d in s.sessions && s.store.credentials.key == s.sessions[d].key
  }

  predicate HeldBy(s: State, p: nat, d: nat) {
    p in s.procs && s.procs[p].Holding? && s.procs[p].device == d
  }

  predicate HasFence(s: State, p: nat) {
    && p in s.procs && (s.procs[p].Claimed? || s.procs[p].Holding?)
    && s.fence.Some? && s.fence.value.nonce == s.procs[p].nonce
  }

  predicate Enabled(s: State, a: Action) {
    match a
    case Spawn => true
    case Die(p) => p in s.procs
    case Kill(_) => true
    case Rotate(d) => Live(s, d)
    case WriteFence(p, _) => p in s.procs && s.procs[p].NoLogin? && s.fence.None? && s.store.Empty?
    case DropFence => true
    case Issue(p) => p in s.procs && s.procs[p].Claimed?
    case IssueLost(p) => p in s.procs && s.procs[p].Claimed?
    case SaveLogin(p, _, _) => p in s.procs && s.procs[p].Holding? && HasFence(s, p)
    case SaveUnfenced(p, _, _) => p in s.procs && s.procs[p].Holding?
    case SaveRotated(p, _, _) => p in s.procs && s.store.Holds?
    case DeleteDead(p) => p in s.procs && s.store.Holds? && !Live(s, s.store.credentials.device)
    case DeleteUnconfirmed(p) => p in s.procs && s.store.Holds?
    case Settle(p, ending) =>
      && p in s.procs && s.procs[p].Holding?
      && (ending.InStore? ==> Revocable(s, s.procs[p].device))
      && (ending.Revoked? ==> !Live(s, s.procs[p].device))
    case End(p) => p in s.procs && !s.procs[p].Holding?
  }

  /** Enter a live session that is about to lose its place in the store or in memory. */
  function Lose(s: State, d: nat, cause: Cause, p: nat): State {
    if Live(s, d) && d !in s.lost then s.(lost := s.lost[d := Loss(cause, p)]) else s
  }

  function Put(s: State, p: nat, c: Credentials): State {
    var t := if s.store.Holds? && s.store.credentials.device != c.device
             then Lose(s, s.store.credentials.device, Overwritten, p) else s;
    t.(store := Holds(c), lost := t.lost - {c.device})
  }

  function Apply(s: State, a: Action): State
    requires Enabled(s, a)
  {
    match a
    case Spawn => s.(procs := s.procs[s.next := NoLogin], next := s.next + 1)
    case Die(p) =>
      var t := if s.procs[p].Holding? && !Revocable(s, s.procs[p].device)
               then Lose(s, s.procs[p].device, Crashed, p) else s;
      t.(procs := t.procs - {p})
    case Kill(ds) =>
      s.(sessions := map d | d in s.sessions :: if d in ds then s.sessions[d].(live := false) else s.sessions[d])
    case Rotate(d) => s.(sessions := s.sessions[d := s.sessions[d].(generation := s.sessions[d].generation + 1)])
    case WriteFence(p, expires) =>
      s.(fence := Some(Fence(s.next, p, expires)), procs := s.procs[p := Claimed(s.next, s.unfenced, s.next)],
         next := s.next + 1)
    case DropFence =>
      s.(fence := None, broken := if s.fence.Some? then s.broken + {s.fence.value.nonce} else s.broken)
    case Issue(p) =>
      var l := s.procs[p];
      s.(sessions := s.sessions[s.next := Session(true, l.key, 0)],
         procs := s.procs[p := Holding(l.nonce, l.epoch, l.key, s.next)], next := s.next + 1)
    case IssueLost(p) =>
      s.(sessions := s.sessions[s.next := Session(true, s.procs[p].key, 0)],
         lost := s.lost[s.next := Loss(ExchangeLost, p)], next := s.next + 1)
    case SaveLogin(p, g, e) => Put(s, p, Credentials(s.procs[p].device, s.procs[p].key, g, e))
    case SaveUnfenced(p, g, e) =>
      var t := Put(s, p, Credentials(s.procs[p].device, s.procs[p].key, g, e));
      t.(unfenced := t.unfenced + 1)
    case SaveRotated(p, g, e) => s.(store := Holds(s.store.credentials.(generation := g, expires := e)))
    case DeleteDead(_) => s.(store := Empty)
    case DeleteUnconfirmed(p) =>
      var t := Lose(s, s.store.credentials.device, DeletedUnconfirmed, p);
      t.(store := Empty)
    case Settle(p, ending) =>
      var d := s.procs[p].device;
      var t := if ending.Abandoned? && !Revocable(s, d) then Lose(s, d, RetainFailed, p) else s;
      t.(procs := t.procs[p := Settled(t.procs[p].nonce, d, ending)])
    case End(p) => s.(procs := s.procs[p := NoLogin])
  }

  // ---- Invariant ----

  ghost predicate FreshOk(s: State) {
    && (forall d | d in s.sessions :: d < s.next)
    && (forall p | p in s.procs :: p < s.next)
    && (forall p | p in s.procs && !s.procs[p].NoLogin? :: s.procs[p].nonce < s.next)
    && (s.fence.Some? ==> s.fence.value.nonce < s.next)
    && (forall n | n in s.broken :: n < s.next)
    && (s.store.Holds? ==> s.store.credentials.device < s.next)
  }

  ghost predicate HoldersOk(s: State) {
    forall p | p in s.procs && s.procs[p].Holding? ::
      s.procs[p].device in s.sessions && s.sessions[s.procs[p].device].key == s.procs[p].key
  }

  /** A removed fence never comes back: nonces are used once. */
  ghost predicate BrokenOk(s: State) {
    s.fence.Some? ==> s.fence.value.nonce !in s.broken
  }

  /** Every login claimed its own nonce, after which the fence lost its chance to be another's. */
  ghost predicate NoncesOk(s: State) {
    forall p, q | p in s.procs && q in s.procs && p != q && !s.procs[p].NoLogin? && !s.procs[q].NoLogin? ::
      s.procs[p].nonce != s.procs[q].nonce
  }

  /** A pending login that still has its fence faces an empty store, or its own credentials, unless a
      retaining save was made without a fence since it claimed. */
  ghost predicate StoreReserved(s: State) {
    forall p | HasFence(s, p) && s.unfenced == s.procs[p].epoch ::
      s.store.Empty? || (s.procs[p].Holding? && s.store.Holds? && s.store.credentials.device == s.procs[p].device)
  }

  ghost predicate EpochsOk(s: State) {
    forall p | p in s.procs && (s.procs[p].Claimed? || s.procs[p].Holding?) :: s.procs[p].epoch <= s.unfenced
  }

  /** Every live session can be revoked from the store, is in the hands of a live process, or is in
      the ledger. */
  ghost predicate Accounted(s: State) {
    forall d | Live(s, d) :: Revocable(s, d) || (exists p :: HeldBy(s, p, d)) || d in s.lost
  }

  /** Stored credentials belong to a session and have its key. */
  ghost predicate StoreOk(s: State) { s.store.Holds? ==> Revocable(s, s.store.credentials.device) }

  /** A session in the ledger is not in the store. */
  ghost predicate LostOk(s: State) { forall d | d in s.lost :: !Revocable(s, d) }

  /** The ledger's entries by cause. */
  ghost predicate LedgerOk(s: State) {
    && (forall d | d in s.lost :: d < s.next)
    && (forall d | d in s.lost && s.lost[d].cause.Overwritten? :: s.unfenced > 0)
  }

  ghost predicate Inv(s: State) {
    && FreshOk(s) && HoldersOk(s) && BrokenOk(s) && NoncesOk(s) && EpochsOk(s)
    && StoreReserved(s) && StoreOk(s) && LostOk(s) && Accounted(s) && LedgerOk(s)
  }

  lemma FreshStep(s: State, a: Action)
    requires FreshOk(s) && HoldersOk(s) && Enabled(s, a)
    ensures FreshOk(Apply(s, a))
  {}

  lemma HoldersStep(s: State, a: Action)
    requires FreshOk(s) && HoldersOk(s) && Enabled(s, a)
    ensures HoldersOk(Apply(s, a))
  {}

  lemma BrokenStep(s: State, a: Action)
    requires FreshOk(s) && BrokenOk(s) && Enabled(s, a)
    ensures BrokenOk(Apply(s, a))
  {}

  lemma NoncesStep(s: State, a: Action)
    requires FreshOk(s) && NoncesOk(s) && Enabled(s, a)
    ensures NoncesOk(Apply(s, a))
  {}

  lemma EpochsStep(s: State, a: Action)
    requires EpochsOk(s) && Enabled(s, a)
    ensures EpochsOk(Apply(s, a))
  {}

  lemma ReservedStep(s: State, a: Action)
    requires FreshOk(s) && NoncesOk(s) && EpochsOk(s) && StoreReserved(s) && Enabled(s, a)
    ensures StoreReserved(Apply(s, a))
  {}

  lemma LedgerStep(s: State, a: Action)
    requires FreshOk(s) && NoncesOk(s) && EpochsOk(s) && StoreReserved(s) && LedgerOk(s) && Enabled(s, a)
    ensures LedgerOk(Apply(s, a))
  {}

  lemma StoreStep(s: State, a: Action)
    requires FreshOk(s) && HoldersOk(s) && StoreOk(s) && Enabled(s, a)
    ensures StoreOk(Apply(s, a))
  {}

  lemma LostStep(s: State, a: Action)
    requires FreshOk(s) && StoreOk(s) && LostOk(s) && Enabled(s, a)
    ensures LostOk(Apply(s, a))
  {}

  lemma AccountedStep(s: State, a: Action)
    requires FreshOk(s) && HoldersOk(s) && Accounted(s) && Enabled(s, a)
    ensures Accounted(Apply(s, a))
  {
    var t := Apply(s, a);
    forall d | Live(t, d) ensures Revocable(t, d) || (exists p :: HeldBy(t, p, d)) || d in t.lost {
      if d !in s.sessions {
        if a.Issue? { assert HeldBy(t, a.p, d); }
      } else if !Revocable(s, d) && d !in s.lost {
        assert Live(s, d);
        var p :| HeldBy(s, p, d);
        if p in t.procs && t.procs[p].Holding? { assert HeldBy(t, p, d); }
      }
    }
  }

  lemma InvStep(s: State, a: Action)
    requires Inv(s) && Enabled(s, a)
    ensures Inv(Apply(s, a))
  {
    FreshStep(s, a);
    HoldersStep(s, a);
    BrokenStep(s, a);
    NoncesStep(s, a);
    EpochsStep(s, a);
    ReservedStep(s, a);
    LedgerStep(s, a);
    StoreStep(s, a);
    LostStep(s, a);
    AccountedStep(s, a);
  }

  // ---- Every run of every number of processes ----

  ghost predicate Run(s: State, actions: seq<Action>)
    decreases |actions|
  {
    actions == [] || (Enabled(s, actions[0]) && Run(Apply(s, actions[0]), actions[1..]))
  }

  ghost function After(s: State, actions: seq<Action>): State
    requires Run(s, actions)
    decreases |actions|
  {
    if actions == [] then s else After(Apply(s, actions[0]), actions[1..])
  }

  const INIT := State(map[], Empty, None, map[], map[], {}, 0, 0)

  lemma {:induction false} InvRun(s: State, actions: seq<Action>)
    requires Inv(s) && Run(s, actions)
    ensures Inv(After(s, actions))
    decreases |actions|
  {
    if actions != [] {
      InvStep(s, actions[0]);
      InvRun(Apply(s, actions[0]), actions[1..]);
    }
  }

  /** No live session is ever without a stored key unless a live process still carries it or the
      ledger names what went wrong and in which process; and the ledger names none that is stored. */
  lemma EveryLiveSessionIsAccountedFor(actions: seq<Action>, d: nat)
    requires Run(INIT, actions)
    ensures var s := After(INIT, actions); Orphan(s, d) ==> d in s.lost
    ensures var s := After(INIT, actions); d in s.lost ==> !Revocable(s, d)
  {
    InvRun(INIT, actions);
  }

  /** The five actions that can put a session into the ledger. */
  predicate Risky(a: Action) {
    a.Die? || a.IssueLost? || a.SaveUnfenced? || a.DeleteUnconfirmed? || (a.Settle? && a.ending.Abandoned?)
  }

  lemma {:induction false} SafeRunLosesNothing(s: State, actions: seq<Action>)
    requires Inv(s) && s.lost == map[] && s.unfenced == 0
    requires Run(s, actions) && forall a | a in actions :: !Risky(a)
    ensures After(s, actions).lost == map[] && After(s, actions).unfenced == 0
    decreases |actions|
  {
    if actions != [] {
      var t := Apply(s, actions[0]);
      InvStep(s, actions[0]);
      assert actions[0] in actions;
      if actions[0].SaveLogin? {
        VerifiedSaveReplacesNothing(s, actions[0].p, actions[0].generation, actions[0].expires);
      }
      SafeRunLosesNothing(t, actions[1..]);
    }
  }

  /** A login whose fence passes verification has held it without a break since it claimed. */
  lemma VerifiedFenceWasNeverBroken(actions: seq<Action>, p: nat)
    requires Run(INIT, actions) && HasFence(After(INIT, actions), p)
    ensures var s := After(INIT, actions); s.procs[p].nonce !in s.broken
    ensures var s := After(INIT, actions);
      forall q | HasFence(s, q) :: q == p
  {
    InvRun(INIT, actions);
  }

  /** The store holds another device's live session. */
  predicate Replaces(s: State, p: nat) {
    && p in s.procs && s.procs[p].Holding? && s.store.Holds?
    && s.store.credentials.device != s.procs[p].device && Live(s, s.store.credentials.device)
  }

  /** Exactly then the save of an issued session, with or without a fence, costs a session its place in
      the store, and it orphans that session exactly if no process carries it any more. */
  lemma SaveReplacesExactly(s: State, a: Action)
    requires Inv(s) && (a.SaveLogin? || a.SaveUnfenced?) && Enabled(s, a)
    ensures Apply(s, a).lost ==
      (if Replaces(s, a.p) then s.lost[s.store.credentials.device := Loss(Overwritten, a.p)] else s.lost)
      - {s.procs[a.p].device}
    ensures s.store.Holds? && s.store.credentials.device != s.procs[a.p].device ==>
      var d := s.store.credentials.device;
      Revocable(s, d) && !Revocable(Apply(s, a), d)
      && (Orphan(Apply(s, a), d) <==> Live(s, d) && !exists q :: HeldBy(s, q, d))
  {
    var t := Apply(s, a);
    assert t.procs == s.procs && t.sessions == s.sessions;
    assert forall q, d :: HeldBy(t, q, d) <==> HeldBy(s, q, d);
  }

  /** A deletion without confirmation costs the stored session its key, and orphans it exactly when it is
      live and no process carries it. */
  lemma DeletionOrphansExactly(s: State, p: nat)
    requires Inv(s) && Enabled(s, DeleteUnconfirmed(p))
    ensures var d := s.store.credentials.device;
      var t := Apply(s, DeleteUnconfirmed(p));
      && Revocable(s, d) && !Revocable(t, d)
      && (Orphan(t, d) <==> Live(s, d) && !exists q :: HeldBy(s, q, d))
      && t.lost == (if Live(s, d) then s.lost[d := Loss(DeletedUnconfirmed, p)] else s.lost)
  {
    var t := Apply(s, DeleteUnconfirmed(p));
    assert forall q, d :: HeldBy(t, q, d) <==> HeldBy(s, q, d);
  }

  /** The save of a verified login goes into an empty store or over its own credentials, and replaces no
      session, unless a retaining save was made without a fence after the claim. */
  lemma VerifiedSaveReplacesNothing(s: State, p: nat, g: nat, e: int)
    requires Inv(s) && Enabled(s, SaveLogin(p, g, e)) && s.unfenced == s.procs[p].epoch
    ensures s.store.Empty? || s.store.credentials.device == s.procs[p].device
    ensures Apply(s, SaveLogin(p, g, e)).lost == s.lost - {s.procs[p].device}
  {
    SaveReplacesExactly(s, SaveLogin(p, g, e));
  }

  /** What a save replaces was there before, as long as the store and the login stayed the same. */
  lemma ReplacesFades(s: State, t: State, p: nat)
    requires FreshOk(s) && Evolves(s, t) && Replaces(t, p)
    requires p in s.procs && t.procs[p] == s.procs[p] && t.store == s.store
    ensures Replaces(s, p)
  {}

  lemma {:induction false} UnfencedOnlyGrows(s: State, actions: seq<Action>)
    requires Run(s, actions)
    ensures After(s, actions).unfenced >= s.unfenced
    ensures After(s, actions).unfenced > s.unfenced <==> exists a :: a in actions && a.SaveUnfenced?
    decreases |actions|
  {
    if actions != [] {
      UnfencedOnlyGrows(Apply(s, actions[0]), actions[1..]);
      assert forall a :: a in actions <==> a == actions[0] || a in actions[1..];
    }
  }

  /** Sessions only end, a device keeps its key, and new devices are new. */
  ghost predicate Evolves(s: State, t: State) {
    && s.next <= t.next
    && (forall d | d in s.sessions ::
          d in t.sessions && t.sessions[d].key == s.sessions[d].key && (t.sessions[d].live ==> s.sessions[d].live))
    && (forall d | d in t.sessions && d < s.next :: d in s.sessions)
  }

  lemma EvolvesStep(s: State, a: Action)
    requires FreshOk(s) && Enabled(s, a)
    ensures Evolves(s, Apply(s, a))
  {}

  // ---- What does not hold ----

  lemma {:induction false} Then(s: State, actions: seq<Action>, a: Action)
    requires Run(s, actions) && Enabled(After(s, actions), a)
    ensures Run(s, actions + [a]) && After(s, actions + [a]) == Apply(After(s, actions), a)
    decreases |actions|
  {
    if actions == [] {
      assert actions + [a] == [a] && [a][1..] == [];
    } else {
      assert (actions + [a])[1..] == actions[1..] + [a];
      Then(Apply(s, actions[0]), actions[1..], a);
    }
  }

  ghost predicate Trace(actions: seq<Action>, s: State) { Run(INIT, actions) && After(INIT, actions) == s }

  lemma Go(actions: seq<Action>, s: State, a: Action) returns (longer: seq<Action>, t: State)
    requires Trace(actions, s) && Enabled(s, a)
    ensures Trace(longer, t) && t == Apply(s, a)
  {
    longer, t := actions + [a], Apply(s, a);
    Then(INIT, actions, a);
  }

  /** A live session whose key is neither stored nor carried by any process. */
  ghost predicate Orphan(s: State, d: nat) { Live(s, d) && !Revocable(s, d) && !exists p :: HeldBy(s, p, d) }

  const LOGGED_IN := State(
    map[2 := Session(true, 1, 0)],
    Holds(Credentials(2, 1, 0, 3600)), Some(Fence(1, 0, 900)),
    map[0 := Settled(1, 2, InStore)],
    map[], {}, 0, 3)

  lemma ReachLoggedIn() returns (actions: seq<Action>)
    ensures Trace(actions, LOGGED_IN)
  {
    actions := [];
    var s := INIT;
    actions, s := Go(actions, s, Spawn);
    actions, s := Go(actions, s, WriteFence(0, 900));
    actions, s := Go(actions, s, Issue(0));
    actions, s := Go(actions, s, SaveLogin(0, 0, 3600));
    actions, s := Go(actions, s, Settle(0, InStore));
    assert s == LOGGED_IN;
  }

  const ORPHANED := State(
    map[2 := Session(true, 1, 0)],
    Empty, Some(Fence(1, 0, 900)),
    map[0 := Settled(1, 2, InStore)],
    map[2 := Loss(DeletedUnconfirmed, 0)], {}, 0, 3)

  lemma ReachOrphaned() returns (actions: seq<Action>)
    ensures Trace(actions, ORPHANED)
  {
    actions := ReachLoggedIn();
    var s := LOGGED_IN;
    actions, s := Go(actions, s, DeleteUnconfirmed(0));
    assert s == ORPHANED;
  }

  const LATE_LOGIN := State(
    map[2 := Session(true, 1, 0)],
    Empty, None,
    map[0 := Holding(1, 0, 1, 2), 3 := NoLogin],
    map[], {1}, 0, 4)

  lemma ReachLateLogin() returns (actions: seq<Action>)
    ensures Trace(actions, LATE_LOGIN)
  {
    actions := [];
    var s := INIT;
    actions, s := Go(actions, s, Spawn);
    actions, s := Go(actions, s, WriteFence(0, 900));
    actions, s := Go(actions, s, Issue(0));
    actions, s := Go(actions, s, DropFence);
    actions, s := Go(actions, s, Spawn);
    assert s == LATE_LOGIN;
  }

  const SECOND_LOGIN := State(
    map[2 := Session(true, 1, 0), 5 := Session(true, 4, 0)],
    Holds(Credentials(5, 4, 0, 3600)), Some(Fence(4, 3, 900)),
    map[0 := Holding(1, 0, 1, 2), 3 := Settled(4, 5, InStore)],
    map[], {1}, 0, 6)

  lemma ReachSecondLogin() returns (actions: seq<Action>)
    ensures Trace(actions, SECOND_LOGIN)
  {
    actions := ReachLateLogin();
    var s := LATE_LOGIN;
    actions, s := Go(actions, s, WriteFence(3, 900));
    actions, s := Go(actions, s, Issue(3));
    actions, s := Go(actions, s, SaveLogin(3, 0, 3600));
    actions, s := Go(actions, s, Settle(3, InStore));
    assert s == SECOND_LOGIN;
  }

  const REPLACED := State(
    map[2 := Session(true, 1, 0), 5 := Session(true, 4, 0)],
    Holds(Credentials(2, 1, 0, 3600)), Some(Fence(4, 3, 900)),
    map[0 := Holding(1, 0, 1, 2), 3 := Settled(4, 5, InStore)],
    map[5 := Loss(Overwritten, 0)], {1}, 1, 6)

  lemma ReachReplaced() returns (actions: seq<Action>)
    ensures Trace(actions, REPLACED)
  {
    actions := ReachSecondLogin();
    var s := SECOND_LOGIN;
    actions, s := Go(actions, s, SaveUnfenced(0, 0, 3600));
    assert s == REPLACED;
  }

  /** Deleting credentials on an unconfirmed error, as Status does on refresh_invalid, leaves a live
      session that nothing on this machine can revoke. */
  lemma UnconfirmedDeletionOrphans() returns (actions: seq<Action>)
    ensures Run(INIT, actions) && Orphan(After(INIT, actions), 2)
    ensures After(INIT, actions).lost == map[2 := Loss(DeletedUnconfirmed, 0)]
  {
    actions := ReachOrphaned();
  }

  /** A login that lost its fence and then retains its session replaces the credentials of the login
      that came after it. */
  lemma UnfencedSaveOrphans() returns (actions: seq<Action>)
    ensures Run(INIT, actions) && Orphan(After(INIT, actions), 5)
    ensures After(INIT, actions).lost == map[5 := Loss(Overwritten, 0)]
  {
    actions := ReachReplaced();
  }
}
