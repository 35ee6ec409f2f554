/** Session commands as steps between two effects, for any number of processes that share one receipt
    file and one server. Their steps may interleave; a run in which commands never overlap is a locked
    one. */
module SessionSteps {
  import opened Optional
  import opened DevelopmentSession

  datatype FinishArgs = NoOptions | Patch(output: string) | Discard | BadOptions

  /** What a process is about to do, with the receipt it has in memory. */
  datatype Pc =
    | WritingFirst(receipt: Receipt)            // start: record the session
    | SendingCreate(receipt: Receipt)
    | WritingId(receipt: Receipt)               // record the answered sandbox
    | AwaitingReady(receipt: Receipt)
    | MakingBaseline(receipt: Receipt)          // the sandbox runs
    | WritingReady(receipt: Receipt)
    | Capturing(receipt: Receipt)               // finish --patch
    | WritingDecision(receipt: Receipt)
    | Looking(receipt: Receipt)                 // look at the sandbox before dismantling it
    | WritingOver(receipt: Receipt)             // it is deleted already
    | WritingStop(receipt: Receipt, seen: View)
    | SendingStop(receipt: Receipt, seen: View)
    | AwaitingStop(receipt: Receipt, before: Option<View>)  // the view from before, while none is newer
    | WritingDelete(receipt: Receipt)
    | SendingDelete(receipt: Receipt)
    | AwaitingGone(receipt: Receipt)
    | WritingGone(receipt: Receipt)

  datatype State = State(
    receipt: Option<Receipt>,   // the receipt file
    sandboxes: map<nat, nat>,   // the server's sandboxes by idempotency key
    procs: map<nat, Pc>,        // the processes in the middle of a command
    log: seq<Event>)

  const INIT := State(None, map[], map[], [])

  datatype Action =
    | StartFresh(p: nat, flags: Spec, prefix: nat)
    | StartAgain(p: nat)
    | Finish(p: nat, args: FinishArgs)
    | Write(p: nat)
    | Create(p: nat, id: nat, accepted: bool, answered: bool)
    | Look(p: nat, view: View)
    | Baseline(p: nat)
    | Capture(p: nat)
    | Stop(p: nat)
    | TrustView(p: nat)  // no attempt to wait: the view from before the stop decides
    | Delete(p: nat)
    | Quit(p: nat)       // an error, a refusal or a death

  /** The receipt that a process is about to write, if it is. */
  function Next(pc: Pc): Option<Receipt> {
    match pc
    case WritingFirst(r) => Some(r)
    case WritingId(r) => Some(r)
    case WritingReady(r) => Some(r.(phase := Ready))
    case WritingDecision(r) => Some(r)
    case WritingOver(r) => Some(r.(phase := Deleted))
    case WritingStop(r, _) => Some(r.(phase := Phase.Stopping))
    case WritingDelete(r) => Some(r.(phase := Phase.Deleting))
    case WritingGone(r) => Some(r.(phase := Deleted))
    case _ => None
  }

  /** What follows a write; None ends the command. */
  function Then(pc: Pc): Option<Pc>
    requires Next(pc).Some?
  {
    var r := Next(pc).value;
    match pc
    case WritingFirst(_) => Some(SendingCreate(r))
    case WritingId(_) => Some(AwaitingReady(r))
    case WritingDecision(_) => Some(Looking(r))
    case WritingStop(_, seen) => Some(SendingStop(r, seen))
    case WritingDelete(_) => Some(SendingDelete(r))
    case _ => None
  }

  /** What finish does first; None is a refusal. */
  function Opening(r: Receipt, args: FinishArgs): Option<Pc> {
    if r.sandbox.None? || r.phase.Deleted? then None
    else if r.phase.Ready? then
      match args
      case Patch(_) => Some(Capturing(r))
      case Discard => Some(WritingDecision(r.(phase := DiscardApproved)))
      case _ => None
    else if r.phase.Starting? && args.Discard? then Some(WritingDecision(r.(phase := DiscardApproved)))
    else if args.NoOptions? then Some(Looking(r))
    else None
  }

  predicate Waits(pc: Pc) { pc.AwaitingReady? || pc.Looking? || pc.AwaitingStop? || pc.AwaitingGone? }

  /** What a process makes of a view of the sandbox; None ends the command with an error. */
  function Seen(pc: Pc, v: View): Option<Pc>
    requires Waits(pc)
  {
    if pc.receipt.sandbox != Some(v.id) then None
    else
      match pc
      case AwaitingReady(r) =>
        if v.state.Running? then Some(MakingBaseline(r))
        else if v.state.Failed? || v.state.Gone? then None else Some(pc)
      case Looking(r) =>
        if v.state.Gone? && v.desiredGone then Some(WritingOver(r))
        else if r.phase.Deleting? then Some(SendingDelete(r)) else Some(WritingStop(r, v))
      case AwaitingStop(r, _) => if v.state.Stopped? then Some(WritingDelete(r)) else Some(AwaitingStop(r, None))
      case AwaitingGone(r) => if v.state.Gone? && v.desiredGone then Some(WritingGone(r)) else Some(pc)
  }

  predicate Begins(a: Action) { a.StartFresh? || a.StartAgain? || a.Finish? }

  predicate Enabled(s: State, a: Action) {
    if Begins(a) then
      a.p !in s.procs &&
      match a
      case StartFresh(_, _, _) => s.receipt.None?
      case StartAgain(_) => s.receipt.Some? && (s.receipt.value.phase.Creating? || s.receipt.value.phase.Starting?)
      case Finish(_, args) => s.receipt.Some? && Opening(s.receipt.value, args).Some?
    else
      a.p in s.procs &&
      var pc := s.procs[a.p];
      match a
      case Write(_) => Next(pc).Some?
      case Create(_, _, _, _) => pc.SendingCreate?
      case Look(_, _) => Waits(pc)
      case Baseline(_) => pc.MakingBaseline? && pc.receipt.sandbox.Some?
      case Capture(_) => pc.Capturing? && pc.receipt.sandbox.Some?
      case Stop(_) => pc.SendingStop? && pc.receipt.sandbox.Some?
      case TrustView(_) => pc.AwaitingStop? && pc.before.Some? && pc.before.value.state.Stopped?
      case Delete(_) => pc.SendingDelete? && pc.receipt.sandbox.Some?
      case Quit(_) => true
  }

  function Goes(s: State, p: nat, pc: Option<Pc>): State {
    s.(procs := if pc.Some? then s.procs[p := pc.value] else s.procs - {p})
  }

  function Noted(s: State, e: Event): State { s.(log := s.log + [e]) }

  function Apply(s: State, a: Action): State
    requires Enabled(s, a)
  {
    match a
    case StartFresh(p, flags, prefix) => Goes(s, p, Some(WritingFirst(Receipt(Creating, None, flags, prefix))))
    case StartAgain(p) =>
      var r := s.receipt.value;
      Goes(s, p, Some(if r.phase.Creating? then SendingCreate(r) else AwaitingReady(r)))
    case Finish(p, args) => Goes(s, p, Opening(s.receipt.value, args))
    case Write(p) =>
      var r := Next(s.procs[p]).value;
      Goes(Noted(s.(receipt := Some(r)), Wrote(r)), p, Then(s.procs[p]))
    case Create(p, id, accepted, answered) =>
      var r := s.procs[p].receipt;
      var t := Noted(s, SentCreate(Request(r.prefix, r.spec)));
      var u := if accepted && r.prefix !in s.sandboxes then t.(sandboxes := t.sandboxes[r.prefix := id]) else t;
      Goes(u, p, if accepted && answered
                 then Some(WritingId(r.(phase := Starting, sandbox := Some(u.sandboxes[r.prefix])))) else None)
    case Look(p, v) => Goes(Noted(s, Observed(v)), p, Seen(s.procs[p], v))
    case Baseline(p) =>
      var r := s.procs[p].receipt;
      Goes(Noted(s, Prepared(r.sandbox.value)), p, Some(WritingReady(r)))
    case Capture(p) =>
      var r := s.procs[p].receipt;
      Goes(Noted(s, Captured(r.sandbox.value)), p, Some(WritingDecision(r.(phase := PatchSaved))))
    case Stop(p) =>
      var pc := s.procs[p];
      Goes(Noted(s, SentStop(pc.receipt.sandbox.value)), p, Some(AwaitingStop(pc.receipt, Some(pc.seen))))
    case TrustView(p) => Goes(s, p, Some(WritingDelete(s.procs[p].receipt)))
    case Delete(p) =>
      var r := s.procs[p].receipt;
      Goes(Noted(s, SentDelete(r.sandbox.value)), p, Some(AwaitingGone(r)))
    case Quit(p) => Goes(s, p, None)
  }

  // ---- What holds whoever else is at work ----

  /** What a process knows when it is about to act. */
  ghost predicate Knows(log: seq<Event>, pc: Pc) {
    var r := pc.receipt;
    (pc.WritingFirst? || pc.SendingCreate? <==> r.sandbox.None?) &&
    match pc
    case WritingFirst(_) => r.phase.Creating?
    case SendingCreate(_) => r.phase.Creating? && Wrote(r) in log
    case WritingId(_) => r.phase.Starting?
    case AwaitingReady(_) => r.phase.Starting?
    case MakingBaseline(_) => r.phase.Starting? && Looked(log, r.sandbox.value)
    case WritingReady(_) => r.phase.Starting? && Prepared(r.sandbox.value) in log
    case Capturing(_) => r.phase.Ready? && Wrote(r) in log
    case WritingDecision(_) => r.phase.DiscardApproved? || (r.phase.PatchSaved? && Captured(r.sandbox.value) in log)
    case Looking(_) => Wrote(r) in log && !r.phase.Creating? && !r.phase.Ready? && !r.phase.Deleted?
    case WritingOver(_) => SawGone(log, r.sandbox.value)
    case WritingStop(_, seen) => Observed(seen) in log && r.sandbox == Some(seen.id)
    case SendingStop(_, seen) =>
      Observed(seen) in log && r.sandbox == Some(seen.id) && r.phase.Stopping? && Wrote(r) in log
    case AwaitingStop(_, before) => before.Some? ==> Observed(before.value) in log && r.sandbox == Some(before.value.id)
    case WritingDelete(_) => SawStopped(log, r.sandbox.value)
    case SendingDelete(_) => r.phase.Deleting? && Wrote(r) in log
    case AwaitingGone(_) => true
    case WritingGone(_) => SawGone(log, r.sandbox.value)
  }

  lemma KnowsStill(log: seq<Event>, e: Event, pc: Pc)
    requires Knows(log, pc)
    ensures Knows(log + [e], pc)
  {
    if pc.WritingDelete? {
      var v :| Observed(v) in log && v.id == pc.receipt.sandbox.value && v.state.Stopped?;
      assert Observed(v) in log + [e];
    } else if pc.MakingBaseline? {
      var v :| Observed(v) in log && v.id == pc.receipt.sandbox.value;
      assert Observed(v) in log + [e];
    }
  }

  /** The sandbox in a receipt is the one the server has for it. */
  predicate Backed(s: State, r: Receipt) {
    r.sandbox.Some? ==> r.prefix in s.sandboxes && s.sandboxes[r.prefix] == r.sandbox.value
  }

  ghost predicate Asked(log: seq<Event>, prefix: nat) {
    exists q :: SentCreate(q) in log && q.prefix == prefix
  }

  ghost predicate ServerOk(s: State) {
    && (forall k | k in s.sandboxes :: Asked(s.log, k))
    && (s.receipt.Some? ==> Backed(s, s.receipt.value))
    && (forall p | p in s.procs :: Backed(s, s.procs[p].receipt))
  }

  ghost predicate Inv(s: State) {
    && GroundedLog(s.log) && s.receipt == Latest(s.log) && ServerOk(s)
    && (forall p | p in s.procs :: Knows(s.log, s.procs[p]))
  }

  /** The event that an action adds, if any. */
  function Effect(s: State, a: Action): Option<Event>
    requires Enabled(s, a)
  {
    match a
    case Write(p) => Some(Wrote(Next(s.procs[p]).value))
    case Create(p, _, _, _) => Some(SentCreate(Request(s.procs[p].receipt.prefix, s.procs[p].receipt.spec)))
    case Look(_, v) => Some(Observed(v))
    case Baseline(p) => Some(Prepared(s.procs[p].receipt.sandbox.value))
    case Capture(p) => Some(Captured(s.procs[p].receipt.sandbox.value))
    case Stop(p) => Some(SentStop(s.procs[p].receipt.sandbox.value))
    case Delete(p) => Some(SentDelete(s.procs[p].receipt.sandbox.value))
    case _ => None
  }

  lemma EffectIs(s: State, a: Action)
    requires Enabled(s, a)
    ensures Apply(s, a).log == s.log + (if Effect(s, a).Some? then [Effect(s, a).value] else [])
  {}

  lemma EffectGrounded(s: State, a: Action)
    requires Inv(s) && Enabled(s, a) && Effect(s, a).Some?
    ensures Grounded(s.log, Effect(s, a).value)
  {
    var pc := s.procs[a.p];
    assert Knows(s.log, pc);
    if a.Delete? { DeletingSawStopped(s.log, pc.receipt); }
  }

  lemma LogStep(s: State, a: Action)
    requires Inv(s) && Enabled(s, a)
    ensures GroundedLog(Apply(s, a).log) && Apply(s, a).receipt == Latest(Apply(s, a).log)
  {
    EffectIs(s, a);
    var t := Apply(s, a);
    if Effect(s, a).Some? {
      EffectGrounded(s, a);
      assert t.log[..|t.log| - 1] == s.log;
    } else {
      assert t.log == s.log;
    }
  }

  // What the acting process knows afterwards, by kind of action.

  lemma BeginnerKnows(s: State, a: Action)
    requires Inv(s) && Enabled(s, a) && Begins(a)
    ensures Knows(Apply(s, a).log, Apply(s, a).procs[a.p])
  {
    if s.receipt.Some? {
      LatestWasWritten(s.log);
      var w :| 0 <= w < |s.log| && s.log[w] == Wrote(s.receipt.value);
      GroundedAt(s.log, w);
    }
  }

  lemma WriterKnows(s: State, a: Action)
    requires Inv(s) && Enabled(s, a) && a.Write? && a.p in Apply(s, a).procs
    ensures Knows(Apply(s, a).log, Apply(s, a).procs[a.p])
  {
    var t := Apply(s, a);
    var pc := s.procs[a.p];
    assert Knows(s.log, pc);
    assert t.log[|s.log|] == Wrote(Next(pc).value);
    if pc.WritingStop? { assert Observed(pc.seen) in t.log; }
  }

  lemma LookerKnows(s: State, a: Action)
    requires Inv(s) && Enabled(s, a) && a.Look? && a.p in Apply(s, a).procs
    ensures Knows(Apply(s, a).log, Apply(s, a).procs[a.p])
  {
    var t := Apply(s, a);
    var pc := s.procs[a.p];
    assert Knows(s.log, pc);
    assert t.log[|s.log|] == Observed(a.view);
    if pc.Looking? { assert Wrote(pc.receipt) in t.log; }
  }

  lemma SenderKnows(s: State, a: Action)
    requires Inv(s) && Enabled(s, a) && !Begins(a) && !a.Write? && !a.Look? && a.p in Apply(s, a).procs
    ensures Knows(Apply(s, a).log, Apply(s, a).procs[a.p])
  {
    var t := Apply(s, a);
    var pc := s.procs[a.p];
    assert Knows(s.log, pc);
    if a.Baseline? { assert t.log[|s.log|] == Prepared(pc.receipt.sandbox.value); }
    if a.Capture? { assert t.log[|s.log|] == Captured(pc.receipt.sandbox.value); }
    if a.Stop? { assert Observed(pc.seen) in t.log; }
    if a.TrustView? { assert Observed(pc.before.value) in t.log; }
  }

  lemma ActorKnows(s: State, a: Action)
    requires Inv(s) && Enabled(s, a) && a.p in Apply(s, a).procs
    ensures Knows(Apply(s, a).log, Apply(s, a).procs[a.p])
  {
    if Begins(a) {
      BeginnerKnows(s, a);
    } else if a.Write? {
      WriterKnows(s, a);
    } else if a.Look? {
      LookerKnows(s, a);
    } else {
      SenderKnows(s, a);
    }
  }

  lemma KnowsStep(s: State, a: Action)
    requires Inv(s) && Enabled(s, a)
    ensures var t := Apply(s, a); forall p | p in t.procs :: Knows(t.log, t.procs[p])
  {
    var t := Apply(s, a);
    EffectIs(s, a);
    forall p | p in t.procs ensures Knows(t.log, t.procs[p]) {
      if p == a.p {
        ActorKnows(s, a);
      } else {
        assert t.procs[p] == s.procs[p];
        if Effect(s, a).Some? { KnowsStill(s.log, Effect(s, a).value, s.procs[p]); } else { assert t.log == s.log; }
      }
    }
  }

  lemma AskedStep(s: State, a: Action, k: nat)
    requires Inv(s) && Enabled(s, a) && k in Apply(s, a).sandboxes
    ensures Asked(Apply(s, a).log, k)
  {
    var t := Apply(s, a);
    EffectIs(s, a);
    if k in s.sandboxes {
      assert Asked(s.log, k);
      var q :| SentCreate(q) in s.log && q.prefix == k;
      assert SentCreate(q) in t.log;
    } else {
      assert t.log[|s.log|] == Effect(s, a).value;
      assert Effect(s, a).value in t.log;
    }
  }

  lemma BackedStep(s: State, a: Action)
    requires Inv(s) && Enabled(s, a)
    ensures var t := Apply(s, a);
      && (t.receipt.Some? ==> Backed(t, t.receipt.value))
      && (forall p | p in t.procs :: Backed(t, t.procs[p].receipt))
  {
    if !Begins(a) { assert Backed(s, s.procs[a.p].receipt); }
  }

  lemma ServerStep(s: State, a: Action)
    requires Inv(s) && Enabled(s, a)
    ensures ServerOk(Apply(s, a))
  {
    BackedStep(s, a);
    forall k | k in Apply(s, a).sandboxes ensures Asked(Apply(s, a).log, k) { AskedStep(s, a, k); }
  }

  lemma InvStep(s: State, a: Action)
    requires Inv(s) && Enabled(s, a)
    ensures Inv(Apply(s, a))
  {
    LogStep(s, a);
    KnowsStep(s, a);
    ServerStep(s, a);
  }

  // ---- What holds when one command runs at a time ----

  /** The process's receipt is the one on disk, or follows it. */
  predicate InStep(receipt: Option<Receipt>, pc: Pc) {
    match pc
    case WritingFirst(r) => receipt.None?
    case WritingId(r) =>
      receipt.Some? && receipt.value.phase.Creating? && r == receipt.value.(phase := Starting, sandbox := r.sandbox)
    case WritingDecision(r) =>
      receipt.Some? && r == receipt.value.(phase := r.phase) && Moves(receipt.value.phase, r.phase)
    case Looking(r) => receipt == Some(r)
    case WritingOver(r) => receipt == Some(r) && Moves(r.phase, Deleted)
    case WritingStop(r, _) => receipt == Some(r) && Moves(r.phase, Phase.Stopping)
    case SendingStop(r, _) => receipt == Some(r) && r.phase.Stopping?
    case AwaitingStop(r, _) => receipt == Some(r) && r.phase.Stopping?
    case WritingDelete(r) => receipt == Some(r) && r.phase.Stopping?
    case SendingDelete(r) => receipt == Some(r) && r.phase.Deleting?
    case AwaitingGone(r) => receipt == Some(r) && r.phase.Deleting?
    case WritingGone(r) => receipt == Some(r) && r.phase.Deleting?
    case _ => receipt == Some(pc.receipt)
  }

  ghost predicate Alone(s: State) { forall p, q | p in s.procs && q in s.procs :: p == q }

  ghost predicate InvAlone(s: State) {
    Inv(s) && Alone(s) && GoodLog(s.log) && AllInStep(s)
  }

  /** A command begins only when no other is under way. */
  predicate Locked(s: State, a: Action) { Begins(a) ==> s.procs == map[] }

  lemma EffectOk(s: State, a: Action)
    requires InvAlone(s) && Enabled(s, a) && Effect(s, a).Some?
    ensures EventOk(s.log, Effect(s, a).value)
  {
    EffectGrounded(s, a);
    assert Knows(s.log, s.procs[a.p]) && InStep(s.receipt, s.procs[a.p]);
  }

  ghost predicate AllInStep(s: State) { forall p | p in s.procs :: InStep(s.receipt, s.procs[p]) }

  lemma BeginsInStep(s: State, a: Action)
    requires InvAlone(s) && Enabled(s, a) && Begins(a) && Locked(s, a)
    ensures AllInStep(Apply(s, a))
  {
    if s.receipt.Some? { IdExactlyAfterCreating(s.log); }
  }

  lemma WritesInStep(s: State, a: Action)
    requires InvAlone(s) && Enabled(s, a) && a.Write?
    ensures AllInStep(Apply(s, a))
  {
    assert Knows(s.log, s.procs[a.p]) && InStep(s.receipt, s.procs[a.p]);
  }

  lemma ActsInStep(s: State, a: Action)
    requires InvAlone(s) && Enabled(s, a) && !Begins(a) && !a.Write?
    ensures AllInStep(Apply(s, a))
  {
    assert Knows(s.log, s.procs[a.p]) && InStep(s.receipt, s.procs[a.p]);
  }

  lemma GoodStep(s: State, a: Action)
    requires InvAlone(s) && Enabled(s, a)
    ensures GoodLog(Apply(s, a).log)
  {
    EffectIs(s, a);
    if Effect(s, a).Some? {
      EffectOk(s, a);
      Append(s.log, Effect(s, a).value);
    } else {
      assert Apply(s, a).log == s.log;
    }
  }

  lemma AloneStays(s: State, a: Action)
    requires Alone(s) && Enabled(s, a) && Locked(s, a)
    ensures Alone(Apply(s, a))
  {}

  lemma AloneStep(s: State, a: Action)
    requires InvAlone(s) && Enabled(s, a) && Locked(s, a)
    ensures InvAlone(Apply(s, a))
  {
    InvStep(s, a);
    AloneStays(s, a);
    GoodStep(s, a);
    if Begins(a) {
      BeginsInStep(s, a);
    } else if a.Write? {
      WritesInStep(s, a);
    } else {
      ActsInStep(s, a);
    }
  }

  // ---- Runs ----

  ghost predicate Run(s: State, actions: seq<Action>)
    decreases |actions|
  {
    actions == [] || (Enabled(s, actions[0]) && Run(Apply(s, actions[0]), actions[1..]))
  }

  ghost function After(s: State, actions: seq<Action>): State
    requires Run(s, actions)
    decreases |actions|
  {
    if actions == [] then s else After(Apply(s, actions[0]), actions[1..])
  }

  /** A run of commands that never overlap, each possibly cut short. */
  ghost predicate LockedRun(s: State, actions: seq<Action>): (locked: bool)
    ensures locked ==> Run(s, actions)
    decreases |actions|
  {
    actions == [] ||
    (Enabled(s, actions[0]) && Locked(s, actions[0]) && LockedRun(Apply(s, actions[0]), actions[1..]))
  }

  lemma {:induction false} InvRun(s: State, actions: seq<Action>)
    requires Inv(s) && Run(s, actions)
    ensures Inv(After(s, actions))
    decreases |actions|
  {
    if actions != [] {
      InvStep(s, actions[0]);
      InvRun(Apply(s, actions[0]), actions[1..]);
    }
  }

  lemma {:induction false} AloneRun(s: State, actions: seq<Action>)
    requires InvAlone(s) && LockedRun(s, actions)
    ensures InvAlone(After(s, actions))
    decreases |actions|
  {
    if actions != [] {
      AloneStep(s, actions[0]);
      AloneRun(Apply(s, actions[0]), actions[1..]);
    }
  }

  /** However many processes run session commands at once: every event has its ground. Delete follows
      a look at the stopped sandbox, `deleted` a look at the deleted one, `patch_saved` a capture. */
  lemma EveryRunIsGrounded(actions: seq<Action>, i: nat)
    requires Run(INIT, actions) && i < |After(INIT, actions).log|
    ensures var log := After(INIT, actions).log; Grounded(log[..i], log[i])
  {
    InvRun(INIT, actions);
    GroundedAt(After(INIT, actions).log, i);
  }

  /** One command at a time: the log is a good one, so that all its consequences hold, and the server has
      at most one sandbox. */
  lemma LockedRunIsGood(actions: seq<Action>, a: nat, b: nat)
    requires LockedRun(INIT, actions)
    ensures GoodLog(After(INIT, actions).log)
    ensures a in After(INIT, actions).sandboxes && b in After(INIT, actions).sandboxes ==> a == b
  {
    AloneRun(INIT, actions);
    var s := After(INIT, actions);
    if a in s.sandboxes && b in s.sandboxes { OneSandbox(s, a, b); }
  }

  lemma OneSandbox(s: State, a: nat, b: nat)
    requires InvAlone(s) && a in s.sandboxes && b in s.sandboxes
    ensures a == b
  {
    assert Asked(s.log, a) && Asked(s.log, b);
    var q :| SentCreate(q) in s.log && q.prefix == a;
    var r :| SentCreate(r) in s.log && r.prefix == b;
    var i :| 0 <= i < |s.log| && s.log[i] == SentCreate(q);
    var j :| 0 <= j < |s.log| && s.log[j] == SentCreate(r);
    CreatesAreIdentical(s.log, i, j);
  }

  // ---- What the commands achieve when all goes well ----

  /** A run from one state to another. */
  ghost predicate Leads(s: State, actions: seq<Action>, t: State) { Run(s, actions) && After(s, actions) == t }

  lemma OneStep(s: State, a: Action)
    requires Enabled(s, a)
    ensures Leads(s, [a], Apply(s, a))
  {
    var rest: seq<Action> := [a][1..];
    assert rest == [];
    assert Run(Apply(s, a), rest) && After(Apply(s, a), rest) == Apply(s, a);
  }

  lemma TwoSteps(s: State, a: Action, b: Action)
    requires Enabled(s, a) && Enabled(Apply(s, a), b)
    ensures Leads(s, [a, b], Apply(Apply(s, a), b))
  {
    OneStep(Apply(s, a), b);
    assert [a, b][1..] == [b];
  }

  lemma Composed(s: State, first: seq<Action>, t: State, second: seq<Action>, u: State)
    requires Leads(s, first, t) && Leads(t, second, u)
    ensures Leads(s, first + second, u)
  {
    Join(s, first, second);
  }

  lemma RecordsSession(s: State, p: nat, first: Receipt) returns (t: State)
    requires s.receipt.None? && p !in s.procs && first == Receipt(Creating, None, first.spec, first.prefix)
    ensures Leads(s, [StartFresh(p, first.spec, first.prefix), Write(p)], t)
    ensures t == State(Some(first), s.sandboxes, s.procs[p := SendingCreate(first)], s.log + [Wrote(first)])
  {
    TwoSteps(s, StartFresh(p, first.spec, first.prefix), Write(p));
    t := Apply(Apply(s, StartFresh(p, first.spec, first.prefix)), Write(p));
  }

  lemma RecordsSandbox(s: State, p: nat, r: Receipt, id: nat) returns (t: State)
    requires p in s.procs && s.procs[p] == SendingCreate(r) && r.prefix !in s.sandboxes
    ensures Leads(s, [Create(p, id, true, true), Write(p)], t)
    ensures var started := r.(phase := Starting, sandbox := Some(id));
      t == State(Some(started), s.sandboxes[r.prefix := id], s.procs[p := AwaitingReady(started)],
                 s.log + [SentCreate(Request(r.prefix, r.spec)), Wrote(started)])
  {
    TwoSteps(s, Create(p, id, true, true), Write(p));
    t := Apply(Apply(s, Create(p, id, true, true)), Write(p));
  }

  lemma MakesBaseline(s: State, p: nat, r: Receipt, id: nat) returns (t: State)
    requires p in s.procs && s.procs[p] == AwaitingReady(r) && r.sandbox == Some(id)
    ensures Leads(s, [Look(p, View(id, Running, false)), Baseline(p)], t)
    ensures t == s.(procs := s.procs[p := WritingReady(r)],
                    log := s.log + [Observed(View(id, Running, false)), Prepared(id)])
  {
    TwoSteps(s, Look(p, View(id, Running, false)), Baseline(p));
    t := Apply(Apply(s, Look(p, View(id, Running, false))), Baseline(p));
  }

  lemma RecordsReady(s: State, p: nat, r: Receipt) returns (t: State)
    requires p in s.procs && s.procs[p] == WritingReady(r)
    ensures Leads(s, [Write(p)], t)
    ensures t == State(Some(r.(phase := Ready)), s.sandboxes, s.procs - {p}, s.log + [Wrote(r.(phase := Ready))])
  {
    OneStep(s, Write(p));
    t := Apply(s, Write(p));
  }

  /** A first start asks once, records the sandbox it was given, makes the baseline, and ends ready. */
  lemma StartGoesThrough(s: State, p: nat, flags: Spec, prefix: nat, id: nat)
    returns (actions: seq<Action>, t: State)
    requires s.receipt.None? && p !in s.procs && prefix !in s.sandboxes
    ensures Leads(s, actions, t)
    ensures t.receipt == Some(Receipt(Ready, Some(id), flags, prefix)) && t.procs == s.procs
    ensures t.sandboxes == s.sandboxes[prefix := id]
    ensures var started := Receipt(Starting, Some(id), flags, prefix);
      t.log == s.log + [Wrote(Receipt(Creating, None, flags, prefix)), SentCreate(Request(prefix, flags)),
                        Wrote(started), Observed(View(id, Running, false)), Prepared(id),
                        Wrote(started.(phase := Ready))]
  {
    var first, started := Receipt(Creating, None, flags, prefix), Receipt(Starting, Some(id), flags, prefix);
    var u := RecordsSession(s, p, first);
    var v := RecordsSandbox(u, p, first, id);
    var w := MakesBaseline(v, p, started, id);
    t := RecordsReady(w, p, started);
    var xs := [StartFresh(p, flags, prefix), Write(p)];
    var ys := [Create(p, id, true, true), Write(p)];
    var zs := [Look(p, View(id, Running, false)), Baseline(p)];
    Composed(s, xs, u, ys, v);
    Composed(v, zs, w, [Write(p)], t);
    Composed(s, xs + ys, v, zs + [Write(p)], t);
    actions := xs + ys + (zs + [Write(p)]);
    assert t.procs == s.procs;
  }

  /** A finish with a patch captures it and records that before anything else. */
  lemma PatchGoesThrough(s: State, p: nat, r: Receipt, output: string) returns (actions: seq<Action>)
    requires s.receipt == Some(r) && r.phase.Ready? && r.sandbox.Some? && p !in s.procs
    ensures Run(s, actions)
    ensures var t := After(s, actions);
      var saved := r.(phase := PatchSaved);
      && t.receipt == Some(saved) && t.procs == s.procs[p := Looking(saved)] && t.sandboxes == s.sandboxes
      && t.log == s.log + [Captured(r.sandbox.value), Wrote(saved)]
  {
    var t := s;
    actions := [];
    actions, t := Chain(s, actions, Finish(p, Patch(output)), t);
    actions, t := Chain(s, actions, Capture(p), t);
    actions, t := Chain(s, actions, Write(p), t);
  }

  /** A finish with --discard records that first. */
  lemma DiscardGoesThrough(s: State, p: nat, r: Receipt) returns (actions: seq<Action>)
    requires s.receipt == Some(r) && (r.phase.Ready? || r.phase.Starting?) && r.sandbox.Some? && p !in s.procs
    ensures Run(s, actions)
    ensures var t := After(s, actions);
      var approved := r.(phase := DiscardApproved);
      && t.receipt == Some(approved) && t.procs == s.procs[p := Looking(approved)]
      && t.log == s.log + [Wrote(approved)]
  {
    var t := s;
    actions := [];
    actions, t := Chain(s, actions, Finish(p, Discard), t);
    actions, t := Chain(s, actions, Write(p), t);
  }

  lemma RecordsStopping(s: State, p: nat, r: Receipt, id: nat) returns (t: State)
    requires p in s.procs && s.procs[p] == Looking(r) && r.sandbox == Some(id) && !r.phase.Deleting?
    ensures var up := View(id, Running, false);
      && Leads(s, [Look(p, up), Write(p)], t)
      && t == State(Some(r.(phase := Phase.Stopping)), s.sandboxes,
                    s.procs[p := SendingStop(r.(phase := Phase.Stopping), up)],
                    s.log + [Observed(up), Wrote(r.(phase := Phase.Stopping))])
  {
    var up := View(id, Running, false);
    TwoSteps(s, Look(p, up), Write(p));
    t := Apply(Apply(s, Look(p, up)), Write(p));
  }

  lemma SeesStopped(s: State, p: nat, r: Receipt, id: nat, up: View) returns (t: State)
    requires p in s.procs && s.procs[p] == SendingStop(r, up) && r.sandbox == Some(id)
    ensures Leads(s, [Stop(p), Look(p, View(id, Stopped, false))], t)
    ensures t == s.(procs := s.procs[p := WritingDelete(r)],
                    log := s.log + [SentStop(id), Observed(View(id, Stopped, false))])
  {
    TwoSteps(s, Stop(p), Look(p, View(id, Stopped, false)));
    t := Apply(Apply(s, Stop(p)), Look(p, View(id, Stopped, false)));
  }

  lemma SendsDelete(s: State, p: nat, r: Receipt, id: nat) returns (t: State)
    requires p in s.procs && s.procs[p] == WritingDelete(r) && r.sandbox == Some(id)
    ensures Leads(s, [Write(p), Delete(p)], t)
    ensures t == State(Some(r.(phase := Phase.Deleting)), s.sandboxes,
                       s.procs[p := AwaitingGone(r.(phase := Phase.Deleting))],
                       s.log + [Wrote(r.(phase := Phase.Deleting)), SentDelete(id)])
  {
    TwoSteps(s, Write(p), Delete(p));
    t := Apply(Apply(s, Write(p)), Delete(p));
  }

  lemma RecordsDeleted(s: State, p: nat, r: Receipt, id: nat) returns (t: State)
    requires p in s.procs && s.procs[p] == AwaitingGone(r) && r.sandbox == Some(id)
    ensures Leads(s, [Look(p, View(id, Gone, true)), Write(p)], t)
    ensures t == State(Some(r.(phase := Deleted)), s.sandboxes, s.procs - {p},
                       s.log + [Observed(View(id, Gone, true)), Wrote(r.(phase := Deleted))])
  {
    TwoSteps(s, Look(p, View(id, Gone, true)), Write(p));
    t := Apply(Apply(s, Look(p, View(id, Gone, true))), Write(p));
  }

  /** Then the sandbox is stopped, seen stopped, deleted and seen deleted, each recorded in its turn. */
  lemma DismantlingGoesThrough(s: State, p: nat, r: Receipt, id: nat) returns (actions: seq<Action>, t: State)
    requires p in s.procs && s.procs[p] == Looking(r) && r.sandbox == Some(id) && !r.phase.Deleting?
    ensures Leads(s, actions, t)
    ensures t.receipt == Some(r.(phase := Deleted)) && t.procs == s.procs - {p} && t.sandboxes == s.sandboxes
    ensures t.log == s.log + [
      Observed(View(id, Running, false)), Wrote(r.(phase := Phase.Stopping)), SentStop(id),
      Observed(View(id, Stopped, false)), Wrote(r.(phase := Phase.Deleting)), SentDelete(id),
      Observed(View(id, Gone, true)), Wrote(r.(phase := Deleted))]
  {
    var up, stopped, gone := View(id, Running, false), View(id, Stopped, false), View(id, Gone, true);
    var stopping, deleting := r.(phase := Phase.Stopping), r.(phase := Phase.Deleting);
    var a := RecordsStopping(s, p, r, id);
    var b := SeesStopped(a, p, stopping, id, up);
    var c := SendsDelete(b, p, stopping, id);
    t := RecordsDeleted(c, p, deleting, id);
    Composed(s, [Look(p, up), Write(p)], a, [Stop(p), Look(p, stopped)], b);
    Composed(b, [Write(p), Delete(p)], c, [Look(p, gone), Write(p)], t);
    var xs := [Look(p, up), Write(p)] + [Stop(p), Look(p, stopped)];
    var ys := [Write(p), Delete(p)] + [Look(p, gone), Write(p)];
    Composed(s, xs, b, ys, t);
    actions := xs + ys;
    assert t.procs == s.procs - {p};
  }

  // ---- What does not hold ----

  lemma {:induction false} Extends(s: State, actions: seq<Action>, a: Action)
    requires Run(s, actions) && Enabled(After(s, actions), a)
    ensures Run(s, actions + [a]) && After(s, actions + [a]) == Apply(After(s, actions), a)
    ensures LockedRun(s, actions) && Locked(After(s, actions), a) ==> LockedRun(s, actions + [a])
    decreases |actions|
  {
    if actions == [] {
      assert actions + [a] == [a] && [a][1..] == [];
    } else {
      assert (actions + [a])[1..] == actions[1..] + [a];
      Extends(Apply(s, actions[0]), actions[1..], a);
    }
  }

  lemma Chain(s: State, actions: seq<Action>, a: Action, t: State) returns (longer: seq<Action>, u: State)
    requires Run(s, actions) && After(s, actions) == t && Enabled(t, a)
    ensures Run(s, longer) && After(s, longer) == u == Apply(t, a)
  {
    longer, u := actions + [a], Apply(t, a);
    Extends(s, actions, a);
  }

  lemma {:induction false} Join(s: State, first: seq<Action>, second: seq<Action>)
    requires Run(s, first) && Run(After(s, first), second)
    ensures Run(s, first + second) && After(s, first + second) == After(After(s, first), second)
    decreases |first|
  {
    if first == [] {
      assert first + second == second;
    } else {
      assert (first + second)[1..] == first[1..] + second;
      Join(Apply(s, first[0]), first[1..], second);
    }
  }

  ghost predicate Trace(actions: seq<Action>, s: State) { Run(INIT, actions) && After(INIT, actions) == s }

  lemma Go(actions: seq<Action>, s: State, a: Action) returns (longer: seq<Action>, t: State)
    requires Trace(actions, s) && Enabled(s, a)
    ensures Trace(longer, t) && t == Apply(s, a)
    ensures LockedRun(INIT, actions) && Locked(s, a) ==> LockedRun(INIT, longer)
  {
    longer, t := actions + [a], Apply(s, a);
    Extends(INIT, actions, a);
  }

  /** A run of commands that never overlap, from the initial state to s. */
  ghost predicate LockedTrace(actions: seq<Action>, s: State) {
    LockedRun(INIT, actions) && After(INIT, actions) == s
  }

  lemma LockedStep(actions: seq<Action>, s: State, a: Action)
    requires LockedTrace(actions, s) && Enabled(s, a) && Locked(s, a)
    ensures LockedTrace(actions + [a], Apply(s, a))
  {
    Extends(INIT, actions, a);
  }

  /** A process that is about to send Delete has the sandbox seen stopped behind it. */
  lemma StoppedWasSeen(actions: seq<Action>, s: State, r: Receipt)
    requires LockedTrace(actions, s) && s.procs == map[0 := SendingDelete(r)]
    ensures r.sandbox.Some? && SawStopped(s.log, r.sandbox.value)
  {
    AloneRun(INIT, actions);
    assert 0 in s.procs && Knows(s.log, s.procs[0]);
    DeletingSawStopped(s.log, r);
  }

  lemma OneProcess(s: State, a: Action)
    requires s.procs.Keys <= {0} && a.p == 0 && Enabled(s, a)
    ensures Locked(s, a) && Apply(s, a).procs.Keys <= {0}
  {
    if Begins(a) { assert s.procs == map[]; }
  }

  const SPEC := Spec("w", "c", "amd64", "1h")
  const CREATED := Receipt(Creating, None, SPEC, 0)
  const STARTED := Receipt(Starting, Some(7), SPEC, 0)
  const UP := View(7, Running, false)

  /** A start that died while it waited for the sandbox. */
  const INTERRUPTED := State(
    Some(STARTED), map[0 := 7], map[],
    [Wrote(CREATED), SentCreate(Request(0, SPEC)), Wrote(STARTED)])

  const RECORDED := State(Some(CREATED), map[], map[0 := SendingCreate(CREATED)], [Wrote(CREATED)])

  lemma ReachRecorded() returns (actions: seq<Action>)
    ensures Trace(actions, RECORDED) && LockedRun(INIT, actions)
  {
    actions := [];
    var s := INIT;
    actions, s := Go(actions, s, StartFresh(0, SPEC, 0));
    actions, s := Go(actions, s, Write(0));
    assert s == RECORDED;
  }

  lemma ReachInterrupted() returns (actions: seq<Action>)
    ensures Trace(actions, INTERRUPTED) && LockedRun(INIT, actions)
  {
    actions := ReachRecorded();
    var s := RECORDED;
    actions, s := Go(actions, s, Create(0, 7, true, true));
    actions, s := Go(actions, s, Write(0));
    actions, s := Go(actions, s, Quit(0));
    assert s == INTERRUPTED;
  }

  const HALTED := STARTED.(phase := Phase.Stopping)

  /** A `finish` without options that found the sandbox running, and the same after it sent Stop. */
  const ABOUT_TO_STOP := State(
    Some(STARTED), map[0 := 7], map[0 := WritingStop(STARTED, UP)],
    [Wrote(CREATED), SentCreate(Request(0, SPEC)), Wrote(STARTED), Observed(UP)])

  const STOPPED := State(
    Some(HALTED), map[0 := 7], map[0 := AwaitingStop(HALTED, Some(UP))],
    [Wrote(CREATED), SentCreate(Request(0, SPEC)), Wrote(STARTED), Observed(UP), Wrote(HALTED), SentStop(7)])

  lemma ReachAboutToStop() returns (actions: seq<Action>)
    ensures Trace(actions, ABOUT_TO_STOP) && LockedRun(INIT, actions)
  {
    actions := ReachInterrupted();
    var s := INTERRUPTED;
    actions, s := Go(actions, s, Finish(0, NoOptions));
    actions, s := Go(actions, s, Look(0, UP));
    assert s == ABOUT_TO_STOP;
  }

  lemma ReachStopped() returns (actions: seq<Action>)
    ensures Trace(actions, STOPPED) && LockedRun(INIT, actions)
  {
    actions := ReachAboutToStop();
    var s := ABOUT_TO_STOP;
    actions, s := Go(actions, s, Write(0));
    actions, s := Go(actions, s, Stop(0));
    assert s == STOPPED;
  }

  /** A session that never became ready is stopped by `finish` without options, and nothing was ever
      approved. */
  lemma UnreadyNeedsNoApproval() returns (actions: seq<Action>)
    ensures LockedRun(INIT, actions)
    ensures var log := After(INIT, actions).log;
      SentStop(7) in log && forall r | Wrote(r) in log :: !Approves(r.phase) && !r.phase.Ready?
  {
    actions := ReachStopped();
    assert STOPPED.log[5] == SentStop(7);
  }

  /** Two first starts that have recorded their sessions, one over the other. */
  const BOTH := State(
    Some(CREATED.(prefix := 1)), map[], map[0 := SendingCreate(CREATED), 1 := SendingCreate(CREATED.(prefix := 1))],
    [Wrote(CREATED), Wrote(CREATED.(prefix := 1))])

  lemma ReachBoth() returns (actions: seq<Action>)
    ensures Trace(actions, BOTH)
  {
    actions := [];
    var s := INIT;
    actions, s := Go(actions, s, StartFresh(0, SPEC, 0));
    actions, s := Go(actions, s, StartFresh(1, SPEC, 1));
    actions, s := Go(actions, s, Write(0));
    actions, s := Go(actions, s, Write(1));
    assert s == BOTH;
  }

  /** Two holders of the session lock: two first starts create two sandboxes. */
  lemma TwoStartsTwoSandboxes() returns (actions: seq<Action>)
    ensures Run(INIT, actions) && |After(INIT, actions).sandboxes| == 2
  {
    actions := ReachBoth();
    var s := BOTH;
    actions, s := Go(actions, s, Create(0, 7, true, true));
    actions, s := Go(actions, s, Create(1, 8, true, true));
    assert s.sandboxes == map[0 := 7, 1 := 8];
  }

  /** A resumed start that saw the sandbox running, and a `finish` that did, too. */
  const RACING := State(
    Some(STARTED), map[0 := 7], map[0 := WritingReady(STARTED), 1 := WritingStop(STARTED, UP)],
    [Wrote(CREATED), SentCreate(Request(0, SPEC)), Wrote(STARTED), Observed(UP), Observed(UP), Prepared(7)])

  const RACED := State(
    Some(HALTED), map[0 := 7], map[1 := AwaitingStop(HALTED, Some(UP))],
    [Wrote(CREATED), SentCreate(Request(0, SPEC)), Wrote(STARTED), Observed(UP), Observed(UP), Prepared(7),
     Wrote(STARTED.(phase := Ready)), Wrote(HALTED), SentStop(7)])

  const MEETING := State(
    Some(STARTED), map[0 := 7], map[0 := AwaitingReady(STARTED), 1 := WritingStop(STARTED, UP)],
    [Wrote(CREATED), SentCreate(Request(0, SPEC)), Wrote(STARTED), Observed(UP)])

  lemma ReachMeeting() returns (actions: seq<Action>)
    ensures Trace(actions, MEETING)
  {
    actions := ReachInterrupted();
    var s := INTERRUPTED;
    actions, s := Go(actions, s, StartAgain(0));
    actions, s := Go(actions, s, Finish(1, NoOptions));
    actions, s := Go(actions, s, Look(1, UP));
    assert s == MEETING;
  }

  lemma ReachRacing() returns (actions: seq<Action>)
    ensures Trace(actions, RACING)
  {
    actions := ReachMeeting();
    var s := MEETING;
    actions, s := Go(actions, s, Look(0, UP));
    actions, s := Go(actions, s, Baseline(0));
    assert s == RACING;
  }

  const RACED_READY := State(
    Some(STARTED.(phase := Ready)), map[0 := 7], map[1 := WritingStop(STARTED, UP)],
    [Wrote(CREATED), SentCreate(Request(0, SPEC)), Wrote(STARTED), Observed(UP), Observed(UP), Prepared(7),
     Wrote(STARTED.(phase := Ready))])

  lemma ReachRacedReady() returns (actions: seq<Action>)
    ensures Trace(actions, RACED_READY)
  {
    actions := ReachRacing();
    var s := RACING;
    actions, s := Go(actions, s, Write(0));
    assert s == RACED_READY;
  }

  lemma ReachRaced() returns (actions: seq<Action>)
    ensures Trace(actions, RACED)
  {
    actions := ReachRacedReady();
    var s := RACED_READY;
    actions, s := Go(actions, s, Write(1));
    actions, s := Go(actions, s, Stop(1));
    assert s == RACED;
  }

  /** And a resumed start together with a `finish` stops a session after it was recorded ready, without
      any approval. */
  lemma ReadyStoppedUnapproved() returns (actions: seq<Action>)
    ensures Run(INIT, actions)
    ensures var log := After(INIT, actions).log;
      && |log| == 9 && log[6].Wrote? && log[6].receipt.phase.Ready? && log[8] == SentStop(7)
      && forall r | Wrote(r) in log :: !Approves(r.phase)
  {
    actions := ReachRaced();
  }
}
