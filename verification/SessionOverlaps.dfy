/** Session commands that overlap, as two holders of the session lock may run them: exactly which overlaps
    create a second sandbox, and which stop a session that was ready without an approval. */
module SessionOverlaps {
  import opened Optional
  import opened DevelopmentSession
  import opened SessionSteps

  // ---- One sandbox per session ----

  /** A first start begins while another has not yet recorded its session. */
  ghost predicate Doubles(s: State, a: Action) {
    a.StartFresh? && exists q :: q in s.procs && s.procs[q].WritingFirst?
  }

  /** Before the first receipt at most one start is under way, and nothing was created; afterwards every
      process and every sandbox has that receipt's key. */
  ghost predicate OneKey(s: State) {
    if s.receipt.None? then
      && s.sandboxes == map[]
      && (forall p | p in s.procs :: s.procs[p].WritingFirst?)
      && (forall p, q | p in s.procs && q in s.procs :: p == q)
    else
      && (forall k | k in s.sandboxes :: k == s.receipt.value.prefix)
      && (forall p | p in s.procs ::
            !s.procs[p].WritingFirst? && s.procs[p].receipt.prefix == s.receipt.value.prefix
            && s.procs[p].receipt.spec == s.receipt.value.spec)
  }

  lemma OneKeyStep(s: State, a: Action)
    requires OneKey(s) && Enabled(s, a) && !Doubles(s, a)
    ensures OneKey(Apply(s, a))
  {}

  /** A run without such a step; any other overlap is allowed. */
  ghost predicate NeverDoubles(s: State, actions: seq<Action>): (never: bool)
    ensures never ==> Run(s, actions)
    decreases |actions|
  {
    actions == [] ||
    (Enabled(s, actions[0]) && !Doubles(s, actions[0]) && NeverDoubles(Apply(s, actions[0]), actions[1..]))
  }

  lemma {:induction false} OneKeyRun(s: State, actions: seq<Action>)
    requires OneKey(s) && NeverDoubles(s, actions)
    ensures OneKey(After(s, actions))
    decreases |actions|
  {
    if actions != [] {
      OneKeyStep(s, actions[0]);
      OneKeyRun(Apply(s, actions[0]), actions[1..]);
    }
  }

  /** However the commands overlap, one sandbox at most is created unless two first starts do. */
  lemma OneSandboxUnlessDoubled(actions: seq<Action>, a: nat, b: nat)
    requires NeverDoubles(INIT, actions)
    requires a in After(INIT, actions).sandboxes && b in After(INIT, actions).sandboxes
    ensures a == b
  {
    OneKeyRun(INIT, actions);
  }

  /** And from every state two first starts that do overlap can go on to two sandboxes. */
  lemma DoubledMakesTwo(s: State, p: nat, q: nat, flags: Spec, prefix: nat) returns (actions: seq<Action>)
    requires Enabled(s, StartFresh(p, flags, prefix)) && q in s.procs && s.procs[q].WritingFirst?
    requires prefix != s.procs[q].receipt.prefix
    ensures Run(s, actions)
    ensures var t := After(s, actions); prefix in t.sandboxes && s.procs[q].receipt.prefix in t.sandboxes
  {
    var t := s;
    actions := [];
    actions, t := Chain(s, actions, StartFresh(p, flags, prefix), t);
    actions, t := Chain(s, actions, Write(q), t);
    actions, t := Chain(s, actions, Write(p), t);
    actions, t := Chain(s, actions, Create(q, 7, true, true), t);
    actions, t := Chain(s, actions, Create(p, 8, true, true), t);
  }

  // ---- No unapproved stop of a session that was ready ----

  ghost predicate Approved(log: seq<Event>) { exists r :: Wrote(r) in log && Approves(r.phase) }

  ghost predicate EverReady(log: seq<Event>) { exists r :: Wrote(r) in log && r.phase.Ready? }

  predicate Dismantling(e: Event) { e.SentStop? || e.SentDelete? }

  /** Nothing was stopped or deleted after it was ready and before anything was approved. */
  ghost predicate Respected(log: seq<Event>) {
    log == [] || (
      && Respected(log[..|log| - 1])
      && (Dismantling(log[|log| - 1]) && EverReady(log[..|log| - 1]) ==> Approved(log[..|log| - 1])))
  }

  /** A start that may still record `ready`. */
  predicate Starts(pc: Pc) {
    || pc.WritingFirst? || pc.SendingCreate? || pc.WritingId? || pc.AwaitingReady? || pc.MakingBaseline?
    || pc.WritingReady?
  }

  /** A finish that goes for the sandbox. */
  predicate Dismantles(pc: Pc) {
    || pc.Looking? || pc.WritingStop? || pc.SendingStop? || pc.AwaitingStop? || pc.WritingDelete?
    || pc.SendingDelete? || pc.AwaitingGone? || pc.WritingGone?
  }

  /** One that found the session in `starting` and has not recorded anything yet. */
  predicate Bare(pc: Pc) { (pc.Looking? || pc.WritingStop?) && pc.receipt.phase.Starting? }

  predicate OpensBare(s: State, a: Action) {
    a.Finish? && a.args.NoOptions? && s.receipt.Some? && s.receipt.value.phase.Starting?
  }

  /** Nothing is approved, and a finish opens from `starting` although `ready` was recorded or a start may
      still record it, or a start resumes while such a finish is under way. */
  ghost predicate Races(s: State, a: Action) {
    !Approved(s.log) && (
      || (OpensBare(s, a) && (EverReady(s.log) || exists q :: q in s.procs && Starts(s.procs[q])))
      || (a.StartAgain? && exists q :: q in s.procs && Bare(s.procs[q])))
  }

  /** Nobody goes for the sandbox. */
  ghost predicate Up(s: State) {
    && (forall p | p in s.procs :: !Dismantles(s.procs[p]))
    && (s.receipt.Some? ==>
          var phase := s.receipt.value.phase;
          phase.Creating? || phase.Starting? || phase.Ready? || phase.Deleted?)
  }

  /** The session never was ready, and nobody can make it so. */
  ghost predicate Down(s: State) {
    && !EverReady(s.log) && s.receipt.Some?
    && !s.receipt.value.phase.Creating? && !s.receipt.value.phase.Ready?
    && (forall p | p in s.procs :: !Starts(s.procs[p]) && !s.procs[p].Capturing?)
    && (s.receipt.value.phase.Starting? ==> forall p | p in s.procs && Dismantles(s.procs[p]) :: Bare(s.procs[p]))
  }

  ghost predicate Ordered(s: State) { Approved(s.log) || Up(s) || Down(s) }

  lemma ApprovedStays(s: State, a: Action)
    requires Enabled(s, a)
    ensures Approved(s.log) ==> Approved(Apply(s, a).log)
    ensures EverReady(s.log) ==> EverReady(Apply(s, a).log)
  {
    EffectIs(s, a);
    var t := Apply(s, a);
    if Approved(s.log) {
      var r :| Wrote(r) in s.log && Approves(r.phase);
      assert Wrote(r) in t.log;
    }
    if EverReady(s.log) {
      var r :| Wrote(r) in s.log && r.phase.Ready?;
      assert Wrote(r) in t.log;
    }
  }

  /** A write adds its receipt and no other. */
  lemma WritesOnly(s: State, a: Action, r: Receipt)
    requires Enabled(s, a)
    ensures Wrote(r) in Apply(s, a).log <==> Wrote(r) in s.log || (a.Write? && Next(s.procs[a.p]) == Some(r))
  {
    EffectIs(s, a);
    if a.Write? { assert Apply(s, a).log[|s.log|] == Wrote(Next(s.procs[a.p]).value); }
  }

  lemma ReadyOnlyBy(s: State, a: Action)
    requires Inv(s) && Enabled(s, a) && !EverReady(s.log) && EverReady(Apply(s, a).log)
    ensures a.Write? && s.procs[a.p].WritingReady?
  {
    var r :| Wrote(r) in Apply(s, a).log && r.phase.Ready?;
    WritesOnly(s, a, r);
    assert Knows(s.log, s.procs[a.p]);
  }

  lemma DecisionApproves(s: State, a: Action)
    requires Inv(s) && Enabled(s, a) && a.Write? && s.procs[a.p].WritingDecision?
    ensures Approved(Apply(s, a).log)
  {
    assert Knows(s.log, s.procs[a.p]);
    WritesOnly(s, a, s.procs[a.p].receipt);
  }

  lemma UpOpens(s: State, a: Action)
    requires Inv(s) && Up(s) && Enabled(s, a) && OpensBare(s, a) && !Races(s, a) && !Approved(s.log)
    ensures Down(Apply(s, a))
  {
    var t := Apply(s, a);
    assert t.log == s.log;
    forall p | p in t.procs ensures !Starts(t.procs[p]) && !t.procs[p].Capturing? {
      if p != a.p { assert Knows(s.log, s.procs[p]); }
    }
  }

  /** The receipt on disk has a sandbox unless it says `creating`. */
  lemma ReceiptShape(s: State)
    requires Inv(s) && s.receipt.Some?
    ensures s.receipt.value.sandbox.None? <==> s.receipt.value.phase.Creating?
  {
    var w := LastWrite(s.log);
    GroundedAt(s.log, w);
  }

  lemma UpFinishes(s: State, a: Action)
    requires Inv(s) && Up(s) && Enabled(s, a) && a.Finish? && !OpensBare(s, a)
    ensures Up(Apply(s, a))
  {
    ReceiptShape(s);
  }

  lemma UpWrites(s: State, a: Action)
    requires Inv(s) && Up(s) && Enabled(s, a) && a.Write?
    ensures Approved(Apply(s, a).log) || Up(Apply(s, a))
  {
    if s.procs[a.p].WritingDecision? { DecisionApproves(s, a); } else { assert Knows(s.log, s.procs[a.p]); }
  }

  lemma UpActs(s: State, a: Action)
    requires Up(s) && Enabled(s, a) && !a.Finish? && !a.Write?
    ensures Up(Apply(s, a))
  {}

  lemma UpStep(s: State, a: Action)
    requires Inv(s) && Up(s) && Enabled(s, a) && !OpensBare(s, a)
    ensures Approved(Apply(s, a).log) || Up(Apply(s, a))
  {
    if a.Finish? {
      UpFinishes(s, a);
    } else if a.Write? {
      UpWrites(s, a);
    } else {
      UpActs(s, a);
    }
  }

  lemma DownWrites(s: State, a: Action)
    requires Inv(s) && Down(s) && Enabled(s, a) && a.Write?
    ensures Approved(Apply(s, a).log) || Down(Apply(s, a))
  {
    if EverReady(Apply(s, a).log) { ReadyOnlyBy(s, a); }
    if s.procs[a.p].WritingDecision? { DecisionApproves(s, a); } else { assert Knows(s.log, s.procs[a.p]); }
  }

  lemma DownActs(s: State, a: Action)
    requires Inv(s) && Down(s) && Enabled(s, a) && !Begins(a) && !a.Write?
    ensures Down(Apply(s, a))
  {
    if EverReady(Apply(s, a).log) { ReadyOnlyBy(s, a); }
  }

  lemma DownBegins(s: State, a: Action)
    requires Inv(s) && Down(s) && Enabled(s, a) && Begins(a) && !Races(s, a) && !Approved(s.log)
    ensures Up(Apply(s, a)) || Down(Apply(s, a))
  {
    assert Apply(s, a).log == s.log;
  }

  lemma OrderedStep(s: State, a: Action)
    requires Inv(s) && Ordered(s) && Enabled(s, a) && !Races(s, a)
    ensures Ordered(Apply(s, a))
  {
    ApprovedStays(s, a);
    if !Approved(s.log) {
      if Up(s) {
        if OpensBare(s, a) { UpOpens(s, a); } else { UpStep(s, a); }
      } else if Begins(a) {
        DownBegins(s, a);
      } else if a.Write? {
        DownWrites(s, a);
      } else {
        DownActs(s, a);
      }
    }
  }

  lemma RespectedStep(s: State, a: Action)
    requires Ordered(s) && Respected(s.log) && Enabled(s, a)
    ensures Respected(Apply(s, a).log)
  {
    EffectIs(s, a);
    var t := Apply(s, a);
    if Effect(s, a).Some? { assert t.log[..|t.log| - 1] == s.log; } else { assert t.log == s.log; }
  }

  ghost predicate NeverRaces(s: State, actions: seq<Action>): (never: bool)
    ensures never ==> Run(s, actions)
    decreases |actions|
  {
    actions == [] ||
    (Enabled(s, actions[0]) && !Races(s, actions[0]) && NeverRaces(Apply(s, actions[0]), actions[1..]))
  }

  lemma {:induction false} RespectedRun(s: State, actions: seq<Action>)
    requires Inv(s) && Ordered(s) && Respected(s.log) && NeverRaces(s, actions)
    ensures Respected(After(s, actions).log)
    decreases |actions|
  {
    if actions != [] {
      InvStep(s, actions[0]);
      OrderedStep(s, actions[0]);
      RespectedStep(s, actions[0]);
      RespectedRun(Apply(s, actions[0]), actions[1..]);
    }
  }

  /** However the commands overlap, a session that was ready is stopped or deleted only after an approval,
      unless a race happened. */
  lemma NoUnapprovedStopWithoutRace(actions: seq<Action>)
    requires NeverRaces(INIT, actions)
    ensures Respected(After(INIT, actions).log)
  {
    RespectedRun(INIT, actions);
  }

  // ---- And every race can end in an unapproved stop ----

  /** What a start still has to do. */
  function Distance(pc: Pc): nat
    requires Starts(pc)
  {
    match pc
    case WritingFirst(_) => 5
    case SendingCreate(_) => 4
    case WritingId(_) => 3
    case AwaitingReady(_) => 2
    case MakingBaseline(_) => 1
    case WritingReady(_) => 0
  }

  /** The next step of a start that goes well. */
  function Onward(pc: Pc, q: nat): Action
    requires Starts(pc)
  {
    match pc
    case SendingCreate(_) => Create(q, 7, true, true)
    case MakingBaseline(_) => Baseline(q)
    case AwaitingReady(r) => Look(q, View(if r.sandbox.Some? then r.sandbox.value else 0, Running, false))
    case _ => Write(q)
  }

  lemma GoesOnward(s: State, q: nat)
    requires Inv(s) && q in s.procs && Starts(s.procs[q])
    ensures var a := Onward(s.procs[q], q);
      && Enabled(s, a)
      && (forall p | p in s.procs && p != q :: p in Apply(s, a).procs && Apply(s, a).procs[p] == s.procs[p])
      && (!s.procs[q].WritingReady? ==>
            q in Apply(s, a).procs && Starts(Apply(s, a).procs[q])
            && Distance(Apply(s, a).procs[q]) < Distance(s.procs[q]))
  {
    assert Knows(s.log, s.procs[q]);
  }

  lemma OnwardLog(s: State, q: nat)
    requires Inv(s) && q in s.procs && Starts(s.procs[q]) && Enabled(s, Onward(s.procs[q], q))
    ensures var t := Apply(s, Onward(s.procs[q], q));
      && Inv(t) && (!Approved(s.log) ==> !Approved(t.log))
      && (s.procs[q].WritingReady? ==> EverReady(t.log))
  {
    var a := Onward(s.procs[q], q);
    InvStep(s, a);
    assert Knows(s.log, s.procs[q]);
    Keeps(s, a);
    if s.procs[q].WritingReady? { WritesOnly(s, a, Next(s.procs[q]).value); }
  }

  /** A start can go on until it has recorded `ready`, whatever the others are about to do. */
  lemma {:induction false} BecomesReady(s: State, q: nat) returns (actions: seq<Action>)
    requires Inv(s) && q in s.procs && Starts(s.procs[q]) && !Approved(s.log)
    ensures Run(s, actions)
    ensures var t := After(s, actions);
      && Inv(t) && EverReady(t.log) && !Approved(t.log)
      && forall p | p in s.procs && p != q :: p in t.procs && t.procs[p] == s.procs[p]
    decreases Distance(s.procs[q])
  {
    var a := Onward(s.procs[q], q);
    GoesOnward(s, q);
    OnwardLog(s, q);
    var t := Apply(s, a);
    if s.procs[q].WritingReady? {
      actions := [a];
      assert actions[1..] == [];
    } else {
      var rest := BecomesReady(t, q);
      actions := [a] + rest;
      assert actions[1..] == rest;
    }
  }

  /** A bare finish can go on until it has sent Stop. */
  lemma StopsBare(s: State, p: nat) returns (actions: seq<Action>)
    requires Inv(s) && p in s.procs && Bare(s.procs[p]) && EverReady(s.log) && !Approved(s.log)
    ensures Run(s, actions) && !Respected(After(s, actions).log)
  {
    assert Knows(s.log, s.procs[p]);
    var id := s.procs[p].receipt.sandbox.value;
    var t := s;
    actions := [];
    if s.procs[p].Looking? {
      actions, t := Chain(s, actions, Look(p, View(id, Running, false)), t);
      Keeps(s, Look(p, View(id, Running, false)));
    }
    ghost var u := t;
    actions, t := Chain(s, actions, Write(p), t);
    Keeps(u, Write(p));
    ghost var v := t;
    actions, t := Chain(s, actions, Stop(p), t);
    assert t.log == v.log + [SentStop(id)];
    assert t.log[..|t.log| - 1] == v.log;
  }

  /** No approval by a step that writes none. */
  lemma Keeps(s: State, a: Action)
    requires Enabled(s, a) && (a.Write? ==> !Approves(Next(s.procs[a.p]).value.phase))
    ensures Approved(Apply(s, a).log) ==> Approved(s.log)
    ensures EverReady(s.log) ==> EverReady(Apply(s, a).log)
  {
    ApprovedStays(s, a);
    if Approved(Apply(s, a).log) {
      var r :| Wrote(r) in Apply(s, a).log && Approves(r.phase);
      WritesOnly(s, a, r);
    }
  }

  /** From a state in which a bare finish and a start, or a recorded `ready`, have met. */
  lemma MetEndsBadly(s: State, p: nat) returns (actions: seq<Action>)
    requires Inv(s) && p in s.procs && Bare(s.procs[p]) && !Approved(s.log)
    requires EverReady(s.log) || exists q :: q in s.procs && Starts(s.procs[q])
    ensures Run(s, actions) && !Respected(After(s, actions).log)
  {
    actions := [];
    if !EverReady(s.log) {
      var q :| q in s.procs && Starts(s.procs[q]);
      actions := BecomesReady(s, q);
    }
    var rest := StopsBare(After(s, actions), p);
    Join(s, actions, rest);
    actions := actions + rest;
  }

  /** Every race can go on to an unapproved stop of a session that was ready. */
  lemma RaceEndsBadly(s: State, a: Action) returns (actions: seq<Action>)
    requires Inv(s) && Enabled(s, a) && Races(s, a)
    ensures Run(s, [a] + actions) && !Respected(After(s, [a] + actions).log)
  {
    var t := Apply(s, a);
    InvStep(s, a);
    assert t.log == s.log;
    var p := a.p;
    if a.StartAgain? {
      var q :| q in s.procs && Bare(s.procs[q]);
      p := q;
      assert a.p in t.procs && Starts(t.procs[a.p]);
    } else if !EverReady(s.log) {
      var q :| q in s.procs && Starts(s.procs[q]);
      assert q in t.procs && Starts(t.procs[q]);
    }
    actions := MetEndsBadly(t, p);
    assert ([a] + actions)[1..] == actions;
  }
}
