/** session start and session finish as programs. Every effect is a step of SessionSteps, so what is
    proved there of all runs holds of them; the process may fail or die after any effect. */
module SessionCommands {
  import opened Optional
  import opened Processes
  import opened DevelopmentSession
  import opened SessionSteps

  /** The events added between two logs ask for nothing but this sandbox. */
  ghost predicate AsksOnly(before: seq<Event>, after: seq<Event>, q: Request) {
    before <= after && forall i | |before| <= i < |after| && after[i].SentCreate? :: after[i].request == q
  }

  /** The sandbox was observed deleted, as a state and as the desired state, from event n on. */
  ghost predicate SawGoneSince(n: nat, log: seq<Event>, id: nat) {
    exists i :: n <= i < |log| && log[i] == Observed(View(id, Gone, true))
  }

  /** What waiting leads to. */
  function Goal(pc: Pc): Pc
    requires pc.AwaitingReady? || pc.AwaitingStop? || pc.AwaitingGone?
  {
    match pc
    case AwaitingReady(r) => MakingBaseline(r)
    case AwaitingStop(r, _) => WritingDelete(r)
    case AwaitingGone(r) => WritingGone(r)
  }

  /** The view that ends the waiting. */
  predicate Reaches(pc: Pc, v: View)
    requires pc.AwaitingReady? || pc.AwaitingStop? || pc.AwaitingGone?
  {
    && pc.receipt.sandbox == Some(v.id)
    && (pc.AwaitingReady? ==> v.state.Running?) && (pc.AwaitingStop? ==> v.state.Stopped?)
    && (pc.AwaitingGone? ==> v.state.Gone? && v.desiredGone)
  }

  /** Still waiting for the same. */
  predicate SameWait(pc: Pc, now: Pc)
    requires pc.AwaitingReady? || pc.AwaitingStop? || pc.AwaitingGone?
  {
    (now.AwaitingReady? || now.AwaitingStop? || now.AwaitingGone?) && Goal(now) == Goal(pc)
  }

  lemma WaitGoes(pc: Pc, now: Pc, v: View)
    requires (pc.AwaitingReady? || pc.AwaitingStop? || pc.AwaitingGone?) && SameWait(pc, now)
    ensures Seen(now, v).Some? && Seen(now, v).value == Goal(pc) ==> Reaches(pc, v)
    ensures Seen(now, v).Some? && Seen(now, v).value != Goal(pc) ==> SameWait(pc, Seen(now, v).value)
  {}

  class Session {
    var s: State
    var setbacks: nat  // calls that failed, and looks that did not show what was waited for
    ghost var trace: seq<Action>

    /** The state was reached by commands of this process that never overlapped. */
    ghost predicate Valid()
      reads this`s, this`trace
    {
      LockedTrace(trace, s) && s.procs.Keys <= {0}
    }

    ghost predicate Quiet()
      reads this`s, this`trace
    {
      Valid() && s.procs == map[]
    }

    ghost predicate At(pc: Pc)
      reads this`s, this`trace
    {
      Valid() && s.procs == map[0 := pc]
    }

    constructor ()
      ensures Quiet() && s == INIT
    {
      s, setbacks, trace := INIT, 0, [];
    }

    method Do(a: Action)
      requires Valid() && a.p == 0 && Enabled(s, a)
      modifies this`s, this`trace
      ensures Valid() && s == Apply(old(s), a)
    {
      OneProcess(s, a);
      LockedStep(trace, s, a);
      s, trace := Apply(s, a), trace + [a];
    }

    /** The command ends, by an error or by a death. */
    method Leave()
      requires Valid()
      modifies this`s, this`trace
      ensures Quiet() && s == old(s).(procs := map[])
    {
      if 0 in s.procs {
        Do(Quit(0));
        assert s.procs == map[];
      }
    }

    /** A call of which only success matters. */
    method Try() returns (ok: bool)
      modifies this`setbacks
      ensures setbacks == old(setbacks) + if ok then 0 else 1
    {
      ok := *;
      if !ok { setbacks := setbacks + 1; }
    }

    method Fails() returns (r: Step<bool>)
      requires Valid()
      modifies this`s, this`trace
      ensures Quiet() && s == old(s).(procs := map[]) && r != Done(true)
    {
      Leave();
      if * { return Died; }
      return Done(false);
    }

    method MayDie() returns (r: Step<()>)
      requires Valid()
      modifies this`s, this`trace
      ensures r.Died? ==> Quiet() && s == old(s).(procs := map[])
      ensures r.Done? ==> Valid() && s == old(s)
    {
      if * {
        Leave();
        return Died;
      }
      return Done(());
    }

    /** writeDevelopmentSession: the rename takes effect or nothing changes. */
    method WriteReceipt(pc: Pc) returns (r: Step<bool>)
      requires At(pc) && Next(pc).Some?
      modifies this
      ensures r == Done(true) ==> Valid() && s == Apply(old(s), Write(0))
      ensures r != Done(true) ==> Quiet()
      ensures r == Done(false) ==> s == old(s).(procs := map[])
      ensures s.log == old(s.log) || s.log == old(s.log) + [Wrote(Next(pc).value)]
      ensures setbacks >= old(setbacks) && (r == Done(false) ==> setbacks > old(setbacks))
    {
      var ok := Try();
      if !ok {
        r := Fails();
        return;
      }
      Do(Write(0));
      var _ :- MayDie();
      return Done(true);
    }

    /** Any answer to a status query: any state and any identity. */
    method LookOnce(pc: Pc) returns (r: Step<Option<Pc>>, v: View)
      requires At(pc) && Waits(pc)
      modifies this
      ensures s.log == old(s.log) + [Observed(v)] && s.receipt == old(s.receipt) && s.sandboxes == old(s.sandboxes)
      ensures r.Done? ==> r.value == Seen(pc, v)
      ensures if r.Done? && r.value.Some? then At(r.value.value) else Quiet()
      ensures setbacks == old(setbacks) + if Seen(pc, v).None? || Waits(Seen(pc, v).value) then 1 else 0
    {
      var id: nat, state: SandboxState, gone: bool := *, *, *;
      v := View(id, state, gone);
      Do(Look(0, v));
      if Seen(pc, v).None? || Waits(Seen(pc, v).value) { setbacks := setbacks + 1; }
      var d := MayDie();
      r := if d.Died? then Died else Done(Seen(pc, v));
    }

    /** Status queries until the wanted state, a wrong identity, a refusal or the attempts run out. */
    method Poll(pc: Pc, attempts: nat) returns (r: Step<bool>)
      requires At(pc) && (pc.AwaitingReady? || pc.AwaitingStop? || pc.AwaitingGone?)
      modifies this
      ensures if r == Done(true) then At(Goal(pc)) else Quiet()
      ensures s.receipt == old(s.receipt)
      ensures old(s.log) <= s.log && forall i | |old(s.log)| <= i < |s.log| :: s.log[i].Observed?
      ensures r == Done(true) ==> |s.log| > |old(s.log)| && Reaches(pc, s.log[|s.log| - 1].view)
      ensures setbacks >= old(setbacks)
      ensures r == Done(false) ==> setbacks > old(setbacks) || attempts == 0
    {
      var now := pc;
      for attempt := 0 to attempts
        invariant At(now) && SameWait(pc, now) && s.receipt == old(s.receipt)
        invariant setbacks >= old(setbacks) && (attempt > 0 ==> setbacks > old(setbacks))
        invariant old(s.log) <= s.log && forall i | |old(s.log)| <= i < |s.log| :: s.log[i].Observed?
      {
        var answered := Try();
        var refused: bool := *;
        if answered {
          var seen, v := LookOnce(now);
          if seen.Died? { return Died; }
          if seen.value.None? { return Done(false); }
          WaitGoes(pc, now, v);
          now := seen.value.value;
          if now == Goal(pc) { return Done(true); }
        } else if refused {
          r := Fails();
          return;
        }
      }
      Leave();
      return Done(false);
    }

    /** The request of this session: that of the receipt, or of the flags if there is none yet. */
    static function FirstRequest(receipt: Option<Receipt>, flags: Spec, prefix: nat): Request {
      if receipt.Some? then Request(receipt.value.prefix, receipt.value.spec) else Request(prefix, flags)
    }

    /** The create request, whose answer may be lost or unusable. */
    method RequestSandbox(current: Receipt) returns (r: Step<Option<Receipt>>)
      requires At(SendingCreate(current))
      modifies this
      ensures s.log == old(s.log) + [SentCreate(Request(current.prefix, current.spec))]
      ensures if r.Done? && r.value.Some? then At(WritingId(r.value.value)) else Quiet()
      ensures r.Done? && r.value.Some? ==>
        current.prefix in s.sandboxes
        && r.value.value == current.(phase := Starting, sandbox := Some(s.sandboxes[current.prefix]))
      ensures setbacks >= old(setbacks) && (r == Done(None) ==> setbacks > old(setbacks))
    {
      var id: nat, accepted: bool := *, *;
      var answered := Try();
      if !accepted { setbacks := setbacks + 1; }
      Do(Create(0, id, accepted, answered));
      var _ :- MayDie();
      if !accepted || !answered { return Done(None); }
      var usable := Try();
      if !usable {
        Leave();
        return Done(None);
      }
      return Done(Some(current.(phase := Starting, sandbox := Some(s.sandboxes[current.prefix]))));
    }

    /** The create request and the recording of its answer. */
    method CreateSandbox(current: Receipt) returns (r: Step<Option<Receipt>>)
      requires At(SendingCreate(current))
      modifies this
      ensures AsksOnly(old(s.log), s.log, Request(current.prefix, current.spec))
      ensures if r.Done? && r.value.Some? then At(AwaitingReady(r.value.value)) else Quiet()
      ensures r.Done? && r.value.Some? ==> s.receipt == r.value && r.value.value.spec == current.spec
      ensures setbacks >= old(setbacks)
      ensures r == Done(None) ==> setbacks > old(setbacks)
    {
      var next :- RequestSandbox(current);
      if next.None? { return Done(None); }
      var ok :- WriteReceipt(WritingId(next.value));
      return Done(if ok then next else None);
    }

    /** The first receipt, or the one on disk while the session is not ready. */
    method OpenStart(flags: Spec, prefix: nat) returns (r: Step<Option<Receipt>>)
      requires Quiet()
      modifies this
      ensures old(s.log) <= s.log <= old(s.log) + [Wrote(Receipt(Creating, None, flags, prefix))]
      ensures if r.Done? && r.value.Some?
        then At(if r.value.value.phase.Creating? then SendingCreate(r.value.value) else AwaitingReady(r.value.value))
        else Quiet()
      ensures r.Done? && r.value.Some? ==>
        Request(r.value.value.prefix, r.value.value.spec) == FirstRequest(old(s.receipt), flags, prefix)
        && s.receipt == r.value
      ensures old(s.receipt).Some? ==> s.log == old(s.log)
      ensures old(s.receipt).Some? && !old(s.receipt).value.phase.Creating? && !old(s.receipt).value.phase.Starting? ==>
        s == old(s) && r != Died && (r.Done? ==> r.value.None?)
      ensures setbacks >= old(setbacks)
      ensures r == Done(None) ==>
        setbacks > old(setbacks) ||
        (old(s.receipt).Some? && !old(s.receipt).value.phase.Creating? && !old(s.receipt).value.phase.Starting?)
    {
      if s.receipt.Some? {
        var current := s.receipt.value;
        if !current.phase.Creating? && !current.phase.Starting? { return Done(None); }
        Do(StartAgain(0));
        return Done(Some(current));
      }
      var first := Receipt(Creating, None, flags, prefix);
      Do(StartFresh(0, flags, prefix));
      var ok :- WriteReceipt(WritingFirst(first));
      return Done(if ok then Some(first) else None);
    }

    /** session start. The flags count only when there is no receipt yet. */
    method Start(flags: Spec, prefix: nat, attempts: nat) returns (r: Step<bool>)
      requires Quiet()
      modifies this
      ensures Quiet() && AsksOnly(old(s.log), s.log, FirstRequest(old(s.receipt), flags, prefix))
      ensures old(s.receipt).Some? && !old(s.receipt).value.phase.Creating? && !old(s.receipt).value.phase.Starting? ==>
        s == old(s) && r != Done(true)
      ensures r == Done(true) ==> s.receipt.Some? && s.receipt.value.phase.Ready?
      ensures r == Done(true) ==> s.receipt.value.spec == FirstRequest(old(s.receipt), flags, prefix).spec
      ensures setbacks >= old(setbacks)
      ensures r == Done(false) ==>
        setbacks > old(setbacks) || attempts == 0 ||
        (old(s.receipt).Some? && !old(s.receipt).value.phase.Creating? && !old(s.receipt).value.phase.Starting?)
    {
      var usable := Try();
      if !usable { return Done(false); }
      var begun :- OpenStart(flags, prefix);
      if begun.None? { return Done(false); }
      r := BringUp(begun.value, attempts);
    }

    /** The rest of start: create if need be, wait, make the baseline, record that it is ready. */
    method BringUp(current: Receipt, attempts: nat) returns (r: Step<bool>)
      requires At(if current.phase.Creating? then SendingCreate(current) else AwaitingReady(current))
      modifies this
      ensures Quiet() && AsksOnly(old(s.log), s.log, Request(current.prefix, current.spec))
      ensures r == Done(true) ==> s.receipt.Some? && s.receipt.value.phase.Ready?
      ensures r == Done(true) ==> s.receipt.value.spec == current.spec
      ensures setbacks >= old(setbacks)
      ensures r == Done(false) ==> setbacks > old(setbacks) || attempts == 0
    {
      var started := current;
      if current.phase.Creating? {
        var next :- CreateSandbox(current);
        if next.None? { return Done(false); }
        started := next.value;
      }
      var up := Poll(AwaitingReady(started), attempts);
      if up.Died? || !up.value { return up; }
      var baseline := Try();
      if !baseline {
        r := Fails();
        return;
      }
      r := MarkReady(started);
    }

    /** The baseline is made; record that the session is ready. */
    method MarkReady(started: Receipt) returns (r: Step<bool>)
      requires At(MakingBaseline(started)) && started.sandbox.Some?
      modifies this
      ensures Quiet() && old(s.log) <= s.log && forall i | |old(s.log)| <= i < |s.log| :: !s.log[i].SentCreate?
      ensures r == Done(true) ==> s.receipt == Some(started.(phase := Ready))
      ensures setbacks >= old(setbacks) && (r == Done(false) ==> setbacks > old(setbacks))
    {
      Do(Baseline(0));
      var _ :- MayDie();
      r := WriteReceipt(WritingReady(started));
    }

    /** The decision finish needs first: a ready session takes --patch or --discard, a starting one may
        take --discard, and a resumed finish takes no options. */
    method Approve(args: FinishArgs) returns (r: Step<Option<Receipt>>)
      requires Quiet()
      modifies this
      ensures old(s.log) <= s.log
      ensures if r.Done? && r.value.Some? then At(Looking(r.value.value)) && s.receipt == r.value else Quiet()
      ensures old(s.receipt).None? || Opening(old(s.receipt).value, args).None? ==> s == old(s) && r == Done(None)
      ensures r.Done? && r.value.Some? ==>
        old(s.receipt).Some? && r.value.value == old(s.receipt).value.(phase := r.value.value.phase)
      ensures r.Done? && r.value.Some? && old(s.receipt).value.phase.Ready? ==>
        r.value.value.phase == if args.Patch? then PatchSaved else DiscardApproved
      ensures setbacks >= old(setbacks)
      ensures r == Done(None) ==>
        setbacks > old(setbacks) || old(s.receipt).None? || Opening(old(s.receipt).value, args).None?
    {
      if s.receipt.None? || Opening(s.receipt.value, args).None? { return Done(None); }
      var current := s.receipt.value;
      var pc := Opening(current, args).value;
      Do(SessionSteps.Finish(0, args));
      if pc.Looking? { return Done(Some(current)); }
      if pc.Capturing? {
        var captured := CapturePatch(current);
        if captured.Died? { return Died; }
        if !captured.value { return Done(None); }
        pc := WritingDecision(current.(phase := PatchSaved));
      }
      r := RecordDecision(pc.receipt);
    }

    /** The patch is captured and stored, or the command ends. */
    method CapturePatch(current: Receipt) returns (r: Step<bool>)
      requires At(Capturing(current)) && current.sandbox.Some?
      modifies this
      ensures old(s.log) <= s.log && s.receipt == old(s.receipt)
      ensures if r == Done(true) then At(WritingDecision(current.(phase := PatchSaved))) else Quiet()
      ensures setbacks >= old(setbacks)
      ensures r == Done(false) ==> setbacks > old(setbacks)
    {
      var captured := Try();
      if !captured {
        r := Fails();
        return;
      }
      Do(Capture(0));
      var _ :- MayDie();
      return Done(true);
    }

    method RecordDecision(decided: Receipt) returns (r: Step<Option<Receipt>>)
      requires At(WritingDecision(decided))
      modifies this
      ensures old(s.log) <= s.log
      ensures if r.Done? && r.value.Some? then At(Looking(decided)) else Quiet()
      ensures r.Done? && r.value.Some? ==> s.receipt == r.value == Some(decided)
      ensures setbacks >= old(setbacks)
      ensures r == Done(None) ==> setbacks > old(setbacks)
    {
      var ok :- WriteReceipt(WritingDecision(decided));
      return Done(if ok then Some(decided) else None);
    }

    /** Record that the sandbox is to stop, and stop it. */
    method RequestStop(current: Receipt, seen: View) returns (r: Step<bool>)
      requires At(WritingStop(current, seen)) && current.sandbox.Some?
      modifies this
      ensures old(s.log) <= s.log
      ensures if r == Done(true) then At(AwaitingStop(current.(phase := Phase.Stopping), Some(seen))) else Quiet()
      ensures setbacks >= old(setbacks)
      ensures r == Done(false) ==> setbacks > old(setbacks)
    {
      var ok :- WriteReceipt(WritingStop(current, seen));
      if !ok { return Done(false); }
      Do(Stop(0));
      var accepted := Try();
      if accepted { return Done(true); }
      r := Fails();
    }

    /** Wait until this sandbox is seen stopped. With no attempts to wait, the view from before the stop
        decides. */
    method AwaitStopped(stopping: Receipt, seen: View, attempts: nat) returns (r: Step<bool>)
      requires At(AwaitingStop(stopping, Some(seen)))
      modifies this
      ensures old(s.log) <= s.log
      ensures if r == Done(true) then At(WritingDelete(stopping)) else Quiet()
      ensures setbacks >= old(setbacks)
      ensures r == Done(false) ==> setbacks > old(setbacks) || attempts == 0
    {
      if attempts > 0 {
        r := Poll(AwaitingStop(stopping, Some(seen)), attempts);
      } else if seen.state.Stopped? {
        Do(TrustView(0));
        r := Done(true);
      } else {
        r := Fails();
      }
    }

    /** Stop the sandbox and record that it can be deleted. */
    method StopSandbox(current: Receipt, seen: View, attempts: nat) returns (r: Step<bool>)
      requires At(WritingStop(current, seen)) && current.sandbox.Some?
      modifies this
      ensures old(s.log) <= s.log
      ensures if r == Done(true) then At(SendingDelete(current.(phase := Phase.Deleting))) else Quiet()
      ensures r == Done(true) ==> SawStopped(s.log, current.sandbox.value)
      ensures setbacks >= old(setbacks)
      ensures r == Done(false) ==> setbacks > old(setbacks) || attempts == 0
    {
      var stopping := current.(phase := Phase.Stopping);
      r := RequestStop(current, seen);
      if r != Done(true) { return; }
      r := AwaitStopped(stopping, seen, attempts);
      if r != Done(true) { return; }
      r := WriteReceipt(WritingDelete(stopping));
      if r == Done(true) { StoppedWasSeen(trace, s, current.(phase := Phase.Deleting)); }
    }

    method DeleteSandbox(current: Receipt, attempts: nat) returns (r: Step<bool>)
      requires At(SendingDelete(current)) && current.sandbox.Some?
      modifies this
      ensures Quiet() && old(s.log) <= s.log
      ensures r == Done(true) ==> SawGoneSince(|old(s.log)|, s.log, current.sandbox.value)
      ensures r == Done(true) ==> s.receipt == Some(current.(phase := Deleted))
      ensures setbacks >= old(setbacks)
      ensures r == Done(false) ==> setbacks > old(setbacks) || attempts == 0
    {
      Do(Delete(0));
      var accepted := Try();
      if !accepted {
        r := Fails();
        return;
      }
      var gone := Poll(AwaitingGone(current), attempts);
      if gone.Died? || !gone.value { return gone; }
      ghost var at := |s.log| - 1;
      assert s.log[at] == Observed(View(current.sandbox.value, Gone, true));
      r := WriteReceipt(WritingGone(current));
      assert s.log[at] == Observed(View(current.sandbox.value, Gone, true));
    }

    /** What finish does once the decision is recorded, and again whenever it is resumed. */
    method Dismantle(current: Receipt, stopAttempts: nat, deleteAttempts: nat) returns (r: Step<bool>)
      requires At(Looking(current)) && current.sandbox.Some?
      modifies this
      ensures Quiet() && old(s.log) <= s.log
      ensures r == Done(true) ==> SawGoneSince(|old(s.log)|, s.log, current.sandbox.value)
      ensures setbacks >= old(setbacks)
      ensures r == Done(false) ==> setbacks > old(setbacks) || stopAttempts == 0 || deleteAttempts == 0
    {
      ghost var n := |s.log|;
      var answered := Try();
      if !answered {
        r := Fails();
        return;
      }
      var looked, v := LookOnce(Looking(current));
      if looked.Died? { return Died; }
      if looked.value.None? { return Done(false); }
      r := Dispatch(current, v, looked.value.value, n, stopAttempts, deleteAttempts);
    }

    /** What the first look leads to: nothing left to do, or stopping and deleting. */
    method Dispatch(current: Receipt, v: View, pc: Pc, ghost n: nat, stopAttempts: nat, deleteAttempts: nat)
      returns (r: Step<bool>)
      requires At(pc) && current.sandbox.Some? && Seen(Looking(current), v) == Some(pc)
      requires n < |s.log| && s.log[n] == Observed(v)
      modifies this
      ensures Quiet() && old(s.log) <= s.log
      ensures r == Done(true) ==> SawGoneSince(n, s.log, current.sandbox.value)
      ensures setbacks >= old(setbacks)
      ensures r == Done(false) ==> setbacks > old(setbacks) || stopAttempts == 0 || deleteAttempts == 0
    {
      if pc.WritingOver? {
        assert s.log[n] == Observed(View(current.sandbox.value, Gone, true));
        var _ :- WriteReceipt(pc);
        assert s.log[n] == Observed(View(current.sandbox.value, Gone, true));
        return Done(true);
      }
      var next := current;
      if pc.WritingStop? {
        var stopped := StopSandbox(current, v, stopAttempts);
        if stopped.Died? || !stopped.value { return stopped; }
        next := current.(phase := Phase.Deleting);
      }
      r := DeleteSandbox(next, deleteAttempts);
    }

    /** session finish. Success means that the sandbox was observed deleted by this very command; the
        final receipt write may have failed if that was already so at the first look. */
    method Finish(args: FinishArgs, stopAttempts: nat, deleteAttempts: nat) returns (r: Step<bool>)
      requires Quiet()
      modifies this
      ensures Quiet() && old(s.log) <= s.log
      ensures old(s.receipt).None? || Opening(old(s.receipt).value, args).None? ==> s == old(s) && r == Done(false)
      ensures r == Done(true) ==> old(s.receipt).Some? && old(s.receipt).value.sandbox.Some?
      ensures r == Done(true) ==> SawGoneSince(|old(s.log)|, s.log, old(s.receipt).value.sandbox.value)
      ensures setbacks >= old(setbacks)
      ensures r == Done(false) ==>
        || setbacks > old(setbacks) || stopAttempts == 0 || deleteAttempts == 0
        || old(s.receipt).None? || Opening(old(s.receipt).value, args).None?
    {
      var approved :- Approve(args);
      if approved.None? { return Done(false); }
      r := Dismantle(approved.value, stopAttempts, deleteAttempts);
    }
  }

  /** Any number of start and finish commands in any order, each possibly cut short: what they do is a run
      of the steps, their log is a good one, and at most one sandbox was ever created. */
  method AnyCommands(commands: nat) returns (log: seq<Event>, created: set<nat>, ghost trace: seq<Action>)
    ensures LockedRun(INIT, trace) && log == After(INIT, trace).log && created == After(INIT, trace).sandboxes.Keys
    ensures GoodLog(log) && |created| <= 1
  {
    var session := new Session();
    for i := 0 to commands
      invariant session.Quiet() && fresh(session)
    {
      var attempts: nat, more: nat := *, *;
      if * {
        var flags: Spec, prefix: nat := *, *;
        var _ := session.Start(flags, prefix, attempts);
      } else {
        var args: FinishArgs := *;
        var _ := session.Finish(args, attempts, more);
      }
    }
    log, created, trace := session.s.log, session.s.sandboxes.Keys, session.trace;
    forall a, b | a in created && b in created ensures a == b { LockedRunIsGood(trace, a, b); }
    LockedRunIsGood(trace, 0, 0);
    AtMostOne(created);
  }

  lemma AtMostOne(s: set<nat>)
    requires forall a, b | a in s && b in s :: a == b
    ensures |s| <= 1
  {
    if s != {} {
      var a :| a in s;
      assert s == {a};
    }
  }
}
