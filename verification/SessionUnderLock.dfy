/** The session lock and the session commands together: a command runs between the acquisition and the
    release of the lock, and a death ends both. */
module SessionUnderLock {
  import opened Optional
  import DevelopmentSession
  import Lock = SessionLock
  import Steps = SessionSteps

  datatype State = State(lock: Lock.State, session: Steps.State)

  datatype Action = OfLock(step: Lock.Action) | OfSession(act: Steps.Action)

  const INIT := State(Lock.INIT, Steps.INIT)

  predicate Enabled(s: State, x: Action) {
    match x
    case OfLock(step) => Lock.Enabled(s.lock, step) && (step.Release? ==> step.p !in s.session.procs)
    case OfSession(act) => Steps.Enabled(s.session, act) && Lock.Holds(s.lock, act.p)
  }

  /** A death takes the process out of its command, too. */
  function Apply(s: State, x: Action): State
    requires Enabled(s, x)
  {
    match x
    case OfLock(step) =>
      State(Lock.Apply(s.lock, step),
            if step.Die? && step.p in s.session.procs then Steps.Apply(s.session, Steps.Quit(step.p)) else s.session)
    case OfSession(act) => s.(session := Steps.Apply(s.session, act))
  }

  /** No failed record write does harm, and no recovery renames a live lock away. */
  ghost predicate Calm(s: State, x: Action) {
    x.OfLock? ==> Lock.Careful(s.lock, x.step) && !Lock.Displaces(s.lock, x.step)
  }

  ghost predicate Inv(s: State) {
    && Lock.Inv(s.lock) && Lock.AllAtLock(s.lock) && Steps.InvAlone(s.session)
    && forall p | p in s.session.procs :: Lock.Holds(s.lock, p)
  }

  /** A holder goes on holding until it releases the lock or dies. */
  lemma HoldsOn(s: Lock.State, step: Lock.Action, p: nat)
    requires Lock.Inv(s) && Lock.Enabled(s, step) && Lock.Holds(s, p)
    requires !(step.Release? && step.p == p) && !(step.Die? && step.p == p)
    ensures Lock.Holds(Lock.Apply(s, step), p)
  {}

  lemma LockStep(s: State, step: Lock.Action)
    requires Inv(s) && Enabled(s, OfLock(step)) && Calm(s, OfLock(step))
    ensures Inv(Apply(s, OfLock(step)))
  {
    var t := Apply(s, OfLock(step));
    Lock.InvStep(s.lock, step);
    Lock.AtLockStep(s.lock, step);
    if t.session != s.session { Steps.AloneStep(s.session, Steps.Quit(step.p)); }
    forall p | p in t.session.procs ensures Lock.Holds(t.lock, p) {
      assert p in s.session.procs;
      HoldsOn(s.lock, step, p);
    }
  }

  /** The lock makes commands exclusive: whoever is in one holds it, and there is one holder. */
  lemma BeginsAlone(s: State, act: Steps.Action)
    requires Inv(s) && Enabled(s, OfSession(act)) && Steps.Begins(act)
    ensures Steps.Locked(s.session, act)
  {
    forall p | p in s.session.procs ensures p == act.p { Lock.OneAtLock(s.lock, p, act.p); }
    assert s.session.procs == map[];
  }

  lemma OnlyActor(s: Steps.State, act: Steps.Action, p: nat)
    requires Steps.Enabled(s, act) && p in Steps.Apply(s, act).procs
    ensures p == act.p || p in s.procs
  {}

  lemma CommandStep(s: State, act: Steps.Action)
    requires Inv(s) && Enabled(s, OfSession(act)) && Steps.Locked(s.session, act)
    ensures Inv(Apply(s, OfSession(act)))
  {
    Steps.AloneStep(s.session, act);
    forall p | p in Steps.Apply(s.session, act).procs ensures Lock.Holds(s.lock, p) { OnlyActor(s.session, act, p); }
  }

  lemma InvStep(s: State, x: Action)
    requires Inv(s) && Enabled(s, x) && Calm(s, x)
    ensures Inv(Apply(s, x))
  {
    match x
    case OfLock(step) => LockStep(s, step);
    case OfSession(act) =>
      if Steps.Begins(act) { BeginsAlone(s, act); }
      CommandStep(s, act);
  }

  ghost predicate CalmRun(s: State, xs: seq<Action>)
    decreases |xs|
  {
    xs == [] || (Enabled(s, xs[0]) && Calm(s, xs[0]) && CalmRun(Apply(s, xs[0]), xs[1..]))
  }

  ghost function After(s: State, xs: seq<Action>): State
    requires CalmRun(s, xs)
    decreases |xs|
  {
    if xs == [] then s else After(Apply(s, xs[0]), xs[1..])
  }

  lemma {:induction false} InvAfter(s: State, xs: seq<Action>)
    requires Inv(s) && CalmRun(s, xs)
    ensures Inv(After(s, xs))
    decreases |xs|
  {
    if xs != [] {
      InvStep(s, xs[0]);
      InvAfter(Apply(s, xs[0]), xs[1..]);
    }
  }

  /** Any number of processes that take the lock, run session commands, die and recover stale locks: as
      long as no live lock is renamed away and no failed write does harm, the receipt log is a good one and
      the server has one sandbox at most. */
  lemma LockProtectsSession(xs: seq<Action>, a: nat, b: nat)
    requires CalmRun(INIT, xs)
    ensures DevelopmentSession.GoodLog(After(INIT, xs).session.log)
    ensures a in After(INIT, xs).session.sandboxes && b in After(INIT, xs).session.sandboxes ==> a == b
  {
    InvAfter(INIT, xs);
    var s := After(INIT, xs).session;
    if a in s.sandboxes && b in s.sandboxes { Steps.OneSandbox(s, a, b); }
  }
}
