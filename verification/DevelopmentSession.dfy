/** The write-ahead receipt of a development session: what start and finish do to the receipt file and
    to the remote sandbox, with the process possibly dying after any effect. */
module DevelopmentSession {
  import opened Optional
  import opened Processes

  datatype Phase = Creating | Starting | Ready | PatchSaved | DiscardApproved | Stopping | Deleting | Deleted

  /** What the caller asked for: the flags of the first start. */
  datatype Spec = Spec(workspace: string, commit: string, architecture: string, expires: string)

  datatype Receipt = Receipt(phase: Phase, sandbox: Option<nat>, spec: Spec, prefix: nat)

  /** The create request: its idempotency key comes from the prefix, everything else from the spec. */
  datatype Request = Request(prefix: nat, spec: Spec)

  datatype SandboxState = Pending | Running | Stopped | Failed | Gone

  datatype View = View(id: nat, state: SandboxState, desiredGone: bool)

  datatype Reply<+T> = Ok(value: T) | Unavailable | Refused

  datatype Event =
    | Wrote(receipt: Receipt)       // durably
    | SentCreate(request: Request)
    | SentStop(sandbox: nat)
    | SentDelete(sandbox: nat)
    | Prepared(sandbox: nat)        // the baseline for patches was made in the sandbox
    | Captured(sandbox: nat)        // the patch was captured and stored successfully
    | Observed(view: View)

  /** The receipt on disk after these events. */
  function Latest(log: seq<Event>): Option<Receipt> {
    if log == [] then None
    else if log[|log| - 1].Wrote? then Some(log[|log| - 1].receipt)
    else Latest(log[..|log| - 1])
  }

  // ---- What every log must look like ----

  /** The moves of the phase. */
  predicate Moves(a: Phase, b: Phase) {
    match a
    case Creating => b.Starting?
    case Starting => b.Ready? || b.DiscardApproved? || b.Stopping? || b.Deleted?
    case Ready => b.PatchSaved? || b.DiscardApproved?
    case PatchSaved => b.Stopping? || b.Deleted?
    case DiscardApproved => b.Stopping? || b.Deleted?
    case Stopping => b.Stopping? || b.Deleting? || b.Deleted?
    case Deleting => b.Deleted?
    case Deleted => false
  }

  predicate Follows(before: Option<Receipt>, r: Receipt) {
    match before
    case None => r.phase.Creating? && r.sandbox.None?
    case Some(b) =>
      && Moves(b.phase, r.phase) && r.spec == b.spec && r.prefix == b.prefix && r.sandbox.Some?
      && (b.sandbox.Some? ==> r.sandbox == b.sandbox)
  }

  ghost predicate SawStopped(log: seq<Event>, id: nat) {
    exists v :: Observed(v) in log && v.id == id && v.state.Stopped?
  }

  ghost predicate SawGone(log: seq<Event>, id: nat) { Observed(View(id, Gone, true)) in log }

  ghost predicate Looked(log: seq<Event>, id: nat) { exists v :: Observed(v) in log && v.id == id }

  /** What must have happened before an event, whoever else is at work. */
  ghost predicate Grounded(log: seq<Event>, e: Event) {
    match e
    case Wrote(r) =>
      && (r.sandbox.None? <==> r.phase.Creating?)
      && (r.phase.Ready? ==> Prepared(r.sandbox.value) in log)
      && (r.phase.PatchSaved? ==> Captured(r.sandbox.value) in log)
      && (r.phase.Deleting? ==> SawStopped(log, r.sandbox.value))
      && (r.phase.Deleted? ==> SawGone(log, r.sandbox.value))
    case SentCreate(q) => exists r :: Wrote(r) in log && r.phase.Creating? && q == Request(r.prefix, r.spec)
    case SentStop(id) =>
      Looked(log, id) && exists r :: Wrote(r) in log && r.phase.Stopping? && r.sandbox == Some(id)
    case SentDelete(id) => SawStopped(log, id)
    case Prepared(id) => Looked(log, id)
    case Captured(id) => exists r :: Wrote(r) in log && r.phase.Ready? && r.sandbox == Some(id)
    case Observed(_) => true
  }

  /** What must have happened before an event when one command runs at a time. */
  ghost predicate EventOk(log: seq<Event>, e: Event) {
    Grounded(log, e) &&
    match e
    case Wrote(r) => Follows(Latest(log), r)
    case SentCreate(q) => exists r :: Latest(log) == Some(r) && r.phase.Creating? && q == Request(r.prefix, r.spec)
    case SentStop(id) => exists r :: Latest(log) == Some(r) && r.phase.Stopping? && r.sandbox == Some(id)
    case SentDelete(id) => exists r :: Latest(log) == Some(r) && r.phase.Deleting? && r.sandbox == Some(id)
    case Prepared(id) => exists r :: Latest(log) == Some(r) && r.phase.Starting? && r.sandbox == Some(id)
    case Captured(id) => exists r :: Latest(log) == Some(r) && r.phase.Ready? && r.sandbox == Some(id)
    case Observed(_) => true
  }

  ghost predicate GroundedLog(log: seq<Event>) {
    log == [] || (GroundedLog(log[..|log| - 1]) && Grounded(log[..|log| - 1], log[|log| - 1]))
  }

  ghost predicate GoodLog(log: seq<Event>) {
    log == [] || (GoodLog(log[..|log| - 1]) && EventOk(log[..|log| - 1], log[|log| - 1]))
  }

  lemma Append(log: seq<Event>, e: Event)
    requires GoodLog(log) && EventOk(log, e)
    ensures GoodLog(log + [e])
    ensures Latest(log + [e]) == if e.Wrote? then Some(e.receipt) else Latest(log)
  {
    assert (log + [e])[..|log|] == log;
  }

  // ---- Consequences, for every run of every sequence of commands ----

  function Rank(p: Phase): nat {
    match p
    case Creating => 0
    case Starting => 1
    case Ready => 2
    case PatchSaved => 3
    case DiscardApproved => 3
    case Stopping => 4
    case Deleting => 5
    case Deleted => 6
  }

  predicate Approves(p: Phase) { p.PatchSaved? || p.DiscardApproved? }

  lemma {:induction false} GoodAt(log: seq<Event>, i: nat)
    requires GoodLog(log) && i <= |log|
    ensures GoodLog(log[..i])
    ensures i < |log| ==> EventOk(log[..i], log[i])
    decreases |log| - i
  {
    if i == |log| {
      assert log[..i] == log;
    } else {
      GoodAt(log, i + 1);
      assert log[..i + 1][..i] == log[..i];
    }
  }

  /** A receipt that was written stays a predecessor of the receipt on disk: phases only move forward,
      the request stays the same, and a recorded sandbox ID never changes. */
  lemma {:induction false} ReceiptsMoveForward(log: seq<Event>, j: nat)
    requires GoodLog(log) && j < |log| && log[j].Wrote?
    ensures Latest(log).Some?
    ensures var a, b := log[j].receipt, Latest(log).value;
      && Rank(a.phase) <= Rank(b.phase) && b.spec == a.spec && b.prefix == a.prefix
      && (a.sandbox.Some? ==> b.sandbox == a.sandbox)
      && (Rank(a.phase) == Rank(b.phase) ==> a.phase == b.phase)
    decreases |log|
  {
    var last := |log| - 1;
    if j < last {
      ReceiptsMoveForward(log[..last], j);
    }
  }

  /** The sandbox ID is missing exactly while the session is being created. */
  lemma {:induction false} IdExactlyAfterCreating(log: seq<Event>)
    requires GoodLog(log) && Latest(log).Some?
    ensures Latest(log).value.sandbox.None? <==> Latest(log).value.phase.Creating?
    decreases |log|
  {
    var last := |log| - 1;
    if !log[last].Wrote? {
      IdExactlyAfterCreating(log[..last]);
    }
  }

  /** Once ready, the receipt is not stopping, deleting or deleted before an approval was written. */
  lemma {:induction false} ReadyNeedsApproval(log: seq<Event>, j: nat) returns (k: nat)
    requires GoodLog(log) && j < |log| && log[j].Wrote? && log[j].receipt.phase.Ready?
    requires Latest(log).Some? && Rank(Latest(log).value.phase) > Rank(Ready)
    ensures j < k < |log| && log[k].Wrote? && Approves(log[k].receipt.phase)
    ensures log[k].receipt.phase.PatchSaved? ==>
      log[j].receipt.sandbox.Some? && Captured(log[j].receipt.sandbox.value) in log[..k]
    decreases |log|
  {
    var last := |log| - 1;
    if log[last].Wrote? && Approves(log[last].receipt.phase) {
      k := last;
      GoodAt(log, j);
      if j < last { ReceiptsMoveForward(log[..last], j); }
    } else {
      assert j < last;
      ReceiptsMoveForward(log[..last], j);
      k := ReadyNeedsApproval(log[..last], j);
      assert log[..last][..k] == log[..k];
    }
  }

  /** A session that was ever ready is sent Stop or Delete only after its patch was captured and that
      was durably recorded, or after discarding was durably approved. */
  lemma NoStopWithoutApproval(log: seq<Event>, j: nat, i: nat) returns (k: nat)
    requires GoodLog(log) && j < i < |log| && log[j].Wrote? && log[j].receipt.phase.Ready?
    requires log[i].SentStop? || log[i].SentDelete?
    ensures j < k < i && log[k].Wrote? && Approves(log[k].receipt.phase)
    ensures log[k].receipt.phase.PatchSaved? ==>
      log[j].receipt.sandbox.Some? && Captured(log[j].receipt.sandbox.value) in log[..k]
  {
    GoodAt(log, i);
    assert log[..i][j] == log[j];
    k := ReadyNeedsApproval(log[..i], j);
    assert log[..i][..k] == log[..k];
  }

  /** The last write before a point, as an index. */
  lemma {:induction false} LastWrite(log: seq<Event>) returns (w: nat)
    requires Latest(log).Some?
    ensures w < |log| && log[w] == Wrote(Latest(log).value)
    decreases |log|
  {
    if log[|log| - 1].Wrote? { w := |log| - 1; } else { w := LastWrite(log[..|log| - 1]); }
  }

  lemma {:induction false} GoodIsGrounded(log: seq<Event>)
    requires GoodLog(log)
    ensures GroundedLog(log)
  {
    if log != [] { GoodIsGrounded(log[..|log| - 1]); }
  }

  lemma {:induction false} GroundedAt(log: seq<Event>, i: nat)
    requires GroundedLog(log) && i < |log|
    ensures Grounded(log[..i], log[i])
    decreases |log|
  {
    var last := |log| - 1;
    if i < last {
      GroundedAt(log[..last], i);
      assert log[..last][..i] == log[..i];
    }
  }

  /** Delete is sent only after that same sandbox was observed stopped, whoever else is at work. */
  lemma DeleteAfterStopped(log: seq<Event>, i: nat)
    requires GroundedLog(log) && i < |log| && log[i].SentDelete?
    ensures SawStopped(log[..i], log[i].sandbox)
  {
    GroundedAt(log, i);
  }

  /** A recorded phase keeps its ground: the receipt says deleting only after the sandbox was seen stopped. */
  lemma DeletingSawStopped(log: seq<Event>, r: Receipt)
    requires GroundedLog(log) && Wrote(r) in log && r.phase.Deleting?
    ensures r.sandbox.Some? && SawStopped(log, r.sandbox.value)
  {
    var i :| 0 <= i < |log| && log[i] == Wrote(r);
    GroundedAt(log, i);
    var v :| Observed(v) in log[..i] && v.id == r.sandbox.value && v.state.Stopped?;
    assert Observed(v) in log;
  }

  /** The receipt on disk was written. */
  lemma LatestWasWritten(log: seq<Event>)
    requires Latest(log).Some?
    ensures Wrote(Latest(log).value) in log
  {
    var w := LastWrite(log);
    assert log[w] in log;
  }

  /** Every create request of a session is the same one, whatever flags later starts are given. */
  lemma CreatesAreIdentical(log: seq<Event>, i: nat, j: nat)
    requires GoodLog(log) && i < |log| && j < |log| && log[i].SentCreate? && log[j].SentCreate?
    ensures log[i].request == log[j].request
  {
    if j < i {
      CreatesAreIdentical(log, j, i);
    } else if i < j {
      GoodAt(log, i);
      GoodAt(log, j);
      var w := LastWrite(log[..i]);
      assert log[..j][w] == log[..i][w];
      ReceiptsMoveForward(log[..j], w);
    }
  }

}
