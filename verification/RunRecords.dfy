/**
 The fenced records of an automation run: the run itself, its approval requests
 and its delivery attempts.  Every write names the version it was based on.
 */
module RunRecords {
  import opened Wrappers

  // ------------------------------------------------------------------
  // Runs
  // ------------------------------------------------------------------

  datatype RunStatus =
    | Created | ValidatingInput | Admitted | Running | Collecting | AwaitingApproval | Delivering
    | Completed | Failed | Cancelled | Rejected | Suspended

  function Transitions(s: RunStatus): set<RunStatus> {
    match s
    case Created => {ValidatingInput, Failed, Cancelled}
    case ValidatingInput => {Admitted, Failed, Cancelled}
    case Admitted => {Running, Failed, Cancelled, Suspended}
    case Running => {Collecting, AwaitingApproval, Failed, Cancelled, Suspended}
    case Collecting => {AwaitingApproval, Delivering, Completed, Failed, Cancelled}
    case AwaitingApproval => {Delivering, Rejected, Failed, Cancelled}
    case Delivering => {Completed, Failed, Cancelled}
    case Suspended => {Admitted, Running, Collecting, Failed, Cancelled}
    case _ => {}
  }

  predicate CanTransition(from: RunStatus, to: RunStatus) {
    from != to && to in Transitions(from)
  }

  /** The table in words: whatever has not ended can fail or be cancelled; the path forward
      leads from each status to the next, with a short cut past collecting, approval and
      delivery; a run waiting for approval can be rejected; only an admitted or running run
      can be suspended, and it resumes as admitted, running or collecting. */
  lemma TableIsThePath(from: RunStatus, to: RunStatus)
    ensures CanTransition(from, to) <==>
              || (to in {Failed, Cancelled} && !TerminalRun(from))
              || (Rank(from) < 6 && Rank(to) == Rank(from) + 1)
              || (from == Running && to == AwaitingApproval)
              || (from == Collecting && to in {Delivering, Completed})
              || (from == AwaitingApproval && to == Rejected)
              || (from == Delivering && to == Completed)
              || (from in {Admitted, Running} && to == Suspended)
              || (from == Suspended && to in {Admitted, Running, Collecting})
  {
  }

  predicate TerminalRun(s: RunStatus) {
    s == Completed || s == Failed || s == Cancelled || s == Rejected
  }

  datatype Run = Run(
    status: RunStatus, version: nat, error: Option<string>,
    updatedAt: int, suspendedAt: Option<int>, completedAt: Option<int>)

  function NewRun(now: int): Run {
    Run(Created, 1, None, now, None, None)
  }

  /** A requested transition: the version it is based on, the target, and what to
      record as error (None: keep the old one). */
  datatype Attempt = Attempt(expected: nat, to: RunStatus, error: Option<Option<string>>, now: int)

  datatype Reply<+T> = Fenced | Illegal | Ok(value: T)

  function ApplyTransition(r: Run, a: Attempt): Run {
    Run(a.to, r.version + 1,
        if a.error.Some? then a.error.value else r.error,
        a.now,
        if a.to == Suspended then Some(a.now) else r.suspendedAt,
        if TerminalRun(a.to) then Some(a.now) else None)
  }

  function TransitionRun(r: Run, a: Attempt): Reply<Run> {
    if r.version != a.expected then Fenced
    else if !CanTransition(r.status, a.to) then Illegal
    else Ok(ApplyTransition(r, a))
  }

  /** What a commit writes: the error given or the one on record, the time of the commit,
      and the times of suspension and completion. */
  lemma CommitWrites(r: Run, a: Attempt)
    requires TransitionRun(r, a).Ok?
    ensures var next := TransitionRun(r, a).value;
            && next.status == a.to && next.version == a.expected + 1 && next.updatedAt == a.now
            && next.error == (match a.error case Some(e) => e case None => r.error)
            && next.suspendedAt == (if a.to == Suspended then Some(a.now) else r.suspendedAt)
            && next.completedAt == (if a.to in {Completed, Failed, Cancelled, Rejected} then Some(a.now) else None)
  {
  }

  /** The run after writers made these attempts, each succeeding or not. */
  ghost function After(r: Run, attempts: seq<Attempt>): Run {
    if attempts == [] then r
    else
      var before := After(r, attempts[..|attempts| - 1]);
      match TransitionRun(before, attempts[|attempts| - 1])
      case Ok(next) => next
      case _ => before
  }

  ghost predicate CommitsAt(r: Run, attempts: seq<Attempt>, i: nat) {
    i < |attempts| && TransitionRun(After(r, attempts[..i]), attempts[i]).Ok?
  }

  /** The statuses the run went through. */
  ghost function Trail(r: Run, attempts: seq<Attempt>): seq<RunStatus> {
    if attempts == [] then [r.status]
    else
      var init := attempts[..|attempts| - 1];
      Trail(r, init) +
      match TransitionRun(After(r, init), attempts[|attempts| - 1])
      case Ok(next) => [next.status]
      case _ => []
  }

  ghost predicate Walk(trail: seq<RunStatus>) {
    forall i, j :: 0 <= i && j == i + 1 && j < |trail| ==> CanTransition(trail[i], trail[j])
  }

  /** Over any attempts of any writers, the committed statuses are a walk in the
      table, the version counts the commits, and the completion time is set exactly
      in terminal states. */
  lemma {:induction false} FencedHistory(now: int, attempts: seq<Attempt>)
    ensures var r, trail := After(NewRun(now), attempts), Trail(NewRun(now), attempts);
            && trail != [] && |trail| == r.version && trail[0] == Created && trail[|trail| - 1] == r.status
            && Walk(trail)
            && (r.completedAt.Some? <==> TerminalRun(r.status))
  {
    if attempts != [] {
      var init, a := attempts[..|attempts| - 1], attempts[|attempts| - 1];
      FencedHistory(now, init);
      if TransitionRun(After(NewRun(now), init), a).Ok? {
        WalkExtends(Trail(NewRun(now), init), a.to);
      }
    }
  }

  lemma WalkExtends(trail: seq<RunStatus>, s: RunStatus)
    requires trail != [] && Walk(trail) && CanTransition(trail[|trail| - 1], s)
    ensures Walk(trail + [s])
  {
    hide CanTransition;
  }

  lemma {:induction false} VersionsOnlyGrow(r: Run, attempts: seq<Attempt>, n: nat)
    requires n <= |attempts|
    ensures After(r, attempts[..n]).version <= After(r, attempts).version
  {
    if n == |attempts| {
      assert attempts[..n] == attempts;
    } else {
      var init := attempts[..|attempts| - 1];
      VersionsOnlyGrow(r, init, n);
      assert init[..n] == attempts[..n];
    }
  }

  /** At most one writer commits per version: of two commits, the later one was
      based on a strictly larger version. */
  lemma OneCommitPerVersion(r: Run, attempts: seq<Attempt>, i: nat, j: nat)
    requires i < j && CommitsAt(r, attempts, i) && CommitsAt(r, attempts, j)
    ensures attempts[i].expected < attempts[j].expected
  {
    assert attempts[..i + 1][..i] == attempts[..i];
    VersionsOnlyGrow(r, attempts[..j], i + 1);
    assert attempts[..j][..i + 1] == attempts[..i + 1];
  }

  function Rank(s: RunStatus): nat {
    match s
    case Created => 0
    case ValidatingInput => 1
    case Admitted => 2
    case Running => 3
    case Collecting => 4
    case AwaitingApproval => 5
    case Delivering => 6
    case _ => 7
  }

  lemma {:induction false} RankBoundsWalk(trail: seq<RunStatus>, i: nat)
    requires Walk(trail) && i < |trail| && forall k :: 0 <= k < |trail| ==> trail[k] != Suspended
    ensures i <= Rank(trail[i])
  {
    if i > 0 {
      RankBoundsWalk(trail, i - 1);
      assert CanTransition(trail[i - 1], trail[i]);
    }
  }

  /** A run that is never suspended commits at most seven transitions. */
  lemma AtMostSevenCommits(now: int, attempts: seq<Attempt>)
    requires Suspended !in Trail(NewRun(now), attempts)
    ensures After(NewRun(now), attempts).version <= 8
  {
    hide Trail, After, Walk;
    FencedHistory(now, attempts);
    var trail := Trail(NewRun(now), attempts);
    RankBoundsWalk(trail, |trail| - 1);
  }

  /** The state of one step of a run. */
  datatype StepStatus = StepPending | StepRunning | StepCompleted | StepFailed

  // ------------------------------------------------------------------
  // Approval requests
  // ------------------------------------------------------------------

  datatype ApprovalStatus = Pending | Approved | Declined | ChangesRequested | Expired

  datatype Approval = Approval(
    approvalId: string, runId: string, gateId: string, status: ApprovalStatus, version: nat,
    expiresAt: Option<int>, decidedBy: Option<string>, decisionTime: Option<int>)

  predicate CanDecide(from: ApprovalStatus, to: ApprovalStatus) {
    from == Pending && to != Pending
  }

  predicate IsDecision(s: ApprovalStatus) {
    s == Approved || s == Declined || s == ChangesRequested
  }

  function ApplyDecision(a: Approval, decision: ApprovalStatus, actor: string, now: int): Approval {
    a.(status := decision, version := a.version + 1, decidedBy := Some(actor), decisionTime := Some(now))
  }

  /** A decision on the version the approver read.  A request already decided is
      returned as it is. */
  function Decide(a: Approval, expected: nat, decision: ApprovalStatus, actor: string, now: int): Reply<Approval>
    requires IsDecision(decision)
  {
    if a.version != expected then Fenced
    else if a.status != Pending then Ok(a)
    else Ok(ApplyDecision(a, decision, actor, now))
  }

  function Expire(a: Approval, now: int): Approval {
    if a.status == Pending && a.expiresAt.Some? && a.expiresAt.value <= now
    then a.(status := Expired, version := a.version + 1, decisionTime := Some(now))
    else a
  }

  /** A decision on a pending request of the version read is recorded as asked for: by
      whom, when, and with nothing else of the request changed. */
  lemma DecisionIsRecorded(a: Approval, expected: nat, decision: ApprovalStatus, actor: string, now: int)
    requires IsDecision(decision) && a.status == Pending && a.version == expected
    ensures Decide(a, expected, decision, actor, now) ==
            Ok(Approval(a.approvalId, a.runId, a.gateId, decision, expected + 1, a.expiresAt, Some(actor), Some(now)))
  {
  }

  /** A request expires exactly if it is pending past its time, and stays what it is
      otherwise. */
  lemma ExpiryIsRecorded(a: Approval, now: int)
    ensures Expire(a, now).status == Expired <==>
              a.status == Expired || (a.status == Pending && a.expiresAt.Some? && a.expiresAt.value <= now)
    ensures Expire(a, now).status == a.status ==> Expire(a, now) == a
    ensures Expire(a, now) == a || Expire(a, now) ==
              Approval(a.approvalId, a.runId, a.gateId, Expired, a.version + 1, a.expiresAt, a.decidedBy, Some(now))
  {
  }

  datatype ApprovalOp =
    | OpDecide(expected: nat, decision: ApprovalStatus, actor: string, now: int)
    | OpExpire(now: int)

  ghost predicate ValidOp(op: ApprovalOp) {
    op.OpDecide? ==> IsDecision(op.decision)
  }

  ghost function ApprovalAfter(a: Approval, ops: seq<ApprovalOp>): Approval
    requires forall i :: 0 <= i < |ops| ==> ValidOp(ops[i])
  {
    if ops == [] then a
    else
      var before := ApprovalAfter(a, ops[..|ops| - 1]);
      assert ValidOp(ops[|ops| - 1]);
      match ops[|ops| - 1]
      case OpExpire(now) => Expire(before, now)
      case OpDecide(expected, decision, actor, now) =>
        match Decide(before, expected, decision, actor, now)
        case Ok(next) => next
        case _ => before
  }

  /** Decision i of the sequence returned to its caller, with this outcome. */
  ghost predicate Returned(a: Approval, ops: seq<ApprovalOp>, i: nat, outcome: ApprovalStatus)
    requires forall k :: 0 <= k < |ops| ==> ValidOp(ops[k])
  {
    && i < |ops| && ops[i].OpDecide?
    && assert ValidOp(ops[i]);
       var reply := Decide(ApprovalAfter(a, ops[..i]), ops[i].expected, ops[i].decision, ops[i].actor, ops[i].now);
       reply.Ok? && reply.value.status == outcome
  }

  lemma {:induction false} DecidedStays(a: Approval, ops: seq<ApprovalOp>, n: nat)
    requires (forall k :: 0 <= k < |ops| ==> ValidOp(ops[k])) && n <= |ops|
    requires ApprovalAfter(a, ops[..n]).status != Pending
    ensures ApprovalAfter(a, ops) == ApprovalAfter(a, ops[..n])
  {
    if n == |ops| {
      assert ops[..n] == ops;
    } else {
      var init := ops[..|ops| - 1];
      assert init[..n] == ops[..n];
      DecidedStays(a, init, n);
    }
  }

  lemma ReturnedIsRecorded(a: Approval, ops: seq<ApprovalOp>, i: nat, outcome: ApprovalStatus)
    requires (forall k :: 0 <= k < |ops| ==> ValidOp(ops[k])) && Returned(a, ops, i, outcome)
    ensures outcome != Pending && ApprovalAfter(a, ops).status == outcome
  {
    assert ops[..i + 1][..i] == ops[..i];
    assert ValidOp(ops[i]);
    DecidedStays(a, ops, i + 1);
  }

  /** Whoever decides and whenever requests expire, all decisions that return agree
      on one terminal outcome, and it is the one on record. */
  lemma DecisionsAgree(a: Approval, ops: seq<ApprovalOp>, i: nat, s: ApprovalStatus, j: nat, t: ApprovalStatus)
    requires (forall k :: 0 <= k < |ops| ==> ValidOp(ops[k])) && Returned(a, ops, i, s) && Returned(a, ops, j, t)
    ensures s == t && s != Pending && ApprovalAfter(a, ops).status == s
  {
    hide Returned, ApprovalAfter;
    ReturnedIsRecorded(a, ops, i, s);
    ReturnedIsRecorded(a, ops, j, t);
  }

  // ------------------------------------------------------------------
  // Delivery attempts
  // ------------------------------------------------------------------

  datatype DeliveryStatus = NotStarted | InProgress | Delivered | Undelivered

  datatype Delivery = Delivery(
    deliveryId: string, runId: string, idempotencyKey: string, status: DeliveryStatus,
    attempts: nat, version: nat, resultRef: Option<string>, lastError: Option<string>)

  predicate CanDeliveryTransition(from: DeliveryStatus, to: DeliveryStatus) {
    from != to && from != Delivered && from != Undelivered && to != NotStarted
  }

  datatype DeliveryAttempt = DeliveryAttempt(expected: nat, to: DeliveryStatus, note: Option<string>)

  function TransitionDelivery(d: Delivery, a: DeliveryAttempt): Reply<Delivery> {
    if d.version != a.expected then Fenced
    else if d.status == a.to || d.status == Delivered || d.status == Undelivered then Illegal
    else if a.to == Delivered then
      Ok(d.(status := Delivered, resultRef := if a.note.Some? then a.note else d.resultRef,
            lastError := None, version := d.version + 1))
    else if a.to == Undelivered then
      Ok(d.(status := Undelivered, lastError := if a.note.Some? then a.note else d.lastError, version := d.version + 1))
    else Ok(d.(status := InProgress, attempts := d.attempts + 1, version := d.version + 1))
  }

  /** The store's own check is the table, for every target the table knows. */
  lemma StoreChecksTheTable(d: Delivery, a: DeliveryAttempt)
    requires a.to != NotStarted && d.version == a.expected
    ensures TransitionDelivery(d, a).Ok? <==> CanDeliveryTransition(d.status, a.to)
    ensures TransitionDelivery(d, a).Ok? ==> TransitionDelivery(d, a).value.status == a.to
  {
  }

  /** What a delivery transition writes beside its status. */
  lemma DeliveryWrites(d: Delivery, a: DeliveryAttempt)
    requires a.to != NotStarted && TransitionDelivery(d, a).Ok?
    ensures var next := TransitionDelivery(d, a).value;
            && next.deliveryId == d.deliveryId && next.runId == d.runId && next.idempotencyKey == d.idempotencyKey
            && next.version == a.expected + 1
            && next.attempts == d.attempts + (if a.to == InProgress then 1 else 0)
            && (a.to == Delivered ==> next.lastError == None && (a.note.Some? ==> next.resultRef == a.note))
            && (a.to == Undelivered && a.note.Some? ==> next.lastError == a.note && next.resultRef == d.resultRef)
  {
  }

  ghost function DeliveryAfter(d: Delivery, attempts: seq<DeliveryAttempt>): Delivery {
    if attempts == [] then d
    else
      var before := DeliveryAfter(d, attempts[..|attempts| - 1]);
      match TransitionDelivery(before, attempts[|attempts| - 1])
      case Ok(next) => next
      case _ => before
  }

  /** A delivery never leaves delivered or failed. */
  lemma {:induction false} DeliveryIsFinal(d: Delivery, attempts: seq<DeliveryAttempt>, n: nat)
    requires n <= |attempts|
    requires var s := DeliveryAfter(d, attempts[..n]).status; s == Delivered || s == Undelivered
    ensures DeliveryAfter(d, attempts) == DeliveryAfter(d, attempts[..n])
  {
    if n == |attempts| {
      assert attempts[..n] == attempts;
    } else {
      var init := attempts[..|attempts| - 1];
      assert init[..n] == attempts[..n];
      DeliveryIsFinal(d, init, n);
    }
  }

  /** A delivery commits at most twice, and calls its provider at most once. */
  lemma {:induction false} DeliveryCommitsTwice(d: Delivery, attempts: seq<DeliveryAttempt>)
    requires d.status == NotStarted
    requires forall i :: 0 <= i < |attempts| ==> attempts[i].to != NotStarted
    ensures var e := DeliveryAfter(d, attempts);
            && e.version <= d.version + 2 && e.attempts <= d.attempts + 1
            && (e.status == NotStarted ==> e == d)
            && (e.status == InProgress ==> e.version == d.version + 1 && e.attempts == d.attempts + 1)
  {
    if attempts != [] {
      DeliveryCommitsTwice(d, attempts[..|attempts| - 1]);
    }
  }
}
