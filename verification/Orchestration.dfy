/**
 One automation run, driven by any number of workers that may crash anywhere:
 `createRun`, `advanceRun`, `reconcileRun`, `decideApproval`, `cancelRun`.  Every
 store, dispatcher or provider call is one atomic step of the worker that makes
 it; between two steps of a worker anything else may happen.
 */
module Orchestration {
  import opened Wrappers
  import opened RunRecords
  import G = StepGraph

  // ------------------------------------------------------------------
  // The run and what surrounds it
  // ------------------------------------------------------------------

  datatype JobStatus =
    | Queued | Leased | Preparing | JobRunning | Checkpointing | JobSuspended | Resuming
    | JobCompleted | JobFailed | JobCancelled

  predicate TerminalJob(j: JobStatus) {
    j == JobCompleted || j == JobFailed || j == JobCancelled
  }

  function StepStatusOf(j: JobStatus): StepStatus {
    match j
    case Queued | Leased | Preparing => StepPending
    case JobRunning | Checkpointing | JobSuspended | Resuming => StepRunning
    case JobCompleted => StepCompleted
    case JobFailed | JobCancelled => StepFailed
  }

  /** A step is over exactly when its job is, successfully or not, and has begun once its
      job runs. */
  lemma StepStatusFollowsJob(j: JobStatus)
    ensures StepStatusOf(j) == StepCompleted <==> j == JobCompleted
    ensures StepStatusOf(j) == StepFailed <==> j in {JobFailed, JobCancelled}
    ensures StepStatusOf(j) == StepPending <==> j in {Queued, Leased, Preparing}
  {
  }

  /** What the version pins: the steps, their execution order, whether delivery
      needs approval and when a request expires.  `runsToEnd` says that the
      dispatcher answers only with final job states. */
  datatype Plan = Plan(
    runId: string, gateId: string, deliveryKey: string, steps: seq<G.Step>, order: seq<string>,
    approvalRequired: bool, expiresAfter: Option<int>, runsToEnd: bool)

  /** The durable state: the store's records of the run, the dispatcher's jobs by
      step key, and what the delivery provider has confirmed. */
  datatype Data = Data(
    run: Option<Run>, input: bool,
    rows: map<string, StepStatus>, mappings: map<string, string>,
    jobs: map<string, string>, status: map<string, JobStatus>,
    approval: Option<Approval>, delivery: Option<Delivery>, confirmed: Option<string>)

  const EMPTY := Data(None, false, map[], map[], map[], map[], None, None, None)

  /** Where a worker stands: the next thing it does, with what it remembers. */
  datatype Pc =
    | Idle
    | Validating(snap: Run)                                          // createRun
    | SavingInput(snap: Run)
    | Admitting(snap: Run)
    | Advancing                                                      // advanceRun
    | ReadingInput(snap: Run)
    | Starting(snap: Run)
    | AtStep(snap: Run, i: nat)
    | FailingStep(snap: Run, x: string)
    | Mapping(snap: Run, i: nat)                                     // dispatchStep
    | Observing(snap: Run, i: nat, job: string)
    | Dispatching(snap: Run, i: nat)
    | Waiting(snap: Run, i: nat, job: string)
    | SavingMapping(snap: Run, i: nat, job: string, seen: JobStatus)
    | Reloading(snap: Run, i: nat, seen: JobStatus)
    | Recording(snap: Run, i: nat, job: string, seen: JobStatus)
    | Gathering(snap: Run)                                           // collected, towards approval
    | Requesting(snap: Run)
    | Asking(snap: Run)
    | Entering(snap: Run)                                            // deliverRun
    | FindingAttempt(snap: Run)
    | SavingAttempt(snap: Run)
    | Beginning(snap: Run, attempt: Delivery)
    | Calling(snap: Run, attempt: Delivery)
    | Settling(snap: Run, attempt: Delivery, ref: string)
    | Undelivering(snap: Run, attempt: Delivery)
    | FailingDelivery(snap: Run)
    | Completing(snap: Run)
    | Reconciling                                                    // reconcileRun
    | ListingMappings(snap: Run)
    | Projecting(snap: Run, todo: seq<string>)
    | Comparing(snap: Run, todo: seq<string>, seen: JobStatus)
    | Repairing(snap: Run, todo: seq<string>, seen: JobStatus)
    | Deciding(approvalVersion: nat, decision: ApprovalStatus)       // decideApproval
    | Decided(outcome: ApprovalStatus)
    | Judged(snap: Run, outcome: ApprovalStatus)
    | Cancelling(snap: Run)                                          // cancelRun

  /** What the world contributes to one step: a call that succeeds or throws
      (and then may have had its effect), fresh names, the time. */
  datatype Choice = Choice(ok: bool, lost: bool, name: string, todo: seq<string>, now: int)

  /** The durable state and the worker after one step of the worker. */
  datatype Out = Out(d: Data, pc: Pc)

  function Commit(d: Data, snap: Run, to: RunStatus, now: int): Option<Data> {
    if d.run.None? then None
    else
      match TransitionRun(d.run.value, Attempt(snap.version, to, None, now))
      case Ok(r) => Some(d.(run := Some(r)))
      case _ => None
  }

  /** Commit a run transition and stop; a refused one throws. */
  function CommitAndStop(d: Data, snap: Run, to: RunStatus, now: int): Out {
    match Commit(d, snap, to, now)
    case Some(e) => Out(e, Idle)
    case None => Out(d, Idle)
  }

  function Settle(d: Data, attempt: Delivery, to: DeliveryStatus, note: Option<string>): Option<Data> {
    if d.delivery.None? then None
    else
      match TransitionDelivery(d.delivery.value, DeliveryAttempt(attempt.version, to, note))
      case Ok(r) => Some(d.(delivery := Some(r)))
      case _ => None
  }

  // ------------------------------------------------------------------
  // The steps of the operations
  // ------------------------------------------------------------------

  function CreateStep(d: Data, pc: Pc, c: Choice): Out {
    match pc
    case Validating(snap) =>
      (match Commit(d, snap, ValidatingInput, c.now)
       case Some(e) => if e.run.Some? then Out(e, SavingInput(e.run.value)) else Out(d, Idle)
       case None => Out(d, Idle))
    case SavingInput(snap) => Out(d.(input := true), Admitting(snap))
    case Admitting(snap) => CommitAndStop(d, snap, Admitted, c.now)
    case _ => Out(d, Idle)
  }

  /** advanceRun outside dispatchStep, up to the collection of artifacts. */
  function AdvanceStep(plan: Plan, d: Data, pc: Pc, c: Choice): Out {
    match pc
    case Advancing => if d.run.Some? then Out(d, ReadingInput(d.run.value)) else Out(d, Idle)
    case ReadingInput(snap) => if d.input then Out(d, Starting(snap)) else Out(d, Idle)
    case Starting(snap) =>
      if snap.status == Admitted then
        match Commit(d, snap, Running, c.now)
        case Some(e) => if e.run.Some? then Out(e, AtStep(e.run.value, 0)) else Out(d, Idle)
        case None => Out(d, Idle)
      else if snap.status == Running || snap.status == Collecting then Out(d, AtStep(snap, 0))
      else Out(d, Idle)
    case AtStep(snap, i) =>
      if i < |plan.order| then
        var x := plan.order[i];
        if x in d.rows && d.rows[x] == StepCompleted then Out(d, AtStep(snap, i + 1))
        else if x in d.rows && d.rows[x] == StepFailed then Out(d, FailingStep(snap, x))
        else Out(d, Mapping(snap, i))
      else
        (match Commit(d, snap, Collecting, c.now)
         case Some(e) =>
           if e.run.None? then Out(d, Idle)
           else Out(e, if plan.approvalRequired then Gathering(e.run.value) else Entering(e.run.value))
         case None => Out(d, Idle))
    case FailingStep(snap, _) => CommitAndStop(d, snap, Failed, c.now)
    case _ => Out(d, Idle)
  }

  function DispatchStep(plan: Plan, d: Data, pc: Pc, c: Choice): Out {
    if (pc.Mapping? || pc.Observing? || pc.Dispatching? || pc.Waiting? || pc.SavingMapping? || pc.Reloading? || pc.Recording?)
       && pc.i < |plan.order|
    then
      var x := plan.order[pc.i];
      match pc
      case Mapping(snap, i) =>
        if x in d.mappings then Out(d, Observing(snap, i, d.mappings[x])) else Out(d, Dispatching(snap, i))
      case Observing(snap, i, job) =>
        if job in d.status then Out(d, Recording(snap, i, job, d.status[job])) else Out(d, Idle)
      case Dispatching(snap, i) =>
        // idempotent on the step's key: an existing job is returned, not repeated
        if x in d.jobs then Out(d, Waiting(snap, i, d.jobs[x]))
        else if c.name in d.status then Out(d, pc)
        else Out(d.(jobs := d.jobs[x := c.name], status := d.status[c.name := Queued]), Waiting(snap, i, c.name))
      case Waiting(snap, i, job) =>
        if job !in d.status || (plan.runsToEnd && !TerminalJob(d.status[job])) then Out(d, pc)
        else Out(d, SavingMapping(snap, i, job, d.status[job]))
      case SavingMapping(snap, i, job, seen) =>
        if x in d.mappings then Out(d, Reloading(snap, i, seen))
        else Out(d.(mappings := d.mappings[x := job]), Recording(snap, i, job, seen))
      case Reloading(snap, i, seen) =>
        if x in d.mappings then Out(d, Recording(snap, i, d.mappings[x], seen)) else Out(d, Idle)
      case Recording(snap, i, job, seen) =>
        var e := d.(rows := d.rows[x := StepStatusOf(seen)]);
        (match StepStatusOf(seen)
         case StepFailed => Out(e, FailingStep(snap, x))
         case StepCompleted => Out(e, AtStep(snap, i + 1))
         case _ => Out(e, Idle))
    else Out(d, Idle)
  }

  /** The approval side: the request of a collected run, and its decision. */
  function ApprovalStep(plan: Plan, d: Data, pc: Pc, c: Choice): Out {
    match pc
    case Gathering(snap) => if d.approval.Some? then Out(d, Asking(snap)) else Out(d, Requesting(snap))
    case Requesting(snap) =>
      if d.approval.Some? then Out(d, Idle)
      else
        var expires := if plan.expiresAfter.Some? then Some(c.now + plan.expiresAfter.value) else None;
        Out(d.(approval := Some(Approval(c.name, plan.runId, plan.gateId, Pending, 1, expires, None, None))), Asking(snap))
    case Asking(snap) => CommitAndStop(d, snap, AwaitingApproval, c.now)
    case Deciding(version, decision) =>
      if d.approval.None? || !IsDecision(decision) then Out(d, Idle)
      else
        (match Decide(d.approval.value, version, decision, c.name, c.now)
         case Ok(a) => Out(d.(approval := Some(a)), Decided(a.status))
         case _ => Out(d, Idle))
    case Decided(outcome) => if d.run.Some? then Out(d, Judged(d.run.value, outcome)) else Out(d, Idle)
    case Judged(snap, outcome) =>
      if snap.status != AwaitingApproval then Out(d, Idle)
      else if outcome == Approved then Out(d, Entering(snap))
      else if outcome == Declined then CommitAndStop(d, snap, Rejected, c.now)
      else if outcome == ChangesRequested then CommitAndStop(d, snap, Suspended, c.now)
      else Out(d, Idle)
    case Cancelling(snap) =>
      if TerminalRun(snap.status) then Out(d, Idle) else CommitAndStop(d, snap, Cancelled, c.now)
    case _ => Out(d, Idle)
  }

  function DeliverStep(plan: Plan, d: Data, pc: Pc, c: Choice): Out {
    match pc
    case Entering(snap) =>
      (match Commit(d, snap, Delivering, c.now)
       case Some(e) => if e.run.Some? then Out(e, FindingAttempt(e.run.value)) else Out(d, Idle)
       case None => Out(d, Idle))
    case FindingAttempt(snap) =>
      if d.delivery.None? then Out(d, SavingAttempt(snap))
      else if d.delivery.value.status == Delivered then Out(d, Completing(snap))
      else Out(d, Beginning(snap, d.delivery.value))
    case SavingAttempt(snap) =>
      if d.delivery.Some? then Out(d, Idle)
      else
        var attempt := Delivery(c.name, plan.runId, plan.deliveryKey, NotStarted, 0, 1, None, None);
        Out(d.(delivery := Some(attempt)), Beginning(snap, attempt))
    case Beginning(snap, attempt) =>
      (match Settle(d, attempt, InProgress, None)
       case Some(e) => if e.delivery.Some? then Out(e, Calling(snap, e.delivery.value)) else Out(d, Idle)
       case None => Out(d, Idle))
    case Calling(snap, attempt) =>
      // a confirmed key replays its result; a call that throws may have delivered
      if d.confirmed.Some? then
        Out(d, if c.ok then Settling(snap, attempt, d.confirmed.value) else Undelivering(snap, attempt))
      else if c.ok then Out(d.(confirmed := Some(c.name)), Settling(snap, attempt, c.name))
      else Out(if c.lost then d.(confirmed := Some(c.name)) else d, Undelivering(snap, attempt))
    case Settling(snap, attempt, ref) =>
      (match Settle(d, attempt, Delivered, Some(ref))
       case Some(e) => Out(e, if c.ok then Completing(snap) else Undelivering(snap, attempt))
       case None => Out(d, Undelivering(snap, attempt)))
    case Undelivering(snap, attempt) =>
      (match Settle(d, attempt, Undelivered, Some(c.name))
       case Some(e) => Out(e, FailingDelivery(snap))
       case None => Out(d, Idle))
    case FailingDelivery(snap) => CommitAndStop(d, snap, Failed, c.now)
    case Completing(snap) => CommitAndStop(d, snap, Completed, c.now)
    case _ => Out(d, Idle)
  }

  /** The steps that are mapped, each once, in some order. */
  predicate Lists(todo: seq<string>, mappings: map<string, string>) {
    && (forall x :: x in todo ==> x in mappings) && (forall x :: x in mappings ==> x in todo)
    && forall i, j :: 0 <= i < j < |todo| ==> todo[i] != todo[j]
  }

  function ReconcileStep(d: Data, pc: Pc, c: Choice): Out {
    match pc
    case Reconciling => if d.run.Some? then Out(d, ListingMappings(d.run.value)) else Out(d, Idle)
    case ListingMappings(snap) =>
      if Lists(c.todo, d.mappings) then Out(d, Projecting(snap, c.todo)) else Out(d, pc)
    case Projecting(snap, todo) =>
      if todo == [] then
        Out(d, if snap.status == Admitted || snap.status == Running || snap.status == Collecting then Advancing else Idle)
      else if todo[0] in d.mappings && d.mappings[todo[0]] in d.status && c.ok then
        Out(d, Comparing(snap, todo, d.status[d.mappings[todo[0]]]))
      else Out(d, Projecting(snap, todo[1..]))
    case Comparing(snap, todo, seen) =>
      if todo == [] then Out(d, Idle)
      else if todo[0] in d.rows && d.rows[todo[0]] == StepStatusOf(seen) && c.ok then Out(d, AfterRow(snap, todo, seen))
      else Out(d, Repairing(snap, todo, seen))
    case Repairing(snap, todo, seen) =>
      if todo == [] then Out(d, Idle)
      else Out(d.(rows := d.rows[todo[0] := StepStatusOf(seen)]), AfterRow(snap, todo, seen))
    case _ => Out(d, Idle)
  }

  function AfterRow(snap: Run, todo: seq<string>, seen: JobStatus): Pc
    requires todo != []
  {
    if StepStatusOf(seen) == StepFailed && !TerminalRun(snap.status) then FailingStep(snap, todo[0])
    else Projecting(snap, todo[1..])
  }

  predicate InCreate(pc: Pc) {
    pc.Validating? || pc.SavingInput? || pc.Admitting?
  }

  predicate InAdvance(pc: Pc) {
    pc.Advancing? || pc.ReadingInput? || pc.Starting? || pc.AtStep? || pc.FailingStep?
  }

  predicate InDispatch(pc: Pc) {
    pc.Mapping? || pc.Observing? || pc.Dispatching? || pc.Waiting? || pc.SavingMapping? || pc.Reloading? || pc.Recording?
  }

  predicate InDeliver(pc: Pc) {
    pc.Entering? || pc.FindingAttempt? || pc.SavingAttempt? || pc.Beginning? || pc.Calling? || pc.Settling?
    || pc.Undelivering? || pc.FailingDelivery? || pc.Completing?
  }

  predicate InReconcile(pc: Pc) {
    pc.Reconciling? || pc.ListingMappings? || pc.Projecting? || pc.Comparing? || pc.Repairing?
  }

  function WorkerStep(plan: Plan, d: Data, pc: Pc, c: Choice): Out {
    if InCreate(pc) then CreateStep(d, pc, c)
    else if InAdvance(pc) then AdvanceStep(plan, d, pc, c)
    else if InDispatch(pc) then DispatchStep(plan, d, pc, c)
    else if InDeliver(pc) then DeliverStep(plan, d, pc, c)
    else if InReconcile(pc) then ReconcileStep(d, pc, c)
    else ApprovalStep(plan, d, pc, c)
  }

  // ------------------------------------------------------------------
  // The system
  // ------------------------------------------------------------------

  datatype System = System(data: Data, workers: map<nat, Pc>)

  datatype Call =
    | Create | Advance | Reconcile | Cancel
    | DecideOn(decision: ApprovalStatus)

  datatype Action =
    | Begin(w: nat, call: Call, now: int)    // an idle worker starts an operation
    | Go(w: nat, c: Choice)                  // a worker takes its next step
    | Crash(w: nat)                          // a worker stops, or its call throws
    | Progress(job: string, to: JobStatus)   // a job moves; final states are final
    | ExpireRequest(now: int)

  const START := System(EMPTY, map[])

  function PcOf(s: System, w: nat): Pc {
    if w in s.workers then s.workers[w] else Idle
  }

  /** The first read or write of an operation. */
  function Opening(d: Data, call: Call, now: int): Out {
    match call
    case Create => if d.run.None? then Out(d.(run := Some(NewRun(now))), Validating(NewRun(now))) else Out(d, Idle)
    case Advance => Out(d, Advancing)
    case Reconcile => Out(d, Reconciling)
    case Cancel => if d.run.Some? then Out(d, Cancelling(d.run.value)) else Out(d, Idle)
    case DecideOn(decision) =>
      if d.approval.Some? && IsDecision(decision) then Out(d, Deciding(d.approval.value.version, decision)) else Out(d, Idle)
  }

  function Place(s: System, w: nat, out: Out): System {
    System(out.d, s.workers[w := out.pc])
  }

  function JobMoves(d: Data, job: string, to: JobStatus): Data {
    if job in d.status && !TerminalJob(d.status[job]) then d.(status := d.status[job := to]) else d
  }

  function RequestExpires(d: Data, now: int): Data {
    if d.approval.Some? then d.(approval := Some(Expire(d.approval.value, now))) else d
  }

  function Next(plan: Plan, s: System, a: Action): System {
    match a
    case Begin(w, call, now) => if PcOf(s, w).Idle? then Place(s, w, Opening(s.data, call, now)) else s
    case Go(w, c) => Place(s, w, WorkerStep(plan, s.data, PcOf(s, w), c))
    case Crash(w) => Place(s, w, Out(s.data, Idle))
    case Progress(job, to) => s.(data := JobMoves(s.data, job, to))
    case ExpireRequest(now) => s.(data := RequestExpires(s.data, now))
  }

  ghost function Execute(plan: Plan, s: System, acts: seq<Action>): System {
    if acts == [] then s else Next(plan, Execute(plan, s, acts[..|acts| - 1]), acts[|acts| - 1])
  }
}
