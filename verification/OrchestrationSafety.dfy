/**
 What every interleaving of workers, jobs and crashes keeps of a run.
 */
module OrchestrationSafety {
  import opened Wrappers
  import opened RunRecords
  import opened Orchestration
  import G = StepGraph

  // ------------------------------------------------------------------
  // Statuses
  // ------------------------------------------------------------------

  ghost predicate PastAdmission(st: RunStatus) {
    st == Admitted || st == Running || PastRunning(st)
  }

  ghost predicate PastRunning(st: RunStatus) {
    st == Collecting || st == AwaitingApproval || st == Delivering || st == Completed || st == Rejected
  }

  ghost predicate PastGate(st: RunStatus) {
    st == Delivering || st == Completed
  }

  // ------------------------------------------------------------------
  // The plan
  // ------------------------------------------------------------------

  /** The execution order is a schedule of the version's steps. */
  ghost predicate PlanOk(plan: Plan) {
    G.IsSchedule(plan.steps, plan.order)
  }

  /** Step x declares a dependency on step y. */
  ghost predicate WaitsFor(plan: Plan, x: string, y: string) {
    x in G.GraphOf(plan.steps) && y in G.GraphOf(plan.steps)[x]
  }

  lemma DependenciesComeFirst(plan: Plan, i: nat, y: string)
    requires PlanOk(plan) && i < |plan.order| && WaitsFor(plan, plan.order[i], y)
    ensures y in plan.order[..i]
  {
    hide G.ReadyOrder, G.GraphOf, G.Distinct;
  }

  // ------------------------------------------------------------------
  // What is true of the durable state
  // ------------------------------------------------------------------

  /** Step x is mapped to a job that completed; when the dispatcher answers only with
      final states, its step row says so too. */
  ghost predicate StepDone(plan: Plan, d: Data, x: string) {
    && x in d.mappings && d.mappings[x] in d.status && d.status[d.mappings[x]] == JobCompleted
    && (plan.runsToEnd ==> x in d.rows && d.rows[x] == StepCompleted)
  }

  /** Step x is mapped to a job that failed or was cancelled. */
  ghost predicate StepLost(d: Data, x: string) {
    && x in d.mappings && d.mappings[x] in d.status
    && (d.status[d.mappings[x]] == JobFailed || d.status[d.mappings[x]] == JobCancelled)
  }

  ghost predicate AllDone(plan: Plan, d: Data) {
    forall x :: x in plan.order ==> StepDone(plan, d, x)
  }

  ghost predicate ApprovalIs(d: Data, st: ApprovalStatus) {
    d.approval.Some? && d.approval.value.status == st
  }

  ghost predicate DeliveryIs(d: Data, st: DeliveryStatus) {
    d.delivery.Some? && d.delivery.value.status == st
  }

  /** What a run status means for everything around the run. */
  ghost predicate Justified(plan: Plan, d: Data, st: RunStatus) {
    && st != Suspended
    && (PastAdmission(st) ==> d.input)
    && (PastRunning(st) ==> AllDone(plan, d))
    && (st == AwaitingApproval ==> plan.approvalRequired && d.approval.Some?)
    && (st == Rejected ==> ApprovalIs(d, Declined))
    && (PastGate(st) && plan.approvalRequired ==> ApprovalIs(d, Approved))
    && (st == Completed ==> DeliveryIs(d, Delivered))
    && (st == Failed ==> DeliveryIs(d, Undelivered) || exists x :: StepLost(d, x))
  }

  /** The dispatcher's jobs are distinct, and a mapping names the dispatcher's job. */
  ghost predicate JobsOk(plan: Plan, d: Data) {
    && (forall x :: x in d.jobs ==> x in plan.order && d.jobs[x] in d.status)
    && (forall x, y :: x in d.jobs && y in d.jobs && d.jobs[x] == d.jobs[y] ==> x == y)
    && (forall x :: x in d.mappings ==> x in d.jobs && d.mappings[x] == d.jobs[x])
    && (plan.runsToEnd ==> forall x :: x in d.mappings ==> TerminalJob(d.status[d.mappings[x]]))
  }

  /** Whatever was dispatched had its dependencies done. */
  ghost predicate DispatchOk(plan: Plan, d: Data) {
    forall x, y :: x in d.jobs && WaitsFor(plan, x, y) ==> StepDone(plan, d, y)
  }

  /** A final step row tells the truth about the mapped job. */
  ghost predicate RowsOk(d: Data) {
    forall x :: x in d.rows ==>
      && x in d.mappings && d.mappings[x] in d.status
      && (d.rows[x] == StepCompleted ==> d.status[d.mappings[x]] == JobCompleted)
      && (d.rows[x] == StepFailed ==> StepLost(d, x))
  }

  ghost predicate DeliveryOk(d: Data) {
    DeliveryIs(d, Delivered) ==> d.confirmed.Some? && d.delivery.value.resultRef == d.confirmed
  }

  ghost predicate Core(plan: Plan, d: Data) {
    && JobsOk(plan, d) && DispatchOk(plan, d) && RowsOk(d) && DeliveryOk(d)
    && (d.run.Some? ==> Justified(plan, d, d.run.value.status))
  }

  // ------------------------------------------------------------------
  // What a worker may rely on
  // ------------------------------------------------------------------

  /** What it read of the run is an older version, or still the run. */
  ghost predicate SnapOk(d: Data, snap: Run) {
    && d.run.Some? && snap.version <= d.run.value.version
    && (snap.version == d.run.value.version ==> snap == d.run.value)
  }

  ghost predicate AttemptOk(d: Data, attempt: Delivery) {
    && d.delivery.Some? && attempt.version <= d.delivery.value.version
    && (attempt.version == d.delivery.value.version ==> attempt == d.delivery.value)
  }

  /** It saw the job in this state; a final state is still the job's state. */
  ghost predicate Saw(plan: Plan, d: Data, job: string, seen: JobStatus) {
    && job in d.status && (TerminalJob(seen) ==> d.status[job] == seen)
    && (plan.runsToEnd ==> TerminalJob(seen))
  }

  ghost predicate StepsDoneTo(plan: Plan, d: Data, i: nat) {
    i <= |plan.order| && forall k :: 0 <= k < i ==> StepDone(plan, d, plan.order[k])
  }

  ghost predicate DispatchPcOk(plan: Plan, d: Data, pc: Pc)
    requires InDispatch(pc)
  {
    && SnapOk(d, pc.snap) && StepsDoneTo(plan, d, pc.i) && pc.i < |plan.order|
    && var x := plan.order[pc.i];
       match pc
       case Observing(_, _, job) => x in d.mappings && d.mappings[x] == job
       case Waiting(_, _, job) => x in d.jobs && d.jobs[x] == job
       case SavingMapping(_, _, job, seen) => x in d.jobs && d.jobs[x] == job && Saw(plan, d, job, seen)
       case Reloading(_, _, seen) => x in d.mappings && Saw(plan, d, d.mappings[x], seen)
       case Recording(_, _, job, seen) => x in d.mappings && d.mappings[x] == job && Saw(plan, d, job, seen)
       case _ => true
  }

  ghost predicate DeliverPcOk(plan: Plan, d: Data, pc: Pc)
    requires InDeliver(pc)
  {
    && SnapOk(d, pc.snap)
    && match pc
       case Entering(_) => plan.approvalRequired ==> ApprovalIs(d, Approved)
       case FindingAttempt(snap) => snap.status == Delivering
       case SavingAttempt(snap) => snap.status == Delivering
       case Beginning(snap, attempt) => snap.status == Delivering && AttemptOk(d, attempt)
       case Calling(snap, attempt) => snap.status == Delivering && AttemptOk(d, attempt)
       case Settling(snap, attempt, ref) => snap.status == Delivering && AttemptOk(d, attempt) && d.confirmed == Some(ref)
       case Undelivering(snap, attempt) => snap.status == Delivering && AttemptOk(d, attempt)
       case FailingDelivery(snap) => snap.status == Delivering && DeliveryIs(d, Undelivered)
       case Completing(snap) => snap.status == Delivering && DeliveryIs(d, Delivered)
  }

  ghost predicate ReconcilePcOk(plan: Plan, d: Data, pc: Pc)
    requires InReconcile(pc)
  {
    match pc
    case Reconciling => true
    case ListingMappings(snap) => SnapOk(d, snap)
    case Projecting(snap, todo) => SnapOk(d, snap) && forall x :: x in todo ==> x in d.mappings
    case Comparing(snap, todo, seen) =>
      SnapOk(d, snap) && todo != [] && (forall x :: x in todo ==> x in d.mappings) && Saw(plan, d, d.mappings[todo[0]], seen)
    case Repairing(snap, todo, seen) =>
      SnapOk(d, snap) && todo != [] && (forall x :: x in todo ==> x in d.mappings) && Saw(plan, d, d.mappings[todo[0]], seen)
  }

  ghost predicate OtherPcOk(plan: Plan, d: Data, pc: Pc) {
    match pc
    case Validating(snap) => SnapOk(d, snap)
    case SavingInput(snap) => SnapOk(d, snap)
    case Admitting(snap) => SnapOk(d, snap) && d.input
    case ReadingInput(snap) => SnapOk(d, snap)
    case Starting(snap) => SnapOk(d, snap) && d.input
    case AtStep(snap, i) => SnapOk(d, snap) && d.input && StepsDoneTo(plan, d, i)
    case FailingStep(snap, x) => SnapOk(d, snap) && StepLost(d, x)
    case Gathering(snap) => SnapOk(d, snap) && snap.status == Collecting && plan.approvalRequired
    case Requesting(snap) => SnapOk(d, snap) && snap.status == Collecting && plan.approvalRequired
    case Asking(snap) => SnapOk(d, snap) && snap.status == Collecting && plan.approvalRequired && d.approval.Some?
    case Deciding(_, _) => d.approval.Some?
    case Decided(outcome) => outcome != Pending && ApprovalIs(d, outcome)
    case Judged(snap, outcome) => SnapOk(d, snap) && outcome != Pending && ApprovalIs(d, outcome)
    case Cancelling(snap) => SnapOk(d, snap)
    case _ => true
  }

  ghost predicate PcOk(plan: Plan, d: Data, pc: Pc) {
    if InDispatch(pc) then DispatchPcOk(plan, d, pc) && d.input
    else if InDeliver(pc) then DeliverPcOk(plan, d, pc)
    else if InReconcile(pc) then ReconcilePcOk(plan, d, pc)
    else OtherPcOk(plan, d, pc)
  }

  // ------------------------------------------------------------------
  // What is never undone
  // ------------------------------------------------------------------

  ghost predicate RunGrows(d: Data, e: Data) {
    d.run.Some? ==>
      && e.run.Some? && d.run.value.version <= e.run.value.version
      && (d.run.value.version == e.run.value.version ==> d.run == e.run)
      && (TerminalRun(d.run.value.status) ==> d.run == e.run)
  }

  ghost predicate JobsGrow(plan: Plan, d: Data, e: Data) {
    && (forall x :: x in d.mappings ==> x in e.mappings && e.mappings[x] == d.mappings[x])
    && (forall x :: x in d.jobs ==> x in e.jobs && e.jobs[x] == d.jobs[x])
    && (forall j :: j in d.status ==> j in e.status && (TerminalJob(d.status[j]) ==> e.status[j] == d.status[j]))
    && (plan.runsToEnd ==>
          forall x :: x in d.rows && d.rows[x] == StepCompleted ==> x in e.rows && e.rows[x] == StepCompleted)
  }

  ghost predicate GateGrows(d: Data, e: Data) {
    d.approval.Some? ==>
      e.approval.Some? && (d.approval.value.status != Pending ==> e.approval == d.approval)
  }

  ghost predicate DeliveryGrows(d: Data, e: Data) {
    && (d.delivery.Some? ==>
          && e.delivery.Some? && d.delivery.value.version <= e.delivery.value.version
          && (d.delivery.value.version == e.delivery.value.version ==> d.delivery == e.delivery)
          && (d.delivery.value.status == Delivered || d.delivery.value.status == Undelivered ==> d.delivery == e.delivery))
    && (d.confirmed.Some? ==> e.confirmed == d.confirmed)
  }

  /** What is durable in d is durable in e. */
  ghost predicate Grows(plan: Plan, d: Data, e: Data) {
    && RunGrows(d, e) && JobsGrow(plan, d, e) && GateGrows(d, e) && DeliveryGrows(d, e)
    && (d.input ==> e.input)
  }

  lemma GrowsTwice(plan: Plan, d: Data, e: Data, f: Data)
    requires Grows(plan, d, e) && Grows(plan, e, f)
    ensures Grows(plan, d, f)
  {
  }

  lemma DoneStays(plan: Plan, d: Data, e: Data, x: string)
    requires JobsGrow(plan, d, e)
    ensures StepDone(plan, d, x) ==> StepDone(plan, e, x)
    ensures StepLost(d, x) ==> StepLost(e, x)
  {
  }

  lemma StepsDoneStay(plan: Plan, d: Data, e: Data)
    requires JobsGrow(plan, d, e)
    ensures forall i: nat :: StepsDoneTo(plan, d, i) ==> StepsDoneTo(plan, e, i)
    ensures AllDone(plan, d) ==> AllDone(plan, e)
    ensures forall x :: StepLost(d, x) ==> StepLost(e, x)
  {
    hide JobsGrow, StepDone, StepLost;
    forall x
      ensures StepDone(plan, d, x) ==> StepDone(plan, e, x)
      ensures StepLost(d, x) ==> StepLost(e, x)
    {
      DoneStays(plan, d, e, x);
    }
  }

  lemma SawStays(plan: Plan, d: Data, e: Data)
    requires JobsGrow(plan, d, e)
    ensures forall job, seen :: Saw(plan, d, job, seen) ==> Saw(plan, e, job, seen)
  {
  }

  lemma SnapsStay(d: Data, e: Data)
    requires RunGrows(d, e) && DeliveryGrows(d, e)
    ensures forall r :: SnapOk(d, r) ==> SnapOk(e, r)
    ensures forall a :: AttemptOk(d, a) ==> AttemptOk(e, a)
  {
  }

  lemma DispatchPcStays(plan: Plan, d: Data, e: Data, pc: Pc)
    requires InDispatch(pc) && DispatchPcOk(plan, d, pc) && Grows(plan, d, e)
    ensures DispatchPcOk(plan, e, pc)
  {
    hide Saw, StepsDoneTo, StepDone, StepLost, SnapOk, AttemptOk, RunGrows, DeliveryGrows, GateGrows;
    StepsDoneStay(plan, d, e);
    SawStays(plan, d, e);
    SnapsStay(d, e);
  }

  /** Progress by others never invalidates what a worker relies on. */
  lemma PcStays(plan: Plan, d: Data, e: Data, pc: Pc)
    requires PcOk(plan, d, pc) && Grows(plan, d, e)
    ensures PcOk(plan, e, pc)
  {
    hide Saw, StepsDoneTo, StepLost, StepDone, SnapOk, AttemptOk, RunGrows, DispatchPcOk;
    if InDispatch(pc) {
      DispatchPcStays(plan, d, e, pc);
    } else {
      StepsDoneStay(plan, d, e);
      SawStays(plan, d, e);
      SnapsStay(d, e);
    }
  }

  /** A justification survives progress. */
  lemma JustifiedStays(plan: Plan, d: Data, e: Data, st: RunStatus)
    requires Justified(plan, d, st) && Grows(plan, d, e)
    ensures Justified(plan, e, st)
  {
    hide StepLost, AllDone, RunGrows, JobsGrow;
    StepsDoneStay(plan, d, e);
  }

  // ------------------------------------------------------------------
  // Every write is sound
  // ------------------------------------------------------------------

  /** The durable state went from d to e soundly. */
  ghost predicate Sound(plan: Plan, d: Data, e: Data) {
    Core(plan, e) && Grows(plan, d, e)
  }

  /** Nothing of the jobs changed, and the rest only grew: the core is kept if the
      delivery is truthful and the run's status is justified. */
  lemma CoreStays(plan: Plan, d: Data, e: Data)
    requires Core(plan, d) && Grows(plan, d, e)
    requires e.mappings == d.mappings && e.jobs == d.jobs && e.status == d.status && e.rows == d.rows
    requires DeliveryOk(e) && (e.run.Some? ==> Justified(plan, e, e.run.value.status))
    ensures Sound(plan, d, e)
  {
    hide JobsGrow, GateGrows, DeliveryGrows, RunGrows, Justified, DeliveryOk, WaitsFor;
  }

  lemma SoundItself(plan: Plan, d: Data)
    requires Core(plan, d)
    ensures Sound(plan, d, d)
  {
    hide Core;
  }

  /** A committed run transition. */
  lemma CommitSound(plan: Plan, d: Data, snap: Run, to: RunStatus, now: int)
    requires Core(plan, d) && SnapOk(d, snap)
    requires CanTransition(snap.status, to) && d.run == Some(snap) ==> Justified(plan, d, to)
    ensures Commit(d, snap, to, now).Some? ==>
              var e := Commit(d, snap, to, now).value;
              && Sound(plan, d, e) && e.run.Some? && e.run.value.status == to && SnapOk(e, e.run.value)
              && e == d.(run := e.run) && d.run == Some(snap) && CanTransition(snap.status, to)
  {
    hide JobsOk, DispatchOk, RowsOk, AllDone, StepLost;
    if Commit(d, snap, to, now).Some? {
      var e := Commit(d, snap, to, now).value;
      JustifiedElsewhere(plan, d, e, to);
      CoreStays(plan, d, e);
    }
  }

  /** A justification does not look at the run itself. */
  lemma JustifiedElsewhere(plan: Plan, d: Data, e: Data, st: RunStatus)
    requires Justified(plan, d, st) && e == d.(run := e.run)
    ensures Justified(plan, e, st)
  {
    assert forall x :: StepDone(plan, d, x) ==> StepDone(plan, e, x);
    assert forall x :: StepLost(d, x) ==> StepLost(e, x);
  }

  /** The same core seen after growth that leaves the jobs and the run alone. */
  lemma AsideSound(plan: Plan, d: Data, e: Data)
    requires Core(plan, d) && (d.input ==> e.input) && GateGrows(d, e) && DeliveryGrows(d, e) && DeliveryOk(e)
    requires e == d.(input := e.input, approval := e.approval, delivery := e.delivery, confirmed := e.confirmed)
    ensures Sound(plan, d, e)
  {
    hide JobsOk, DispatchOk, RowsOk, GateGrows, DeliveryGrows, Justified, DeliveryOk;
    if d.run.Some? {
      JustifiedStays(plan, d, e, d.run.value.status);
    }
    CoreStays(plan, d, e);
  }

  /** Transition of the delivery attempt. */
  lemma SettleSound(plan: Plan, d: Data, attempt: Delivery, to: DeliveryStatus, note: Option<string>)
    requires Core(plan, d) && AttemptOk(d, attempt)
    requires to == Delivered ==> note.Some? && d.confirmed == note
    ensures Settle(d, attempt, to, note).Some? ==>
              var e := Settle(d, attempt, to, note).value;
              && Sound(plan, d, e) && e.delivery.Some? && AttemptOk(e, e.delivery.value) && AttemptOk(e, attempt)
              && (to != NotStarted ==> DeliveryIs(e, to))
              && e == d.(delivery := e.delivery)
  {
    hide JobsOk, DispatchOk, RowsOk, Justified;
    if Settle(d, attempt, to, note).Some? {
      var e := Settle(d, attempt, to, note).value;
      AsideSound(plan, d, e);
    }
  }

  /** Jobs, mappings or rows grew and nothing else changed. */
  lemma JobsSound(plan: Plan, d: Data, e: Data)
    requires Core(plan, d) && JobsGrow(plan, d, e)
    requires e == d.(mappings := e.mappings, jobs := e.jobs, status := e.status, rows := e.rows)
    requires JobsOk(plan, e) && DispatchOk(plan, e) && RowsOk(e)
    ensures Sound(plan, d, e)
  {
    hide JobsOk, DispatchOk, RowsOk, JobsGrow, Justified;
    if d.run.Some? {
      JustifiedStays(plan, d, e, d.run.value.status);
    }
  }

  lemma DispatchStays(plan: Plan, d: Data, e: Data)
    requires DispatchOk(plan, d) && JobsGrow(plan, d, e) && e.jobs == d.jobs
    ensures DispatchOk(plan, e)
  {
    hide JobsGrow, StepDone, WaitsFor;
    forall x, y | x in e.jobs && WaitsFor(plan, x, y)
      ensures StepDone(plan, e, y)
    {
      DoneStays(plan, d, e, y);
    }
  }

  lemma RowGrows(plan: Plan, d: Data, x: string, seen: JobStatus)
    requires JobsOk(plan, d) && RowsOk(d) && x in d.mappings && Saw(plan, d, d.mappings[x], seen)
    ensures var e := d.(rows := d.rows[x := StepStatusOf(seen)]);
            && JobsOk(plan, e) && RowsOk(e) && JobsGrow(plan, d, e)
            && (seen == JobCompleted ==> StepDone(plan, e, x))
            && (StepStatusOf(seen) == StepFailed ==> StepLost(e, x))
  {
  }

  /** Writing a row from an observed job state. */
  lemma RowSound(plan: Plan, d: Data, x: string, seen: JobStatus)
    requires Core(plan, d) && x in d.mappings && Saw(plan, d, d.mappings[x], seen)
    ensures var e := d.(rows := d.rows[x := StepStatusOf(seen)]);
            && Sound(plan, d, e)
            && (seen == JobCompleted ==> StepDone(plan, e, x))
            && (StepStatusOf(seen) == StepFailed ==> StepLost(e, x))
  {
    hide Justified, JobsOk, RowsOk, DispatchOk, JobsGrow, DeliveryOk, Saw, StepDone, StepLost, Sound;
    var e := d.(rows := d.rows[x := StepStatusOf(seen)]);
    RowGrows(plan, d, x, seen);
    DispatchStays(plan, d, e);
    JobsSound(plan, d, e);
  }

  lemma NewMappingOk(plan: Plan, d: Data, x: string, job: string, seen: JobStatus)
    requires JobsOk(plan, d) && RowsOk(d) && x in d.jobs && d.jobs[x] == job && x !in d.mappings && Saw(plan, d, job, seen)
    ensures var e := d.(mappings := d.mappings[x := job]);
            JobsOk(plan, e) && RowsOk(e) && JobsGrow(plan, d, e)
  {
  }

  /** Recording a mapping to the dispatcher's job. */
  lemma MappingSound(plan: Plan, d: Data, x: string, job: string, seen: JobStatus)
    requires Core(plan, d) && x in d.jobs && d.jobs[x] == job && x !in d.mappings && Saw(plan, d, job, seen)
    ensures Sound(plan, d, d.(mappings := d.mappings[x := job]))
  {
    hide Justified, JobsOk, RowsOk, JobsGrow, DispatchOk, DeliveryOk, Sound, Saw;
    var e := d.(mappings := d.mappings[x := job]);
    NewMappingOk(plan, d, x, job, seen);
    DispatchStays(plan, d, e);
    JobsSound(plan, d, e);
  }

  lemma NewJobOk(plan: Plan, d: Data, x: string, job: string)
    requires JobsOk(plan, d) && RowsOk(d) && x in plan.order && x !in d.jobs && job !in d.status
    ensures var e := d.(jobs := d.jobs[x := job], status := d.status[job := Queued]);
            JobsOk(plan, e) && RowsOk(e) && JobsGrow(plan, d, e)
  {
  }

  /** The dispatcher creates the job of the next step in order. */
  lemma DispatchSound(plan: Plan, d: Data, i: nat, job: string)
    requires PlanOk(plan) && Core(plan, d) && StepsDoneTo(plan, d, i) && i < |plan.order|
    requires plan.order[i] !in d.jobs && job !in d.status
    ensures Sound(plan, d, d.(jobs := d.jobs[plan.order[i] := job], status := d.status[job := Queued]))
  {
    hide WaitsFor, Justified, PlanOk, JobsOk, RowsOk, JobsGrow, StepDone, DeliveryOk, Sound;
    var x := plan.order[i];
    var e := d.(jobs := d.jobs[x := job], status := d.status[job := Queued]);
    NewJobOk(plan, d, x, job);
    forall y, z | y in e.jobs && WaitsFor(plan, y, z)
      ensures StepDone(plan, e, z)
    {
      if y == x {
        DependenciesComeFirst(plan, i, z);
      }
      assert StepDone(plan, d, z);
      DoneStays(plan, d, e, z);
    }
    JobsSound(plan, d, e);
  }

  lemma ProgressSound(plan: Plan, d: Data, job: string, to: JobStatus)
    requires Core(plan, d)
    ensures Sound(plan, d, JobMoves(d, job, to))
  {
    hide WaitsFor, Justified;
    SoundItself(plan, d);
    if job in d.status && !TerminalJob(d.status[job]) {
      var e := d.(status := d.status[job := to]);
      assert JobsGrow(plan, d, e);
      DispatchStays(plan, d, e);
      JobsSound(plan, d, e);
    }
  }

  // ------------------------------------------------------------------
  // Every step of every operation is sound
  // ------------------------------------------------------------------

  /** Where the step leaves the durable state and the worker. */
  ghost predicate StepSound(plan: Plan, d: Data, out: Out) {
    Sound(plan, d, out.d) && PcOk(plan, out.d, out.pc)
  }

  lemma CommitAndStopSound(plan: Plan, d: Data, snap: Run, to: RunStatus, now: int)
    requires Core(plan, d) && SnapOk(d, snap)
    requires CanTransition(snap.status, to) && d.run == Some(snap) ==> Justified(plan, d, to)
    ensures StepSound(plan, d, CommitAndStop(d, snap, to, now))
  {
    hide Core, Justified, Commit, Grows;
    CommitSound(plan, d, snap, to, now);
    SoundItself(plan, d);
  }

  lemma CreateSound(plan: Plan, d: Data, pc: Pc, c: Choice)
    requires Core(plan, d) && PcOk(plan, d, pc) && InCreate(pc)
    ensures StepSound(plan, d, CreateStep(d, pc, c))
  {
    hide JobsOk, DispatchOk, RowsOk, AllDone, StepLost, Commit, CommitAndStop, JobsGrow;
    SoundItself(plan, d);
    match pc
    case Validating(snap) => CommitSound(plan, d, snap, ValidatingInput, c.now);
    case SavingInput(snap) => AsideSound(plan, d, d.(input := true));
    case Admitting(snap) => CommitAndStopSound(plan, d, snap, Admitted, c.now);
  }

  lemma AllDoneAtEnd(plan: Plan, d: Data)
    requires StepsDoneTo(plan, d, |plan.order|)
    ensures AllDone(plan, d)
  {
    hide StepDone;
  }

  lemma NextStepDone(plan: Plan, d: Data, i: nat)
    requires StepsDoneTo(plan, d, i) && i < |plan.order| && StepDone(plan, d, plan.order[i])
    ensures StepsDoneTo(plan, d, i + 1)
  {
    hide StepDone;
  }

  lemma RowTells(plan: Plan, d: Data, x: string)
    requires RowsOk(d) && x in d.rows
    ensures d.rows[x] == StepCompleted ==> StepDone(plan, d, x)
    ensures d.rows[x] == StepFailed ==> StepLost(d, x)
  {
  }

  lemma AtStepSound(plan: Plan, d: Data, pc: Pc, c: Choice)
    requires Core(plan, d) && PcOk(plan, d, pc) && pc.AtStep?
    ensures StepSound(plan, d, AdvanceStep(plan, d, pc, c))
  {
    hide JobsOk, DispatchOk, DeliveryOk, AllDone, StepLost, StepDone, Commit, CommitAndStop, JobsGrow, RowsOk;
    SoundItself(plan, d);
    if pc.i < |plan.order| {
      var x := plan.order[pc.i];
      if x in d.rows {
        RowTells(plan, d, x);
        if d.rows[x] == StepCompleted {
          NextStepDone(plan, d, pc.i);
        }
      }
    } else {
      AllDoneAtEnd(plan, d);
      CommitSound(plan, d, pc.snap, Collecting, c.now);
    }
  }

  lemma StartingSound(plan: Plan, d: Data, pc: Pc, c: Choice)
    requires Core(plan, d) && PcOk(plan, d, pc) && pc.Starting?
    ensures StepSound(plan, d, AdvanceStep(plan, d, pc, c))
  {
    hide JobsOk, DispatchOk, DeliveryOk, AllDone, StepDone, Commit, RowsOk, Grows, SnapOk;
    SoundItself(plan, d);
    CommitSound(plan, d, pc.snap, Running, c.now);
  }

  lemma LostJustifies(plan: Plan, d: Data, x: string)
    requires StepLost(d, x)
    ensures Justified(plan, d, Failed)
  {
  }

  lemma AdvanceSound(plan: Plan, d: Data, pc: Pc, c: Choice)
    requires Core(plan, d) && PcOk(plan, d, pc) && InAdvance(pc)
    ensures StepSound(plan, d, AdvanceStep(plan, d, pc, c))
  {
    hide Core, Justified, StepDone, Commit, CommitAndStop, Grows, SnapOk, StepLost;
    SoundItself(plan, d);
    AttemptItself(d);
    match pc {
      case Starting(_) => StartingSound(plan, d, pc, c);
      case AtStep(_, _) => AtStepSound(plan, d, pc, c);
      case FailingStep(snap, x) =>
        LostJustifies(plan, d, x);
        CommitAndStopSound(plan, d, snap, Failed, c.now);
      case _ =>
    }
  }

  lemma RecordingSound(plan: Plan, d: Data, pc: Pc, c: Choice)
    requires Core(plan, d) && PcOk(plan, d, pc) && pc.Recording?
    ensures StepSound(plan, d, DispatchStep(plan, d, pc, c))
  {
    hide Core, StepLost, StepDone, StepsDoneTo, SnapOk, JobsGrow;
    var x := plan.order[pc.i];
    var e := DispatchStep(plan, d, pc, c).d;
    RowSound(plan, d, x, pc.seen);
    StepsDoneStay(plan, d, e);
    SnapsStay(d, e);
    if pc.seen == JobCompleted {
      NextStepDone(plan, e, pc.i);
    }
  }

  /** The dispatcher and mapping writes of dispatchStep. */
  lemma DispatchWriteSound(plan: Plan, d: Data, pc: Pc, c: Choice)
    requires PlanOk(plan) && Core(plan, d) && PcOk(plan, d, pc) && (pc.Dispatching? || pc.SavingMapping?)
    ensures StepSound(plan, d, DispatchStep(plan, d, pc, c))
  {
    hide PlanOk, Core, StepsDoneTo, SnapOk;
    SoundItself(plan, d);
    var x := plan.order[pc.i];
    var e := DispatchStep(plan, d, pc, c).d;
    if pc.Dispatching? && x !in d.jobs && c.name !in d.status {
      DispatchSound(plan, d, pc.i, c.name);
    } else if pc.SavingMapping? && x !in d.mappings {
      MappingSound(plan, d, x, pc.job, pc.seen);
    }
    StepsDoneStay(plan, d, e);
    SnapsStay(d, e);
    MappedJob(plan, d, x);
  }

  lemma MappedJob(plan: Plan, d: Data, x: string)
    requires Core(plan, d)
    ensures x in d.jobs ==> d.jobs[x] in d.status
    ensures x in d.mappings ==>
              && x in d.jobs && d.mappings[x] == d.jobs[x] && d.mappings[x] in d.status
              && (plan.runsToEnd ==> TerminalJob(d.status[d.mappings[x]]))
  {
    hide DispatchOk, RowsOk, DeliveryOk, Justified;
  }

  lemma DispatchStepSound(plan: Plan, d: Data, pc: Pc, c: Choice)
    requires PlanOk(plan) && Core(plan, d) && PcOk(plan, d, pc) && InDispatch(pc)
    ensures StepSound(plan, d, DispatchStep(plan, d, pc, c))
  {
    hide PlanOk, Core, StepsDoneTo, SnapOk, Grows;
    if pc.Recording? {
      RecordingSound(plan, d, pc, c);
    } else if pc.Dispatching? || pc.SavingMapping? {
      DispatchWriteSound(plan, d, pc, c);
    } else {
      SoundItself(plan, d);
      MappedJob(plan, d, plan.order[pc.i]);
    }
  }

  lemma DecideSound(plan: Plan, d: Data, a: Approval)
    requires Core(plan, d) && d.approval.Some? && (d.approval.value.status == Pending || d.approval.value == a)
    ensures Sound(plan, d, d.(approval := Some(a)))
  {
    hide JobsOk, DispatchOk, RowsOk, Justified, Sound;
    AsideSound(plan, d, d.(approval := Some(a)));
  }

  lemma RequestingSound(plan: Plan, d: Data, pc: Pc, c: Choice)
    requires Core(plan, d) && PcOk(plan, d, pc) && pc.Requesting?
    ensures StepSound(plan, d, ApprovalStep(plan, d, pc, c))
  {
    hide JobsOk, DispatchOk, RowsOk, Justified, SnapOk, JobsGrow, RunGrows;
    SoundItself(plan, d);
    if d.approval.None? {
      var e := ApprovalStep(plan, d, pc, c).d;
      AsideSound(plan, d, e);
      SnapElsewhere(d, e, pc.snap);
    }
  }

  /** The request of a collected run. */
  lemma RequestSound(plan: Plan, d: Data, pc: Pc, c: Choice)
    requires Core(plan, d) && PcOk(plan, d, pc) && (pc.Gathering? || pc.Requesting? || pc.Asking?)
    ensures StepSound(plan, d, ApprovalStep(plan, d, pc, c))
  {
    hide JobsOk, DispatchOk, AllDone, Commit, CommitAndStop, Grows, RowsOk, DeliveryOk, SnapOk;
    SoundItself(plan, d);
    if pc.Requesting? {
      RequestingSound(plan, d, pc, c);
    } else if pc.Asking? {
      CommitAndStopSound(plan, d, pc.snap, AwaitingApproval, c.now);
    }
  }

  lemma DecidingSound(plan: Plan, d: Data, pc: Pc, c: Choice)
    requires Core(plan, d) && PcOk(plan, d, pc) && pc.Deciding?
    ensures StepSound(plan, d, ApprovalStep(plan, d, pc, c))
  {
    hide Core, Grows;
    SoundItself(plan, d);
    if IsDecision(pc.decision) {
      var reply := Decide(d.approval.value, pc.approvalVersion, pc.decision, c.name, c.now);
      if reply.Ok? {
        DecideSound(plan, d, reply.value);
      }
    }
  }

  lemma JudgedSound(plan: Plan, d: Data, pc: Pc, c: Choice)
    requires Core(plan, d) && PcOk(plan, d, pc) && pc.Judged?
    ensures StepSound(plan, d, ApprovalStep(plan, d, pc, c))
  {
    hide JobsOk, DispatchOk, AllDone, CommitAndStop, RowsOk, SnapOk, Grows;
    SoundItself(plan, d);
    if pc.snap.status == AwaitingApproval && pc.outcome == Declined {
      CommitAndStopSound(plan, d, pc.snap, Rejected, c.now);
    } else if pc.snap.status == AwaitingApproval && pc.outcome == ChangesRequested {
      CommitAndStopSound(plan, d, pc.snap, Suspended, c.now);
    }
  }

  lemma ApprovalSound(plan: Plan, d: Data, pc: Pc, c: Choice)
    requires Core(plan, d) && PcOk(plan, d, pc)
    requires !InCreate(pc) && !InAdvance(pc) && !InDispatch(pc) && !InDeliver(pc) && !InReconcile(pc)
    ensures StepSound(plan, d, ApprovalStep(plan, d, pc, c))
  {
    hide Core, Grows, CommitAndStop;
    SoundItself(plan, d);
    match pc {
      case Gathering(_) => RequestSound(plan, d, pc, c);
      case Requesting(_) => RequestSound(plan, d, pc, c);
      case Asking(_) => RequestSound(plan, d, pc, c);
      case Deciding(_, _) => DecidingSound(plan, d, pc, c);
      case Judged(_, _) => JudgedSound(plan, d, pc, c);
      case Cancelling(snap) => CommitAndStopSound(plan, d, snap, Cancelled, c.now);
      case _ =>
    }
  }

  /** The fenced writes of deliverRun to the delivery attempt. */
  lemma AttemptSound(plan: Plan, d: Data, pc: Pc, c: Choice)
    requires Core(plan, d) && PcOk(plan, d, pc) && (pc.Beginning? || pc.Settling? || pc.Undelivering?)
    ensures StepSound(plan, d, DeliverStep(plan, d, pc, c))
  {
    hide Core, Grows, Settle, SnapOk, AttemptOk;
    SoundItself(plan, d);
    match pc {
      case Beginning(_, attempt) => SettleSound(plan, d, attempt, InProgress, None);
      case Settling(_, attempt, ref) => SettleSound(plan, d, attempt, Delivered, Some(ref));
      case Undelivering(_, attempt) => SettleSound(plan, d, attempt, Undelivered, Some(c.name));
    }
    SnapElsewhere(d, DeliverStep(plan, d, pc, c).d, pc.snap);
  }

  lemma ProviderSound(plan: Plan, d: Data, pc: Pc, c: Choice)
    requires Core(plan, d) && PcOk(plan, d, pc) && pc.Calling?
    ensures StepSound(plan, d, DeliverStep(plan, d, pc, c))
  {
    hide JobsOk, DispatchOk, RowsOk, Justified, SnapOk, Sound;
    var e := DeliverStep(plan, d, pc, c).d;
    AsideSound(plan, d, e);
    SnapElsewhere(d, e, pc.snap);
  }

  lemma SavingSound(plan: Plan, d: Data, pc: Pc, c: Choice)
    requires Core(plan, d) && PcOk(plan, d, pc) && pc.SavingAttempt?
    ensures StepSound(plan, d, DeliverStep(plan, d, pc, c))
  {
    hide JobsOk, DispatchOk, RowsOk, Justified, SnapOk, Sound;
    var e := DeliverStep(plan, d, pc, c).d;
    AsideSound(plan, d, e);
    SnapElsewhere(d, e, pc.snap);
  }

  lemma DeliverSound(plan: Plan, d: Data, pc: Pc, c: Choice)
    requires Core(plan, d) && PcOk(plan, d, pc) && InDeliver(pc)
    ensures StepSound(plan, d, DeliverStep(plan, d, pc, c))
  {
    hide JobsOk, DispatchOk, AllDone, Commit, CommitAndStop, Settle, Grows, RowsOk, SnapOk, AttemptOk;
    SoundItself(plan, d);
    match pc
    case Entering(snap) => EnteringSound(plan, d, pc, c);
    case FindingAttempt(_) => assert d.delivery.Some? ==> AttemptOk(d, d.delivery.value) by { AttemptItself(d); }
    case FailingDelivery(snap) => CommitAndStopSound(plan, d, snap, Failed, c.now);
    case Completing(snap) => CompletedJustified(plan, d, snap); CommitAndStopSound(plan, d, snap, Completed, c.now);
    case SavingAttempt(_) => SavingSound(plan, d, pc, c);
    case Calling(_, _) => ProviderSound(plan, d, pc, c);
    case _ => AttemptSound(plan, d, pc, c);
  }

  lemma AttemptItself(d: Data)
    ensures d.delivery.Some? ==> AttemptOk(d, d.delivery.value)
    ensures d.run.Some? ==> SnapOk(d, d.run.value)
  {
  }

  lemma CompletedJustified(plan: Plan, d: Data, snap: Run)
    requires Core(plan, d) && snap.status == Delivering && DeliveryIs(d, Delivered)
    ensures d.run == Some(snap) ==> Justified(plan, d, Completed)
  {
    hide JobsOk, DispatchOk, RowsOk, AllDone;
  }

  lemma EnteringSound(plan: Plan, d: Data, pc: Pc, c: Choice)
    requires Core(plan, d) && PcOk(plan, d, pc) && pc.Entering?
    ensures StepSound(plan, d, DeliverStep(plan, d, pc, c))
  {
    hide JobsOk, DispatchOk, AllDone, Commit, Grows, RowsOk, SnapOk;
    SoundItself(plan, d);
    CommitSound(plan, d, pc.snap, Delivering, c.now);
  }

  lemma RepairSound(plan: Plan, d: Data, pc: Pc, c: Choice)
    requires Core(plan, d) && PcOk(plan, d, pc) && pc.Repairing?
    ensures StepSound(plan, d, ReconcileStep(d, pc, c))
  {
    hide Core, SnapOk, StepDone, StepLost, Grows;
    var e := ReconcileStep(d, pc, c).d;
    RowSound(plan, d, pc.todo[0], pc.seen);
    assert SnapOk(e, pc.snap) by { GrowsSnap(plan, d, e, pc.snap); }
  }

  lemma SnapElsewhere(d: Data, e: Data, snap: Run)
    requires SnapOk(d, snap) && e.run == d.run
    ensures SnapOk(e, snap)
  {
  }

  lemma GrowsSnap(plan: Plan, d: Data, e: Data, snap: Run)
    requires Grows(plan, d, e) && SnapOk(d, snap)
    ensures SnapOk(e, snap)
  {
    hide JobsGrow;
  }

  /** Reading a mapped job's state, and comparing it with the step row. */
  lemma ProjectSound(plan: Plan, d: Data, pc: Pc, c: Choice)
    requires Core(plan, d) && PcOk(plan, d, pc) && (pc.Projecting? || pc.Comparing?)
    ensures StepSound(plan, d, ReconcileStep(d, pc, c))
  {
    hide Core, SnapOk, Grows;
    SoundItself(plan, d);
    if pc.todo != [] {
      MappedJob(plan, d, pc.todo[0]);
    }
  }

  lemma ReconcileSound(plan: Plan, d: Data, pc: Pc, c: Choice)
    requires Core(plan, d) && PcOk(plan, d, pc) && InReconcile(pc)
    ensures StepSound(plan, d, ReconcileStep(d, pc, c))
  {
    hide Core, SnapOk, Grows, Saw, AfterRow;
    if pc.Repairing? {
      RepairSound(plan, d, pc, c);
    } else if pc.Projecting? || pc.Comparing? {
      ProjectSound(plan, d, pc, c);
    } else {
      SoundItself(plan, d);
      AttemptItself(d);
    }
  }
}
