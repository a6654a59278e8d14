/**
 What one worker can still do for a run, from any sound state whose workers are idle.
 */
module OrchestrationProgress {
  import opened Wrappers
  import opened RunRecords
  import opened Orchestration
  import opened OrchestrationSafety
  import opened OrchestrationLaws
  import opened OrchestrationStages

  /** Which actions may be used: all but a cancel, or only those of worker 0 reconciling
      while jobs progress. */
  datatype Mode = Free | ByReconcile

  /** The state to start from, and the actions allowed from there. */
  datatype Base = Base(sys: System, mode: Mode)

  ghost predicate Opens(mode: Mode, call: Call) {
    if mode.Free? then !call.Cancel? else call.Reconcile?
  }

  ghost predicate Allowed(mode: Mode, a: Action) {
    match a
    case Begin(w, call, _) => Opens(mode, call) && (mode.ByReconcile? ==> w == 0)
    case Go(w, _) => mode.ByReconcile? ==> w == 0
    case Crash(_) => mode.Free?
    case Progress(_, _) => true
    case ExpireRequest(_) => mode.Free?
  }

  ghost predicate AllAllowed(mode: Mode, more: seq<Action>) {
    forall i :: 0 <= i < |more| ==> Allowed(mode, more[i])
  }

  ghost predicate AllIdle(s: System) {
    forall w :: w in s.workers ==> s.workers[w].Idle?
  }

  /** The system in this durable state, with worker 0 standing here and the others as they
      are in s. */
  ghost predicate Stands(s: System, t: System, d: Data, pc: Pc) {
    t.data == d && PcOf(t, 0) == pc && forall w :: w != 0 ==> PcOf(t, w) == PcOf(s, w)
  }

  /** From s this durable state can be had with worker 0 standing here. */
  ghost predicate Can(plan: Plan, s: Base, d: Data, pc: Pc) {
    exists more :: AllAllowed(s.mode, more) && Stands(s.sys, Execute(plan, s.sys, more), d, pc)
  }

  /** What the lemmas below start from. */
  ghost predicate Sane(plan: Plan, s: Base) {
    PlanOk(plan) && Inv(plan, s.sys) && Staged(s.sys) && AllIdle(s.sys)
  }

  lemma Extend(plan: Plan, s: Base, d: Data, pc: Pc, a: Action, e: Data, next: Pc)
    requires Can(plan, s, d, pc) && Allowed(s.mode, a)
    requires forall t :: Stands(s.sys, t, d, pc) ==> Stands(s.sys, Next(plan, t, a), e, next)
    ensures Can(plan, s, e, next)
  {
    hide Next, Stands;
    var more :| AllAllowed(s.mode, more) && Stands(s.sys, Execute(plan, s.sys, more), d, pc);
    assert (more + [a])[..|more|] == more;
    assert Stands(s.sys, Execute(plan, s.sys, more + [a]), e, next);
    assert AllAllowed(s.mode, more + [a]);
  }

  /** The worker takes its next step. */
  lemma Tick(plan: Plan, s: Base, d: Data, pc: Pc, c: Choice)
    requires Can(plan, s, d, pc)
    ensures Can(plan, s, WorkerStep(plan, d, pc, c).d, WorkerStep(plan, d, pc, c).pc)
  {
    hide WorkerStep, Can;
    var out := WorkerStep(plan, d, pc, c);
    Extend(plan, s, d, pc, Go(0, c), out.d, out.pc);
  }

  lemma Open(plan: Plan, s: Base, d: Data, call: Call)
    requires Can(plan, s, d, Idle) && Opens(s.mode, call)
    ensures Can(plan, s, Opening(d, call, 0).d, Opening(d, call, 0).pc)
  {
    hide Opening, Can;
    var out := Opening(d, call, 0);
    Extend(plan, s, d, Idle, Begin(0, call, 0), out.d, out.pc);
  }

  lemma Work(plan: Plan, s: Base, d: Data, pc: Pc, job: string, to: JobStatus)
    requires Can(plan, s, d, pc)
    ensures Can(plan, s, JobMoves(d, job, to), pc)
  {
    hide JobMoves, Can;
    Extend(plan, s, d, pc, Progress(job, to), JobMoves(d, job, to), pc);
  }

  lemma Stop(plan: Plan, s: Base, d: Data, pc: Pc)
    requires Can(plan, s, d, pc) && s.mode.Free?
    ensures Can(plan, s, d, Idle)
  {
    hide Can;
    Extend(plan, s, d, pc, Crash(0), d, Idle);
  }

  lemma Begun(plan: Plan, s: Base)
    requires AllIdle(s.sys)
    ensures Can(plan, s, s.sys.data, Idle)
  {
    assert AllAllowed(s.mode, []);
    assert Stands(s.sys, Execute(plan, s.sys, []), s.sys.data, Idle);
  }

  /** What can be had is sound. */
  lemma CanSound(plan: Plan, s: Base, d: Data, pc: Pc)
    requires Sane(plan, s) && Can(plan, s, d, pc)
    ensures Core(plan, d) && DataStaged(d) && Grows(plan, s.sys.data, d)
  {
    hide PlanOk, Core, PcOk, DataStaged, PcStaged, Grows, Execute;
    var more :| AllAllowed(s.mode, more) && Stands(s.sys, Execute(plan, s.sys, more), d, pc);
    StaysSound(plan, s.sys, more);
  }

  function Good(name: string): Choice {
    Choice(true, false, name, [], 0)
  }

  lemma {:induction false} LengthBound(names: set<string>) returns (n: nat)
    ensures forall x :: x in names ==> |x| <= n
  {
    if names == {} {
      n := 0;
    } else {
      var x :| x in names;
      var m := LengthBound(names - {x});
      n := if |x| > m then |x| else m;
    }
  }

  lemma FreshName(names: set<string>) returns (x: string)
    ensures x !in names
  {
    var n := LengthBound(names);
    x := seq(n + 1, _ => 'j');
  }

  // ------------------------------------------------------------------
  // One step of the plan
  // ------------------------------------------------------------------

  /** The dispatcher's job for x failed or was cancelled. */
  ghost predicate LostJob(d: Data, x: string) {
    && x in d.jobs && d.jobs[x] in d.status
    && (d.status[d.jobs[x]] == JobFailed || d.status[d.jobs[x]] == JobCancelled)
  }

  /** Only jobs, mappings and rows moved, and no job was lost. */
  ghost predicate OnlySteps(d: Data, e: Data) {
    && e == d.(rows := e.rows, mappings := e.mappings, jobs := e.jobs, status := e.status)
    && forall x :: LostJob(e, x) ==> LostJob(d, x)
  }

  /** A job in the dispatcher's books that is not lost can complete. */
  lemma CompleteJob(plan: Plan, s: Base, d0: Data, pc: Pc, x: string) returns (d: Data)
    requires Sane(plan, s) && Can(plan, s, d0, pc) && x in d0.jobs && !LostJob(d0, x)
    ensures Can(plan, s, d, pc) && d == d0.(status := d.status) && OnlySteps(d0, d)
    ensures d.jobs[x] in d.status && d.status[d.jobs[x]] == JobCompleted
  {
    hide Sane, Can, DispatchOk, RowsOk, DeliveryOk, Justified, Grows, DataStaged;
    CanSound(plan, s, d0, pc);
    Work(plan, s, d0, pc, d0.jobs[x], JobCompleted);
    d := JobMoves(d0, d0.jobs[x], JobCompleted);
  }

  /** From the job of step i to the next step. */
  lemma RecordMapped(plan: Plan, s: Base, d0: Data, r: Run, i: nat, job: string) returns (d: Data)
    requires i < |plan.order| && Can(plan, s, d0, Observing(r, i, job))
    requires job in d0.status && d0.status[job] == JobCompleted
    ensures Can(plan, s, d, AtStep(r, i + 1)) && OnlySteps(d0, d)
  {
    hide Can;
    Tick(plan, s, d0, Observing(r, i, job), Good(""));
    Tick(plan, s, d0, Recording(r, i, job, JobCompleted), Good(""));
    d := d0.(rows := d0.rows[plan.order[i] := StepCompleted]);
  }

  lemma RecordDispatched(plan: Plan, s: Base, d0: Data, r: Run, i: nat, job: string) returns (d: Data)
    requires i < |plan.order| && Can(plan, s, d0, Waiting(r, i, job)) && plan.order[i] !in d0.mappings
    requires job in d0.status && d0.status[job] == JobCompleted
    ensures Can(plan, s, d, AtStep(r, i + 1)) && OnlySteps(d0, d)
  {
    hide Can;
    var x := plan.order[i];
    Tick(plan, s, d0, Waiting(r, i, job), Good(""));
    Tick(plan, s, d0, SavingMapping(r, i, job, JobCompleted), Good(""));
    d := d0.(mappings := d0.mappings[x := job]);
    Tick(plan, s, d, Recording(r, i, job, JobCompleted), Good(""));
    d := d.(rows := d.rows[x := StepCompleted]);
  }

  /** A step that is not mapped gets its job, new or found. */
  lemma GetJob(plan: Plan, s: Base, d0: Data, r: Run, i: nat) returns (d: Data)
    requires i < |plan.order| && Can(plan, s, d0, Dispatching(r, i))
    ensures plan.order[i] in d.jobs && Can(plan, s, d, Waiting(r, i, d.jobs[plan.order[i]]))
    ensures plan.order[i] in d0.jobs ==> d == d0
    ensures OnlySteps(d0, d) && d.mappings == d0.mappings
    ensures LostJob(d, plan.order[i]) ==> LostJob(d0, plan.order[i])
  {
    hide Can;
    var x := plan.order[i];
    if x in d0.jobs {
      d := d0;
      Tick(plan, s, d0, Dispatching(r, i), Good(""));
    } else {
      var job := FreshName(d0.status.Keys);
      d := d0.(jobs := d0.jobs[x := job], status := d0.status[job := Queued]);
      Tick(plan, s, d0, Dispatching(r, i), Good(job));
    }
  }

  /** Rows of a step whose job is not lost do not say failed, and those of a lost one do
      not say completed. */
  lemma RowsFollow(plan: Plan, d: Data, x: string)
    requires Core(plan, d) && x in d.rows
    ensures d.rows[x] == StepFailed ==> LostJob(d, x)
    ensures d.rows[x] == StepCompleted ==> !LostJob(d, x)
  {
    hide DispatchOk, DeliveryOk, Justified;
  }

  lemma SameSteps(d: Data)
    ensures OnlySteps(d, d)
  {
  }

  lemma StepsTwice(d: Data, e: Data, f: Data)
    requires OnlySteps(d, e) && OnlySteps(e, f)
    ensures OnlySteps(d, f)
  {
    hide LostJob;
  }

  /** One worker gets a step whose job is not lost completed. */
  lemma TakeStep(plan: Plan, s: Base, d0: Data, r: Run, i: nat) returns (d: Data)
    requires Sane(plan, s) && i < |plan.order| && Can(plan, s, d0, AtStep(r, i)) && !LostJob(d0, plan.order[i])
    ensures Can(plan, s, d, AtStep(r, i + 1)) && OnlySteps(d0, d)
  {
    hide Sane, Can, Core, Grows, DataStaged, LostJob, OnlySteps;
    var x := plan.order[i];
    CanSound(plan, s, d0, AtStep(r, i));
    SameSteps(d0);
    MappedJob(plan, d0, x);
    if x in d0.rows {
      RowsFollow(plan, d0, x);
    }
    Tick(plan, s, d0, AtStep(r, i), Good(""));
    if x in d0.rows && d0.rows[x] == StepCompleted {
      d := d0;
    } else {
      Tick(plan, s, d0, Mapping(r, i), Good(""));
      if x in d0.mappings {
        var e := CompleteJob(plan, s, d0, Observing(r, i, d0.mappings[x]), x);
        d := RecordMapped(plan, s, e, r, i, d0.mappings[x]);
        StepsTwice(d0, e, d);
      } else {
        d := TakeNew(plan, s, d0, r, i);
      }
    }
  }

  lemma TakeNew(plan: Plan, s: Base, d0: Data, r: Run, i: nat) returns (d: Data)
    requires Sane(plan, s) && i < |plan.order| && Can(plan, s, d0, Dispatching(r, i)) && !LostJob(d0, plan.order[i])
    requires plan.order[i] !in d0.mappings
    ensures Can(plan, s, d, AtStep(r, i + 1)) && OnlySteps(d0, d)
  {
    hide Sane, Can, LostJob, OnlySteps;
    var x := plan.order[i];
    var e := GetJob(plan, s, d0, r, i);
    var f := CompleteJob(plan, s, e, Waiting(r, i, e.jobs[x]), x);
    d := RecordDispatched(plan, s, f, r, i, e.jobs[x]);
    StepsTwice(d0, e, f);
    StepsTwice(d0, f, d);
  }

  // ------------------------------------------------------------------
  // A lost step fails the run
  // ------------------------------------------------------------------

  lemma FailRun(plan: Plan, s: Base, d: Data, r: Run, x: string) returns (e: Data)
    requires Can(plan, s, d, FailingStep(r, x)) && d.run == Some(r) && r.status == Running
    ensures Can(plan, s, e, Idle) && e.run.Some? && e.run.value.status == Failed
  {
    hide Can;
    Tick(plan, s, d, FailingStep(r, x), Good(""));
    e := CommitAndStop(d, r, Failed, 0).d;
  }

  lemma FailRecorded(plan: Plan, s: Base, d: Data, r: Run, i: nat, job: string, seen: JobStatus) returns (e: Data)
    requires i < |plan.order| && Can(plan, s, d, Recording(r, i, job, seen)) && StepStatusOf(seen) == StepFailed
    requires d.run == Some(r) && r.status == Running
    ensures Can(plan, s, e, Idle) && e.run.Some? && e.run.value.status == Failed
  {
    hide Can;
    Tick(plan, s, d, Recording(r, i, job, seen), Good(""));
    e := FailRun(plan, s, d.(rows := d.rows[plan.order[i] := StepFailed]), r, plan.order[i]);
  }

  lemma FailNew(plan: Plan, s: Base, d: Data, r: Run, i: nat) returns (e: Data)
    requires i < |plan.order| && Can(plan, s, d, Dispatching(r, i)) && LostJob(d, plan.order[i])
    requires plan.order[i] !in d.mappings && d.run == Some(r) && r.status == Running
    ensures Can(plan, s, e, Idle) && e.run.Some? && e.run.value.status == Failed
  {
    hide Can;
    var x := plan.order[i];
    var job := d.jobs[x];
    var f := GetJob(plan, s, d, r, i);
    Tick(plan, s, d, Waiting(r, i, job), Good(""));
    Tick(plan, s, d, SavingMapping(r, i, job, d.status[job]), Good(""));
    e := FailRecorded(plan, s, d.(mappings := d.mappings[x := job]), r, i, job, d.status[job]);
  }

  lemma FailStep(plan: Plan, s: Base, d: Data, r: Run, i: nat) returns (e: Data)
    requires Sane(plan, s) && i < |plan.order| && Can(plan, s, d, AtStep(r, i)) && LostJob(d, plan.order[i])
    requires d.run == Some(r) && r.status == Running
    ensures Can(plan, s, e, Idle) && e.run.Some? && e.run.value.status == Failed
  {
    hide Sane, Can, Core, Grows, DataStaged;
    var x := plan.order[i];
    CanSound(plan, s, d, AtStep(r, i));
    MappedJob(plan, d, x);
    if x in d.rows {
      RowsFollow(plan, d, x);
    }
    Tick(plan, s, d, AtStep(r, i), Good(""));
    if x in d.rows && d.rows[x] == StepFailed {
      e := FailRun(plan, s, d, r, x);
    } else {
      Tick(plan, s, d, Mapping(r, i), Good(""));
      if x in d.mappings {
        Tick(plan, s, d, Observing(r, i, d.mappings[x]), Good(""));
        e := FailRecorded(plan, s, d, r, i, d.mappings[x], d.status[d.mappings[x]]);
      } else {
        e := FailNew(plan, s, d, r, i);
      }
    }
  }

  // ------------------------------------------------------------------
  // From running on
  // ------------------------------------------------------------------

  /** Where a run goes when its steps are done. */
  function Collected(plan: Plan, r: Run): Pc {
    if plan.approvalRequired then Gathering(r) else Entering(r)
  }

  /** A running run always moves: to collecting, or to failed if a job was lost. */
  lemma DriveSteps(plan: Plan, s: Base, d0: Data, r: Run, i: nat) returns (d: Data, pc: Pc)
    requires Sane(plan, s) && i <= |plan.order| && Can(plan, s, d0, AtStep(r, i)) && d0.run == Some(r) && r.status == Running
    ensures Can(plan, s, d, pc) && d.run.Some? && (d.run.value.status == Collecting || d.run.value.status == Failed)
    ensures (forall x :: !LostJob(d0, x)) ==>
              && d.run.value.status == Collecting && pc == Collected(plan, d.run.value)
              && d.approval == d0.approval && d.delivery == d0.delivery
    decreases |plan.order| - i
  {
    hide Sane, Can, LostJob;
    if i == |plan.order| {
      Tick(plan, s, d0, AtStep(r, i), Good(""));
      var out := AdvanceStep(plan, d0, AtStep(r, i), Good(""));
      d, pc := out.d, out.pc;
    } else if LostJob(d0, plan.order[i]) {
      d := FailStep(plan, s, d0, r, i);
      pc := Idle;
    } else {
      var e := TakeStep(plan, s, d0, r, i);
      d, pc := DriveSteps(plan, s, e, r, i + 1);
    }
  }

  /** An admitted or running run can be driven, once a worker is in advanceRun. */
  lemma Driven(plan: Plan, s: Base, d0: Data, r: Run) returns (d: Data, q: Run)
    requires Sane(plan, s) && Can(plan, s, d0, Advancing) && d0.run == Some(r) && (r.status == Admitted || r.status == Running)
    ensures Can(plan, s, d, AtStep(q, 0)) && d == d0.(run := Some(q)) && q.status == Running
    ensures r.status == Running ==> q == r
  {
    hide Sane, Can, JobsOk, DispatchOk, RowsOk, DeliveryOk, AllDone, Grows, DataStaged;
    CanSound(plan, s, d0, Advancing);
    Tick(plan, s, d0, Advancing, Good(""));
    Tick(plan, s, d0, ReadingInput(r), Good(""));
    Tick(plan, s, d0, Starting(r), Good(""));
    var out := AdvanceStep(plan, d0, Starting(r), Good(""));
    d, q := out.d, out.pc.snap;
  }

  lemma Advanced(plan: Plan, s: Base, d0: Data, r: Run) returns (d: Data, q: Run)
    requires Sane(plan, s) && Can(plan, s, d0, Idle) && d0.run == Some(r) && (r.status == Admitted || r.status == Running)
    requires s.mode.Free?
    ensures Can(plan, s, d, AtStep(q, 0)) && d == d0.(run := Some(q)) && q.status == Running
    ensures r.status == Running ==> q == r
  {
    hide Sane, Can;
    Open(plan, s, d0, Advance);
    d, q := Driven(plan, s, d0, r);
  }

  /** A run that does not exist yet can be admitted. */
  lemma Admits(plan: Plan, s: Base, d0: Data) returns (d: Data)
    requires Can(plan, s, d0, Idle) && d0.run.None?
    requires s.mode.Free?
    ensures Can(plan, s, d, Idle) && d.run.Some? && d.run.value.status == Admitted
    ensures d == d0.(run := d.run, input := true)
  {
    hide Can;
    var r := NewRun(0);
    Open(plan, s, d0, Create);
    d := d0.(run := Some(r));
    Tick(plan, s, d, Validating(r), Good(""));
    d, r := CommitRun(d, r, ValidatingInput);
    Tick(plan, s, d, SavingInput(r), Good(""));
    d := d.(input := true);
    Tick(plan, s, d, Admitting(r), Good(""));
    d, r := CommitRun(d, r, Admitted);
  }

  lemma CommitRun(d0: Data, r0: Run, to: RunStatus) returns (d: Data, r: Run)
    requires d0.run == Some(r0) && CanTransition(r0.status, to)
    ensures Commit(d0, r0, to, 0) == Some(d) && d == d0.(run := Some(r)) && r.status == to
  {
    r := ApplyTransition(r0, Attempt(r0.version, to, None, 0));
    d := d0.(run := Some(r));
  }

  // ------------------------------------------------------------------
  // Approval and delivery
  // ------------------------------------------------------------------

  lemma ReachAsking(plan: Plan, s: Base, d0: Data, r: Run) returns (d: Data)
    requires Can(plan, s, d0, Gathering(r)) && d0.approval.None?
    ensures Can(plan, s, d, Asking(r)) && d == d0.(approval := d.approval) && ApprovalIs(d, Pending)
    ensures plan.expiresAfter.Some? ==> d.approval.value.expiresAt.Some?
  {
    hide Can;
    Tick(plan, s, d0, Gathering(r), Good(""));
    Tick(plan, s, d0, Requesting(r), Good("a"));
    d := ApprovalStep(plan, d0, Requesting(r), Good("a")).d;
  }

  lemma ReachAwaiting(plan: Plan, s: Base, d0: Data, r: Run) returns (d: Data)
    requires Can(plan, s, d0, Gathering(r)) && d0.run == Some(r) && r.status == Collecting && d0.approval.None?
    ensures Can(plan, s, d, Idle) && d == d0.(run := d.run, approval := d.approval)
    ensures d.run.Some? && d.run.value.status == AwaitingApproval && ApprovalIs(d, Pending)
  {
    hide Can;
    d := ReachAsking(plan, s, d0, r);
    Tick(plan, s, d, Asking(r), Good(""));
    var q;
    d, q := CommitRun(d, r, AwaitingApproval);
  }

  /** A decision, or the replay of the one on record. */
  lemma ReachJudged(plan: Plan, s: Base, d0: Data, r: Run, decision: ApprovalStatus) returns (d: Data)
    requires Can(plan, s, d0, Idle) && d0.run == Some(r) && d0.approval.Some? && IsDecision(decision)
    requires ApprovalIs(d0, Pending) || ApprovalIs(d0, decision)
    requires s.mode.Free?
    ensures Can(plan, s, d, Judged(r, decision)) && d == d0.(approval := d.approval) && ApprovalIs(d, decision)
  {
    hide Can;
    var version := d0.approval.value.version;
    Open(plan, s, d0, DecideOn(decision));
    Tick(plan, s, d0, Deciding(version, decision), Good("u"));
    d := ApprovalStep(plan, d0, Deciding(version, decision), Good("u")).d;
    Tick(plan, s, d, Decided(decision), Good(""));
  }

  lemma ReachApproved(plan: Plan, s: Base, d0: Data, r: Run) returns (d: Data)
    requires Can(plan, s, d0, Idle) && d0.run == Some(r) && r.status == AwaitingApproval
    requires ApprovalIs(d0, Pending) || ApprovalIs(d0, Approved)
    requires s.mode.Free?
    ensures Can(plan, s, d, Entering(r)) && d == d0.(approval := d.approval)
  {
    hide Can;
    d := ReachJudged(plan, s, d0, r, Approved);
    Tick(plan, s, d, Judged(r, Approved), Good(""));
  }

  lemma ReachRejected(plan: Plan, s: Base, d0: Data, r: Run) returns (d: Data)
    requires Can(plan, s, d0, Idle) && d0.run == Some(r) && r.status == AwaitingApproval && ApprovalIs(d0, Declined)
    requires s.mode.Free?
    ensures Can(plan, s, d, Idle) && d.run.Some? && d.run.value.status == RunStatus.Rejected
  {
    hide Can;
    d := ReachJudged(plan, s, d0, r, Declined);
    Tick(plan, s, d, Judged(r, Declined), Good(""));
    var q;
    d, q := CommitRun(d, r, RunStatus.Rejected);
  }

  lemma ReachDelivering(plan: Plan, s: Base, d0: Data, r: Run) returns (d: Data, q: Run)
    requires Can(plan, s, d0, Entering(r)) && d0.run == Some(r) && (r.status == Collecting || r.status == AwaitingApproval)
    ensures Can(plan, s, d, FindingAttempt(q)) && d == d0.(run := Some(q)) && q.status == Delivering
  {
    hide Can;
    Tick(plan, s, d0, Entering(r), Good(""));
    d, q := CommitRun(d0, r, Delivering);
  }

  lemma ReachCalling(plan: Plan, s: Base, d0: Data, r: Run) returns (d: Data, attempt: Delivery)
    requires Can(plan, s, d0, FindingAttempt(r)) && d0.delivery.None?
    ensures Can(plan, s, d, Calling(r, attempt)) && d == d0.(delivery := Some(attempt)) && attempt.status == InProgress
  {
    hide Can;
    Tick(plan, s, d0, FindingAttempt(r), Good(""));
    Tick(plan, s, d0, SavingAttempt(r), Good("d"));
    attempt := Delivery("d", plan.runId, plan.deliveryKey, NotStarted, 0, 1, None, None);
    d := d0.(delivery := Some(attempt));
    Tick(plan, s, d, Beginning(r, attempt), Good(""));
    attempt := attempt.(status := InProgress, attempts := 1, version := 2);
    d := d0.(delivery := Some(attempt));
  }

  lemma ReachCompleted(plan: Plan, s: Base, d0: Data, r: Run) returns (d: Data)
    requires Can(plan, s, d0, Entering(r)) && d0.run == Some(r) && (r.status == Collecting || r.status == AwaitingApproval)
    requires d0.delivery.None?
    ensures Can(plan, s, d, Idle) && d.run.Some? && d.run.value.status == Completed
  {
    hide Can;
    var e, q := ReachDelivering(plan, s, d0, r);
    var attempt;
    e, attempt := ReachCalling(plan, s, e, q);
    Tick(plan, s, e, Calling(q, attempt), Good("ref"));
    var ref := if e.confirmed.Some? then e.confirmed.value else "ref";
    e := e.(confirmed := Some(ref));
    d := Complete(plan, s, e, q, attempt, ref);
  }

  lemma Complete(plan: Plan, s: Base, d0: Data, r: Run, attempt: Delivery, ref: string) returns (d: Data)
    requires Can(plan, s, d0, Settling(r, attempt, ref)) && d0.run == Some(r) && r.status == Delivering
    requires d0.delivery == Some(attempt) && attempt.status == InProgress
    ensures Can(plan, s, d, Idle) && d.run.Some? && d.run.value.status == Completed
  {
    hide Can;
    Tick(plan, s, d0, Settling(r, attempt, ref), Good(""));
    d := DeliverStep(plan, d0, Settling(r, attempt, ref), Good("")).d;
    Tick(plan, s, d, Completing(r), Good(""));
    var q;
    d, q := CommitRun(d, r, Completed);
  }
}
