/**
 After a crash: exactly which runs the operations can still move, and exactly which they
 can still complete, when no worker is left in the middle of anything.
 */
module OrchestrationRecovery {
  import opened Wrappers
  import opened RunRecords
  import opened Orchestration
  import opened OrchestrationSafety
  import opened OrchestrationLaws
  import opened OrchestrationStages
  import opened OrchestrationProgress

  /** The run can be moved on: it is absent, admitted, running, or awaits a decision that
      is open or can be followed. */
  ghost predicate Resumable(d: Data) {
    || d.run.None?
    || d.run.value.status == Admitted || d.run.value.status == Running
    || (d.run.value.status == AwaitingApproval
        && (ApprovalIs(d, Pending) || ApprovalIs(d, Approved) || ApprovalIs(d, Declined)))
  }

  /** The run is completed or can be: no dispatched job is lost, and the decision it
      awaits is open or positive. */
  ghost predicate Completable(d: Data) {
    || d.run.None?
    || d.run.value.status == Completed
    || ((d.run.value.status == Admitted || d.run.value.status == Running) && forall x :: !LostJob(d, x))
    || (d.run.value.status == AwaitingApproval && (ApprovalIs(d, Pending) || ApprovalIs(d, Approved)))
  }

  ghost predicate CancelFree(more: seq<Action>) {
    forall i :: 0 <= i < |more| ==> !(more[i].Begin? && more[i].call.Cancel?)
  }

  ghost predicate Moves(plan: Plan, s: System, more: seq<Action>) {
    CancelFree(more) && Execute(plan, s, more).data.run != s.data.run
  }

  ghost predicate Finishes(plan: Plan, s: System, more: seq<Action>) {
    && CancelFree(more)
    && var d := Execute(plan, s, more).data; d.run.Some? && d.run.value.status == Completed
  }

  // ------------------------------------------------------------------
  // Runs that no operation moves
  // ------------------------------------------------------------------

  /** A worker that cannot move the run r. */
  ghost predicate Harmless(pc: Pc, r: Run) {
    || pc.Idle? || pc.Advancing? || pc.Reconciling? || pc.Deciding? || pc.Decided?
    || ((pc.ReadingInput? || pc.Starting? || pc.ListingMappings? || pc.Projecting?
         || pc.Comparing? || pc.Repairing? || pc.Judged?) && pc.snap == r)
    || ((pc.AtStep? || InDispatch(pc)) && pc.snap == r && r.status == Collecting)
  }

  ghost predicate Stranded(s: System, r: Run) {
    && s.data.run == Some(r) && !Resumable(s.data)
    && forall w :: w in s.workers ==> Harmless(s.workers[w], r)
  }

  /** The worker leaves the run alone, or is about to fail it for a lost step. */
  ghost predicate LeavesAlone(d: Data, r: Run, out: Out) {
    && out.d.run == d.run
    && (Harmless(out.pc, r) || (out.pc.FailingStep? && !TerminalRun(r.status)))
  }

  lemma HarmlessDispatch(plan: Plan, d: Data, pc: Pc, c: Choice, r: Run)
    requires d.run == Some(r) && InDispatch(pc) && Harmless(pc, r)
    ensures LeavesAlone(d, r, DispatchStep(plan, d, pc, c))
  {
  }

  lemma HarmlessReconcile(d: Data, pc: Pc, c: Choice, r: Run)
    requires d.run == Some(r) && InReconcile(pc) && Harmless(pc, r)
    ensures LeavesAlone(d, r, ReconcileStep(d, pc, c))
  {
    hide StepStatusOf;
  }

  lemma HarmlessAdvance(plan: Plan, d: Data, pc: Pc, c: Choice, r: Run)
    requires d.run == Some(r) && !Resumable(d) && InAdvance(pc) && Harmless(pc, r)
    ensures LeavesAlone(d, r, AdvanceStep(plan, d, pc, c))
  {
  }

  lemma HarmlessDecision(plan: Plan, d: Data, pc: Pc, c: Choice, r: Run)
    requires d.run == Some(r) && !Resumable(d) && Harmless(pc, r) && PcOk(plan, d, pc)
    requires pc.Idle? || pc.Deciding? || pc.Decided? || pc.Judged?
    ensures LeavesAlone(d, r, ApprovalStep(plan, d, pc, c))
  {
    hide Decide, SnapOk;
  }

  lemma HarmlessStep(plan: Plan, d: Data, pc: Pc, c: Choice, r: Run)
    requires d.run == Some(r) && !Resumable(d) && Harmless(pc, r) && PcOk(plan, d, pc)
    ensures LeavesAlone(d, r, WorkerStep(plan, d, pc, c))
  {
    hide LeavesAlone, Resumable, PcOk, DispatchStep, ReconcileStep, DeliverStep, AdvanceStep, ApprovalStep, CreateStep;
    if InDispatch(pc) {
      HarmlessDispatch(plan, d, pc, c, r);
    } else if InReconcile(pc) {
      HarmlessReconcile(d, pc, c, r);
    } else if InAdvance(pc) {
      HarmlessAdvance(plan, d, pc, c, r);
    } else {
      HarmlessDecision(plan, d, pc, c, r);
    }
  }

  /** A run that cannot be moved has no lost step, unless it has ended. */
  lemma NoStepLost(plan: Plan, d: Data, x: string)
    requires Core(plan, d) && DataStaged(d) && d.run.Some? && !Resumable(d) && !TerminalRun(d.run.value.status)
    ensures !StepLost(d, x)
  {
    hide DispatchOk, RowsOk, DeliveryOk;
    if x in d.mappings {
      assert x in d.jobs;
      assert AllDone(plan, d);
      assert StepDone(plan, d, x);
    }
  }

  /** What is stuck stays stuck as long as the run does not move. */
  lemma StuckStays(plan: Plan, d: Data, e: Data)
    requires Core(plan, d) && Grows(plan, d, e) && d.run.Some? && e.run == d.run && !Resumable(d)
    ensures !Resumable(e)
  {
    hide JobsOk, DispatchOk, RowsOk, DeliveryOk, AllDone, JobsGrow, RunGrows, DeliveryGrows;
  }

  lemma StrandedGo(plan: Plan, s: System, w: nat, c: Choice, r: Run)
    requires PlanOk(plan) && Inv(plan, s) && Staged(s) && Stranded(s, r)
    ensures var out := WorkerStep(plan, s.data, PcOf(s, w), c);
            out.d.run == Some(r) && !Resumable(out.d) && Harmless(out.pc, r)
  {
    hide PlanOk, Core, PcOk, WorkerStep, Harmless, Resumable, DataStaged, PcStaged, Grows;
    var d, pc := s.data, PcOf(s, w);
    var out := WorkerStep(plan, d, pc, c);
    IdleSound(plan, d);
    IdleStaged(d);
    IdleHarmless(r);
    HarmlessStep(plan, d, pc, c, r);
    WorkerSound(plan, d, pc, c);
    StuckStays(plan, d, out.d);
    SoundIsNotSuspended(plan, d);
    WorkerStaged(plan, d, pc, c);
    if out.pc.FailingStep? && !TerminalRun(r.status) {
      FailingIsLost(plan, out);
      NoStepLost(plan, out.d, out.pc.x);
    }
  }

  lemma FailingIsLost(plan: Plan, out: Out)
    requires PcOk(plan, out.d, out.pc) && out.pc.FailingStep?
    ensures StepLost(out.d, out.pc.x)
  {
  }

  lemma IdleHarmless(r: Run)
    ensures Harmless(Idle, r)
  {
  }

  lemma OpeningHarmless(d: Data, call: Call, now: int, r: Run)
    requires d.run == Some(r) && !call.Cancel?
    ensures Opening(d, call, now).d == d && Harmless(Opening(d, call, now).pc, r)
  {
  }

  lemma StrandedStep(plan: Plan, s: System, a: Action, r: Run)
    requires PlanOk(plan) && Inv(plan, s) && Staged(s) && Stranded(s, r) && !(a.Begin? && a.call.Cancel?)
    ensures Stranded(Next(plan, s, a), r)
  {
    hide PlanOk, Core, PcOk, WorkerStep, Harmless, Resumable, Grows, Staged, Expire, Opening;
    IdleHarmless(r);
    match a {
      case Begin(w, call, now) => OpeningHarmless(s.data, call, now, r);
      case Go(w, c) => StrandedGo(plan, s, w, c, r);
      case Crash(w) =>
      case Progress(_, _) =>
        NextSound(plan, s, a);
        StuckStays(plan, s.data, Next(plan, s, a).data);
      case ExpireRequest(_) =>
        NextSound(plan, s, a);
        StuckStays(plan, s.data, Next(plan, s, a).data);
    }
  }

  lemma {:induction false} StrandedForever(plan: Plan, s: System, more: seq<Action>, r: Run)
    requires PlanOk(plan) && Inv(plan, s) && Staged(s) && Stranded(s, r) && CancelFree(more)
    ensures Stranded(Execute(plan, s, more), r)
  {
    hide PlanOk, Inv, Staged, Stranded, Next, Grows;
    if more != [] {
      var init := more[..|more| - 1];
      StrandedForever(plan, s, init, r);
      StaysSound(plan, s, init);
      StrandedStep(plan, Execute(plan, s, init), more[|more| - 1], r);
    }
  }

  // ------------------------------------------------------------------
  // Runs that can be moved
  // ------------------------------------------------------------------

  lemma CanMoves(plan: Plan, s: Base, d: Data, pc: Pc)
    requires Can(plan, s, d, pc) && s.mode.Free? && d.run != s.sys.data.run
    ensures exists more :: Moves(plan, s.sys, more)
  {
    var more :| AllAllowed(s.mode, more) && Stands(s.sys, Execute(plan, s.sys, more), d, pc);
    assert Moves(plan, s.sys, more);
  }

  lemma CanFinishes(plan: Plan, s: Base, d: Data, pc: Pc)
    requires Can(plan, s, d, pc) && s.mode.Free? && d.run.Some? && d.run.value.status == Completed
    ensures exists more :: Finishes(plan, s.sys, more)
  {
    var more :| AllAllowed(s.mode, more) && Stands(s.sys, Execute(plan, s.sys, more), d, pc);
    assert Finishes(plan, s.sys, more);
  }

  lemma ResumableMoves(plan: Plan, s: Base)
    requires Sane(plan, s) && s.mode.Free? && Resumable(s.sys.data)
    ensures exists more :: Moves(plan, s.sys, more)
  {
    hide PlanOk, Inv, Staged, Can, Moves, LostJob;
    var d := s.sys.data;
    Begun(plan, s);
    if d.run.None? {
      var e := Admits(plan, s, d);
      CanMoves(plan, s, e, Idle);
    } else if d.run.value.status == AwaitingApproval {
      var r := d.run.value;
      if ApprovalIs(d, Declined) {
        var e := ReachRejected(plan, s, d, r);
        CanMoves(plan, s, e, Idle);
      } else {
        var e := ReachApproved(plan, s, d, r);
        var f, q := ReachDelivering(plan, s, e, r);
        CanMoves(plan, s, f, FindingAttempt(q));
      }
    } else {
      var e, q := Advanced(plan, s, d, d.run.value);
      var f, pc := DriveSteps(plan, s, e, q, 0);
      CanMoves(plan, s, f, pc);
    }
  }

  /** From collecting with the worker still there to completed. */
  lemma FinishCollected(plan: Plan, s: Base, d: Data, r: Run) returns (e: Data)
    requires s.mode.Free? && Can(plan, s, d, Collected(plan, r)) && d.run == Some(r) && r.status == Collecting
    requires d.approval.None? && d.delivery.None?
    ensures Can(plan, s, e, Idle) && e.run.Some? && e.run.value.status == Completed
  {
    hide Can;
    if plan.approvalRequired {
      var f := ReachAwaiting(plan, s, d, r);
      e := FinishAwaiting(plan, s, f);
    } else {
      e := ReachCompleted(plan, s, d, r);
    }
  }

  lemma FinishAwaiting(plan: Plan, s: Base, d: Data) returns (e: Data)
    requires s.mode.Free? && Can(plan, s, d, Idle) && d.run.Some? && d.run.value.status == AwaitingApproval && d.delivery.None?
    requires ApprovalIs(d, Pending) || ApprovalIs(d, Approved)
    ensures Can(plan, s, e, Idle) && e.run.Some? && e.run.value.status == Completed
  {
    hide Can;
    var f := ReachApproved(plan, s, d, d.run.value);
    e := ReachCompleted(plan, s, f, d.run.value);
  }

  lemma FinishAdmitted(plan: Plan, s: Base, d: Data) returns (e: Data)
    requires Sane(plan, s) && s.mode.Free? && Can(plan, s, d, Idle) && d.run.Some? && d.approval.None? && d.delivery.None?
    requires d.run.value.status == Admitted || d.run.value.status == Running
    requires forall x :: !LostJob(d, x)
    ensures Can(plan, s, e, Idle) && e.run.Some? && e.run.value.status == Completed
  {
    hide Sane, Can;
    var f, q := Advanced(plan, s, d, d.run.value);
    assert forall x :: LostJob(f, x) <==> LostJob(d, x);
    var g, pc := DriveSteps(plan, s, f, q, 0);
    e := FinishCollected(plan, s, g, g.run.value);
  }

  lemma CompletableFinishes(plan: Plan, s: Base)
    requires Sane(plan, s) && s.mode.Free? && Completable(s.sys.data)
    ensures exists more :: Finishes(plan, s.sys, more)
  {
    hide Can, Finishes, Inv, PlanOk;
    var d := s.sys.data;
    Begun(plan, s);
    if d.run.None? {
      var e := Admits(plan, s, d);
      var f := FinishAdmitted(plan, s, e);
      CanFinishes(plan, s, f, Idle);
    } else if d.run.value.status == Completed {
      CanFinishes(plan, s, d, Idle);
    } else if d.run.value.status == AwaitingApproval {
      var e := FinishAwaiting(plan, s, d);
      CanFinishes(plan, s, e, Idle);
    } else {
      var e := FinishAdmitted(plan, s, d);
      CanFinishes(plan, s, e, Idle);
    }
  }

  // ------------------------------------------------------------------
  // Runs that cannot be completed
  // ------------------------------------------------------------------

  /** A completed run has no lost job, and its approval was not declined. */
  lemma CompletedHasNoLoss(plan: Plan, d: Data, e: Data)
    requires Core(plan, d) && Core(plan, e) && Grows(plan, d, e) && e.run.Some? && e.run.value.status == Completed
    ensures forall x :: !LostJob(d, x)
    ensures d.run.Some? && d.run.value.status == AwaitingApproval ==> !ApprovalIs(d, Declined)
  {
    hide DispatchOk, RowsOk, DeliveryOk, RunGrows, DeliveryGrows;
    forall x
      ensures !LostJob(d, x)
    {
      if x in d.jobs {
        assert x in e.jobs && StepDone(plan, e, x);
      }
    }
  }

  lemma FinishesOnlyIfCompletable(plan: Plan, s: System, more: seq<Action>)
    requires Sane(plan, Base(s, Free)) && Finishes(plan, s, more)
    ensures Completable(s.data)
  {
    hide Core, PcOk, Execute, Staged, Grows, PlanOk;
    var d, e := s.data, Execute(plan, s, more).data;
    StaysSound(plan, s, more);
    CompletedHasNoLoss(plan, d, e);
    if d.run.Some? && !Resumable(d) {
      NoWorkerHarms(s, d.run.value);
      StrandedForever(plan, s, more, d.run.value);
    }
  }

  lemma NoWorkerHarms(s: System, r: Run)
    requires AllIdle(s)
    ensures forall w :: w in s.workers ==> Harmless(s.workers[w], r)
  {
  }

  // ------------------------------------------------------------------
  // The laws
  // ------------------------------------------------------------------

  lemma ReachableIsSane(plan: Plan, acts: seq<Action>)
    requires PlanOk(plan) && AllIdle(Execute(plan, START, acts))
    ensures Sane(plan, Base(Execute(plan, START, acts), Free))
  {
    hide Execute, PlanOk, Inv, Staged, AllIdle;
    AlwaysStaged(plan, acts);
  }

  /** In every reachable state whose workers are all idle, some operation other than a
      cancel can still change the run exactly when it is absent, admitted, running, or
      awaiting approval with a request that is pending, approved or declined. */
  lemma ResumesExactlyWhen(plan: Plan, acts: seq<Action>)
    requires PlanOk(plan) && AllIdle(Execute(plan, START, acts))
    ensures (exists more :: Moves(plan, Execute(plan, START, acts), more)) <==> Resumable(Execute(plan, START, acts).data)
  {
    var s := Execute(plan, START, acts);
    ReachableIsSane(plan, acts);
    hide Execute, PlanOk, Inv, Staged, Resumable, AllIdle;
    if Resumable(s.data) {
      ResumableMoves(plan, Base(s, Free));
    } else {
      StuckHasRun(s.data);
      var r := s.data.run.value;
      NoWorkerHarms(s, r);
      forall more | CancelFree(more)
        ensures !Moves(plan, s, more)
      {
        StrandedForever(plan, s, more, r);
      }
    }
  }

  lemma StuckHasRun(d: Data)
    requires !Resumable(d)
    ensures d.run.Some?
  {
  }

  /** And it can still be completed exactly when it is completed, absent, admitted or
      running with no job lost, or awaiting approval with a request that is pending or
      approved. */
  lemma CompletesExactlyWhen(plan: Plan, acts: seq<Action>)
    requires PlanOk(plan) && AllIdle(Execute(plan, START, acts))
    ensures (exists more :: Finishes(plan, Execute(plan, START, acts), more)) <==> Completable(Execute(plan, START, acts).data)
  {
    var s := Execute(plan, START, acts);
    ReachableIsSane(plan, acts);
    hide Execute, Sane, Completable, Finishes, AllIdle;
    if Completable(s.data) {
      CompletableFinishes(plan, Base(s, Free));
    }
    forall more | Finishes(plan, s, more)
      ensures Completable(s.data)
    {
      FinishesOnlyIfCompletable(plan, s, more);
    }
  }

  /** From the start every plan, with or without approval, can be completed. */
  lemma CanComplete(plan: Plan)
    requires PlanOk(plan)
    ensures exists acts :: StatusAt(plan, acts, Completed)
  {
    hide PlanOk;
    CompletesExactlyWhen(plan, []);
    var acts :| Finishes(plan, Execute(plan, START, []), acts);
    assert StatusAt(plan, acts, Completed);
  }

  // ------------------------------------------------------------------
  // Runs that crashes leave behind
  // ------------------------------------------------------------------

  /** Some execution ends with all workers idle and the run in this status, out of reach
      of every operation but a cancel; `request` is the state of its approval request. */
  ghost predicate LeftBehind(plan: Plan, st: RunStatus, request: Option<ApprovalStatus>) {
    exists acts ::
      var s := Execute(plan, START, acts);
      && StatusAt(plan, acts, st) && AllIdle(s) && !Resumable(s.data)
      && request == if s.data.approval.Some? then Some(s.data.approval.value.status) else None
  }

  const FROM_START := Base(START, Free)

  lemma NobodyElse(t: System)
    requires forall w: nat :: PcOf(t, w).Idle?
    ensures AllIdle(t)
  {
    assert forall w :: w in t.workers ==> t.workers[w] == PcOf(t, w);
  }

  lemma Leaves(plan: Plan, d: Data, pc: Pc)
    requires Can(plan, FROM_START, d, pc) && d.run.Some? && !Resumable(d)
    ensures LeftBehind(plan, d.run.value.status, if d.approval.Some? then Some(d.approval.value.status) else None)
  {
    hide Resumable;
    Stop(plan, FROM_START, d, pc);
    var acts :| AllAllowed(Free, acts) && Stands(START, Execute(plan, START, acts), d, Idle);
    NobodyElse(Execute(plan, START, acts));
    assert StatusAt(plan, acts, d.run.value.status);
  }

  lemma StartIsSane(plan: Plan)
    requires PlanOk(plan)
    ensures Sane(plan, FROM_START)
  {
    hide PlanOk;
    StartSound(plan);
    StartStaged();
  }

  /** A crash of createRun before its second or third write strands the run. */
  lemma LeftUnadmitted(plan: Plan)
    ensures LeftBehind(plan, Created, None) && LeftBehind(plan, ValidatingInput, None)
  {
    hide Can, LeftBehind;
    Begun(plan, FROM_START);
    Open(plan, FROM_START, EMPTY, Create);
    var r := NewRun(0);
    var d := EMPTY.(run := Some(r));
    Leaves(plan, d, Validating(r));
    Tick(plan, FROM_START, d, Validating(r), Good(""));
    d, r := CommitRun(d, r, ValidatingInput);
    Leaves(plan, d, SavingInput(r));
  }

  /** The run collected by one worker from the start. */
  lemma ReachCollected(plan: Plan) returns (d: Data, r: Run)
    requires PlanOk(plan)
    ensures Can(plan, FROM_START, d, Collected(plan, r)) && d.run == Some(r) && r.status == Collecting
    ensures d.approval.None? && d.delivery.None?
  {
    hide Can, PlanOk, Sane;
    StartIsSane(plan);
    Begun(plan, FROM_START);
    var e := Admits(plan, FROM_START, EMPTY);
    var f, q := Advanced(plan, FROM_START, e, e.run.value);
    var g, pc := DriveSteps(plan, FROM_START, f, q, 0);
    d, r := g, g.run.value;
  }

  lemma LeftCollecting(plan: Plan)
    requires PlanOk(plan)
    ensures LeftBehind(plan, Collecting, None)
  {
    hide Can, PlanOk, LeftBehind;
    var d, r := ReachCollected(plan);
    Leaves(plan, d, Collected(plan, r));
  }

  /** A run whose approver asked for changes, or whose request ran out. */
  lemma LeftAwaiting(plan: Plan)
    requires PlanOk(plan) && plan.approvalRequired
    ensures LeftBehind(plan, AwaitingApproval, Some(ChangesRequested))
    ensures plan.expiresAfter.Some? ==> LeftBehind(plan, AwaitingApproval, Some(Expired))
  {
    hide Can, PlanOk, LeftBehind;
    var d, r := ReachCollected(plan);
    var asking := ReachAsking(plan, FROM_START, d, r);
    Tick(plan, FROM_START, asking, Asking(r), Good(""));
    var e, q := CommitRun(asking, r, AwaitingApproval);
    var f := ReachJudged(plan, FROM_START, e, q, ChangesRequested);
    Leaves(plan, f, Judged(q, ChangesRequested));
    if plan.expiresAfter.Some? {
      var late := RequestExpires(e, asking.approval.value.expiresAt.value);
      Extend(plan, FROM_START, e, Idle, ExpireRequest(asking.approval.value.expiresAt.value), late, Idle);
      Leaves(plan, late, Idle);
    }
  }

  /** A worker that stops between the transition to delivering and the end of delivery. */
  lemma LeftDelivering(plan: Plan)
    requires PlanOk(plan)
    ensures LeftBehind(plan, Delivering, if plan.approvalRequired then Some(Approved) else None)
  {
    hide Can, PlanOk, LeftBehind;
    var d, r := ReachCollected(plan);
    if plan.approvalRequired {
      d := ReachAwaiting(plan, FROM_START, d, r);
      r := d.run.value;
      d := ReachJudged(plan, FROM_START, d, r, Approved);
      Tick(plan, FROM_START, d, Judged(r, Approved), Good(""));
    }
    var e, q := ReachDelivering(plan, FROM_START, d, r);
    Leaves(plan, e, FindingAttempt(q));
  }
}
