/**
 A run goes through stages and never back: before it is admitted it has no job, before
 it is collecting no approval request, before it is delivering no delivery attempt.
 */
module OrchestrationStages {
  import opened Wrappers
  import opened RunRecords
  import opened Orchestration
  import opened OrchestrationSafety
  import opened OrchestrationLaws

  function Stage(st: RunStatus): nat {
    match st
    case Created | ValidatingInput => 0
    case Admitted | Running => 1
    case Collecting | AwaitingApproval => 2
    case _ => 3
  }

  function StageOf(d: Data): nat {
    if d.run.None? then 0 else Stage(d.run.value.status)
  }

  predicate HasSnap(pc: Pc) {
    !pc.Idle? && !pc.Advancing? && !pc.Reconciling? && !pc.Deciding? && !pc.Decided?
  }

  /** The stage a worker's position takes. */
  function Floor(pc: Pc): nat {
    if pc.AtStep? || InDispatch(pc) then 1
    else if pc.Gathering? || pc.Requesting? || pc.Asking? || pc.Entering? then 2
    else if InDeliver(pc) then 3
    else 0
  }

  ghost predicate PcStaged(d: Data, pc: Pc) {
    Floor(pc) <= StageOf(d) && (HasSnap(pc) ==> Stage(pc.snap.status) <= StageOf(d))
  }

  ghost predicate DataStaged(d: Data) {
    && (StageOf(d) < 1 ==> d.jobs == map[])
    && (StageOf(d) < 2 ==> d.approval.None?)
    && (StageOf(d) < 3 ==> d.delivery.None?)
  }

  ghost predicate Staged(s: System) {
    DataStaged(s.data) && forall w :: w in s.workers ==> PcStaged(s.data, s.workers[w])
  }

  /** The step keeps the stages apart. */
  ghost predicate StepStaged(d: Data, out: Out) {
    StageOf(d) <= StageOf(out.d) && DataStaged(out.d) && PcStaged(out.d, out.pc)
  }

  ghost predicate NotSuspended(d: Data) {
    d.run.Some? ==> d.run.value.status != Suspended
  }

  lemma CommitStaged(d: Data, snap: Run, to: RunStatus, now: int)
    requires DataStaged(d) && NotSuspended(d)
    ensures Commit(d, snap, to, now).Some? ==>
              var e := Commit(d, snap, to, now).value;
              && e.run.Some? && e.run.value.status == to && StageOf(d) <= StageOf(e) == Stage(to)
              && e == d.(run := e.run) && DataStaged(e)
    ensures StepStaged(d, CommitAndStop(d, snap, to, now))
  {
  }

  lemma CreateStaged(d: Data, pc: Pc, c: Choice)
    requires NotSuspended(d) && DataStaged(d) && PcStaged(d, pc) && InCreate(pc)
    ensures StepStaged(d, CreateStep(d, pc, c))
  {
    hide Commit, CommitAndStop;
    if pc.Validating? {
      CommitStaged(d, pc.snap, ValidatingInput, c.now);
    } else if pc.Admitting? {
      CommitStaged(d, pc.snap, Admitted, c.now);
    }
  }

  lemma AdvanceStaged(plan: Plan, d: Data, pc: Pc, c: Choice)
    requires NotSuspended(d) && DataStaged(d) && PcStaged(d, pc) && InAdvance(pc)
    ensures StepStaged(d, AdvanceStep(plan, d, pc, c))
  {
    hide Commit, CommitAndStop;
    if pc.Starting? {
      CommitStaged(d, pc.snap, Running, c.now);
    } else if pc.AtStep? {
      CommitStaged(d, pc.snap, Collecting, c.now);
    } else if pc.FailingStep? {
      CommitStaged(d, pc.snap, Failed, c.now);
    }
  }

  lemma DispatchStaged(plan: Plan, d: Data, pc: Pc, c: Choice)
    requires DataStaged(d) && PcStaged(d, pc) && InDispatch(pc)
    ensures StepStaged(d, DispatchStep(plan, d, pc, c))
  {
    hide StepStatusOf, DataStaged, PcStaged;
    IdleStaged(d);
    DispatchKeeps(plan, d, pc, c);
    StillStaged(d, pc, DispatchStep(plan, d, pc, c));
  }

  /** dispatchStep leaves run, request and delivery alone, and the worker in its loop. */
  lemma DispatchKeeps(plan: Plan, d: Data, pc: Pc, c: Choice)
    requires InDispatch(pc)
    ensures var out := DispatchStep(plan, d, pc, c);
            && out.d.run == d.run && out.d.approval == d.approval && out.d.delivery == d.delivery
            && (out.pc.Idle? || ((out.pc.AtStep? || out.pc.FailingStep? || InDispatch(out.pc)) && out.pc.snap == pc.snap))
  {
    hide StepStatusOf;
  }

  lemma StillStaged(d: Data, pc: Pc, out: Out)
    requires DataStaged(d) && PcStaged(d, pc) && InDispatch(pc)
    requires out.d.run == d.run && out.d.approval == d.approval && out.d.delivery == d.delivery
    requires out.pc.Idle? || ((out.pc.AtStep? || out.pc.FailingStep? || InDispatch(out.pc)) && out.pc.snap == pc.snap)
    ensures StepStaged(d, out)
  {
  }

  /** Asking for approval, judging a decision and cancelling may move the run. */
  lemma JudgeStaged(plan: Plan, d: Data, pc: Pc, c: Choice)
    requires NotSuspended(d) && DataStaged(d) && PcStaged(d, pc) && (pc.Asking? || pc.Judged? || pc.Cancelling?)
    ensures StepStaged(d, ApprovalStep(plan, d, pc, c))
  {
    hide CommitAndStop, DataStaged;
    IdleStaged(d);
    match pc {
      case Asking(snap) => CommitStaged(d, snap, AwaitingApproval, c.now);
      case Judged(snap, outcome) =>
        CommitStaged(d, snap, RunStatus.Rejected, c.now);
        CommitStaged(d, snap, Suspended, c.now);
      case Cancelling(snap) => CommitStaged(d, snap, Cancelled, c.now);
    }
  }

  lemma ApprovalStaged(plan: Plan, d: Data, pc: Pc, c: Choice)
    requires NotSuspended(d) && DataStaged(d) && PcStaged(d, pc)
    requires !InCreate(pc) && !InAdvance(pc) && !InDispatch(pc) && !InDeliver(pc) && !InReconcile(pc)
    ensures StepStaged(d, ApprovalStep(plan, d, pc, c))
  {
    hide CommitAndStop, Decide;
    if pc.Asking? || pc.Judged? || pc.Cancelling? {
      JudgeStaged(plan, d, pc, c);
    }
  }

  /** Steps of deliverRun that write the attempt and not the run. */
  lemma AttemptStaged(plan: Plan, d: Data, pc: Pc, c: Choice)
    requires DataStaged(d) && PcStaged(d, pc) && InDeliver(pc)
    requires !pc.Entering? && !pc.FailingDelivery? && !pc.Completing?
    ensures StepStaged(d, DeliverStep(plan, d, pc, c))
  {
    hide TransitionDelivery;
  }

  lemma DeliverStaged(plan: Plan, d: Data, pc: Pc, c: Choice)
    requires NotSuspended(d) && DataStaged(d) && PcStaged(d, pc) && InDeliver(pc)
    ensures StepStaged(d, DeliverStep(plan, d, pc, c))
  {
    hide Commit, CommitAndStop, Settle, DataStaged;
    if pc.Entering? {
      CommitStaged(d, pc.snap, Delivering, c.now);
      IdleStaged(d);
    } else if pc.FailingDelivery? {
      CommitStaged(d, pc.snap, Failed, c.now);
    } else if pc.Completing? {
      CommitStaged(d, pc.snap, Completed, c.now);
    } else {
      AttemptStaged(plan, d, pc, c);
    }
  }

  lemma ReconcileStaged(d: Data, pc: Pc, c: Choice)
    requires DataStaged(d) && PcStaged(d, pc) && InReconcile(pc)
    ensures StepStaged(d, ReconcileStep(d, pc, c))
  {
    hide StepStatusOf;
  }

  lemma WorkerStaged(plan: Plan, d: Data, pc: Pc, c: Choice)
    requires NotSuspended(d) && DataStaged(d) && PcStaged(d, pc)
    ensures StepStaged(d, WorkerStep(plan, d, pc, c))
  {
    hide NotSuspended, DataStaged, PcStaged, StepStaged, CreateStep, AdvanceStep, DispatchStep, DeliverStep, ReconcileStep, ApprovalStep;
    if InCreate(pc) {
      CreateStaged(d, pc, c);
    } else if InAdvance(pc) {
      AdvanceStaged(plan, d, pc, c);
    } else if InDispatch(pc) {
      DispatchStaged(plan, d, pc, c);
    } else if InDeliver(pc) {
      DeliverStaged(plan, d, pc, c);
    } else if InReconcile(pc) {
      ReconcileStaged(d, pc, c);
    } else {
      ApprovalStaged(plan, d, pc, c);
    }
  }

  lemma PlaceStaged(s: System, w: nat, out: Out)
    requires Staged(s) && StepStaged(s.data, out)
    ensures Staged(Place(s, w, out))
  {
    hide Floor, HasSnap, StageOf, DataStaged;
  }

  lemma OpeningStaged(d: Data, call: Call, now: int)
    requires DataStaged(d)
    ensures StepStaged(d, Opening(d, call, now))
  {
  }

  lemma NextStaged(plan: Plan, s: System, a: Action)
    requires PlanOk(plan) && Inv(plan, s) && Staged(s)
    ensures Staged(Next(plan, s, a))
  {
    hide PlanOk, Core, PcOk, StepStaged, WorkerStep, Opening, Expire;
    IdleStaged(s.data);
    match a {
      case Begin(w, call, now) =>
        OpeningStaged(s.data, call, now);
        PlaceStaged(s, w, Opening(s.data, call, now));
      case Go(w, c) =>
        SoundIsNotSuspended(plan, s.data);
        WorkerStaged(plan, s.data, PcOf(s, w), c);
        PlaceStaged(s, w, WorkerStep(plan, s.data, PcOf(s, w), c));
      case Crash(w) => PlaceStaged(s, w, Out(s.data, Idle));
      case Progress(job, to) =>
      case ExpireRequest(now) =>
    }
  }

  lemma SoundIsNotSuspended(plan: Plan, d: Data)
    requires Core(plan, d)
    ensures NotSuspended(d)
  {
    hide JobsOk, DispatchOk, RowsOk, DeliveryOk;
  }

  lemma IdleStaged(d: Data)
    ensures PcStaged(d, Idle)
    ensures DataStaged(d) ==> StepStaged(d, Out(d, Idle))
  {
  }

  /** From a sound state every continuation is sound and undoes nothing. */
  lemma {:induction false} StaysSound(plan: Plan, s: System, more: seq<Action>)
    requires PlanOk(plan) && Inv(plan, s) && Staged(s)
    ensures Inv(plan, Execute(plan, s, more)) && Staged(Execute(plan, s, more))
    ensures Grows(plan, s.data, Execute(plan, s, more).data)
  {
    hide PlanOk, Inv, Staged, Next, Grows;
    if more == [] {
      GrowsItself(plan, s.data);
    } else {
      var init, a := more[..|more| - 1], more[|more| - 1];
      StaysSound(plan, s, init);
      NextSound(plan, Execute(plan, s, init), a);
      NextStaged(plan, Execute(plan, s, init), a);
      GrowsTwice(plan, s.data, Execute(plan, s, init).data, Execute(plan, s, more).data);
    }
  }

  lemma StartStaged()
    ensures Staged(START)
  {
  }

  /** Every reachable state is sound and staged. */
  lemma AlwaysStaged(plan: Plan, acts: seq<Action>)
    requires PlanOk(plan)
    ensures Inv(plan, Execute(plan, START, acts)) && Staged(Execute(plan, START, acts))
  {
    hide PlanOk, Inv, Staged, Execute;
    StartSound(plan);
    StartStaged();
    StaysSound(plan, START, acts);
  }
}
