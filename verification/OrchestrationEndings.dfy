/**
 How cancelling and delivering end a run when nothing interferes.
 */
module OrchestrationEndings {
  import opened Wrappers
  import opened RunRecords
  import opened Orchestration
  import opened OrchestrationSafety

  /** Cancelling cancels any run that has not ended and leaves an ended one alone. */
  lemma CancelEnds(plan: Plan, s: System, w: nat, now: int, c: Choice)
    requires PcOf(s, w).Idle? && s.data.run.Some?
    ensures var r := s.data.run.value;
            var after := Execute(plan, s, [Begin(w, Cancel, now), Go(w, c)]).data;
            if r.status in {Completed, Failed, Cancelled, RunStatus.Rejected} then after == s.data
            else after == s.data.(run := after.run) && after.run.Some? && after.run.value.status == Cancelled
  {
    hide Execute, WorkerStep, Opening, JobMoves, RequestExpires;
    var r := s.data.run.value;
    TwoActions(plan, s, Begin(w, Cancel, now), Go(w, c));
    CancelSteps(plan, s.data, now, c);
    var begun := Next(plan, s, Begin(w, Cancel, now));
    assert begun.data == s.data && PcOf(begun, w) == Cancelling(r);
  }

  lemma TwoActions(plan: Plan, s: System, a: Action, b: Action)
    ensures Execute(plan, s, [a, b]) == Next(plan, Next(plan, s, a), b)
  {
    hide Next;
    assert [a, b][..1] == [a] && [a][..0] == [];
    assert Execute(plan, s, [a]) == Next(plan, s, a);
  }

  lemma CancelSteps(plan: Plan, d: Data, now: int, c: Choice)
    requires d.run.Some?
    ensures Opening(d, Cancel, now) == Out(d, Cancelling(d.run.value))
    ensures var after := WorkerStep(plan, d, Cancelling(d.run.value), c).d;
            if d.run.value.status in {Completed, Failed, Cancelled, RunStatus.Rejected} then after == d
            else after == d.(run := after.run) && after.run.Some? && after.run.value.status == Cancelled
  {
  }

  /** The worker alone takes its next steps. */
  ghost function Steps(plan: Plan, d: Data, pc: Pc, cs: seq<Choice>): Out
    decreases |cs|
  {
    if cs == [] then Out(d, pc)
    else Steps(plan, WorkerStep(plan, d, pc, cs[0]).d, WorkerStep(plan, d, pc, cs[0]).pc, cs[1..])
  }

  lemma StepsUnfold(plan: Plan, d: Data, pc: Pc, cs: seq<Choice>)
    requires cs != []
    ensures InDeliver(pc) ==>
              Steps(plan, d, pc, cs) == Steps(plan, DeliverStep(plan, d, pc, cs[0]).d, DeliverStep(plan, d, pc, cs[0]).pc, cs[1..])
  {
    hide DeliverStep;
  }

  /** What the worker needs around it for a delivery to go through: it holds the delivering
      run and the attempt it has just begun. */
  ghost predicate Delivers(d: Data, r: Run, attempt: Delivery) {
    && d.run == Some(r) && r.status == Delivering
    && d.delivery == Some(attempt) && attempt.status == InProgress
  }

  /** A provider call that throws, whether or not it had delivered, marks the attempt failed
      with the message and fails the run; a confirmation that was lost stays. */
  lemma FailedCallFailsTheRun(plan: Plan, d: Data, r: Run, attempt: Delivery, cs: seq<Choice>)
    requires Delivers(d, r, attempt) && |cs| == 3 && !cs[0].ok
    ensures var out := Steps(plan, d, Calling(r, attempt), cs);
            && out.pc == Idle && out.d.run.Some? && out.d.run.value.status == Failed
            && DeliveryIs(out.d, Undelivered) && out.d.delivery.value.lastError == Some(cs[1].name)
            && (d.confirmed.Some? || !cs[0].lost ==> out.d.confirmed == d.confirmed)
            && (d.confirmed.None? && cs[0].lost ==> out.d.confirmed == Some(cs[0].name))
  {
    hide Steps;
    assert cs[1..][0] == cs[1] && cs[1..][1..] == cs[2..] && cs[2..][0] == cs[2] && cs[2..][1..] == [];
    StepsUnfold(plan, d, Calling(r, attempt), cs);
    var e := DeliverStep(plan, d, Calling(r, attempt), cs[0]).d;
    StepsUnfold(plan, e, Undelivering(r, attempt), cs[1..]);
    FailsAfterwards(plan, e, r, attempt, cs);
  }

  lemma FailsAfterwards(plan: Plan, e: Data, r: Run, attempt: Delivery, cs: seq<Choice>)
    requires Delivers(e, r, attempt) && |cs| == 3
    ensures var f := DeliverStep(plan, e, Undelivering(r, attempt), cs[1]);
            && f.pc == FailingDelivery(r)
            && var out := Steps(plan, f.d, f.pc, cs[2..]);
               && out.pc == Idle && out.d.run.Some? && out.d.run.value.status == Failed
               && DeliveryIs(out.d, Undelivered) && out.d.delivery.value.lastError == Some(cs[1].name)
               && out.d.confirmed == e.confirmed
  {
    hide Steps;
    assert cs[2..][0] == cs[2] && cs[2..][1..] == [];
    var f := DeliverStep(plan, e, Undelivering(r, attempt), cs[1]);
    StepsUnfold(plan, f.d, FailingDelivery(r), cs[2..]);
    NoSteps(plan, DeliverStep(plan, f.d, FailingDelivery(r), cs[2]).d, DeliverStep(plan, f.d, FailingDelivery(r), cs[2]).pc);
  }

  lemma NoSteps(plan: Plan, d: Data, pc: Pc)
    ensures Steps(plan, d, pc, []) == Out(d, pc)
  {
  }

  /** A call that succeeds records the provider's result, the one on record there if the key
      was delivered before, and completes the run. */
  lemma SuccessfulCallCompletesTheRun(plan: Plan, d: Data, r: Run, attempt: Delivery, cs: seq<Choice>)
    requires Delivers(d, r, attempt) && |cs| == 3 && cs[0].ok && cs[1].ok
    ensures var out := Steps(plan, d, Calling(r, attempt), cs);
            var ref := if d.confirmed.Some? then d.confirmed.value else cs[0].name;
            && out.pc == Idle && out.d.run.Some? && out.d.run.value.status == Completed
            && out.d.confirmed == Some(ref) && DeliveryIs(out.d, Delivered) && out.d.delivery.value.resultRef == Some(ref)
  {
    hide Steps;
    assert cs[1..][0] == cs[1] && cs[1..][1..] == cs[2..] && cs[2..][0] == cs[2] && cs[2..][1..] == [];
    var ref := if d.confirmed.Some? then d.confirmed.value else cs[0].name;
    StepsUnfold(plan, d, Calling(r, attempt), cs);
    var e := d.(confirmed := Some(ref));
    assert DeliverStep(plan, d, Calling(r, attempt), cs[0]) == Out(e, Settling(r, attempt, ref));
    StepsUnfold(plan, e, Settling(r, attempt, ref), cs[1..]);
    SettlesAfterwards(plan, e, r, attempt, ref, cs);
  }

  lemma SettlesAfterwards(plan: Plan, e: Data, r: Run, attempt: Delivery, ref: string, cs: seq<Choice>)
    requires Delivers(e, r, attempt) && |cs| == 3 && cs[1].ok && e.confirmed == Some(ref)
    ensures var f := DeliverStep(plan, e, Settling(r, attempt, ref), cs[1]);
            && f.pc == Completing(r)
            && var out := Steps(plan, f.d, f.pc, cs[2..]);
               && out.pc == Idle && out.d.run.Some? && out.d.run.value.status == Completed
               && out.d.confirmed == Some(ref) && DeliveryIs(out.d, Delivered) && out.d.delivery.value.resultRef == Some(ref)
  {
    hide Steps;
    assert cs[2..][0] == cs[2] && cs[2..][1..] == [];
    var f := DeliverStep(plan, e, Settling(r, attempt, ref), cs[1]);
    StepsUnfold(plan, f.d, Completing(r), cs[2..]);
    NoSteps(plan, DeliverStep(plan, f.d, Completing(r), cs[2]).d, DeliverStep(plan, f.d, Completing(r), cs[2]).pc);
  }

  // ------------------------------------------------------------------
  // Asking for approval
  // ------------------------------------------------------------------

  lemma ApprovalUnfolds(plan: Plan, d: Data, pc: Pc, cs: seq<Choice>)
    requires cs != [] && (pc.Gathering? || pc.Requesting? || pc.Asking?)
    ensures Steps(plan, d, pc, cs) == Steps(plan, ApprovalStep(plan, d, pc, cs[0]).d, ApprovalStep(plan, d, pc, cs[0]).pc, cs[1..])
  {
    hide ApprovalStep;
  }

  /** A collected run without a request gets one for its gate, pending, with the time it
      expires at if the version says how long it lasts, and awaits approval. */
  lemma RequestIsMade(plan: Plan, d: Data, r: Run, cs: seq<Choice>)
    requires d.run == Some(r) && r.status == Collecting && d.approval.None? && |cs| == 3
    ensures var out := Steps(plan, d, Gathering(r), cs);
            && out.pc == Idle && out.d.run.Some? && out.d.run.value.status == AwaitingApproval
            && ApprovalIs(out.d, Pending) && out.d.approval.value.approvalId == cs[1].name
            && out.d.approval.value.runId == plan.runId && out.d.approval.value.gateId == plan.gateId
            && out.d.approval.value.expiresAt ==
               (match plan.expiresAfter case Some(ms) => Some(cs[1].now + ms) case None => None)
  {
    hide Steps;
    assert cs[1..][0] == cs[1] && cs[1..][1..] == cs[2..] && |cs[2..]| == 1;
    ApprovalUnfolds(plan, d, Gathering(r), cs);
    ApprovalUnfolds(plan, d, Requesting(r), cs[1..]);
    var e := ApprovalStep(plan, d, Requesting(r), cs[1]).d;
    AsksAfterwards(plan, e, r, cs[2..]);
  }

  lemma AsksAfterwards(plan: Plan, d: Data, r: Run, cs: seq<Choice>)
    requires d.run == Some(r) && r.status == Collecting && |cs| == 1
    ensures var out := Steps(plan, d, Asking(r), cs);
            out.pc == Idle && out.d == d.(run := out.d.run) && out.d.run.Some? && out.d.run.value.status == AwaitingApproval
  {
    hide Steps;
    assert cs[1..] == [];
    ApprovalUnfolds(plan, d, Asking(r), cs);
    NoSteps(plan, ApprovalStep(plan, d, Asking(r), cs[0]).d, Idle);
  }


  /** A request that is there already is used as it is. */
  lemma RequestIsReused(plan: Plan, d: Data, r: Run, cs: seq<Choice>)
    requires d.run == Some(r) && r.status == Collecting && d.approval.Some? && |cs| == 2
    ensures var out := Steps(plan, d, Gathering(r), cs);
            out.pc == Idle && out.d == d.(run := out.d.run) && out.d.run.Some? && out.d.run.value.status == AwaitingApproval
  {
    hide Steps;
    assert cs[1..][0] == cs[1] && cs[1..][1..] == [];
    ApprovalUnfolds(plan, d, Gathering(r), cs);
    ApprovalUnfolds(plan, d, Asking(r), cs[1..]);
    NoSteps(plan, ApprovalStep(plan, d, Asking(r), cs[1]).d, Idle);
  }
}
