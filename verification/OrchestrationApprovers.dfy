/**
 From the record back to the approver: what a run did for a decision was asked for by
 somebody.
 */
module OrchestrationApprovers {
  import opened Wrappers
  import opened RunRecords
  import opened Orchestration
  import opened OrchestrationSafety
  import opened OrchestrationLaws

  /** Somebody called decideApproval with this decision. */
  ghost predicate AskedFor(acts: seq<Action>, decision: ApprovalStatus) {
    exists i :: 0 <= i < |acts| && acts[i].Begin? && acts[i].call == DecideOn(decision)
  }

  /** A decision on record, or one a worker is about to record, was asked for. */
  ghost predicate Traced(acts: seq<Action>, s: System) {
    && (s.data.approval.Some? && IsDecision(s.data.approval.value.status) ==>
          AskedFor(acts, s.data.approval.value.status))
    && (forall w :: w in s.workers && s.workers[w].Deciding? ==> AskedFor(acts, s.workers[w].decision))
  }

  /** A step of a worker records no decision but the one it carries, and no step but the
      opening of decideApproval makes a worker carry one. */
  lemma StepTraced(plan: Plan, d: Data, pc: Pc, c: Choice)
    ensures var out := WorkerStep(plan, d, pc, c);
            && !out.pc.Deciding?
            && (out.d.approval.Some? && IsDecision(out.d.approval.value.status) ==>
                  || out.d.approval == d.approval
                  || (d.approval.Some? && out.d.approval.value.status == d.approval.value.status)
                  || (pc.Deciding? && out.d.approval.value.status == pc.decision))
  {
    hide CreateStep, AdvanceStep, DispatchStep, DeliverStep, ReconcileStep;
    if InCreate(pc) {
      CreateCarriesNothing(d, pc, c);
    } else if InAdvance(pc) {
      AdvanceCarriesNothing(plan, d, pc, c);
    } else if InDispatch(pc) {
      DispatchCarriesNothing(plan, d, pc, c);
    } else if InDeliver(pc) {
      DeliverCarriesNothing(plan, d, pc, c);
    } else if InReconcile(pc) {
      ReconcileCarriesNothing(d, pc, c);
    }
  }

  lemma CreateCarriesNothing(d: Data, pc: Pc, c: Choice)
    ensures var out := CreateStep(d, pc, c); out.d.approval == d.approval && !out.pc.Deciding?
  {
    hide TransitionRun;
  }

  lemma AdvanceCarriesNothing(plan: Plan, d: Data, pc: Pc, c: Choice)
    ensures var out := AdvanceStep(plan, d, pc, c); out.d.approval == d.approval && !out.pc.Deciding?
  {
    hide TransitionRun;
  }

  lemma DispatchCarriesNothing(plan: Plan, d: Data, pc: Pc, c: Choice)
    requires InDispatch(pc)
    ensures var out := DispatchStep(plan, d, pc, c); out.d.approval == d.approval && !out.pc.Deciding?
  {
    hide StepStatusOf;
  }

  lemma DeliverCarriesNothing(plan: Plan, d: Data, pc: Pc, c: Choice)
    ensures var out := DeliverStep(plan, d, pc, c); out.d.approval == d.approval && !out.pc.Deciding?
  {
    hide TransitionRun, TransitionDelivery;
  }

  lemma ReconcileCarriesNothing(d: Data, pc: Pc, c: Choice)
    requires InReconcile(pc)
    ensures var out := ReconcileStep(d, pc, c); out.d.approval == d.approval && !out.pc.Deciding?
  {
    hide StepStatusOf;
  }

  lemma LongerAsked(acts: seq<Action>, a: Action, decision: ApprovalStatus)
    requires AskedFor(acts, decision) || (a.Begin? && a.call == DecideOn(decision))
    ensures AskedFor(acts + [a], decision)
  {
    if AskedFor(acts, decision) {
      var i :| 0 <= i < |acts| && acts[i].Begin? && acts[i].call == DecideOn(decision);
      assert (acts + [a])[i] == acts[i];
    } else {
      assert (acts + [a])[|acts|] == a;
    }
  }

  lemma NextTraced(plan: Plan, acts: seq<Action>, s: System, a: Action)
    requires Traced(acts, s)
    ensures Traced(acts + [a], Next(plan, s, a))
  {
    hide AskedFor, WorkerStep;
    forall decision | AskedFor(acts, decision) || (a.Begin? && a.call == DecideOn(decision))
      ensures AskedFor(acts + [a], decision)
    {
      LongerAsked(acts, a, decision);
    }
    if a.Go? {
      StepTraced(plan, s.data, PcOf(s, a.w), a.c);
    }
  }

  lemma {:induction false} AlwaysTraced(plan: Plan, acts: seq<Action>)
    ensures Traced(acts, Execute(plan, START, acts))
  {
    hide Traced, Next;
    if acts == [] {
      StartTraced();
    } else {
      var n := |acts| - 1;
      AlwaysTraced(plan, acts[..n]);
      NextTraced(plan, acts[..n], Execute(plan, START, acts[..n]), acts[n]);
      assert acts == acts[..n] + [acts[n]];
    }
  }

  lemma StartTraced()
    ensures Traced([], START)
  {
  }

  /** A version that requires approval is delivered only if somebody approved it: by the
      time a run is delivering or completed, a call has approved it. */
  lemma DeliveredWasApproved(plan: Plan, acts: seq<Action>)
    requires PlanOk(plan) && plan.approvalRequired
    requires StatusAt(plan, acts, Delivering) || StatusAt(plan, acts, Completed)
    ensures AskedFor(acts, Approved)
  {
    hide PlanOk, Execute, AskedFor;
    assert acts[..|acts|] == acts;
    DeliveryNeedsApproval(plan, acts, |acts|);
    AlwaysTraced(plan, acts);
  }

  /** By the time a run is rejected, a call has rejected it. */
  lemma RejectedWasDeclined(plan: Plan, acts: seq<Action>)
    requires PlanOk(plan) && StatusAt(plan, acts, RunStatus.Rejected)
    ensures AskedFor(acts, Declined)
  {
    hide PlanOk, Execute, AskedFor;
    assert acts[..|acts|] == acts;
    EndsHaveCauses(plan, acts, |acts|);
    AlwaysTraced(plan, acts);
  }
}
