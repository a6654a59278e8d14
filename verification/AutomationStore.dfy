/**
 The in-memory automation store: primary maps, the secondary indexes kept beside
 them, fenced writes, and the per-run event lists.
 */
module AutomationStore {
  import opened Wrappers
  import opened RunRecords
  import EventLog

  datatype RunRow = RunRow(tenantId: string, inputRevisionId: string, record: Run)
  datatype InputRevision = InputRevision(inputRevisionId: string, runId: string, values: string)
  datatype StepState = StepState(runId: string, stepId: string, status: StepStatus, jobId: string)
  datatype Mapping = Mapping(runId: string, stepId: string, jobId: string)

  datatype StoreError =
    | RunExists | RunNotFound | RunFenced | IllegalRunTransition
    | JobMappingExists
    | ApprovalExists | ApprovalNotFound | ApprovalFenced
    | DeliveryExists | DeliveryNotFound | DeliveryFenced | IllegalDeliveryTransition

  datatype Result<+T> = Success(value: T) | Failure(error: StoreError)

  // ------------------------------------------------------------------
  // Composite keys
  // ------------------------------------------------------------------

  function CompositeKey(runId: string, other: string): string {
    runId + "|" + other
  }

  predicate SeparatorFree(s: string) {
    '|' !in s
  }

  /** Composite keys are faithful as long as run ids hold no separator. */
  lemma CompositeKeyIsInjective(a: string, x: string, b: string, y: string)
    requires SeparatorFree(a) && SeparatorFree(b) && CompositeKey(a, x) == CompositeKey(b, y)
    ensures a == b && x == y
  {
    var k := CompositeKey(a, x);
    assert k[|a|] == '|' && k[|b|] == '|';
    assert forall i :: 0 <= i < |a| ==> k[i] == a[i];
    assert forall i :: 0 <= i < |b| ==> k[i] == b[i];
    assert |a| == |b|;
    assert a == k[..|a|] == b;
    assert x == k[|a| + 1..] == y;
  }

  /** Two run ids with a separator can share a key, so the condition is needed. */
  lemma SeparatorsCollide()
    ensures CompositeKey("r|s", "t") == CompositeKey("r", "s|t")
  {
  }

  // ------------------------------------------------------------------
  // Indexes
  // ------------------------------------------------------------------

  ghost predicate ApprovalsIndexed(approvals: map<string, Approval>, byGate: map<string, Approval>) {
    && (forall id :: id in approvals ==>
          && approvals[id].approvalId == id
          && CompositeKey(approvals[id].runId, approvals[id].gateId) in byGate
          && byGate[CompositeKey(approvals[id].runId, approvals[id].gateId)] == approvals[id])
    && (forall k :: k in byGate ==>
          && byGate[k].approvalId in approvals && approvals[byGate[k].approvalId] == byGate[k]
          && k == CompositeKey(byGate[k].runId, byGate[k].gateId))
  }

  ghost predicate DeliveriesIndexed(deliveries: map<string, Delivery>, byKey: map<string, Delivery>) {
    && (forall id :: id in deliveries ==>
          && deliveries[id].deliveryId == id
          && CompositeKey(deliveries[id].runId, deliveries[id].idempotencyKey) in byKey
          && byKey[CompositeKey(deliveries[id].runId, deliveries[id].idempotencyKey)] == deliveries[id])
    && (forall k :: k in byKey ==>
          && byKey[k].deliveryId in deliveries && deliveries[byKey[k].deliveryId] == byKey[k]
          && k == CompositeKey(byKey[k].runId, byKey[k].idempotencyKey))
  }

  ghost predicate MappingsIndexed(mappings: map<string, Mapping>, byJob: map<string, Mapping>) {
    && (forall k :: k in mappings ==>
          k == CompositeKey(mappings[k].runId, mappings[k].stepId) && mappings[k].jobId in byJob)
    && (forall j :: j in byJob ==>
          && byJob[j].jobId == j
          && CompositeKey(byJob[j].runId, byJob[j].stepId) in mappings
          && mappings[CompositeKey(byJob[j].runId, byJob[j].stepId)] == byJob[j])
  }

  /** Looking an approval up by its gate is a linear search of the approvals. */
  lemma GateLookupIsSearch(approvals: map<string, Approval>, byGate: map<string, Approval>, runId: string, gateId: string)
    requires ApprovalsIndexed(approvals, byGate) && SeparatorFree(runId)
    requires forall id :: id in approvals ==> SeparatorFree(approvals[id].runId)
    ensures var k := CompositeKey(runId, gateId);
            forall id :: id in approvals ==>
              (approvals[id].runId == runId && approvals[id].gateId == gateId <==> k in byGate && byGate[k] == approvals[id])
  {
    forall id | id in approvals && CompositeKey(approvals[id].runId, approvals[id].gateId) == CompositeKey(runId, gateId)
      ensures approvals[id].runId == runId && approvals[id].gateId == gateId
    {
      CompositeKeyIsInjective(approvals[id].runId, approvals[id].gateId, runId, gateId);
    }
  }

  lemma DeliveryLookupIsSearch(deliveries: map<string, Delivery>, byKey: map<string, Delivery>, runId: string, key: string)
    requires DeliveriesIndexed(deliveries, byKey) && SeparatorFree(runId)
    requires forall id :: id in deliveries ==> SeparatorFree(deliveries[id].runId)
    ensures var k := CompositeKey(runId, key);
            forall id :: id in deliveries ==>
              (deliveries[id].runId == runId && deliveries[id].idempotencyKey == key <==> k in byKey && byKey[k] == deliveries[id])
  {
    forall id | id in deliveries && CompositeKey(deliveries[id].runId, deliveries[id].idempotencyKey) == CompositeKey(runId, key)
      ensures deliveries[id].runId == runId && deliveries[id].idempotencyKey == key
    {
      CompositeKeyIsInjective(deliveries[id].runId, deliveries[id].idempotencyKey, runId, key);
    }
  }

  /** Looking a mapping up by its job is a linear search of the mappings exactly
      when no two steps are mapped to one job. */
  lemma JobLookupIsSearch(mappings: map<string, Mapping>, byJob: map<string, Mapping>)
    requires MappingsIndexed(mappings, byJob)
    ensures (forall a, b :: a in mappings && b in mappings && mappings[a].jobId == mappings[b].jobId ==> a == b) <==>
            (forall k :: k in mappings ==> byJob[mappings[k].jobId] == mappings[k])
  {
  }

  // ------------------------------------------------------------------
  // The store
  // ------------------------------------------------------------------

  class InMemoryAutomationStore {
    var runs: map<string, RunRow>
    var inputs: map<string, InputRevision>
    var steps: map<string, StepState>
    var mappings: map<string, Mapping>
    var mappingsByJob: map<string, Mapping>
    var approvals: map<string, Approval>
    var approvalsByGate: map<string, Approval>
    var deliveries: map<string, Delivery>
    var deliveriesByKey: map<string, Delivery>
    var events: map<string, seq<EventLog.Event>>

    /** The secondary indexes agree with the primary maps. */
    ghost predicate Valid()
      reads this
    {
      && ApprovalsIndexed(approvals, approvalsByGate)
      && DeliveriesIndexed(deliveries, deliveriesByKey)
      && MappingsIndexed(mappings, mappingsByJob)
    }

    constructor ()
      ensures Valid()
      ensures runs == map[] && inputs == map[] && steps == map[] && mappings == map[] && approvals == map[] && deliveries == map[]
    {
      runs, inputs, steps, events := map[], map[], map[], map[];
      mappings, mappingsByJob := map[], map[];
      approvals, approvalsByGate := map[], map[];
      deliveries, deliveriesByKey := map[], map[];
    }

    predicate Visible(tenantId: string, runId: string)
      reads this
    {
      runId in runs && runs[runId].tenantId == tenantId
    }

    method CreateRun(runId: string, row: RunRow) returns (r: Result<RunRow>)
      modifies this`runs
      ensures runId in old(runs) ==> r == Failure(RunExists) && runs == old(runs)
      ensures runId !in old(runs) ==> r == Success(row) && runs == old(runs)[runId := row]
    {
      if runId in runs {
        return Failure(RunExists);
      }
      runs := runs[runId := row];
      r := Success(row);
    }

    /** A fenced run transition. */
    method TransitionRun(tenantId: string, runId: string, a: Attempt) returns (r: Result<Run>)
      modifies this`runs
      ensures !old(Visible(tenantId, runId)) ==> r == Failure(RunNotFound) && runs == old(runs)
      ensures old(Visible(tenantId, runId)) ==>
                match RunRecords.TransitionRun(old(runs)[runId].record, a)
                case Fenced => r == Failure(RunFenced) && runs == old(runs)
                case Illegal => r == Failure(IllegalRunTransition) && runs == old(runs)
                case Ok(next) => r == Success(next) && runs == old(runs)[runId := old(runs)[runId].(record := next)]
    {
      if runId !in runs || runs[runId].tenantId != tenantId {
        return Failure(RunNotFound);
      }
      var row := runs[runId];
      if row.record.version != a.expected {
        return Failure(RunFenced);
      }
      if !CanTransition(row.record.status, a.to) {
        return Failure(IllegalRunTransition);
      }
      var next := ApplyTransition(row.record, a);
      runs := runs[runId := row.(record := next)];
      r := Success(next);
    }

    method SaveInputRevision(rev: InputRevision)
      modifies this`inputs
      ensures inputs == old(inputs)[rev.inputRevisionId := rev]
    {
      inputs := inputs[rev.inputRevisionId := rev];
    }

    method GetInputRevision(tenantId: string, runId: string, revisionId: string) returns (r: Option<InputRevision>)
      ensures r.Some? <==> revisionId in inputs && inputs[revisionId].runId == runId && Visible(tenantId, runId)
      ensures r.Some? ==> r.value == inputs[revisionId]
    {
      if revisionId !in inputs || inputs[revisionId].runId != runId || runId !in runs || runs[runId].tenantId != tenantId {
        return None;
      }
      r := Some(inputs[revisionId]);
    }

    method UpsertStepState(s: StepState)
      modifies this`steps
      ensures steps == old(steps)[CompositeKey(s.runId, s.stepId) := s]
    {
      steps := steps[CompositeKey(s.runId, s.stepId) := s];
    }

    /** A step is mapped to a job once and for all. */
    method SaveJobMapping(m: Mapping) returns (r: Result<()>)
      requires Valid()
      modifies this`mappings, this`mappingsByJob
      ensures Valid()
      ensures var k := CompositeKey(m.runId, m.stepId);
              if k in old(mappings) then r == Failure(JobMappingExists) && mappings == old(mappings) && mappingsByJob == old(mappingsByJob)
              else r == Success(()) && mappings == old(mappings)[k := m] && mappingsByJob == old(mappingsByJob)[m.jobId := m]
    {
      var k := CompositeKey(m.runId, m.stepId);
      if k in mappings {
        return Failure(JobMappingExists);
      }
      mappings := mappings[k := m];
      mappingsByJob := mappingsByJob[m.jobId := m];
      r := Success(());
    }

    method GetJobMappingByJob(tenantId: string, jobId: string) returns (r: Option<Mapping>)
      requires Valid()
      ensures r.Some? ==> r.value in mappings.Values && r.value.jobId == jobId && Visible(tenantId, r.value.runId)
      ensures r.None? && (forall a, b :: a in mappings && b in mappings && mappings[a].jobId == mappings[b].jobId ==> a == b) ==>
                forall k :: k in mappings ==> !(mappings[k].jobId == jobId && Visible(tenantId, mappings[k].runId))
    {
      if jobId !in mappingsByJob {
        return None;
      }
      var m := mappingsByJob[jobId];
      if m.runId !in runs || runs[m.runId].tenantId != tenantId {
        return None;
      }
      assert mappings[CompositeKey(m.runId, m.stepId)] == m;
      r := Some(m);
    }

    method SaveApprovalRequest(a: Approval) returns (r: Result<()>)
      requires Valid()
      modifies this`approvals, this`approvalsByGate
      ensures Valid()
      ensures if a.approvalId in old(approvals) || CompositeKey(a.runId, a.gateId) in old(approvalsByGate)
              then r == Failure(ApprovalExists) && approvals == old(approvals)
              else r == Success(()) && approvals == old(approvals)[a.approvalId := a]
    {
      var k := CompositeKey(a.runId, a.gateId);
      if a.approvalId in approvals || k in approvalsByGate {
        return Failure(ApprovalExists);
      }
      approvals := approvals[a.approvalId := a];
      approvalsByGate := approvalsByGate[k := a];
      r := Success(());
    }

    method GetApprovalRequestByGate(tenantId: string, runId: string, gateId: string) returns (r: Option<Approval>)
      requires Valid()
      ensures !Visible(tenantId, runId) ==> r == None
      ensures Visible(tenantId, runId) && SeparatorFree(runId) && (forall id :: id in approvals ==> SeparatorFree(approvals[id].runId)) ==>
                forall id :: id in approvals ==>
                  (approvals[id].runId == runId && approvals[id].gateId == gateId <==> r == Some(approvals[id]))
    {
      if runId !in runs || runs[runId].tenantId != tenantId {
        return None;
      }
      if SeparatorFree(runId) && forall id :: id in approvals ==> SeparatorFree(approvals[id].runId) {
        GateLookupIsSearch(approvals, approvalsByGate, runId, gateId);
      }
      var k := CompositeKey(runId, gateId);
      r := if k in approvalsByGate then Some(approvalsByGate[k]) else None;
    }

    /** Write an approval back to the map and to its index. */
    method PutApproval(a: Approval)
      requires Valid() && a.approvalId in approvals
      requires approvals[a.approvalId].runId == a.runId && approvals[a.approvalId].gateId == a.gateId
      modifies this`approvals, this`approvalsByGate
      ensures Valid() && approvals == old(approvals)[a.approvalId := a]
    {
      var k := CompositeKey(a.runId, a.gateId);
      approvals := approvals[a.approvalId := a];
      approvalsByGate := approvalsByGate[k := a];
    }

    method DecideApproval(tenantId: string, approvalId: string, expected: nat, decision: ApprovalStatus, actor: string, now: int)
      returns (r: Result<Approval>)
      requires Valid() && IsDecision(decision)
      modifies this`approvals, this`approvalsByGate
      ensures Valid()
      ensures !(approvalId in old(approvals) && Visible(tenantId, old(approvals)[approvalId].runId)) ==>
                r == Failure(ApprovalNotFound) && approvals == old(approvals)
      ensures approvalId in old(approvals) && Visible(tenantId, old(approvals)[approvalId].runId) ==>
                match Decide(old(approvals)[approvalId], expected, decision, actor, now)
                case Ok(next) => r == Success(next) && approvals == old(approvals)[approvalId := next]
                case _ => r == Failure(ApprovalFenced) && approvals == old(approvals)
      ensures approvalId in old(approvals) && Visible(tenantId, old(approvals)[approvalId].runId) ==>
                var before := old(approvals)[approvalId];
                before.status == Pending && before.version == expected ==>
                  r == Success(before.(status := decision, version := expected + 1, decidedBy := Some(actor), decisionTime := Some(now)))
    {
      if approvalId !in approvals {
        return Failure(ApprovalNotFound);
      }
      var a := approvals[approvalId];
      if a.runId !in runs || runs[a.runId].tenantId != tenantId {
        return Failure(ApprovalNotFound);
      }
      if a.version != expected {
        return Failure(ApprovalFenced);
      }
      if a.status != Pending {
        assert approvals[approvalId := a] == approvals;
        return Success(a);
      }
      var next := ApplyDecision(a, decision, actor, now);
      PutApproval(next);
      r := Success(next);
    }

    method ExpireApproval(tenantId: string, approvalId: string, now: int) returns (r: Option<Approval>)
      requires Valid()
      modifies this`approvals, this`approvalsByGate
      ensures Valid()
      ensures if approvalId in old(approvals) && Visible(tenantId, old(approvals)[approvalId].runId)
              then approvals == old(approvals)[approvalId := Expire(old(approvals)[approvalId], now)] && r == Some(approvals[approvalId])
              else approvals == old(approvals) && r == None
    {
      if approvalId !in approvals {
        return None;
      }
      var a := approvals[approvalId];
      if a.runId !in runs || runs[a.runId].tenantId != tenantId {
        return None;
      }
      if a.status != Pending || a.expiresAt.None? || a.expiresAt.value > now {
        assert approvals[approvalId := a] == approvals;
        return Some(a);
      }
      var next := a.(status := Expired, version := a.version + 1, decisionTime := Some(now));
      PutApproval(next);
      r := Some(next);
    }

    method SaveDeliveryAttempt(d: Delivery) returns (r: Result<()>)
      requires Valid()
      modifies this`deliveries, this`deliveriesByKey
      ensures Valid()
      ensures if d.deliveryId in old(deliveries) || CompositeKey(d.runId, d.idempotencyKey) in old(deliveriesByKey)
              then r == Failure(DeliveryExists) && deliveries == old(deliveries)
              else r == Success(()) && deliveries == old(deliveries)[d.deliveryId := d]
    {
      var k := CompositeKey(d.runId, d.idempotencyKey);
      if d.deliveryId in deliveries || k in deliveriesByKey {
        return Failure(DeliveryExists);
      }
      deliveries := deliveries[d.deliveryId := d];
      deliveriesByKey := deliveriesByKey[k := d];
      r := Success(());
    }

    method GetDeliveryAttemptByKey(tenantId: string, runId: string, key: string) returns (r: Option<Delivery>)
      requires Valid()
      ensures !Visible(tenantId, runId) ==> r == None
      ensures Visible(tenantId, runId) && SeparatorFree(runId) && (forall id :: id in deliveries ==> SeparatorFree(deliveries[id].runId)) ==>
                forall id :: id in deliveries ==>
                  (deliveries[id].runId == runId && deliveries[id].idempotencyKey == key <==> r == Some(deliveries[id]))
    {
      if runId !in runs || runs[runId].tenantId != tenantId {
        return None;
      }
      if SeparatorFree(runId) && forall id :: id in deliveries ==> SeparatorFree(deliveries[id].runId) {
        DeliveryLookupIsSearch(deliveries, deliveriesByKey, runId, key);
      }
      var k := CompositeKey(runId, key);
      r := if k in deliveriesByKey then Some(deliveriesByKey[k]) else None;
    }

    /** Write a delivery back to the map and to its index. */
    method PutDelivery(d: Delivery)
      requires Valid() && d.deliveryId in deliveries
      requires deliveries[d.deliveryId].runId == d.runId && deliveries[d.deliveryId].idempotencyKey == d.idempotencyKey
      modifies this`deliveries, this`deliveriesByKey
      ensures Valid() && deliveries == old(deliveries)[d.deliveryId := d]
    {
      var k := CompositeKey(d.runId, d.idempotencyKey);
      deliveries := deliveries[d.deliveryId := d];
      deliveriesByKey := deliveriesByKey[k := d];
    }

    /** A fenced delivery transition. */
    method TransitionDelivery(tenantId: string, deliveryId: string, a: DeliveryAttempt) returns (r: Result<Delivery>)
      requires Valid()
      modifies this`deliveries, this`deliveriesByKey
      ensures Valid()
      ensures !(deliveryId in old(deliveries) && Visible(tenantId, old(deliveries)[deliveryId].runId)) ==>
                r == Failure(DeliveryNotFound) && deliveries == old(deliveries)
      ensures deliveryId in old(deliveries) && Visible(tenantId, old(deliveries)[deliveryId].runId) ==>
                match RunRecords.TransitionDelivery(old(deliveries)[deliveryId], a)
                case Fenced => r == Failure(DeliveryFenced) && deliveries == old(deliveries)
                case Illegal => r == Failure(IllegalDeliveryTransition) && deliveries == old(deliveries)
                case Ok(next) => r == Success(next) && deliveries == old(deliveries)[deliveryId := next]
    {
      if deliveryId !in deliveries {
        return Failure(DeliveryNotFound);
      }
      var d := deliveries[deliveryId];
      if d.runId !in runs || runs[d.runId].tenantId != tenantId {
        return Failure(DeliveryNotFound);
      }
      if d.version != a.expected {
        return Failure(DeliveryFenced);
      }
      if d.status == a.to || d.status == Delivered || d.status == Undelivered {
        return Failure(IllegalDeliveryTransition);
      }
      var next := d.(version := d.version + 1);
      if a.to == Delivered {
        next := next.(status := Delivered, resultRef := if a.note.Some? then a.note else d.resultRef, lastError := None);
      } else if a.to == Undelivered {
        next := next.(status := Undelivered, lastError := if a.note.Some? then a.note else d.lastError);
      } else {
        next := next.(status := InProgress, attempts := d.attempts + 1);
      }
      PutDelivery(next);
      r := Success(next);
    }

    method AppendEvent(runId: string, e: EventLog.Event)
      modifies this`events
      ensures events == old(events)[runId := EventLog.Append(if runId in old(events) then old(events)[runId] else [], e)]
    {
      var list := if runId in events then events[runId] else [];
      for i := 0 to |list|
        invariant forall j :: 0 <= j < i ==> list[j].number != e.number
        invariant events == old(events)
      {
        if list[i].number == e.number {
          assert EventLog.HasSeq(list, e.number);
          assert events == events[runId := list];
          return;
        }
      }
      assert !EventLog.HasSeq(list, e.number);
      events := events[runId := list + [e]];
    }

    method ListEvents(tenantId: string, runId: string, afterSeq: nat) returns (r: seq<EventLog.Event>)
      ensures r == if Visible(tenantId, runId) && runId in events then EventLog.EventsAfter(events[runId], afterSeq) else []
    {
      if runId !in runs || runs[runId].tenantId != tenantId || runId !in events {
        return [];
      }
      var list := events[runId];
      r := [];
      for i := 0 to |list|
        invariant r == EventLog.EventsAfter(list[..i], afterSeq)
      {
        assert list[..i + 1][..i] == list[..i];
        if list[i].number > afterSeq {
          r := r + [list[i]];
        }
      }
      assert list[..|list|] == list;
    }
  }
}
