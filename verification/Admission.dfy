/**
 The admission idempotency registry: a slot per (tenant, key) that is claimed,
 completed or failed.
 */
module Admission {
  import opened Wrappers
  import opened AutomationStore

  datatype SlotState = Pending | Completed | FailedRetriable | FailedTerminal

  datatype Failure = Failure(code: string, detail: string)

  datatype Slot = Slot(
    tenantId: string, key: string, fingerprint: string, state: SlotState,
    jobId: Option<string>, reservationId: Option<string>, failure: Option<Failure>,
    createdAt: int, updatedAt: int, expiresAt: Option<int>)

  datatype ClaimKind = New | Replay | InFlight | Conflict

  function NewSlot(tenantId: string, key: string, fingerprint: string, now: int): Slot {
    Slot(tenantId, key, fingerprint, Pending, None, None, None, now, now, None)
  }

  predicate Reclaimable(slot: Slot, now: int) {
    slot.state == FailedRetriable || (slot.expiresAt.Some? && slot.expiresAt.value < now)
  }

  /** How the registry answers a claim. */
  function Answer(slot: Option<Slot>, fingerprint: string, now: int): ClaimKind {
    if slot.None? || Reclaimable(slot.value, now) then New
    else if slot.value.fingerprint != fingerprint then Conflict
    else if slot.value.state == Completed then Replay
    else InFlight
  }

  function CompletedSlot(slot: Slot, jobId: string, reservationId: string, now: int): Slot {
    slot.(state := Completed, jobId := Some(jobId), reservationId := Some(reservationId), failure := None, updatedAt := now)
  }

  function FailedSlot(slot: Slot, failure: Failure, retriable: bool, now: int): Slot {
    slot.(state := if retriable then FailedRetriable else FailedTerminal, failure := Some(failure), updatedAt := now)
  }

  // ------------------------------------------------------------------
  // Histories of one slot
  // ------------------------------------------------------------------

  datatype SlotOp =
    | OpClaim(tenantId: string, key: string, fingerprint: string, now: int)
    | OpComplete(jobId: string, reservationId: string, now: int)
    | OpFail(failure: Failure, retriable: bool, now: int)

  function ApplyOp(slot: Option<Slot>, op: SlotOp): Option<Slot> {
    match op
    case OpClaim(tenantId, key, fingerprint, now) =>
      if Answer(slot, fingerprint, now) == New then Some(NewSlot(tenantId, key, fingerprint, now)) else slot
    case OpComplete(jobId, reservationId, now) =>
      if slot.Some? then Some(CompletedSlot(slot.value, jobId, reservationId, now)) else None
    case OpFail(failure, retriable, now) =>
      if slot.Some? then Some(FailedSlot(slot.value, failure, retriable, now)) else None
  }

  ghost function SlotAfter(ops: seq<SlotOp>): Option<Slot> {
    if ops == [] then None else ApplyOp(SlotAfter(ops[..|ops| - 1]), ops[|ops| - 1])
  }

  ghost predicate WinsAt(ops: seq<SlotOp>, i: nat) {
    i < |ops| && ops[i].OpClaim? && Answer(SlotAfter(ops[..i]), ops[i].fingerprint, ops[i].now) == New
  }

  ghost predicate RetriableFailure(op: SlotOp) {
    op.OpFail? && op.retriable
  }

  /** No slot ever expires, so only a retriable failure makes it claimable again. */
  lemma {:induction false} SlotsDoNotExpire(ops: seq<SlotOp>)
    ensures SlotAfter(ops).Some? ==> SlotAfter(ops).value.expiresAt == None
  {
    if ops != [] {
      SlotsDoNotExpire(ops[..|ops| - 1]);
    }
  }

  lemma {:induction false} HeldSinceClaim(ops: seq<SlotOp>, i: nat)
    requires WinsAt(ops, i) && forall k :: i < k < |ops| ==> !RetriableFailure(ops[k])
    ensures SlotAfter(ops).Some? && SlotAfter(ops).value.state != FailedRetriable
  {
    var n := |ops| - 1;
    if i < n {
      assert ops[..n][..i] == ops[..i];
      HeldSinceClaim(ops[..n], i);
      assert !RetriableFailure(ops[n]);
    }
  }

  /** Between two winning claims of one slot there is a retriable failure: claims
      serialize. */
  lemma ClaimsSerialize(ops: seq<SlotOp>, i: nat, j: nat)
    requires i < j && WinsAt(ops, i) && WinsAt(ops, j)
    ensures exists k :: i < k < j && RetriableFailure(ops[k])
  {
    hide SlotAfter, RetriableFailure;
    assert ops[..j][..i] == ops[..i];
    if forall k :: i < k < j ==> !RetriableFailure(ops[k]) {
      HeldSinceClaim(ops[..j], i);
      SlotsDoNotExpire(ops[..j]);
    }
  }

  /** Over every history of a slot, a claim conflicts exactly if the slot is held or was
      decided under another body, is a replay exactly if it was completed under this one,
      and is in flight otherwise, a denied key included. */
  lemma ClaimsAreAnswered(ops: seq<SlotOp>, fingerprint: string, now: int)
    ensures var slot := SlotAfter(ops);
            var kind := Answer(slot, fingerprint, now);
            && (kind == New <==> slot.None? || slot.value.state == FailedRetriable)
            && (kind == Conflict <==> slot.Some? && slot.value.state != FailedRetriable && slot.value.fingerprint != fingerprint)
            && (kind == Replay <==> slot.Some? && slot.value.state == Completed && slot.value.fingerprint == fingerprint)
            && (kind == InFlight <==>
                  slot.Some? && slot.value.state in {Pending, FailedTerminal} && slot.value.fingerprint == fingerprint)
  {
    hide SlotAfter;
    SlotsDoNotExpire(ops);
  }

  /** Completing records the job and the reservation and forgets an earlier failure; failing
      records why and keeps whose slot it is. */
  lemma OutcomesAreRecorded(slot: Slot, jobId: string, reservationId: string, failure: Failure, retriable: bool, now: int)
    ensures ApplyOp(Some(slot), OpComplete(jobId, reservationId, now)) ==
            Some(Slot(slot.tenantId, slot.key, slot.fingerprint, Completed, Some(jobId), Some(reservationId), None,
                      slot.createdAt, now, slot.expiresAt))
    ensures ApplyOp(Some(slot), OpFail(failure, retriable, now)) ==
            Some(Slot(slot.tenantId, slot.key, slot.fingerprint, if retriable then FailedRetriable else FailedTerminal,
                      slot.jobId, slot.reservationId, Some(failure), slot.createdAt, now, slot.expiresAt))
  {
  }

  // ------------------------------------------------------------------
  // The in-memory registry
  // ------------------------------------------------------------------

  class InMemoryAdmissionIdempotencyRegistry {
    var entries: map<string, Slot>

    ghost function SlotOf(tenantId: string, key: string): Option<Slot>
      reads this
    {
      var k := CompositeKey(tenantId, key);
      if k in entries then Some(entries[k]) else None
    }

    /** Entries are filed under their own tenant and key. */
    ghost predicate Valid()
      reads this
    {
      forall k :: k in entries ==> k == CompositeKey(entries[k].tenantId, entries[k].key)
    }

    constructor ()
      ensures Valid() && entries == map[]
    {
      entries := map[];
    }

    /** The slot of one (tenant, key) follows its history; every other slot stays,
        unless it shares the composite key, which takes a separator in a tenant id. */
    twostate predicate OnlyAffects(tenantId: string, key: string, op: SlotOp)
      reads this
    {
      && SlotOf(tenantId, key) == ApplyOp(old(SlotOf(tenantId, key)), op)
      && (forall t, k :: CompositeKey(t, k) != CompositeKey(tenantId, key) ==> SlotOf(t, k) == old(SlotOf(t, k)))
      && forall t, k :: SeparatorFree(t) && SeparatorFree(tenantId) && (t != tenantId || k != key) ==>
           SlotOf(t, k) == old(SlotOf(t, k))
    }

    lemma OtherKeys(tenantId: string, key: string)
      ensures forall t, k :: SeparatorFree(t) && SeparatorFree(tenantId) && CompositeKey(t, k) == CompositeKey(tenantId, key) ==> t == tenantId && k == key
    {
      forall t, k | SeparatorFree(t) && SeparatorFree(tenantId) && CompositeKey(t, k) == CompositeKey(tenantId, key)
        ensures t == tenantId && k == key
      {
        CompositeKeyIsInjective(t, k, tenantId, key);
      }
    }

    method Claim(tenantId: string, key: string, fingerprint: string, now: int) returns (kind: ClaimKind, slot: Slot)
      requires Valid()
      modifies this
      ensures Valid() && OnlyAffects(tenantId, key, OpClaim(tenantId, key, fingerprint, now))
      ensures kind == Answer(old(SlotOf(tenantId, key)), fingerprint, now)
      ensures SlotOf(tenantId, key) == Some(slot)
      ensures kind == Replay ==> slot.state == Completed && slot.fingerprint == fingerprint
    {
      hide CompositeKey;
      OtherKeys(tenantId, key);
      var k := CompositeKey(tenantId, key);
      if k in entries {
        var existing := entries[k];
        if !Reclaimable(existing, now) {
          if existing.fingerprint != fingerprint {
            return Conflict, existing;
          }
          return if existing.state == Completed then Replay else InFlight, existing;
        }
      }
      slot := NewSlot(tenantId, key, fingerprint, now);
      entries := entries[k := slot];
      kind := New;
    }

    method Complete(tenantId: string, key: string, jobId: string, reservationId: string, now: int) returns (slot: Option<Slot>)
      requires Valid()
      modifies this
      ensures Valid() && OnlyAffects(tenantId, key, OpComplete(jobId, reservationId, now))
      ensures slot == SlotOf(tenantId, key)
    {
      hide CompositeKey;
      OtherKeys(tenantId, key);
      var k := CompositeKey(tenantId, key);
      if k !in entries {
        return None;
      }
      var updated := CompletedSlot(entries[k], jobId, reservationId, now);
      entries := entries[k := updated];
      slot := Some(updated);
    }

    method Fail(tenantId: string, key: string, failure: Failure, retriable: bool, now: int) returns (slot: Option<Slot>)
      requires Valid()
      modifies this
      ensures Valid() && OnlyAffects(tenantId, key, OpFail(failure, retriable, now))
      ensures slot == SlotOf(tenantId, key)
    {
      hide CompositeKey;
      OtherKeys(tenantId, key);
      var k := CompositeKey(tenantId, key);
      if k !in entries {
        return None;
      }
      var updated := FailedSlot(entries[k], failure, retriable, now);
      entries := entries[k := updated];
      slot := Some(updated);
    }

    method Lookup(tenantId: string, key: string) returns (slot: Option<Slot>)
      requires Valid()
      ensures slot == SlotOf(tenantId, key)
    {
      var k := CompositeKey(tenantId, key);
      slot := if k in entries then Some(entries[k]) else None;
    }
  }
}
