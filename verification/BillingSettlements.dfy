/**
 What every delivery leaves on its event's row and in the balance, whatever came before.
 */
module BillingSettlements {
  import opened Wrappers
  import opened Billing
  import opened BillingConfluence

  // ------------------------------------------------------------------
  // The rows of delivered events
  // ------------------------------------------------------------------

  /** Non-billable with its reason for good if it is classified so, settled for what it owes
      if it owes, and waiting otherwise. */
  ghost predicate RowFits(row: Settlement, c: Classification, owed: Option<int>) {
    match c
    case NotBillable(reason) => row.state == NonBillable && row.nonBillableReason == Some(reason)
    case Billable =>
      if owed.Some? then row.state == Settled && row.amountMicro == owed else row.state == Unresolved
  }

  ghost function OwedFor(cat: Catalog, h: seq<Step>, k: EventKey): Option<int> {
    if k in Owed(cat, h) then Some(Owed(cat, h)[k]) else None
  }

  /** An event has a row exactly if it was delivered, and the row its classification and
      its deliveries call for. */
  ghost predicate RowTold(cat: Catalog, t: Tables, h: seq<Step>, k: EventKey) {
    && (k in t.settlements <==> Delivered(h, k))
    && (k in t.settlements ==> RowFits(t.settlements[k], cat(k).classification, OwedFor(cat, h, k)))
  }

  /** What one delivery writes on the row of its event. */
  lemma DeliveryWrites(t: Tables, u: Usage, c: Classification, entryId: string)
    requires SettleUsage(t, u, c, entryId).Committed?
    ensures var after := SettleUsage(t, u, c, entryId).tables.settlements;
            if u.key in t.settlements && Final(t.settlements[u.key].state) then after == t.settlements
            else
              && after.Keys == t.settlements.Keys + {u.key}
              && (forall k :: k in t.settlements && k != u.key ==> after[k] == t.settlements[k])
              && after[u.key].attempts == (if u.key in t.settlements then t.settlements[u.key].attempts else 0) + 1
              && (c.NotBillable? ==> after[u.key].state == NonBillable && after[u.key].nonBillableReason == Some(c.reason))
              && (c.Billable? && ActiveId(t.pricing).None? ==>
                    after[u.key].state == Unresolved && after[u.key].lastError == Some(NO_PRICING))
              && (c.Billable? && ActiveId(t.pricing).Some? && ActiveId(t.pricing).value in t.pricing ==>
                    after[u.key].state == Settled && after[u.key].lastError == None)
  {
    hide ActiveId, FindEntry, FindKey;
  }

  lemma PublishLeavesRows(t: Tables, s: Step)
    requires s.Publish?
    ensures Apply(t, OpPricing(s.id, s.version, s.unitPrices, s.active)).settlements == t.settlements
  {
  }

  lemma GiveUpLeavesKeys(t: Tables, k: EventKey, reason: string)
    ensures var after := Apply(t, OpUnresolved(k, reason)).settlements;
            && after.Keys == t.settlements.Keys
            && (forall x :: x in after && (x != k || Final(t.settlements[x].state)) ==> after[x] == t.settlements[x])
            && (k in after && !Final(t.settlements[k].state) ==>
                  after[k] == t.settlements[k].(state := Unresolved, lastError := Some(reason)))
  {
  }

  lemma DeliveredSoFar(h: seq<Step>, s: Step, k: EventKey)
    ensures Delivered(h + [s], k) <==> Delivered(h, k) || (s.Deliver? && s.key == k)
  {
    DeliveredStep(h + [s], k);
    assert (h + [s])[..|h|] == h;
  }

  lemma OwedSoFar(cat: Catalog, h: seq<Step>, s: Step, k: EventKey)
    ensures OwedFor(cat, h, k).Some? || !(s.Deliver? && s.key == k && cat(k).classification.Billable? && BookAfter(h).prices.Some?) ==>
              OwedFor(cat, h + [s], k) == OwedFor(cat, h, k)
    ensures s.Deliver? && s.key == k && cat(k).classification.Billable? && BookAfter(h).prices.Some? ==>
              OwedFor(cat, h + [s], k).Some?
  {
    assert (h + [s])[..|h|] == h;
    hide BookAfter;
  }

  lemma RowStep(cat: Catalog, h: seq<Step>, s: Step, t: Tables, k: EventKey)
    requires Agrees(cat, t, h) && FreshIds(h + [s]) && RowTold(cat, t, h, k)
    ensures RowTold(cat, Apply(t, OpOf(cat, s)), h + [s], k)
  {
    hide Agrees, Owed, OwedFor, Delivered, BookAfter, ActiveId, FreshIds, SettleUsage, RowFits;
    DeliveredSoFar(h, s, k);
    OwedSoFar(cat, h, s, k);
    match s {
      case Publish(_, _, _, _) => PublishLeavesRows(t, s);
      case GiveUp(x, reason) =>
        GiveUpLeavesKeys(t, x, reason);
        GivenUpFits(t, k, reason, cat(k).classification, OwedFor(cat, h, k));
      case Deliver(x, entryId) =>
        if k == x {
          OwnRow(cat, h, s, t);
        } else {
          OtherRow(cat, h, s, t, k);
        }
    }
  }

  lemma GivenUpFits(t: Tables, k: EventKey, reason: string, c: Classification, owed: Option<int>)
    requires k in t.settlements ==> RowFits(t.settlements[k], c, owed)
    ensures k in t.settlements && !Final(t.settlements[k].state) ==>
              RowFits(t.settlements[k].(state := Unresolved, lastError := Some(reason)), c, owed)
  {
  }

  lemma OtherRow(cat: Catalog, h: seq<Step>, s: Step, t: Tables, k: EventKey)
    requires Agrees(cat, t, h) && FreshIds(h + [s]) && RowTold(cat, t, h, k) && s.Deliver? && s.key != k
    ensures RowTold(cat, Apply(t, OpOf(cat, s)), h + [s], k)
  {
    hide Agrees, OwedFor, Delivered, BookAfter, ActiveId, FreshIds, SettleUsage, RowFits;
    DeliveredSoFar(h, s, k);
    OwedSoFar(cat, h, s, k);
    StepCommits(cat, t, h, s);
    DeliveryWrites(t, UsageOf(cat, s.key), cat(s.key).classification, s.entryId);
  }

  lemma OwnRow(cat: Catalog, h: seq<Step>, s: Step, t: Tables)
    requires Agrees(cat, t, h) && FreshIds(h + [s]) && s.Deliver? && RowTold(cat, t, h, s.key)
    ensures RowTold(cat, Apply(t, OpOf(cat, s)), h + [s], s.key)
  {
    hide Agrees, Owed, OwedFor, Delivered, BookAfter, ActiveId, FreshIds, SettleUsage, RowFits;
    var k := s.key;
    DeliveredSoFar(h, s, k);
    OwedSoFar(cat, h, s, k);
    StepCommits(cat, t, h, s);
    DeliveryWrites(t, UsageOf(cat, k), cat(k).classification, s.entryId);
    StepAgrees(cat, t, h, s);
    OwingFits(cat, Apply(t, OpOf(cat, s)), h + [s], k);
    PricesKnown(cat, t, h);
    OwnFits(t, Apply(t, OpOf(cat, s)), k, cat(k).classification, OwedFor(cat, h, k), OwedFor(cat, h + [s], k));
  }

  /** The row of the event just delivered. */
  lemma OwnFits(t: Tables, after: Tables, k: EventKey, c: Classification, before: Option<int>, owed: Option<int>)
    requires k in after.settlements && (k in t.settlements ==> RowFits(t.settlements[k], c, before))
    requires k in t.settlements && Final(t.settlements[k].state) ==> after.settlements[k] == t.settlements[k]
    requires !(k in t.settlements && Final(t.settlements[k].state)) && c.NotBillable? ==>
               after.settlements[k].state == NonBillable && after.settlements[k].nonBillableReason == Some(c.reason)
    requires !(k in t.settlements && Final(t.settlements[k].state)) && c.Billable? && ActiveId(t.pricing).None? ==>
               after.settlements[k].state == Unresolved
    requires owed.Some? ==> RowFits(after.settlements[k], c, owed)
    requires before.Some? || c.NotBillable? || ActiveId(t.pricing).None? ==> owed == before
    requires c.Billable? && ActiveId(t.pricing).Some? ==> owed.Some?
    ensures RowFits(after.settlements[k], c, owed)
  {
    hide ActiveId;
  }

  lemma OwingFits(cat: Catalog, t: Tables, h: seq<Step>, k: EventKey)
    requires Agrees(cat, t, h)
    ensures OwedFor(cat, h, k).Some? ==> k in t.settlements && RowFits(t.settlements[k], cat(k).classification, OwedFor(cat, h, k))
  {
    hide PricesAgree, LedgerAgrees, IdsFrom, Owed, BookAfter;
  }

  lemma PricesKnown(cat: Catalog, t: Tables, h: seq<Step>)
    requires Agrees(cat, t, h)
    ensures BookAfter(h).prices.None? <==> ActiveId(t.pricing).None?
  {
    hide RowsAgree, LedgerAgrees, IdsFrom, BookAfter;
    ActivePriceAgrees(t.pricing, BookAfter(h));
  }

  lemma StepCommits(cat: Catalog, t: Tables, h: seq<Step>, s: Step)
    requires Agrees(cat, t, h) && FreshIds(h + [s]) && s.Deliver?
    ensures SettleUsage(t, UsageOf(cat, s.key), cat(s.key).classification, s.entryId).Committed?
    ensures Apply(t, OpOf(cat, s)) == SettleUsage(t, UsageOf(cat, s.key), cat(s.key).classification, s.entryId).tables
  {
    hide Agrees, Owed, BookAfter, FreshIds, SettleUsage;
    if s.key !in Owed(cat, h) && cat(s.key).classification.Billable? && BookAfter(h).prices.Some? {
      ChargingAgrees(cat, t, h, s);
    } else {
      NotChargingAgrees(cat, t, h, s);
    }
  }

  /** Over every history of deliveries, price publications and give-ups, every delivered
      event has the row its classification and its deliveries call for. */
  lemma {:induction false} RowsTellTheHistory(cat: Catalog, h: seq<Step>, k: EventKey)
    requires FreshIds(h)
    ensures RowTold(cat, After(cat, h), h, k)
  {
    hide Apply, FreshIds, RowTold, Agrees;
    if h == [] {
      NothingTold(cat, k);
    } else {
      var init, s := h[..|h| - 1], h[|h| - 1];
      assert h == init + [s];
      FreshPrefix(init, s);
      RowsTellTheHistory(cat, init, k);
      HistoryAgrees(cat, init);
      RowStep(cat, init, s, After(cat, init), k);
    }
  }

  lemma NothingTold(cat: Catalog, k: EventKey)
    ensures RowTold(cat, EMPTY, [], k)
  {
  }

  // ------------------------------------------------------------------
  // Final events
  // ------------------------------------------------------------------

  /** Delivering a final event again, whatever the delivery says of it, changes nothing and
      returns its row and, if it was settled, the entry that charged it. */
  lemma FinalIsReplayed(t: Tables, u: Usage, c: Classification, entryId: string)
    requires Integrity(t) && u.key in t.settlements && Final(t.settlements[u.key].state)
    ensures var out := SettleUsage(t, u, c, entryId);
            && out.Committed? && out.tables == t && out.result.settlement == t.settlements[u.key] && out.result.duplicated
            && (t.settlements[u.key].state == NonBillable ==> out.result.entry == None)
            && (t.settlements[u.key].state == Settled ==>
                  && out.result.entry.Some? && out.result.entry.value in t.ledger
                  && Pins(out.result.entry.value, u.key, t.settlements[u.key]))
  {
    hide OneActive, FindEntry, ActiveId;
    var row := t.settlements[u.key];
    assert RowIsSound(t, u.key, row);
    if row.state == Settled {
      var i :| 0 <= i < |t.ledger| && Pins(t.ledger[i], u.key, row);
      FindEntryFinds(t.ledger, t.ledger[i].entryId);
      var j := FindEntry(t.ledger, t.ledger[i].entryId);
      assert j == i;
    }
  }

  /** The entry a settlement appends: a charge to the event's scope and job, for the kind's
      active price times the quantity, that names the event and the pricing it used. */
  lemma SettlementCharges(t: Tables, u: Usage, entryId: string)
    requires SettleUsage(t, u, Billable, entryId).Committed?
    requires SettleUsage(t, u, Billable, entryId).tables.ledger != t.ledger
    ensures var ledger := SettleUsage(t, u, Billable, entryId).tables.ledger;
            && |ledger| == |t.ledger| + 1 && ledger[..|t.ledger|] == t.ledger
            && var e := ledger[|t.ledger|];
               && SettleUsage(t, u, Billable, entryId).result.entry == Some(e)
               && !SettleUsage(t, u, Billable, entryId).result.duplicated
               && e.entryId == entryId && e.scope == Scope(u.key.tenantId, u.orgId, u.projectId) && e.jobId == Some(u.jobId)
               && e.entryType == Charge && e.sourceRef == u.key.eventId && e.key == "settle:" + u.key.tenantId + ":" + u.key.eventId
               && e.original == None && ActiveId(t.pricing) == Some(e.pricingId) && e.pricingId in t.pricing
               && e.pricingVersion == t.pricing[e.pricingId].version
               && e.amount == (if u.kind in t.pricing[e.pricingId].unitPrices then t.pricing[e.pricingId].unitPrices[u.kind] else 0) * u.quantity
  {
    hide ActiveId, FindKey, FindEntry;
  }

  // ------------------------------------------------------------------
  // Entries and the balance
  // ------------------------------------------------------------------

  /** The scope already holds an entry under this idempotency key. */
  ghost predicate Holds(ledger: seq<Entry>, scope: Scope, key: string) {
    exists i :: 0 <= i < |ledger| && ledger[i].scope == scope && ledger[i].key == key
  }

  /** An entry moves the balance of its own scope by its amount the first time its key is
      used there, and a repeat changes nothing and returns the entry on record. */
  lemma EntriesMoveTheBalanceOnce(t: Tables, e: Entry, scope: Scope)
    requires Record(t, e).Committed?
    ensures var out := Record(t, e);
            && out.result.duplicated == Holds(t.ledger, e.scope, e.key)
            && (out.result.duplicated ==>
                  out.tables == t && out.result.entry in t.ledger
                  && out.result.entry.scope == e.scope && out.result.entry.key == e.key)
            && (!out.result.duplicated ==> out.result.entry == e && out.tables == t.(ledger := t.ledger + [e]))
            && Total(out.tables.ledger, scope) ==
               Total(t.ledger, scope) + (if !out.result.duplicated && scope == e.scope then e.amount else 0)
  {
    hide FindKey, FindEntry, Total;
    FindKeyFinds(t.ledger, e.scope, e.key);
    TotalStep(t.ledger, e, scope);
  }

  /** A correction of an entry of the scope moves the balance by exactly the amount asked
      for, once, and records what it corrects and why; without such an entry it is refused. */
  lemma AdjustmentsMoveTheBalanceOnce(t: Tables, e: Entry, originalId: string, reason: string, scope: Scope)
    ensures var out := RecordAdjustment(t, e, originalId, reason);
            && (out.Committed? ==>
                  && originalId != "" && reason != "" && (exists i :: Original(t.ledger, i, originalId, e.scope))
                  && out.result.duplicated == Holds(t.ledger, e.scope, e.key)
                  && (!out.result.duplicated ==>
                        && out.result.entry.amount == e.amount && out.result.entry.entryType == Adjustment
                        && out.result.entry.original == Some(originalId) && out.result.entry.reason == Some(reason)
                        && out.tables.ledger == t.ledger + [out.result.entry])
                  && Total(out.tables.ledger, scope) ==
                     Total(t.ledger, scope) + (if !out.result.duplicated && scope == e.scope then e.amount else 0))
            && (out.Failed? && out.error == OriginalNotFound && UniqueEntryIds(t.ledger) ==>
                  forall i :: !Original(t.ledger, i, originalId, e.scope))
  {
    hide FindKey, FindEntry, Total;
    FindEntryFinds(t.ledger, originalId);
    var i := FindEntry(t.ledger, originalId);
    if i >= 0 {
      assert t.ledger[i].scope == e.scope ==> Original(t.ledger, i, originalId, e.scope);
    }
    if UniqueEntryIds(t.ledger) && (i < 0 || t.ledger[i].scope != e.scope) {
      forall j: nat
        ensures !Original(t.ledger, j, originalId, e.scope)
      {
        assert i >= 0 && j < |t.ledger| && t.ledger[j].entryId == originalId ==> j == i;
      }
    }
    if Record(t, Correction(e, originalId, reason)).Committed? {
      EntriesMoveTheBalanceOnce(t, Correction(e, originalId, reason), scope);
    }
  }

  ghost predicate UniqueEntryIds(ledger: seq<Entry>) {
    forall i, j :: 0 <= i < j < |ledger| ==> ledger[i].entryId != ledger[j].entryId
  }

  ghost predicate Original(ledger: seq<Entry>, i: nat, originalId: string, scope: Scope) {
    i < |ledger| && ledger[i].entryId == originalId && ledger[i].scope == scope
  }
}
