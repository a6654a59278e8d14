/**
 The billing store itself: tables changed in place by its methods, each method
 one transaction of Billing.dfy.
 */
module BillingStore {
  import opened Wrappers
  import opened Billing

  datatype Reply<+R> = Ok(result: R) | Error(error: BillingError)

  /** The tables after a transaction and the reply to its caller. */
  ghost predicate Performs<R>(before: Tables, after: Tables, reply: Reply<R>, out: Outcome<R>) {
    match out
    case Committed(t, result) => after == t && reply == Ok(result)
    case Failed(error) => after == before && reply == Error(error)
  }

  class SqlBillingStore {
    var pricing: map<string, PriceRow>
    var ledger: seq<Entry>
    var settlements: map<EventKey, Settlement>

    ghost function State(): Tables
      reads this
    {
      Tables(pricing, ledger, settlements)
    }

    ghost predicate Valid()
      reads this
    {
      Integrity(State())
    }

    constructor ()
      ensures State() == EMPTY && Valid()
    {
      pricing, ledger, settlements := map[], [], map[];
    }

    /** Create a pricing version, superseding the active one if asked to. */
    method CreatePricingVersion(id: string, version: string, unitPrices: map<string, int>, active: bool)
      returns (r: Reply<()>)
      requires Valid()
      modifies this
      ensures Valid()
      ensures Performs(old(State()), State(), r, CreatePricing(old(State()), id, version, unitPrices, active))
    {
      ApplyIsSound(State(), OpPricing(id, version, unitPrices, active));
      if id in pricing {
        return Error(PricingExists);
      }
      if active {
        pricing := map i | i in pricing :: pricing[i].(active := false);
      }
      pricing := pricing[id := PriceRow(version, unitPrices, active)];
      r := Ok(());
    }

    method SelectByKey(scope: Scope, key: string) returns (i: int)
      ensures i == FindKey(ledger, scope, key)
    {
      i := |ledger| - 1;
      assert ledger[..i + 1] == ledger;
      while i >= 0 && !(ledger[i].scope == scope && ledger[i].key == key)
        invariant -1 <= i < |ledger|
        invariant FindKey(ledger, scope, key) == FindKey(ledger[..i + 1], scope, key)
      {
        assert ledger[..i + 1][..i] == ledger[..i];
        i := i - 1;
      }
    }

    method SelectById(entryId: string) returns (i: int)
      ensures i == FindEntry(ledger, entryId)
    {
      i := |ledger| - 1;
      assert ledger[..i + 1] == ledger;
      while i >= 0 && ledger[i].entryId != entryId
        invariant -1 <= i < |ledger|
        invariant FindEntry(ledger, entryId) == FindEntry(ledger[..i + 1], entryId)
      {
        assert ledger[..i + 1][..i] == ledger[..i];
        i := i - 1;
      }
    }

    /** Insert an entry unless its scope already holds its idempotency key. */
    method InsertEntry(e: Entry) returns (r: Reply<Recorded>)
      modifies this`ledger
      ensures Performs(old(State()), State(), r, Record(old(State()), e))
    {
      FindKeyFinds(ledger, e.scope, e.key);
      var i := SelectByKey(e.scope, e.key);
      if i >= 0 {
        return Ok(Recorded(ledger[i], true));
      }
      var j := SelectById(e.entryId);
      if j >= 0 {
        return Error(EntryIdTaken);
      }
      ledger := ledger + [e];
      r := Ok(Recorded(e, false));
    }

    /** Charge a quantity at the unit price of the given pricing version. */
    method Charge(entryId: string, scope: Scope, jobId: Option<string>, kind: string, quantity: int,
                  sourceRef: string, key: string, pricingId: string, version: string, unitPrices: map<string, int>)
      returns (r: Reply<Recorded>)
      requires Valid()
      modifies this
      ensures Valid()
      ensures Performs(old(State()), State(), r, Record(old(State()),
                Entry(entryId, scope, jobId, EntryType.Charge, Price(unitPrices, kind) * quantity,
                      pricingId, version, sourceRef, key, None, None)))
    {
      var unitPrice := if kind in unitPrices then unitPrices[kind] else 0;
      var e := Entry(entryId, scope, jobId, EntryType.Charge, unitPrice * quantity,
                     pricingId, version, sourceRef, key, None, None);
      ApplyIsSound(State(), OpCharge(e));
      assert Plain(e) == e;
      r := InsertEntry(e);
    }

    /** Record a credit: the amount is stored negated. */
    method Adjust(entryId: string, scope: Scope, jobId: Option<string>, amountMicro: int,
                  sourceRef: string, key: string, pricingId: string, version: string)
      returns (r: Reply<Recorded>)
      requires Valid()
      modifies this
      ensures Valid()
      ensures Performs(old(State()), State(), r, Record(old(State()),
                Entry(entryId, scope, jobId, Adjustment, -amountMicro,
                      pricingId, version, sourceRef, key, None, None)))
    {
      var e := Entry(entryId, scope, jobId, Adjustment, -amountMicro, pricingId, version, sourceRef, key, None, None);
      ApplyIsSound(State(), OpCharge(e));
      assert Plain(e) == e;
      r := InsertEntry(e);
    }

    /** Record a correction of an entry that must exist in the same scope. */
    method RecordAdjustment(entryId: string, scope: Scope, jobId: Option<string>, amountMicro: int, key: string,
                            pricingId: string, version: string, originalId: string, reason: string)
      returns (r: Reply<Recorded>)
      requires Valid()
      modifies this
      ensures Valid()
      ensures Performs(old(State()), State(), r, Billing.RecordAdjustment(old(State()),
                Entry(entryId, scope, jobId, Adjustment, amountMicro, pricingId, version, "", key, None, None),
                originalId, reason))
    {
      var e := Entry(entryId, scope, jobId, Adjustment, amountMicro, pricingId, version, "", key, None, None);
      ApplyIsSound(State(), OpAdjust(e, originalId, reason));
      if originalId == "" || reason == "" {
        return Error(InvalidAdjustment);
      }
      FindEntryFinds(ledger, originalId);
      var i := SelectById(originalId);
      if i < 0 || ledger[i].scope != scope {
        return Error(OriginalNotFound);
      }
      r := InsertEntry(e.(sourceRef := "adjustment:" + originalId, original := Some(originalId), reason := Some(reason)));
    }

    /** The active pricing version. */
    method SelectActive() returns (id: Option<string>)
      requires Valid()
      ensures id == ActiveId(pricing)
      ensures id.Some? ==> id.value in pricing
    {
      ActiveIdFinds(pricing);
      if i :| i in pricing && pricing[i].active {
        id := Some(i);
      } else {
        id := None;
      }
    }

    /** Settle one delivery of a usage event. */
    method SettleUsage(u: Usage, c: Classification, entryId: string) returns (r: Reply<Settling>)
      requires Valid()
      modifies this
      ensures Valid()
      ensures Performs(old(State()), State(), r, Billing.SettleUsage(old(State()), u, c, entryId))
    {
      hide Integrity, Record, FindKey, FindEntry, ActiveId;
      ghost var before := State();
      ApplyIsSound(before, OpSettle(u, c, entryId));
      var row := if u.key in settlements then settlements[u.key] else PendingRow(u);
      if Final(row.state) {
        var linked: Option<Entry> := None;
        if row.ledgerEntryId.Some? {
          FindEntryFinds(ledger, row.ledgerEntryId.value);
          var i := SelectById(row.ledgerEntryId.value);
          if i >= 0 {
            linked := Some(ledger[i]);
          }
        }
        return Ok(Settling(row, linked, true));
      }
      row := row.(attempts := row.attempts + 1);
      if c.NotBillable? {
        row := row.(state := NonBillable, nonBillableReason := Some(c.reason));
        settlements := settlements[u.key := row];
        return Ok(Settling(row, None, false));
      }
      var active := SelectActive();
      if active.None? {
        row := row.(state := Unresolved, lastError := Some(NO_PRICING));
        settlements := settlements[u.key := row];
        return Ok(Settling(row, None, false));
      }
      var p := pricing[active.value];
      var amount := Price(p.unitPrices, u.kind) * u.quantity;
      var e := Entry(entryId, ScopeOf(u), Some(u.jobId), EntryType.Charge, amount,
                     active.value, p.version, u.key.eventId, SettleKey(u.key), None, None);
      assert e == SettlementEntry(u, entryId, active.value, p);
      var inserted := InsertEntry(e);
      if inserted.Error? {
        return Error(inserted.error);
      }
      var entry := inserted.result.entry;
      row := row.(state := Settled, pricingId := Some(entry.pricingId), pricingVersion := Some(entry.pricingVersion),
                  ledgerEntryId := Some(entry.entryId), amountMicro := Some(entry.amount), lastError := None);
      settlements := settlements[u.key := row];
      r := Ok(Settling(row, Some(entry), inserted.result.duplicated));
    }

    /** Park an event that is not final yet. */
    method MarkUsageUnresolved(k: EventKey, reason: string) returns (r: Option<Settlement>)
      requires Valid()
      modifies this
      ensures Valid()
      ensures State() == MarkUnresolved(old(State()), k, reason)
      ensures r == if k in settlements then Some(settlements[k]) else None
    {
      ApplyIsSound(State(), OpUnresolved(k, reason));
      if k !in settlements {
        return None;
      }
      if !Final(settlements[k].state) {
        settlements := settlements[k := settlements[k].(state := Unresolved, lastError := Some(reason))];
      }
      r := Some(settlements[k]);
    }

    /** The balance of a scope, with what was charged and what was credited. */
    method GetBalance(scope: Scope) returns (balance: int, charges: int, credits: int)
      ensures balance == Total(ledger, scope)
      ensures charges == TotalOf(ledger, scope, EntryType.Charge)
      ensures credits == -TotalOf(ledger, scope, Adjustment)
      ensures balance == charges - credits
    {
      balance, charges, credits := 0, 0, 0;
      for i := 0 to |ledger|
        invariant balance == Total(ledger[..i], scope)
        invariant charges == TotalOf(ledger[..i], scope, EntryType.Charge)
        invariant credits == -TotalOf(ledger[..i], scope, Adjustment)
      {
        var row := ledger[i];
        assert ledger[..i + 1][..i] == ledger[..i];
        if row.scope == scope {
          if row.entryType == EntryType.Charge {
            balance := balance + row.amount;
            charges := charges + row.amount;
          } else {
            balance := balance + row.amount;
            credits := credits + -row.amount;
          }
        }
      }
      assert ledger[..|ledger|] == ledger;
      TotalSplits(ledger, scope);
    }
  }
}
