/**
 Usage-to-ledger settlement: an append-only ledger, versioned pricing, and one
 settlement row per usage event.  Each transaction of the store is a function on
 its tables; BillingStore.dfy holds the class whose methods carry them out.
 */
module Billing {
  import opened Wrappers

  datatype Scope = Scope(tenantId: string, orgId: string, projectId: string)

  datatype EntryType = Charge | Adjustment

  datatype Entry = Entry(
    entryId: string, scope: Scope, jobId: Option<string>, entryType: EntryType, amount: int,
    pricingId: string, pricingVersion: string, sourceRef: string, key: string,
    original: Option<string>, reason: Option<string>)

  datatype PriceRow = PriceRow(version: string, unitPrices: map<string, int>, active: bool)

  datatype SettlementState = Pending | Settled | NonBillable | Unresolved

  datatype Settlement = Settlement(
    scope: Scope, jobId: string, kind: string, quantity: int, state: SettlementState,
    pricingId: Option<string>, pricingVersion: Option<string>, ledgerEntryId: Option<string>,
    amountMicro: Option<int>, nonBillableReason: Option<string>, lastError: Option<string>, attempts: nat)

  datatype EventKey = EventKey(tenantId: string, eventId: string)

  datatype Tables = Tables(
    pricing: map<string, PriceRow>, ledger: seq<Entry>, settlements: map<EventKey, Settlement>)

  datatype Usage = Usage(key: EventKey, orgId: string, projectId: string, jobId: string, kind: string, quantity: int)

  datatype Classification = Billable | NotBillable(reason: string)

  datatype BillingError = PricingExists | InvalidAdjustment | OriginalNotFound | EntryIdTaken

  /** A transaction either commits new tables with a result or changes nothing. */
  datatype Outcome<+R> = Committed(tables: Tables, result: R) | Failed(error: BillingError)

  datatype Recorded = Recorded(entry: Entry, duplicated: bool)
  datatype Settling = Settling(settlement: Settlement, entry: Option<Entry>, duplicated: bool)

  const NO_PRICING := "no active pricing version"

  const EMPTY := Tables(map[], [], map[])

  // ------------------------------------------------------------------
  // Pricing
  // ------------------------------------------------------------------

  function Price(unitPrices: map<string, int>, kind: string): int {
    if kind in unitPrices then unitPrices[kind] else 0
  }

  function Deactivated(pricing: map<string, PriceRow>): map<string, PriceRow> {
    map id | id in pricing :: pricing[id].(active := false)
  }

  function CreatePricing(t: Tables, id: string, version: string, unitPrices: map<string, int>, active: bool): Outcome<()> {
    if id in t.pricing then Failed(PricingExists)
    else
      var others := if active then Deactivated(t.pricing) else t.pricing;
      Committed(t.(pricing := others[id := PriceRow(version, unitPrices, active)]), ())
  }

  /** The id of the active pricing version, if any. */
  ghost function ActiveId(pricing: map<string, PriceRow>): Option<string> {
    if exists id :: id in pricing && pricing[id].active
    then var id :| id in pricing && pricing[id].active; Some(id)
    else None
  }

  // ------------------------------------------------------------------
  // Ledger
  // ------------------------------------------------------------------

  /** Index of the entry holding an idempotency key in a scope, or -1. */
  function FindKey(ledger: seq<Entry>, scope: Scope, key: string): int {
    if ledger == [] then -1
    else
      var n := |ledger| - 1;
      if ledger[n].scope == scope && ledger[n].key == key then n else FindKey(ledger[..n], scope, key)
  }

  function FindEntry(ledger: seq<Entry>, entryId: string): int {
    if ledger == [] then -1
    else
      var n := |ledger| - 1;
      if ledger[n].entryId == entryId then n else FindEntry(ledger[..n], entryId)
  }

  lemma {:induction false} FindKeyFinds(ledger: seq<Entry>, scope: Scope, key: string)
    ensures var i := FindKey(ledger, scope, key);
            -1 <= i < |ledger| && (i >= 0 ==> ledger[i].scope == scope && ledger[i].key == key)
    ensures FindKey(ledger, scope, key) == -1 ==>
              forall i :: 0 <= i < |ledger| ==> !(ledger[i].scope == scope && ledger[i].key == key)
  {
    if ledger != [] {
      FindKeyFinds(ledger[..|ledger| - 1], scope, key);
    }
  }

  lemma {:induction false} FindEntryFinds(ledger: seq<Entry>, entryId: string)
    ensures var i := FindEntry(ledger, entryId);
            -1 <= i < |ledger| && (i >= 0 ==> ledger[i].entryId == entryId)
    ensures FindEntry(ledger, entryId) == -1 ==> forall i :: 0 <= i < |ledger| ==> ledger[i].entryId != entryId
  {
    if ledger != [] {
      FindEntryFinds(ledger[..|ledger| - 1], entryId);
    }
  }

  /** INSERT .. ON CONFLICT (scope, idempotency key) DO NOTHING, then read the row back. */
  function Record(t: Tables, e: Entry): Outcome<Recorded> {
    FindKeyFinds(t.ledger, e.scope, e.key);
    var i := FindKey(t.ledger, e.scope, e.key);
    if i >= 0 then Committed(t, Recorded(t.ledger[i], true))
    else if FindEntry(t.ledger, e.entryId) >= 0 then Failed(EntryIdTaken)
    else Committed(t.(ledger := t.ledger + [e]), Recorded(e, false))
  }

  /** An entry of `charge` or `adjust`, which correct nothing. */
  function Plain(e: Entry): Entry {
    e.(original := None, reason := None)
  }

  function RecordAdjustment(t: Tables, e: Entry, originalId: string, reason: string): Outcome<Recorded> {
    if originalId == "" || reason == "" then Failed(InvalidAdjustment)
    else
      FindEntryFinds(t.ledger, originalId);
      var i := FindEntry(t.ledger, originalId);
      if i < 0 || t.ledger[i].scope != e.scope then Failed(OriginalNotFound)
      else Record(t, Correction(e, originalId, reason))
  }

  function Correction(e: Entry, originalId: string, reason: string): Entry {
    e.(entryType := Adjustment, sourceRef := "adjustment:" + originalId,
       original := Some(originalId), reason := Some(reason))
  }

  // ------------------------------------------------------------------
  // Settlement
  // ------------------------------------------------------------------

  function SettleKey(k: EventKey): string {
    "settle:" + k.tenantId + ":" + k.eventId
  }

  function ScopeOf(u: Usage): Scope {
    Scope(u.key.tenantId, u.orgId, u.projectId)
  }

  function PendingRow(u: Usage): Settlement {
    Settlement(ScopeOf(u), u.jobId, u.kind, u.quantity, Pending, None, None, None, None, None, None, 0)
  }

  predicate Final(s: SettlementState) {
    s == Settled || s == NonBillable
  }

  /** The row a delivery works on, with its attempt counted. */
  function Attempted(t: Tables, u: Usage): Settlement {
    var row := if u.key in t.settlements then t.settlements[u.key] else PendingRow(u);
    row.(attempts := row.attempts + 1)
  }

  function SettlementEntry(u: Usage, entryId: string, pricingId: string, p: PriceRow): Entry {
    Entry(entryId, ScopeOf(u), Some(u.jobId), Charge, Price(p.unitPrices, u.kind) * u.quantity,
          pricingId, p.version, u.key.eventId, SettleKey(u.key), None, None)
  }

  function MarkSettled(row: Settlement, e: Entry): Settlement {
    row.(state := Settled, pricingId := Some(e.pricingId), pricingVersion := Some(e.pricingVersion),
         ledgerEntryId := Some(e.entryId), amountMicro := Some(e.amount), lastError := None)
  }

  ghost function SettleUsage(t: Tables, u: Usage, c: Classification, entryId: string): Outcome<Settling> {
    if u.key in t.settlements && Final(t.settlements[u.key].state) then
      var row := t.settlements[u.key];
      Committed(t, Settling(row, LinkedEntry(t, row), true))
    else
      var row := Attempted(t, u);
      if c.NotBillable? then
        var done := row.(state := NonBillable, nonBillableReason := Some(c.reason));
        Committed(t.(settlements := t.settlements[u.key := done]), Settling(done, None, false))
      else
        var active := ActiveId(t.pricing);
        if active.None? || active.value !in t.pricing then
          var done := row.(state := Unresolved, lastError := Some(NO_PRICING));
          Committed(t.(settlements := t.settlements[u.key := done]), Settling(done, None, false))
        else
          match Record(t, SettlementEntry(u, entryId, active.value, t.pricing[active.value]))
          case Failed(error) => Failed(error)
          case Committed(t', rec) =>
            var done := MarkSettled(row, rec.entry);
            Committed(t'.(settlements := t'.settlements[u.key := done]),
                      Settling(done, Some(rec.entry), rec.duplicated))
  }

  function LinkedEntry(t: Tables, row: Settlement): Option<Entry> {
    if row.ledgerEntryId.None? then None
    else
      FindEntryFinds(t.ledger, row.ledgerEntryId.value);
      var i := FindEntry(t.ledger, row.ledgerEntryId.value);
      if i < 0 then None else Some(t.ledger[i])
  }

  function MarkUnresolved(t: Tables, k: EventKey, reason: string): Tables {
    if k in t.settlements && !Final(t.settlements[k].state)
    then t.(settlements := t.settlements[k := t.settlements[k].(state := Unresolved, lastError := Some(reason))])
    else t
  }

  // ------------------------------------------------------------------
  // Operation sequences
  // ------------------------------------------------------------------

  datatype Op =
    | OpPricing(id: string, version: string, unitPrices: map<string, int>, active: bool)
    | OpCharge(entry: Entry)
    | OpAdjust(entry: Entry, originalId: string, reason: string)
    | OpSettle(usage: Usage, classification: Classification, entryId: string)
    | OpUnresolved(key: EventKey, reason: string)

  ghost function Apply(t: Tables, op: Op): Tables {
    match op
    case OpPricing(id, version, unitPrices, active) =>
      (match CreatePricing(t, id, version, unitPrices, active) case Committed(t', _) => t' case Failed(_) => t)
    case OpCharge(e) =>
      (match Record(t, Plain(e)) case Committed(t', _) => t' case Failed(_) => t)
    case OpAdjust(e, originalId, reason) =>
      (match RecordAdjustment(t, e, originalId, reason) case Committed(t', _) => t' case Failed(_) => t)
    case OpSettle(u, c, entryId) =>
      (match SettleUsage(t, u, c, entryId) case Committed(t', _) => t' case Failed(_) => t)
    case OpUnresolved(k, reason) => MarkUnresolved(t, k, reason)
  }

  ghost function Run(t: Tables, ops: seq<Op>): Tables {
    if ops == [] then t else Apply(Run(t, ops[..|ops| - 1]), ops[|ops| - 1])
  }

  // ------------------------------------------------------------------
  // Integrity
  // ------------------------------------------------------------------

  /** The entry a settled row points to, with the amount and pricing it pinned. */
  ghost predicate Pins(e: Entry, k: EventKey, row: Settlement) {
    && row.ledgerEntryId == Some(e.entryId) && row.amountMicro == Some(e.amount)
    && row.pricingId == Some(e.pricingId) && row.pricingVersion == Some(e.pricingVersion)
    && e.scope.tenantId == k.tenantId && e.key == SettleKey(k)
  }

  ghost predicate RowIsSound(t: Tables, k: EventKey, row: Settlement) {
    && row.state != Pending
    && (row.state == Settled ==> exists i :: 0 <= i < |t.ledger| && Pins(t.ledger[i], k, row))
    && (row.state != Settled ==> row.ledgerEntryId == None)
  }

  ghost predicate LedgerIsSound(ledger: seq<Entry>) {
    && (forall i, j :: 0 <= i < j < |ledger| ==> ledger[i].entryId != ledger[j].entryId)
    && (forall i, j :: 0 <= i < j < |ledger| ==> ledger[i].scope != ledger[j].scope || ledger[i].key != ledger[j].key)
    && (forall i :: 0 <= i < |ledger| && ledger[i].original.Some? ==> HasOriginal(ledger, i))
  }

  /** Entry i corrects an earlier entry of its own scope. */
  ghost predicate HasOriginal(ledger: seq<Entry>, i: nat)
    requires i < |ledger| && ledger[i].original.Some?
  {
    exists j :: 0 <= j < i && ledger[j].entryId == ledger[i].original.value && ledger[j].scope == ledger[i].scope
  }

  ghost predicate OneActive(pricing: map<string, PriceRow>) {
    forall a, b :: a in pricing && b in pricing && pricing[a].active && pricing[b].active ==> a == b
  }

  ghost predicate Integrity(t: Tables) {
    && LedgerIsSound(t.ledger)
    && OneActive(t.pricing)
    && (forall k :: k in t.settlements ==> RowIsSound(t, k, t.settlements[k]))
  }

  /** Later tables keep every entry and every final settlement as they were. */
  ghost predicate Extends(a: Tables, b: Tables) {
    && a.ledger <= b.ledger
    && (forall k :: k in a.settlements ==> k in b.settlements)
    && (forall k :: k in a.settlements && Final(a.settlements[k].state) ==> b.settlements[k] == a.settlements[k])
  }

  lemma SoundRowsSurvive(a: Tables, b: Tables, k: EventKey, row: Settlement)
    requires RowIsSound(a, k, row) && a.ledger <= b.ledger
    ensures RowIsSound(b, k, row)
  {
    if row.state == Settled {
      var i :| 0 <= i < |a.ledger| && Pins(a.ledger[i], k, row);
      assert b.ledger[i] == a.ledger[i];
    }
  }

  lemma RecordIsSound(t: Tables, e: Entry)
    requires LedgerIsSound(t.ledger)
    requires e.original.Some? ==>
               exists j :: 0 <= j < |t.ledger| && t.ledger[j].entryId == e.original.value && t.ledger[j].scope == e.scope
    ensures Record(t, e).Committed? ==> LedgerIsSound(Record(t, e).tables.ledger)
    ensures Record(t, e).Committed? ==> t.ledger <= Record(t, e).tables.ledger
  {
    FindKeyFinds(t.ledger, e.scope, e.key);
    FindEntryFinds(t.ledger, e.entryId);
    var l := t.ledger + [e];
    forall i | 0 <= i < |l| && l[i].original.Some? && FindKey(t.ledger, e.scope, e.key) < 0
      ensures HasOriginal(l, i)
    {
      if i < |t.ledger| {
        assert HasOriginal(t.ledger, i);
        var j :| 0 <= j < i && t.ledger[j].entryId == t.ledger[i].original.value && t.ledger[j].scope == t.ledger[i].scope;
        assert l[j] == t.ledger[j];
      } else {
        var j :| 0 <= j < |t.ledger| && t.ledger[j].entryId == e.original.value && t.ledger[j].scope == e.scope;
        assert l[j] == t.ledger[j];
      }
    }
  }

  lemma ActiveIdFinds(pricing: map<string, PriceRow>)
    ensures var a := ActiveId(pricing); a.Some? ==> a.value in pricing && pricing[a.value].active
    ensures ActiveId(pricing).None? ==> forall id :: id in pricing ==> !pricing[id].active
  {
  }

  lemma SettleIsSound(t: Tables, u: Usage, c: Classification, entryId: string)
    requires Integrity(t)
    ensures SettleUsage(t, u, c, entryId).Committed? ==>
              Integrity(SettleUsage(t, u, c, entryId).tables) && Extends(t, SettleUsage(t, u, c, entryId).tables)
  {
    var out := SettleUsage(t, u, c, entryId);
    if u.key in t.settlements && Final(t.settlements[u.key].state) {
    } else if c.Billable? && ActiveId(t.pricing).Some? {
      ActiveIdFinds(t.pricing);
      var id := ActiveId(t.pricing).value;
      var e := SettlementEntry(u, entryId, id, t.pricing[id]);
      FindKeyFinds(t.ledger, e.scope, e.key);
      RecordIsSound(t, e);
      if Record(t, e).Committed? {
        ChargedIsSound(t, u, entryId);
      }
    } else {
      NotChargedIsSound(t, u, c, entryId);
    }
  }

  lemma NotChargedIsSound(t: Tables, u: Usage, c: Classification, entryId: string)
    requires Integrity(t)
    requires !(u.key in t.settlements && Final(t.settlements[u.key].state))
    requires c.NotBillable? || ActiveId(t.pricing).None?
    ensures SettleUsage(t, u, c, entryId).Committed?
    ensures Integrity(SettleUsage(t, u, c, entryId).tables) && Extends(t, SettleUsage(t, u, c, entryId).tables)
  {
    var t' := SettleUsage(t, u, c, entryId).tables;
    forall k | k in t'.settlements
      ensures RowIsSound(t', k, t'.settlements[k])
    {
      if k != u.key {
        SoundRowsSurvive(t, t', k, t.settlements[k]);
      }
    }
  }

  lemma ChargedIsSound(t: Tables, u: Usage, entryId: string)
    requires Integrity(t)
    requires !(u.key in t.settlements && Final(t.settlements[u.key].state))
    requires ActiveId(t.pricing).Some? && ActiveId(t.pricing).value in t.pricing
    requires Record(t, SettlementEntry(u, entryId, ActiveId(t.pricing).value, t.pricing[ActiveId(t.pricing).value])).Committed?
    ensures SettleUsage(t, u, Billable, entryId).Committed?
    ensures Integrity(SettleUsage(t, u, Billable, entryId).tables)
    ensures Extends(t, SettleUsage(t, u, Billable, entryId).tables)
  {
    hide ActiveId, LedgerIsSound, OneActive, RowIsSound;
    var id := ActiveId(t.pricing).value;
    var e := SettlementEntry(u, entryId, id, t.pricing[id]);
    RecordIsSound(t, e);
    FindKeyFinds(t.ledger, e.scope, e.key);
    var t' := SettleUsage(t, u, Billable, entryId).tables;
    var row := t'.settlements[u.key];
    var i := if FindKey(t.ledger, e.scope, e.key) >= 0 then FindKey(t.ledger, e.scope, e.key) else |t.ledger|;
    PinnedIsSound(t', u.key, row, i);
    forall k | k in t'.settlements
      ensures RowIsSound(t', k, t'.settlements[k])
    {
      if k != u.key {
        SoundRowsSurvive(t, t', k, t.settlements[k]);
      }
    }
  }

  lemma PinnedIsSound(t: Tables, k: EventKey, row: Settlement, i: nat)
    requires i < |t.ledger| && row.state == Settled && Pins(t.ledger[i], k, row)
    ensures RowIsSound(t, k, row)
  {
  }

  /** Every operation keeps the store sound and only ever adds to it. */
  lemma ApplyIsSound(t: Tables, op: Op)
    requires Integrity(t)
    ensures Integrity(Apply(t, op)) && Extends(t, Apply(t, op))
  {
    hide LedgerIsSound, SettleUsage, Record, ActiveId;
    var t' := Apply(t, op);
    match op
    case OpPricing(_, _, _, _) => SameLedgerIsSound(t, t');
    case OpCharge(e) =>
      RecordIsSound(t, Plain(e));
      RecordKeepsRest(t, Plain(e));
      SameRowsAreSound(t, t');
    case OpAdjust(e, originalId, reason) =>
      AdjustIsSound(t, e, originalId, reason);
      SameRowsAreSound(t, t');
    case OpSettle(u, c, entryId) => SettleIsSound(t, u, c, entryId);
    case OpUnresolved(_, _) => SameLedgerIsSound(t, t');
  }

  lemma RecordKeepsRest(t: Tables, e: Entry)
    ensures Record(t, e).Committed? ==>
              Record(t, e).tables.settlements == t.settlements && Record(t, e).tables.pricing == t.pricing
  {
  }

  lemma AdjustIsSound(t: Tables, e: Entry, originalId: string, reason: string)
    requires LedgerIsSound(t.ledger)
    ensures var out := RecordAdjustment(t, e, originalId, reason);
            out.Committed? ==>
              && LedgerIsSound(out.tables.ledger) && t.ledger <= out.tables.ledger
              && out.tables.settlements == t.settlements && out.tables.pricing == t.pricing
  {
    hide LedgerIsSound, Record;
    FindEntryFinds(t.ledger, originalId);
    var i := FindEntry(t.ledger, originalId);
    if originalId != "" && reason != "" && i >= 0 && t.ledger[i].scope == e.scope {
      RecordIsSound(t, Correction(e, originalId, reason));
      RecordKeepsRest(t, Correction(e, originalId, reason));
    }
  }

  lemma SameLedgerIsSound(t: Tables, t': Tables)
    requires Integrity(t) && t'.ledger == t.ledger && OneActive(t'.pricing)
    requires forall k :: k in t'.settlements ==>
               k in t.settlements && (t'.settlements[k] == t.settlements[k] ||
                 (!Final(t.settlements[k].state) && t'.settlements[k].state == Unresolved &&
                  t'.settlements[k].ledgerEntryId == t.settlements[k].ledgerEntryId))
    requires forall k :: k in t.settlements ==> k in t'.settlements
    ensures Integrity(t') && Extends(t, t')
  {
    forall k | k in t'.settlements
      ensures RowIsSound(t', k, t'.settlements[k])
    {
      SoundRowsSurvive(t, t', k, t.settlements[k]);
    }
  }

  lemma SameRowsAreSound(t: Tables, t': Tables)
    requires Integrity(t) && LedgerIsSound(t'.ledger) && t.ledger <= t'.ledger
    requires t'.settlements == t.settlements && t'.pricing == t.pricing
    ensures Integrity(t') && Extends(t, t')
  {
    forall k | k in t'.settlements
      ensures RowIsSound(t', k, t'.settlements[k])
    {
      SoundRowsSurvive(t, t', k, t.settlements[k]);
    }
  }

  /** Over every operation sequence the store stays sound: entry ids and keys are
      unique, rows are settled, non-billable or unresolved, a settled row pins its
      entry's amount and pricing, and one pricing version at most is active. */
  lemma {:induction false} LedgerIntegrity(ops: seq<Op>)
    ensures Integrity(Run(EMPTY, ops))
  {
    if ops != [] {
      LedgerIntegrity(ops[..|ops| - 1]);
      ApplyIsSound(Run(EMPTY, ops[..|ops| - 1]), ops[|ops| - 1]);
    }
  }

  /** Nothing recorded is ever altered: the tables after a history extend the
      tables after each of its prefixes. */
  lemma {:induction false} HistoryOnlyGrows(ops: seq<Op>, n: nat)
    requires n <= |ops|
    ensures Extends(Run(EMPTY, ops[..n]), Run(EMPTY, ops))
  {
    hide Apply, Integrity, SettleUsage;
    if n == |ops| {
      assert ops[..n] == ops;
    } else {
      var init := ops[..|ops| - 1];
      HistoryOnlyGrows(init, n);
      assert init[..n] == ops[..n];
      LedgerIntegrity(init);
      ApplyIsSound(Run(EMPTY, init), ops[|ops| - 1]);
    }
  }

  /** Following the corrected entry from any entry ends at an entry that corrects
      nothing, without leaving the scope. */
  ghost function Origin(ledger: seq<Entry>, i: nat): (r: nat)
    requires LedgerIsSound(ledger) && i < |ledger|
    ensures r <= i && ledger[r].scope == ledger[i].scope && ledger[r].original == None
    decreases i
  {
    if ledger[i].original.None? then i
    else
      assert HasOriginal(ledger, i);
      var j :| 0 <= j < i && ledger[j].entryId == ledger[i].original.value && ledger[j].scope == ledger[i].scope;
      Origin(ledger, j)
  }

  // ------------------------------------------------------------------
  // Balances
  // ------------------------------------------------------------------

  function Total(ledger: seq<Entry>, scope: Scope): int {
    if ledger == [] then 0
    else
      var e := ledger[|ledger| - 1];
      Total(ledger[..|ledger| - 1], scope) + if e.scope == scope then e.amount else 0
  }

  function TotalOf(ledger: seq<Entry>, scope: Scope, t: EntryType): int {
    if ledger == [] then 0
    else
      var e := ledger[|ledger| - 1];
      TotalOf(ledger[..|ledger| - 1], scope, t) + if e.scope == scope && e.entryType == t then e.amount else 0
  }

  lemma {:induction false} TotalSplits(ledger: seq<Entry>, scope: Scope)
    ensures Total(ledger, scope) == TotalOf(ledger, scope, Charge) + TotalOf(ledger, scope, Adjustment)
  {
    if ledger != [] {
      TotalSplits(ledger[..|ledger| - 1], scope);
    }
  }
}
