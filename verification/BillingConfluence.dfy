/**
 What a history of usage deliveries charges, whatever the order, the duplicates
 and the price changes in it.
 */
module BillingConfluence {
  import opened Wrappers
  import opened Billing

  /** The one input and classification an event is always delivered with. */
  datatype Metered = Metered(orgId: string, projectId: string, jobId: string, kind: string, quantity: int,
                             classification: Classification)

  type Catalog = EventKey -> Metered

  datatype Step =
    | Deliver(key: EventKey, entryId: string)
    | Publish(id: string, version: string, unitPrices: map<string, int>, active: bool)
    | GiveUp(key: EventKey, reason: string)

  ghost function UsageOf(cat: Catalog, k: EventKey): Usage {
    var m := cat(k);
    Usage(k, m.orgId, m.projectId, m.jobId, m.kind, m.quantity)
  }

  ghost function OpOf(cat: Catalog, s: Step): Op {
    match s
    case Deliver(k, entryId) => OpSettle(UsageOf(cat, k), cat(k).classification, entryId)
    case Publish(id, version, unitPrices, active) => OpPricing(id, version, unitPrices, active)
    case GiveUp(k, reason) => OpUnresolved(k, reason)
  }

  ghost function After(cat: Catalog, h: seq<Step>): Tables {
    if h == [] then EMPTY else Apply(After(cat, h[..|h| - 1]), OpOf(cat, h[|h| - 1]))
  }

  /** Ledger entry ids are freshly drawn. */
  ghost predicate FreshIds(h: seq<Step>) {
    forall i, j :: 0 <= i < j < |h| && h[i].Deliver? && h[j].Deliver? ==> h[i].entryId != h[j].entryId
  }

  // ------------------------------------------------------------------
  // The reference: a price book and what each event owes
  // ------------------------------------------------------------------

  datatype Book = Book(known: set<string>, prices: Option<map<string, int>>)

  ghost function BookAfter(h: seq<Step>): Book {
    if h == [] then Book({}, None)
    else
      var b := BookAfter(h[..|h| - 1]);
      var s := h[|h| - 1];
      if s.Publish? && s.id !in b.known then
        Book(b.known + {s.id}, if s.active then Some(s.unitPrices) else b.prices)
      else b
  }

  ghost function AmountAt(cat: Catalog, k: EventKey, prices: map<string, int>): int {
    Price(prices, cat(k).kind) * cat(k).quantity
  }

  /** Each charged event with its amount: fixed at its first delivery that finds prices. */
  ghost function Owed(cat: Catalog, h: seq<Step>): map<EventKey, int> {
    if h == [] then map[]
    else
      var init := h[..|h| - 1];
      var owed := Owed(cat, init);
      var s := h[|h| - 1];
      if s.Deliver? && s.key !in owed && cat(s.key).classification.Billable? && BookAfter(init).prices.Some?
      then owed[s.key := AmountAt(cat, s.key, BookAfter(init).prices.value)]
      else owed
  }

  ghost predicate Resolvable(cat: Catalog, h: seq<Step>, k: EventKey, i: nat) {
    && i < |h| && h[i].Deliver? && h[i].key == k
    && cat(k).classification.Billable? && BookAfter(h[..i]).prices.Some?
  }

  ghost predicate FirstResolvable(cat: Catalog, h: seq<Step>, k: EventKey, i: nat) {
    Resolvable(cat, h, k, i) && forall j: nat :: j < i ==> !Resolvable(cat, h, k, j)
  }

  /** The recursion above says what it should: an event owes exactly if some
      delivery of it is resolvable, and then the price of the first such one. */
  lemma {:induction false} OwedAtFirstResolvable(cat: Catalog, h: seq<Step>, k: EventKey)
    ensures k in Owed(cat, h) <==> exists i: nat :: Resolvable(cat, h, k, i)
    ensures forall i: nat :: FirstResolvable(cat, h, k, i) ==>
              k in Owed(cat, h) && BookAfter(h[..i]).prices.Some? && Owed(cat, h)[k] == AmountAt(cat, k, BookAfter(h[..i]).prices.value)
  {
    hide BookAfter, AmountAt, Resolvable;
    if h == [] {
      NeverResolvable(cat, k);
    } else {
      var n := |h| - 1;
      var init := h[..n];
      OwedAtFirstResolvable(cat, init, k);
      ResolvableSoFar(cat, h, k);
      if k in Owed(cat, init) {
        var i: nat :| Resolvable(cat, init, k, i);
        assert Resolvable(cat, h, k, i);
      }
      forall i: nat | FirstResolvable(cat, h, k, i)
        ensures k in Owed(cat, h) && BookAfter(h[..i]).prices.Some?
        ensures Owed(cat, h)[k] == AmountAt(cat, k, BookAfter(h[..i]).prices.value)
      {
        if i < n {
          assert FirstResolvable(cat, init, k, i);
        } else {
          assert h[..i] == init;
        }
      }
    }
  }

  lemma NeverResolvable(cat: Catalog, k: EventKey)
    ensures forall i: nat :: !Resolvable(cat, [], k, i)
  {
  }

  lemma ResolvableSoFar(cat: Catalog, h: seq<Step>, k: EventKey)
    requires h != []
    ensures var init := h[..|h| - 1];
            && (forall i: nat :: i < |h| - 1 ==>
                  h[..i] == init[..i] && (Resolvable(cat, init, k, i) <==> Resolvable(cat, h, k, i)))
            && (forall i: nat :: i >= |h| - 1 ==> !Resolvable(cat, init, k, i))
            && (forall i: nat :: i >= |h| ==> !Resolvable(cat, h, k, i))
            && (forall i: nat :: Resolvable(cat, h, k, i) ==> BookAfter(h[..i]).prices.Some?)
            && (Resolvable(cat, h, k, |h| - 1) <==>
                (h[|h| - 1].Deliver? && h[|h| - 1].key == k && cat(k).classification.Billable? && BookAfter(init).prices.Some?))
  {
    hide BookAfter;
    var init := h[..|h| - 1];
    forall i: nat | i < |h| - 1
      ensures h[..i] == init[..i]
    {
    }
  }

  // ------------------------------------------------------------------
  // Sums over finite maps
  // ------------------------------------------------------------------

  ghost function Sum(m: map<EventKey, int>): int
    decreases |m|
  {
    if m == map[] then 0
    else
      var k :| k in m;
      assert |m - {k}| < |m| by {
        assert m == (m - {k})[k := m[k]];
      }
      m[k] + Sum(m - {k})
  }

  lemma {:induction false} SumInsert(m: map<EventKey, int>, k: EventKey, x: int)
    requires k !in m
    ensures Sum(m[k := x]) == Sum(m) + x
    decreases |m|
  {
    var m' := m[k := x];
    assert k in m';
    var c :| c in m' && Sum(m') == m'[c] + Sum(m' - {c});
    if c == k {
      assert m' - {c} == m;
    } else {
      var r := m - {c};
      assert m == r[c := m[c]];
      SumInsert(r, c, m[c]);
      assert m' - {c} == r[k := x];
      SumInsert(r, k, x);
    }
  }

  // ------------------------------------------------------------------
  // The store agrees with the reference
  // ------------------------------------------------------------------

  ghost function ScopeFor(cat: Catalog, k: EventKey): Scope {
    Scope(k.tenantId, cat(k).orgId, cat(k).projectId)
  }

  ghost function InScope(cat: Catalog, owed: map<EventKey, int>, scope: Scope): map<EventKey, int> {
    map k | k in owed && ScopeFor(cat, k) == scope :: owed[k]
  }

  ghost predicate PricesAgree(pricing: map<string, PriceRow>, b: Book) {
    && OneActive(pricing)
    && pricing.Keys == b.known
    && (b.prices.None? ==> forall id :: id in pricing ==> !pricing[id].active)
    && (b.prices.Some? ==> exists id :: id in pricing && pricing[id].active && pricing[id].unitPrices == b.prices.value)
  }

  ghost predicate RowsAgree(cat: Catalog, settlements: map<EventKey, Settlement>, owed: map<EventKey, int>) {
    && (forall k :: k in owed ==>
          k in settlements && settlements[k].state == Settled && settlements[k].amountMicro == Some(owed[k]))
    && (forall k :: k in settlements && Final(settlements[k].state) && k !in owed ==>
          cat(k).classification.NotBillable?)
    && (forall k :: k in owed ==> cat(k).classification.Billable?)
  }

  ghost predicate ChargeFor(cat: Catalog, e: Entry, k: EventKey, owed: map<EventKey, int>) {
    k in owed && e.scope == ScopeFor(cat, k) && e.key == SettleKey(k) && e.amount == owed[k]
  }

  ghost predicate Charged(cat: Catalog, e: Entry, owed: map<EventKey, int>) {
    exists k :: ChargeFor(cat, e, k, owed)
  }

  ghost predicate LedgerAgrees(cat: Catalog, ledger: seq<Entry>, owed: map<EventKey, int>) {
    && |ledger| == |owed|
    && (forall i :: 0 <= i < |ledger| ==> Charged(cat, ledger[i], owed))
    && (forall scope :: Total(ledger, scope) == Sum(InScope(cat, owed, scope)))
  }

  ghost predicate Drawn(h: seq<Step>, entryId: string) {
    exists j :: 0 <= j < |h| && h[j].Deliver? && h[j].entryId == entryId
  }

  ghost predicate IdsFrom(ledger: seq<Entry>, h: seq<Step>) {
    forall i :: 0 <= i < |ledger| ==> Drawn(h, ledger[i].entryId)
  }

  ghost predicate Agrees(cat: Catalog, t: Tables, h: seq<Step>) {
    && PricesAgree(t.pricing, BookAfter(h))
    && RowsAgree(cat, t.settlements, Owed(cat, h))
    && LedgerAgrees(cat, t.ledger, Owed(cat, h))
    && IdsFrom(t.ledger, h)
  }

  lemma SettleKeyIsInjective(a: EventKey, b: EventKey)
    requires a.tenantId == b.tenantId && SettleKey(a) == SettleKey(b)
    ensures a == b
  {
    var p := "settle:" + a.tenantId + ":";
    assert SettleKey(a)[|p|..] == a.eventId && SettleKey(b)[|p|..] == b.eventId;
  }

  lemma PublishAgrees(t: Tables, h: seq<Step>, s: Step)
    requires s.Publish? && PricesAgree(t.pricing, BookAfter(h))
    ensures var out := CreatePricing(t, s.id, s.version, s.unitPrices, s.active);
            PricesAgree(if out.Committed? then out.tables.pricing else t.pricing, BookAfter(h + [s]))
  {
    assert (h + [s])[..|h|] == h;
    var b := BookAfter(h);
    if s.id !in t.pricing {
      var p := CreatePricing(t, s.id, s.version, s.unitPrices, s.active).tables.pricing;
      if s.active {
        assert p[s.id].active && p[s.id].unitPrices == s.unitPrices;
      } else if b.prices.Some? {
        var id :| id in t.pricing && t.pricing[id].active && t.pricing[id].unitPrices == b.prices.value;
        assert p[id].active && p[id].unitPrices == b.prices.value;
      }
    }
  }

  lemma PublishKeepsRest(t: Tables, s: Step)
    requires s.Publish?
    ensures var out := CreatePricing(t, s.id, s.version, s.unitPrices, s.active);
            out.Committed? ==> out.tables.ledger == t.ledger && out.tables.settlements == t.settlements
  {
  }

  /** A billable delivery of an event that owes nothing yet meets no earlier entry. */
  lemma NoEarlierCharge(cat: Catalog, ledger: seq<Entry>, owed: map<EventKey, int>, k: EventKey)
    requires LedgerAgrees(cat, ledger, owed) && k !in owed
    ensures FindKey(ledger, ScopeFor(cat, k), SettleKey(k)) == -1
  {
    FindKeyFinds(ledger, ScopeFor(cat, k), SettleKey(k));
    forall i | 0 <= i < |ledger|
      ensures !(ledger[i].scope == ScopeFor(cat, k) && ledger[i].key == SettleKey(k))
    {
      assert Charged(cat, ledger[i], owed);
      var k' :| ChargeFor(cat, ledger[i], k', owed);
      if k.tenantId == k'.tenantId && SettleKey(k) == SettleKey(k') {
        SettleKeyIsInjective(k, k');
      }
    }
  }

  lemma NoIdTaken(ledger: seq<Entry>, h: seq<Step>, s: Step)
    requires s.Deliver? && FreshIds(h + [s]) && IdsFrom(ledger, h)
    ensures FindEntry(ledger, s.entryId) == -1
  {
    FindEntryFinds(ledger, s.entryId);
    var h' := h + [s];
    assert h'[|h|] == s;
    forall i | 0 <= i < |ledger|
      ensures ledger[i].entryId != s.entryId
    {
      assert Drawn(h, ledger[i].entryId);
      var j :| 0 <= j < |h| && h[j].Deliver? && h[j].entryId == ledger[i].entryId;
      assert h'[j].entryId != h'[|h|].entryId;
    }
  }

  lemma ChargeAgrees(cat: Catalog, ledger: seq<Entry>, owed: map<EventKey, int>, k: EventKey, e: Entry)
    requires LedgerAgrees(cat, ledger, owed) && k !in owed
    requires e.scope == ScopeFor(cat, k) && e.key == SettleKey(k)
    ensures LedgerAgrees(cat, ledger + [e], owed[k := e.amount])
  {
    hide Total, InScope, Sum, ScopeFor, SettleKey;
    var l, o := ledger + [e], owed[k := e.amount];
    assert o.Keys == owed.Keys + {k};
    forall i | 0 <= i < |l|
      ensures Charged(cat, l[i], o)
    {
      if i < |ledger| {
        assert Charged(cat, ledger[i], owed);
        var k' :| ChargeFor(cat, ledger[i], k', owed);
        assert ChargeFor(cat, l[i], k', o);
      } else {
        assert ChargeFor(cat, l[i], k, o);
      }
    }
    forall scope
      ensures Total(l, scope) == Sum(InScope(cat, o, scope))
    {
      assert Total(ledger, scope) == Sum(InScope(cat, owed, scope));
      TotalStep(ledger, e, scope);
      InScopeStep(cat, owed, k, e.amount, scope);
    }
  }

  lemma TotalStep(ledger: seq<Entry>, e: Entry, scope: Scope)
    ensures Total(ledger + [e], scope) == Total(ledger, scope) + if e.scope == scope then e.amount else 0
  {
    assert (ledger + [e])[..|ledger|] == ledger;
  }

  lemma InScopeStep(cat: Catalog, owed: map<EventKey, int>, k: EventKey, x: int, scope: Scope)
    requires k !in owed
    ensures Sum(InScope(cat, owed[k := x], scope)) ==
            Sum(InScope(cat, owed, scope)) + if ScopeFor(cat, k) == scope then x else 0
  {
    if ScopeFor(cat, k) == scope {
      assert InScope(cat, owed[k := x], scope) == InScope(cat, owed, scope)[k := x];
      SumInsert(InScope(cat, owed, scope), k, x);
    } else {
      assert InScope(cat, owed[k := x], scope) == InScope(cat, owed, scope);
    }
  }

  lemma DrawnLonger(h: seq<Step>, s: Step, entryId: string)
    requires Drawn(h, entryId) || (s.Deliver? && s.entryId == entryId)
    ensures Drawn(h + [s], entryId)
  {
    assert (h + [s])[|h|] == s;
    if Drawn(h, entryId) {
      var j :| 0 <= j < |h| && h[j].Deliver? && h[j].entryId == entryId;
      assert (h + [s])[j] == h[j];
    }
  }

  lemma IdsFromLonger(ledger: seq<Entry>, h: seq<Step>, s: Step)
    requires IdsFrom(ledger, h)
    ensures IdsFrom(ledger, h + [s])
    ensures forall e: Entry :: s.Deliver? && e.entryId == s.entryId ==> IdsFrom(ledger + [e], h + [s])
  {
    hide Drawn;
    forall i | 0 <= i < |ledger|
      ensures Drawn(h + [s], ledger[i].entryId)
    {
      DrawnLonger(h, s, ledger[i].entryId);
    }
    if s.Deliver? {
      DrawnLonger(h, s, s.entryId);
    }
  }

  lemma ActivePriceAgrees(pricing: map<string, PriceRow>, b: Book)
    requires PricesAgree(pricing, b)
    ensures b.prices.None? <==> ActiveId(pricing).None?
    ensures b.prices.Some? ==>
              ActiveId(pricing).value in pricing && pricing[ActiveId(pricing).value].unitPrices == b.prices.value
  {
    ActiveIdFinds(pricing);
  }

  /** One charged delivery. */
  lemma ChargingAgrees(cat: Catalog, t: Tables, h: seq<Step>, s: Step)
    requires Agrees(cat, t, h) && s.Deliver? && FreshIds(h + [s])
    requires s.key !in Owed(cat, h) && cat(s.key).classification.Billable? && BookAfter(h).prices.Some?
    ensures var out := SettleUsage(t, UsageOf(cat, s.key), Billable, s.entryId);
            out.Committed? && Agrees(cat, out.tables, h + [s])
  {
    hide ActiveId, LedgerAgrees, IdsFrom, PricesAgree, FindKey, FindEntry, FreshIds;
    assert (h + [s])[..|h|] == h;
    var owed := Owed(cat, h);
    ActivePriceAgrees(t.pricing, BookAfter(h));
    NoEarlierCharge(cat, t.ledger, owed, s.key);
    NoIdTaken(t.ledger, h, s);
    var u := UsageOf(cat, s.key);
    var id := ActiveId(t.pricing).value;
    var e := SettlementEntry(u, s.entryId, id, t.pricing[id]);
    ChargeAgrees(cat, t.ledger, owed, s.key, e);
    IdsFromLonger(t.ledger, h, s);
    var out := SettleUsage(t, u, Billable, s.entryId);
    assert out.tables.ledger == t.ledger + [e];
    assert Owed(cat, h + [s]) == owed[s.key := e.amount];
  }

  lemma NothingOwedMore(cat: Catalog, h: seq<Step>, s: Step)
    requires s.Deliver? && (s.key in Owed(cat, h) || cat(s.key).classification.NotBillable? || BookAfter(h).prices.None?)
    ensures Owed(cat, h + [s]) == Owed(cat, h) && BookAfter(h + [s]) == BookAfter(h)
  {
    assert (h + [s])[..|h|] == h;
  }

  /** A delivery of an event that owes, cannot owe or cannot be priced writes at most its row. */
  lemma RowsOfNotCharging(cat: Catalog, t: Tables, owed: map<EventKey, int>, s: Step)
    requires RowsAgree(cat, t.settlements, owed) && s.Deliver?
    requires s.key in owed || cat(s.key).classification.NotBillable? || ActiveId(t.pricing).None?
    ensures var out := SettleUsage(t, UsageOf(cat, s.key), cat(s.key).classification, s.entryId);
            && out.Committed? && out.tables.ledger == t.ledger && out.tables.pricing == t.pricing
            && RowsAgree(cat, out.tables.settlements, owed)
  {
    hide ActiveId, Record, FindEntry;
  }

  /** A delivery that charges nothing: a repeat, a non-billable event, or no prices yet. */
  lemma NotChargingAgrees(cat: Catalog, t: Tables, h: seq<Step>, s: Step)
    requires Agrees(cat, t, h) && s.Deliver?
    requires s.key in Owed(cat, h) || cat(s.key).classification.NotBillable? || BookAfter(h).prices.None?
    ensures var out := SettleUsage(t, UsageOf(cat, s.key), cat(s.key).classification, s.entryId);
            out.Committed? && Agrees(cat, out.tables, h + [s])
  {
    hide ActiveId, LedgerAgrees, IdsFrom, PricesAgree, RowsAgree, SettleUsage, Owed, BookAfter;
    NothingOwedMore(cat, h, s);
    ActivePriceAgrees(t.pricing, BookAfter(h));
    RowsOfNotCharging(cat, t, Owed(cat, h), s);
    IdsFromLonger(t.ledger, h, s);
  }

  lemma StepAgrees(cat: Catalog, t: Tables, h: seq<Step>, s: Step)
    requires Agrees(cat, t, h) && FreshIds(h + [s])
    ensures Agrees(cat, Apply(t, OpOf(cat, s)), h + [s])
  {
    hide ActiveId, LedgerAgrees, IdsFrom, PricesAgree, Record, SettleUsage, CreatePricing, FreshIds;
    match s
    case Deliver(k, _) =>
      if k !in Owed(cat, h) && cat(k).classification.Billable? && BookAfter(h).prices.Some? {
        ChargingAgrees(cat, t, h, s);
      } else {
        NotChargingAgrees(cat, t, h, s);
      }
    case Publish(_, _, _, _) =>
      PublishAgrees(t, h, s);
      PublishKeepsRest(t, s);
      IdsFromLonger(t.ledger, h, s);
      assert (h + [s])[..|h|] == h;
    case GiveUp(_, _) =>
      IdsFromLonger(t.ledger, h, s);
      assert (h + [s])[..|h|] == h;
  }

  lemma {:induction false} HistoryAgrees(cat: Catalog, h: seq<Step>)
    requires FreshIds(h)
    ensures Agrees(cat, After(cat, h), h)
  {
    hide Apply, FreshIds;
    if h == [] {
      NothingAgrees(cat);
    } else {
      var init, s := h[..|h| - 1], h[|h| - 1];
      assert h == init + [s];
      FreshPrefix(init, s);
      HistoryAgrees(cat, init);
      StepAgrees(cat, After(cat, init), init, s);
    }
  }

  lemma FreshPrefix(h: seq<Step>, s: Step)
    requires FreshIds(h + [s])
    ensures FreshIds(h)
  {
    assert forall i :: 0 <= i < |h| ==> (h + [s])[i] == h[i];
  }

  lemma NothingAgrees(cat: Catalog)
    ensures Agrees(cat, EMPTY, [])
  {
    forall scope
      ensures InScope(cat, map[], scope) == map[]
    {
    }
  }

  // ------------------------------------------------------------------
  // The laws
  // ------------------------------------------------------------------

  /** For any history of deliveries, price publications and give-ups, the balance
      of a scope is the sum of what its events owe, one entry per charged event. */
  lemma BalanceIsWhatIsOwed(cat: Catalog, h: seq<Step>, scope: Scope)
    requires FreshIds(h)
    ensures Total(After(cat, h).ledger, scope) == Sum(InScope(cat, Owed(cat, h), scope))
    ensures |After(cat, h).ledger| == |Owed(cat, h)|
  {
    HistoryAgrees(cat, h);
  }

  ghost predicate Delivered(h: seq<Step>, k: EventKey) {
    exists i :: 0 <= i < |h| && h[i].Deliver? && h[i].key == k
  }

  ghost predicate NoPublish(h: seq<Step>) {
    forall i :: 0 <= i < |h| ==> !h[i].Publish?
  }

  lemma {:induction false} FixedBook(first: Step, h: seq<Step>)
    requires first.Publish? && first.active && NoPublish(h)
    ensures BookAfter([first] + h).prices == Some(first.unitPrices)
  {
    var all := [first] + h;
    if h == [] {
      assert all[..0] == [];
    } else {
      assert all[..|all| - 1] == [first] + h[..|h| - 1];
      FixedBook(first, h[..|h| - 1]);
    }
  }

  /** Under one price list, exactly the delivered billable events owe, each its
      price times its quantity. */
  lemma {:induction false} FixedPricesOwed(cat: Catalog, first: Step, h: seq<Step>)
    requires first.Publish? && first.active && NoPublish(h)
    ensures forall k :: k in Owed(cat, [first] + h) <==>
              Delivered(h, k) && cat(k).classification.Billable?
    ensures forall k :: k in Owed(cat, [first] + h) ==>
              Owed(cat, [first] + h)[k] ==
              (if cat(k).kind in first.unitPrices then first.unitPrices[cat(k).kind] * cat(k).quantity else 0)
  {
    var all := [first] + h;
    if h == [] {
      assert all[..0] == [];
    } else {
      var init, s := h[..|h| - 1], h[|h| - 1];
      assert all[..|all| - 1] == [first] + init;
      FixedPricesOwed(cat, first, init);
      FixedBook(first, init);
      forall k
        ensures Delivered(h, k) <==> Delivered(init, k) || (s.Deliver? && s.key == k)
      {
        DeliveredStep(h, k);
      }
    }
  }

  lemma DeliveredStep(h: seq<Step>, k: EventKey)
    requires h != []
    ensures Delivered(h, k) <==> Delivered(h[..|h| - 1], k) || (h[|h| - 1].Deliver? && h[|h| - 1].key == k)
  {
    var init := h[..|h| - 1];
    if Delivered(init, k) {
      var i :| 0 <= i < |init| && init[i].Deliver? && init[i].key == k;
      assert h[i] == init[i];
    }
    if i :| 0 <= i < |h| && h[i].Deliver? && h[i].key == k {
      assert i < |init| ==> init[i] == h[i];
    }
  }

  /** Confluence: under one price list, two delivery histories of the same events,
      in any order and with any repeats, leave every scope with the same balance. */
  lemma SettlementIsConfluent(cat: Catalog, first: Step, h1: seq<Step>, h2: seq<Step>, scope: Scope)
    requires first.Publish? && first.active && NoPublish(h1) && NoPublish(h2)
    requires FreshIds([first] + h1) && FreshIds([first] + h2)
    requires forall k :: Delivered(h1, k) <==> Delivered(h2, k)
    ensures Total(After(cat, [first] + h1).ledger, scope) == Total(After(cat, [first] + h2).ledger, scope)
  {
    hide After, Sum, Total, FreshIds, NoPublish, Delivered;
    FixedPricesOwed(cat, first, h1);
    FixedPricesOwed(cat, first, h2);
    assert Owed(cat, [first] + h1) == Owed(cat, [first] + h2);
    BalanceIsWhatIsOwed(cat, [first] + h1, scope);
    BalanceIsWhatIsOwed(cat, [first] + h2, scope);
  }
}
