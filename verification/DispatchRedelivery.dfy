/**
 Delivering an event again after a first delivery that was cut off: what is missing
 is reserved, and nothing else is touched.
 */
module DispatchRedelivery {
  import opened DispatchLedger
  import opened DispatchService

  ghost function KeySet(rows: Rows): set<Key> {
    set d | d in rows :: rows[d].key
  }

  /** The keys an event has for these triggers. */
  ghost function EventKeys(tenant: string, event: string, ts: seq<Trigger>): set<Key> {
    set t | t in ts :: Key(tenant, event, t.triggerId)
  }

  ghost function Elems(ids: seq<string>): set<string> {
    set x | x in ids
  }

  /** b holds every row of a unchanged. */
  ghost predicate Untouched(a: Rows, b: Rows) {
    forall d :: d in a ==> d in b && b[d] == a[d]
  }

  ghost predicate FreshIds(rows: Rows, ids: seq<string>) {
    && (forall i :: 0 <= i < |ids| ==> ids[i] !in rows)
    && forall i, j :: 0 <= i < j < |ids| ==> ids[i] != ids[j]
  }

  /** Operations on one row leave every other row, and its key, alone. */
  lemma {:induction false} RunOnOneRow(rows: Rows, ops: seq<Op>, d: string)
    requires d in rows && forall i :: 0 <= i < |ops| ==> !ops[i].Reserve? && ops[i].d == d
    ensures var after := Run(rows, ops);
            && after.Keys == rows.Keys && after[d].key == rows[d].key
            && forall x :: x in rows && x != d ==> after[x] == rows[x]
  {
    if ops != [] {
      RunOnOneRow(rows, ops[..|ops| - 1], d);
    }
  }

  lemma StepFills(rows: Rows, tenant: string, event: string, t: Trigger, d: string, reply: SinkReply)
    requires d !in rows
    ensures Fills(rows, EventStep(rows, tenant, event, t, d, reply), {Key(tenant, event, t.triggerId)}, {d})
  {
    hide Run;
    var key := Key(tenant, event, t.triggerId);
    var after := EventStep(rows, tenant, event, t, d, reply);
    if HasKey(rows, key) {
      var e :| e in rows && rows[e].key == key;
      assert key in KeySet(rows);
    } else {
      var reserved := Apply(rows, Reserve(d, key, t.revision));
      var ops := DriveOps(d, FreshRow(key, t.revision), t.enabled, reply);
      assert forall i :: 0 <= i < |ops| ==> !ops[i].Reserve? && ops[i].d == d;
      RunOnOneRow(reserved, ops, d);
      SameKeys(rows, after, d, key);
    }
  }

  /** One new row under a new key. */
  lemma SameKeys(rows: Rows, after: Rows, d: string, key: Key)
    requires d !in rows && !HasKey(rows, key) && after.Keys == rows.Keys + {d} && after[d].key == key
    requires forall x :: x in rows ==> after[x].key == rows[x].key
    ensures KeySet(after) == KeySet(rows) + {key} && (UniqueKeys(rows) ==> UniqueKeys(after))
  {
    forall x | x in rows
      ensures rows[x].key in KeySet(after)
    {
      assert after[x].key == rows[x].key;
    }
    forall k | k in KeySet(after)
      ensures k in KeySet(rows) + {key}
    {
      var x :| x in after && after[x].key == k;
      assert x != d ==> rows[x].key in KeySet(rows);
    }
    assert after[d].key in KeySet(after);
  }

  /** From a to b every row stays, and exactly the keys ks and at most the ids xs are new. */
  ghost predicate Fills(a: Rows, b: Rows, ks: set<Key>, xs: set<string>) {
    && Untouched(a, b) && KeySet(b) == KeySet(a) + ks && b.Keys <= a.Keys + xs
    && (UniqueKeys(a) ==> UniqueKeys(b))
  }

  lemma FillsTwice(a: Rows, b: Rows, c: Rows, ks: set<Key>, ls: set<Key>, xs: set<string>, ys: set<string>)
    requires Fills(a, b, ks, xs) && Fills(b, c, ls, ys)
    ensures Fills(a, c, ks + ls, xs + ys)
  {
    hide KeySet, UniqueKeys;
  }

  lemma EventKeysStep(tenant: string, event: string, ts: seq<Trigger>)
    requires ts != []
    ensures EventKeys(tenant, event, ts) ==
            EventKeys(tenant, event, ts[..|ts| - 1]) + {Key(tenant, event, ts[|ts| - 1].triggerId)}
  {
    assert ts == ts[..|ts| - 1] + [ts[|ts| - 1]];
  }

  lemma IdsStep(ids: seq<string>)
    requires ids != []
    ensures Elems(ids) == Elems(ids[..|ids| - 1]) + {ids[|ids| - 1]}
  {
    assert ids == ids[..|ids| - 1] + [ids[|ids| - 1]];
  }

  lemma FillsNothing(a: Rows)
    ensures Fills(a, a, {}, {})
  {
    hide KeySet;
  }

  /** What a delivery does to any ledger: every row there stays as it is, and exactly the
      event's keys are added. */
  lemma {:induction false} DeliveryFills(rows: Rows, tenant: string, event: string, ts: seq<Trigger>, ids: seq<string>, reply: string -> SinkReply)
    requires |ids| == |ts| && FreshIds(rows, ids)
    ensures Fills(rows, EventRows(rows, tenant, event, ts, ids, reply), EventKeys(tenant, event, ts), Elems(ids))
  {
    hide EventStep, Fills, EventKeys;
    if ts == [] {
      assert EventKeys(tenant, event, ts) == {} by { NoKeys(tenant, event); }
      assert Elems(ids) == {};
      FillsNothing(rows);
    } else {
      var n := |ts| - 1;
      DeliveryFills(rows, tenant, event, ts[..n], ids[..n], reply);
      var before := EventRows(rows, tenant, event, ts[..n], ids[..n], reply);
      LastIsFresh(rows, before, ids, EventKeys(tenant, event, ts[..n]));
      StepFills(before, tenant, event, ts[n], ids[n], reply(ids[n]));
      EventKeysStep(tenant, event, ts);
      IdsStep(ids);
      FillsTwice(rows, before, EventRows(rows, tenant, event, ts, ids, reply),
                 EventKeys(tenant, event, ts[..n]), {Key(tenant, event, ts[n].triggerId)}, Elems(ids[..n]), {ids[n]});
    }
  }

  lemma NoKeys(tenant: string, event: string)
    ensures EventKeys(tenant, event, []) == {}
  {
  }

  lemma LastIsFresh(rows: Rows, before: Rows, ids: seq<string>, ks: set<Key>)
    requires ids != [] && FreshIds(rows, ids) && Fills(rows, before, ks, Elems(ids[..|ids| - 1]))
    ensures ids[|ids| - 1] !in before
  {
    hide KeySet, UniqueKeys, Untouched;
  }

  /** Operations that reserve nothing but keys in ks. */
  ghost predicate ReservesWithin(ops: seq<Op>, ks: set<Key>) {
    forall i :: 0 <= i < |ops| && ops[i].Reserve? ==> ops[i].key in ks
  }

  lemma ApplyWithin(rows: Rows, op: Op, ks: set<Key>)
    requires op.Reserve? ==> op.key in ks
    ensures KeySet(rows) <= KeySet(Apply(rows, op)) <= KeySet(rows) + ks
  {
    var after := Apply(rows, op);
    forall x | x in rows
      ensures rows[x].key in KeySet(after)
    {
      assert after[x].key == rows[x].key;
    }
    forall k | k in KeySet(after)
      ensures k in KeySet(rows) + ks
    {
      var x :| x in after && after[x].key == k;
      assert x in rows ==> rows[x].key == k;
    }
  }

  lemma {:induction false} RunWithin(rows: Rows, ops: seq<Op>, ks: set<Key>)
    requires ReservesWithin(ops, ks)
    ensures KeySet(rows) <= KeySet(Run(rows, ops)) <= KeySet(rows) + ks
  {
    hide KeySet, Apply;
    if ops != [] {
      RunWithin(rows, ops[..|ops| - 1], ks);
      ApplyWithin(Run(rows, ops[..|ops| - 1]), ops[|ops| - 1], ks);
    }
  }

  /** A first delivery stops after n triggers, possibly in the middle of the next one, and
      anything may happen to its dispatches since.  Delivering the event again leaves
      every row as it is, reserves exactly the keys that are missing, once each, and
      ends with the keys a delivery without interruption ends with. */
  lemma RedeliveryCompletes(rows: Rows, tenant: string, event: string, ts: seq<Trigger>, n: nat,
                            ids: seq<string>, reply: string -> SinkReply, later: seq<Op>,
                            ids': seq<string>, reply': string -> SinkReply)
    requires UniqueKeys(rows) && n <= |ts| == |ids| == |ids'| && FreshIds(rows, ids)
    requires ReservesWithin(later, EventKeys(tenant, event, ts))
    requires FreshIds(Run(EventRows(rows, tenant, event, ts[..n], ids[..n], reply), later), ids')
    ensures var cut := Run(EventRows(rows, tenant, event, ts[..n], ids[..n], reply), later);
            var again := EventRows(cut, tenant, event, ts, ids', reply');
            && Untouched(cut, again) && UniqueKeys(again)
            && (forall d :: d in again && d !in cut ==>
                  again[d].key in EventKeys(tenant, event, ts) && !HasKey(cut, again[d].key))
            && KeySet(again) == KeySet(EventRows(rows, tenant, event, ts, ids, reply))
  {
    hide Run, EventRows, UniqueKeys, HasKey;
    var ks := EventKeys(tenant, event, ts);
    var first := EventRows(rows, tenant, event, ts[..n], ids[..n], reply);
    var cut := Run(first, later);
    var again := EventRows(cut, tenant, event, ts, ids', reply');
    DeliveryFills(rows, tenant, event, ts[..n], ids[..n], reply);
    DeliveryFills(rows, tenant, event, ts, ids, reply);
    RunWithin(first, later, ks);
    RunKeepsUnique(first, later);
    DeliveryFills(cut, tenant, event, ts, ids', reply');
    assert EventKeys(tenant, event, ts[..n]) <= ks;
    NewRowsAreMissing(cut, again, ks);
  }

  lemma RunKeepsUnique(rows: Rows, ops: seq<Op>)
    requires UniqueKeys(rows)
    ensures UniqueKeys(Run(rows, ops))
  {
    RunPersists(rows, ops, 0);
  }

  lemma NewRowsAreMissing(cut: Rows, again: Rows, ks: set<Key>)
    requires Untouched(cut, again) && UniqueKeys(again) && KeySet(again) == KeySet(cut) + ks
    ensures forall d :: d in again && d !in cut ==> again[d].key in ks && !HasKey(cut, again[d].key)
  {
    forall d | d in again && d !in cut
      ensures again[d].key in ks && !HasKey(cut, again[d].key)
    {
      assert again[d].key in KeySet(again);
      forall e | e in cut
        ensures cut[e].key != again[d].key
      {
        assert again[e] == cut[e];
      }
    }
  }
}
