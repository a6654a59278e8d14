/**
 What becomes of a dispatch after its answer, what the counters of a recovery pass count,
 and which runs a redelivery reports.
 */
module DispatchOutcomes {
  import opened Wrappers
  import opened DispatchLedger
  import opened DispatchService
  import opened DispatchRetries

  /** A dispatch starts matched, untried and unclaimed, with the trigger's revision. */
  lemma FreshDispatch(key: Key, revision: nat, who: string, now: int)
    ensures var r := FreshRow(key, revision);
            && r.key == key && r.triggerRevision == revision && r.state == Matched && r.attempts == 0 && r.runId == None
            && r.generation == 0 && r.owner == None && Claimable(r, who, now)
  {
  }

  // ------------------------------------------------------------------
  // Answers that are final
  // ------------------------------------------------------------------

  /** No recovery pass does anything to a dispatch that is final. */
  lemma {:induction false} FinalIsNotTried(t: Trial, d: string, cs: seq<CutPass>)
    requires d in t.rows && Terminal(t.rows[d].state)
    ensures AfterPasses(t, d, cs) == t
  {
    hide PassOps;
    if cs != [] {
      FinalIsNotTried(t, d, cs[..|cs| - 1]);
    }
  }

  /** A dispatch whose sink denies it is rejected with the reason given and reaches the sink
      once, however many passes follow. */
  lemma DeniedIsCalledOnce(rows: Rows, d: string, seen: Row, kind: string, cs: seq<CutPass>)
    requires d in rows && rows[d] == seen && !Terminal(seen.state)
    ensures var t := AfterPasses(Trial(Run(rows, DriveOps(d, seen, true, Denied(kind))), 1), d, cs);
            t.calls == 1 && d in t.rows && t.rows[d].state == Rejected && t.rows[d].rejection == Some(kind)
  {
    hide Run, DriveOps;
    DriveTells(rows, d, seen, true, Denied(kind));
    FinalIsNotTried(Trial(Run(rows, DriveOps(d, seen, true, Denied(kind))), 1), d, cs);
  }

  /** A disabled trigger rejects the dispatch without a call, then or later. */
  lemma DisabledIsNeverCalled(rows: Rows, d: string, seen: Row, reply: SinkReply, cs: seq<CutPass>)
    requires d in rows && rows[d] == seen && !Terminal(seen.state)
    ensures var t := AfterPasses(Trial(Run(rows, DriveOps(d, seen, false, reply)), 0), d, cs);
            t.calls == 0 && d in t.rows && t.rows[d].state == Rejected && t.rows[d].rejection == Some("disabled_trigger")
  {
    hide Run, DriveOps;
    DriveTells(rows, d, seen, false, reply);
    FinalIsNotTried(Trial(Run(rows, DriveOps(d, seen, false, reply)), 0), d, cs);
  }

  /** A rejected dispatch is never claimable again, whatever drivers and operators do. */
  lemma RejectedIsNeverClaimable(rows: Rows, ops: seq<Op>, d: string, who: string, now: int)
    requires (forall i :: 0 <= i < |ops| ==> Driven(ops[i])) && RunIdsRight(rows)
    requires d in rows && rows[d].state == Rejected
    ensures d in Run(rows, ops) && !Claimable(Run(rows, ops)[d], who, now)
  {
    FinalStatesAreFinal(rows, ops);
    hide Run;
  }

  /** An operator redrive gives a dead letter its tries back: with complete passes and a
      failing sink it is called ceil(maxAttempts / 2) times more before it is dead-lettered
      again. */
  lemma RearmedIsTriedAgain(rows: Rows, d: string, now: int, cs: seq<CutPass>, max: nat)
    requires d in rows && rows[d].state == DeadLetter
    requires forall i :: 0 <= i < |cs| ==> cs[i].pass.maxAttempts == max && cs[i].stop >= 4
    ensures var t := AfterPasses(Trial(Apply(rows, RedriveDead(d, rows[d].key.tenantId, now)), 0), d, cs);
            && d in t.rows && t.calls == (if |cs| <= HalfUp(max) then |cs| else HalfUp(max))
            && (t.rows[d].state == DeadLetter <==> |cs| > HalfUp(max))
  {
    FullPassesDeadLetter(Apply(rows, RedriveDead(d, rows[d].key.tenantId, now)), d, cs, max);
  }

  // ------------------------------------------------------------------
  // What a recovery pass counts
  // ------------------------------------------------------------------

  /** The listed dispatches are different ones, each read as it stands. */
  ghost predicate ReadAsTheyStand(rows: Rows, list: seq<(string, Row)>) {
    && (forall i :: 0 <= i < |list| ==> list[i].0 in rows && rows[list[i].0] == list[i].1)
    && forall i, j :: 0 <= i < j < |list| ==> list[i].0 != list[j].0
  }

  /** A pass on a dispatch it can claim, read as it stands. */
  lemma RedriveTells(rows: Rows, d: string, seen: Row, p: Pass, t: Lookup, reply: SinkReply)
    requires d in rows && rows[d] == seen && Claimable(seen, p.who, p.now)
    ensures var after := Run(rows, RedriveOps(d, seen, seen.generation + 1, p, t, reply));
            && after.Keys == rows.Keys && (forall x :: x in rows && x != d ==> after[x] == rows[x])
            && (after[d].state == RunCreated <==> seen.attempts < p.maxAttempts && t.Enabled? && reply.Created?)
            && (after[d].state == DeadLetter <==> seen.attempts >= p.maxAttempts)
            && after[d].owner == None
            && (seen.attempts < p.maxAttempts && t.Gone? ==> after[d].state == Rejected && after[d].rejection == Some("no_trigger"))
  {
    hide Run, DriveOps;
    var gen, tenant := seen.generation + 1, seen.key.tenantId;
    var claimed := Apply(rows, Claim(d, tenant, p.who, p.leaseMs, p.now));
    RedriveUnfolds(rows, d, seen, gen, p, t, reply);
    if seen.attempts < p.maxAttempts && !t.Gone? {
      DriveClaimed(rows, d, seen, p, t.Enabled?, reply);
    }
  }

  /** A drive under a fresh claim, from the row as read before the claim. */
  lemma DriveClaimed(rows: Rows, d: string, seen: Row, p: Pass, enabled: bool, reply: SinkReply)
    requires d in rows && rows[d] == seen && Claimable(seen, p.who, p.now)
    ensures var claimed := Apply(rows, Claim(d, seen.key.tenantId, p.who, p.leaseMs, p.now));
            var after := Run(claimed, DriveOps(d, seen, enabled, reply));
            && after.Keys == rows.Keys && (forall x :: x in rows && x != d ==> after[x] == rows[x])
            && DriveOutcome(claimed[d], after[d], enabled, reply) && claimed[d].generation == seen.generation + 1
            && after[d].key == seen.key
  {
    hide Run;
    var claimed := Apply(rows, Claim(d, seen.key.tenantId, p.who, p.leaseMs, p.now));
    DriveTells(claimed, d, claimed[d], enabled, reply);
    assert DriveOps(d, claimed[d], enabled, reply) == DriveOps(d, seen, enabled, reply);
  }

  /** How many of the first n positions satisfy f. */
  ghost function HowMany(n: nat, f: nat -> bool): nat {
    if n == 0 then 0 else HowMany(n - 1, f) + if f(n - 1) then 1 else 0
  }

  lemma {:induction false} HowManyAgree(n: nat, f: nat -> bool, g: nat -> bool)
    requires forall i: nat :: i < n ==> f(i) == g(i)
    ensures HowMany(n, f) == HowMany(n, g)
  {
    if n > 0 {
      HowManyAgree(n - 1, f, g);
    }
  }

  /** The pass could claim the i-th listed dispatch. */
  ghost predicate TakenAt(list: seq<(string, Row)>, p: Pass, i: nat) {
    i < |list| && Claimable(list[i].1, p.who, p.now)
  }

  /** It did, and the dispatch has a run now. */
  ghost predicate GotRunAt(rows: Rows, list: seq<(string, Row)>, p: Pass, i: nat) {
    TakenAt(list, p, i) && list[i].0 in rows && rows[list[i].0].state == RunCreated
  }

  /** It did, and the dispatch is a dead letter now or was rejected for a missing trigger. */
  ghost predicate GivenUpAt(rows: Rows, list: seq<(string, Row)>, p: Pass, trigger: string -> Lookup, i: nat) {
    && TakenAt(list, p, i) && list[i].0 in rows
    && (rows[list[i].0].state == DeadLetter || (list[i].1.attempts < p.maxAttempts && trigger(list[i].0).Gone?))
  }

  /** The counters after the first n listed dispatches. */
  ghost predicate Counted(g: Progress, rows: Rows, list: seq<(string, Row)>, n: nat, p: Pass, trigger: string -> Lookup) {
    && g.rows.Keys == rows.Keys
    && (forall x :: x in rows && (forall i :: 0 <= i < n && i < |list| ==> list[i].0 != x) ==> g.rows[x] == rows[x])
    && g.driven == HowMany(n, TheTaken(list, p))
    && g.created == HowMany(n, ThoseWithRun(g.rows, list, p))
    && g.failed == HowMany(n, TheGivenUp(g.rows, list, p, trigger))
  }

  ghost function TheTaken(list: seq<(string, Row)>, p: Pass): nat -> bool {
    (i: nat) => TakenAt(list, p, i)
  }

  ghost function ThoseWithRun(rows: Rows, list: seq<(string, Row)>, p: Pass): nat -> bool {
    (i: nat) => GotRunAt(rows, list, p, i)
  }

  ghost function TheGivenUp(rows: Rows, list: seq<(string, Row)>, p: Pass, trigger: string -> Lookup): nat -> bool {
    (i: nat) => GivenUpAt(rows, list, p, trigger, i)
  }

  /** The counters of a pass over dispatches read as they stand: `driven` counts those it
      could claim, `created` those of them that got a run, `failed` those that were
      dead-lettered or whose trigger is gone. */
  lemma CountersCount(rows: Rows, list: seq<(string, Row)>, p: Pass, trigger: string -> Lookup, reply: string -> SinkReply)
    requires ReadAsTheyStand(rows, list)
    ensures Counted(RedriveAll(Progress(rows, 0, 0, 0), list, p, trigger, reply), rows, list, |list|, p, trigger)
  {
    hide Counted, RedriveAll, ReadAsTheyStand;
    CountersSoFar(rows, list, |list|, p, trigger, reply);
    assert list[..|list|] == list;
  }

  lemma {:induction false} CountersSoFar(rows: Rows, list: seq<(string, Row)>, n: nat, p: Pass, trigger: string -> Lookup, reply: string -> SinkReply)
    requires ReadAsTheyStand(rows, list) && n <= |list|
    ensures Counted(RedriveAll(Progress(rows, 0, 0, 0), list[..n], p, trigger, reply), rows, list, n, p, trigger)
  {
    hide Counted, RedriveOne, Claimable, ReadAsTheyStand;
    if n == 0 {
      NothingCounted(rows, list, p, trigger);
    } else {
      CountersSoFar(rows, list, n - 1, p, trigger, reply);
      assert list[..n][..n - 1] == list[..n - 1];
      CountOne(RedriveAll(Progress(rows, 0, 0, 0), list[..n - 1], p, trigger, reply), rows, list, n - 1, p, trigger, reply);
    }
  }

  lemma NothingCounted(rows: Rows, list: seq<(string, Row)>, p: Pass, trigger: string -> Lookup)
    ensures Counted(Progress(rows, 0, 0, 0), rows, list, 0, p, trigger)
  {
  }

  lemma CountOne(g: Progress, rows: Rows, list: seq<(string, Row)>, n: nat, p: Pass, trigger: string -> Lookup, reply: string -> SinkReply)
    requires n < |list| && ReadAsTheyStand(rows, list) && Counted(g, rows, list, n, p, trigger)
    ensures Counted(RedriveOne(g, list[n].0, list[n].1, p, trigger, reply), rows, list, n + 1, p, trigger)
  {
    hide TakenAt, GotRunAt, GivenUpAt, RedriveOne;
    var h := RedriveOne(g, list[n].0, list[n].1, p, trigger, reply);
    OneStep(g, list, n, p, trigger, reply);
    HowManyAgree(n, ThoseWithRun(h.rows, list, p), ThoseWithRun(g.rows, list, p));
    HowManyAgree(n, TheGivenUp(h.rows, list, p, trigger), TheGivenUp(g.rows, list, p, trigger));
  }

  /** What one listed dispatch adds to the counters, and that it leaves the others alone. */
  lemma OneStep(g: Progress, list: seq<(string, Row)>, n: nat, p: Pass, trigger: string -> Lookup, reply: string -> SinkReply)
    requires n < |list| && list[n].0 in g.rows && g.rows[list[n].0] == list[n].1
    requires forall i, j :: 0 <= i < j < |list| ==> list[i].0 != list[j].0
    ensures var h := RedriveOne(g, list[n].0, list[n].1, p, trigger, reply);
            && h.rows.Keys == g.rows.Keys && (forall x :: x in g.rows && x != list[n].0 ==> h.rows[x] == g.rows[x])
            && h.driven == g.driven + (if TakenAt(list, p, n) then 1 else 0)
            && h.created == g.created + (if GotRunAt(h.rows, list, p, n) then 1 else 0)
            && h.failed == g.failed + (if GivenUpAt(h.rows, list, p, trigger, n) then 1 else 0)
            && (forall i: nat :: i < n ==> GotRunAt(h.rows, list, p, i) == GotRunAt(g.rows, list, p, i))
            && (forall i: nat :: i < n ==> GivenUpAt(h.rows, list, p, trigger, i) == GivenUpAt(g.rows, list, p, trigger, i))
  {
    hide Run, RedriveOps, Claimable;
    var d, seen := list[n].0, list[n].1;
    if Claimable(seen, p.who, p.now) {
      RedriveTells(g.rows, d, seen, p, trigger(d), reply(d));
    }
  }

  // ------------------------------------------------------------------
  // What a redelivery reports
  // ------------------------------------------------------------------

  /** The run on record for the dispatch of a key, if there is one. */
  ghost predicate OnRecord(rows: Rows, key: Key, run: string) {
    exists d :: d in rows && rows[d].key == key && rows[d].runId == Some(run)
  }

  ghost predicate SomeTriggerHas(rows: Rows, tenant: string, event: string, ts: seq<Trigger>, run: string) {
    exists i :: 0 <= i < |ts| && OnRecord(rows, Key(tenant, event, ts[i].triggerId), run)
  }

  /** Redelivering an event whose dispatches are all there reports exactly the runs on
      record for its triggers. */
  lemma {:induction false} RedeliveryReports(rows: Rows, tenant: string, event: string, ts: seq<Trigger>, ids: seq<string>,
                                             reply: string -> SinkReply, run: string)
    requires UniqueKeys(rows) && |ids| == |ts|
    requires forall i :: 0 <= i < |ts| ==> HasKey(rows, Key(tenant, event, ts[i].triggerId))
    ensures run in EventRuns(rows, tenant, event, ts, ids, reply) <==> SomeTriggerHas(rows, tenant, event, ts, run)
  {
    hide HasKey, EventRows, OnRecord, UniqueKeys, EventRun;
    if ts != [] {
      var n := |ts| - 1;
      RedeliveryReports(rows, tenant, event, ts[..n], ids[..n], reply, run);
      EventOnReserved(rows, tenant, event, ts[..n], ids[..n], reply);
      assert HasKey(rows, Key(tenant, event, ts[n].triggerId));
      ReportsOne(rows, tenant, event, ts[n], reply(ids[n]), run);
      if i :| 0 <= i < |ts| && OnRecord(rows, Key(tenant, event, ts[i].triggerId), run) {
        assert i < n ==> ts[..n][i] == ts[i];
      }
    }
  }

  lemma ReportsOne(rows: Rows, tenant: string, event: string, t: Trigger, reply: SinkReply, run: string)
    requires UniqueKeys(rows) && HasKey(rows, Key(tenant, event, t.triggerId))
    ensures EventRun(rows, tenant, event, t, reply) == Some(run) <==> OnRecord(rows, Key(tenant, event, t.triggerId), run)
  {
  }
}
