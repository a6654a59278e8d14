/**
 The dispatch service: driving one dispatch through the sink, dispatching an
 event to its triggers, and the recovery pass over stranded dispatches.  What a
 procedure does to the ledger is given as the operations it performs, so that a
 crash is simply a prefix of them.
 */
module DispatchService {
  import opened Wrappers
  import opened DispatchLedger

  /** What the run sink answers: a run, a typed denial, nothing, or an exception. */
  datatype SinkReply = Created(run: string) | Denied(kind: string) | Neither | Threw(error: string)

  /** What looking up the trigger of a dispatch finds. */
  datatype Lookup = Gone | Disabled | Enabled

  const NO_RUN := "sink returned no run and no rejection"

  function RecordReply(d: string, tenant: string, reply: SinkReply): Op {
    match reply
    case Created(run) => MarkRunCreated(d, tenant, run)
    case Denied(kind) => MarkRejected(d, tenant, kind)
    case Neither => MarkRetryable(d, tenant, NO_RUN)
    case Threw(error) => MarkRetryable(d, tenant, error)
  }

  /** The operations of one drive, from a row read as `seen`. */
  function DriveOps(d: string, seen: Row, enabled: bool, reply: SinkReply): seq<Op> {
    var tenant := seen.key.tenantId;
    if !enabled then [MarkRejected(d, tenant, "disabled_trigger")]
    else [Transition(d, tenant, seen.state, Dispatching), RecordReply(d, tenant, reply)]
  }

  /** What a drive makes of a dispatch it read as it stands: a disabled trigger and a typed
      denial reject it for good with their reason, a run is recorded, and any other answer
      costs a second attempt and leaves it to a later pass. */
  ghost predicate DriveOutcome(before: Row, after: Row, enabled: bool, reply: SinkReply) {
    && after.key == before.key && after.generation == before.generation
    && if !enabled then
         && after.state == Rejected && after.rejection == Some("disabled_trigger") && after.attempts == before.attempts
         && after.owner == None && after.expiresAt == None
       else
         match reply
         case Created(run) =>
           && after.state == RunCreated && after.runId == Some(run) && after.attempts == before.attempts + 1
           && after.owner == None && after.expiresAt == None
         case Denied(kind) =>
           && after.state == Rejected && after.rejection == Some(kind) && after.attempts == before.attempts + 1
           && after.owner == None && after.expiresAt == None
         case _ =>
           && after.state == RetryableFailure && after.attempts == before.attempts + 2 && after.lastError.Some?
           && after.owner == before.owner && after.expiresAt == before.expiresAt
  }

  lemma DriveTells(rows: Rows, d: string, seen: Row, enabled: bool, reply: SinkReply)
    requires d in rows && rows[d] == seen && !Terminal(seen.state)
    ensures var after := Run(rows, DriveOps(d, seen, enabled, reply));
            after.Keys == rows.Keys && DriveOutcome(seen, after[d], enabled, reply)
    ensures forall x :: x in rows && x != d ==> Run(rows, DriveOps(d, seen, enabled, reply))[x] == rows[x]
  {
    hide Run;
    var tenant := seen.key.tenantId;
    if !enabled {
      RunOne(rows, MarkRejected(d, tenant, "disabled_trigger"));
    } else {
      var first := Transition(d, tenant, seen.state, Dispatching);
      var second := RecordReply(d, tenant, reply);
      RunOne(rows, first);
      RunAppend(rows, [first], second);
      assert [first] + [second] == DriveOps(d, seen, enabled, reply);
    }
  }

  datatype Pass = Pass(who: string, leaseMs: int, now: int, maxAttempts: nat)

  /** The operations of a recovery pass on one dispatch it could claim. */
  function RedriveOps(d: string, seen: Row, gen: nat, p: Pass, trigger: Lookup, reply: SinkReply): seq<Op> {
    var tenant := seen.key.tenantId;
    [Claim(d, tenant, p.who, p.leaseMs, p.now)] +
    (if seen.attempts >= p.maxAttempts then [MarkDead(d, tenant, "exhausted attempts")]
     else if trigger.Gone? then [MarkRejected(d, tenant, "no_trigger")]
     else DriveOps(d, seen, trigger.Enabled?, reply)) +
    [Release(d, tenant, gen)]
  }

  datatype Progress = Progress(rows: Rows, driven: nat, created: nat, failed: nat)

  /** One dispatch of a recovery pass, as read in `seen`. */
  ghost function RedriveOne(g: Progress, d: string, seen: Row, p: Pass, trigger: string -> Lookup, reply: string -> SinkReply): Progress {
    if d in g.rows && g.rows[d].key.tenantId == seen.key.tenantId && Claimable(g.rows[d], p.who, p.now) then
      var t, answer := trigger(d), reply(d);
      Progress(Run(g.rows, RedriveOps(d, seen, g.rows[d].generation + 1, p, t, answer)),
               g.driven + 1,
               g.created + (if seen.attempts < p.maxAttempts && t.Enabled? && answer.Created? then 1 else 0),
               g.failed + (if seen.attempts >= p.maxAttempts || t.Gone? then 1 else 0))
    else g
  }

  ghost function RedriveAll(g: Progress, list: seq<(string, Row)>, p: Pass, trigger: string -> Lookup, reply: string -> SinkReply): Progress {
    if list == [] then g
    else
      var n := |list| - 1;
      RedriveOne(RedriveAll(g, list[..n], p, trigger, reply), list[n].0, list[n].1, p, trigger, reply)
  }

  lemma RunOne(rows: Rows, op: Op)
    ensures Run(rows, [op]) == Apply(rows, op)
  {
    hide Apply;
    assert [op][..0] == [];
  }

  lemma RunAppend(rows: Rows, ops: seq<Op>, op: Op)
    ensures Run(rows, ops + [op]) == Apply(Run(rows, ops), op)
  {
    hide Apply;
    assert (ops + [op])[..|ops|] == ops;
  }

  lemma {:induction false} RunConcat(rows: Rows, a: seq<Op>, b: seq<Op>)
    ensures Run(rows, a + b) == Run(Run(rows, a), b)
  {
    hide Apply;
    if b == [] {
      assert a + b == a;
    } else {
      var n := |b| - 1;
      RunConcat(rows, a, b[..n]);
      assert (a + b)[..|a + b| - 1] == a + b[..n];
    }
  }

  // ------------------------------------------------------------------
  // The store
  // ------------------------------------------------------------------

  datatype Reservation = Reservation(dispatchId: string, row: Row, created: bool)

  class SqlTriggerStore {
    var rows: Rows

    constructor ()
      ensures rows == map[]
    {
      rows := map[];
    }

    /** Insert a dispatch, or find the one its key already has. */
    method ReserveDispatch(d: string, key: Key, revision: nat) returns (r: Reservation)
      requires UniqueKeys(rows) && d !in rows
      modifies this
      ensures rows == Apply(old(rows), Reserve(d, key, revision)) && UniqueKeys(rows)
      ensures r.dispatchId in rows && rows[r.dispatchId] == r.row && r.row.key == key
      ensures r.created <==> !HasKey(old(rows), key)
      ensures r.created ==> r.dispatchId == d && r.row == FreshRow(key, revision)
    {
      ApplyPersists(rows, Reserve(d, key, revision));
      if e :| e in rows && rows[e].key == key {
        return Reservation(e, rows[e], false);
      }
      rows := rows[d := Row(key, revision, Matched, None, None, 0, None, 0, None, None)];
      r := Reservation(d, rows[d], true);
    }

    method TransitionDispatch(d: string, tenant: string, from: DispatchState, to: DispatchState) returns (r: Option<Row>)
      modifies this
      ensures rows == Apply(old(rows), Transition(d, tenant, from, to))
      ensures r == if d in rows && rows[d].key.tenantId == tenant then Some(rows[d]) else None
    {
      if d in rows && rows[d].key.tenantId == tenant && rows[d].state == from {
        rows := rows[d := rows[d].(state := to, rejection := None, attempts := rows[d].attempts + 1, lastError := None)];
      } else {
        Unchanged(rows, Transition(d, tenant, from, to));
      }
      r := if d in rows && rows[d].key.tenantId == tenant then Some(rows[d]) else None;
    }

    method MarkRunCreated(d: string, tenant: string, run: string)
      modifies this
      ensures rows == Apply(old(rows), Op.MarkRunCreated(d, tenant, run))
    {
      if d in rows && rows[d].key.tenantId == tenant && rows[d].state in {Admitted, Dispatching, Matched} {
        rows := rows[d := rows[d].(state := RunCreated, runId := Some(run), owner := None, expiresAt := None)];
      } else {
        Unchanged(rows, Op.MarkRunCreated(d, tenant, run));
      }
    }

    method MarkRejected(d: string, tenant: string, kind: string)
      modifies this
      ensures rows == Apply(old(rows), Op.MarkRejected(d, tenant, kind))
    {
      if d in rows && rows[d].key.tenantId == tenant && rows[d].state !in {RunCreated, Rejected, DispatchState.DeadLetter} {
        rows := rows[d := rows[d].(state := Rejected, rejection := Some(kind), owner := None, expiresAt := None)];
      } else {
        Unchanged(rows, Op.MarkRejected(d, tenant, kind));
      }
    }

    method MarkRetryable(d: string, tenant: string, error: string)
      modifies this
      ensures rows == Apply(old(rows), Op.MarkRetryable(d, tenant, error))
    {
      if d in rows && rows[d].key.tenantId == tenant && rows[d].state !in {RunCreated, Rejected, DispatchState.DeadLetter} {
        rows := rows[d := rows[d].(state := RetryableFailure, lastError := Some(error), attempts := rows[d].attempts + 1)];
      } else {
        Unchanged(rows, Op.MarkRetryable(d, tenant, error));
      }
    }

    method DeadLetter(d: string, tenant: string, error: string)
      modifies this
      ensures rows == Apply(old(rows), MarkDead(d, tenant, error))
    {
      if d in rows && rows[d].key.tenantId == tenant && rows[d].state !in {RunCreated, Rejected} {
        rows := rows[d := rows[d].(state := DispatchState.DeadLetter, lastError := Some(error), owner := None, expiresAt := None)];
      } else {
        Unchanged(rows, MarkDead(d, tenant, error));
      }
    }

    /** Claim a lease; the result is the generation granted. */
    method ClaimRedriveDispatch(d: string, tenant: string, who: string, leaseMs: int, now: int) returns (gen: Option<nat>)
      modifies this
      ensures rows == Apply(old(rows), Claim(d, tenant, who, leaseMs, now))
      ensures gen.Some? <==> d in old(rows) && old(rows)[d].key.tenantId == tenant && Claimable(old(rows)[d], who, now)
      ensures gen.Some? ==> gen.value == old(rows)[d].generation + 1
    {
      if d !in rows || rows[d].key.tenantId != tenant {
        return None;
      }
      var row := rows[d];
      if row.state in {RunCreated, Rejected, DispatchState.DeadLetter} {
        Unchanged(rows, Claim(d, tenant, who, leaseMs, now));
        return None;
      }
      if row.owner.Some? && row.expiresAt.Some? && row.expiresAt.value > now && row.owner.value != who {
        Unchanged(rows, Claim(d, tenant, who, leaseMs, now));
        return None;
      }
      rows := rows[d := row.(generation := row.generation + 1, owner := Some(who), expiresAt := Some(now + leaseMs))];
      gen := Some(row.generation + 1);
    }

    method RenewRedriveLease(d: string, tenant: string, gen: nat, leaseMs: int, now: int) returns (renewed: bool)
      modifies this
      ensures rows == Apply(old(rows), Renew(d, tenant, gen, leaseMs, now))
      ensures renewed <==> d in old(rows) && old(rows)[d].key.tenantId == tenant && old(rows)[d].generation == gen
    {
      renewed := d in rows && rows[d].key.tenantId == tenant && rows[d].generation == gen;
      if renewed {
        rows := rows[d := rows[d].(expiresAt := Some(now + leaseMs))];
      } else {
        Unchanged(rows, Renew(d, tenant, gen, leaseMs, now));
      }
    }

    method ReleaseRedriveLease(d: string, tenant: string, gen: nat)
      modifies this
      ensures rows == Apply(old(rows), Release(d, tenant, gen))
    {
      if d in rows && rows[d].key.tenantId == tenant && rows[d].generation == gen {
        rows := rows[d := rows[d].(owner := None, expiresAt := None)];
      } else {
        Unchanged(rows, Release(d, tenant, gen));
      }
    }

    /** Operator redrive: re-arm a dead letter with its attempts reset. */
    method RedriveDeadLetter(d: string, tenant: string, now: int) returns (r: Option<Row>)
      modifies this
      ensures rows == Apply(old(rows), RedriveDead(d, tenant, now))
      ensures r == if d in rows && rows[d].key.tenantId == tenant then Some(rows[d]) else None
    {
      if d !in rows || rows[d].key.tenantId != tenant {
        return None;
      }
      if rows[d].state == DispatchState.DeadLetter {
        rows := rows[d := rows[d].(state := RetryableFailure, attempts := 0, lastError := Some("operator redrive"),
                                   owner := None, expiresAt := None)];
      } else {
        Unchanged(rows, RedriveDead(d, tenant, now));
      }
      r := Some(rows[d]);
    }
  }

  /** An operation that leaves its row as it is leaves the ledger as it is. */
  lemma Unchanged(rows: Rows, op: Op)
    requires !op.Reserve?
    requires op.d in rows && rows[op.d].key.tenantId == op.tenant ==> Update(rows[op.d], op) == rows[op.d]
    ensures Apply(rows, op) == rows
  {
    if op.d in rows && rows[op.d].key.tenantId == op.tenant {
      assert rows[op.d := rows[op.d]] == rows;
    }
  }

  // ------------------------------------------------------------------
  // The service
  // ------------------------------------------------------------------

  datatype Trigger = Trigger(triggerId: string, revision: nat, enabled: bool)

  /** One trigger of an event: reserve its dispatch and, if it is new, drive it. */
  ghost function EventStep(rows: Rows, tenant: string, event: string, t: Trigger, d: string, reply: SinkReply): Rows {
    var key := Key(tenant, event, t.triggerId);
    if HasKey(rows, key) then rows
    else Run(Apply(rows, Reserve(d, key, t.revision)), DriveOps(d, FreshRow(key, t.revision), t.enabled, reply))
  }

  ghost function EventRows(rows: Rows, tenant: string, event: string, ts: seq<Trigger>, ids: seq<string>, reply: string -> SinkReply): Rows
    requires |ids| == |ts|
  {
    if ts == [] then rows
    else
      var n := |ts| - 1;
      EventStep(EventRows(rows, tenant, event, ts[..n], ids[..n], reply), tenant, event, ts[n], ids[n], reply(ids[n]))
  }

  /** The run id an event reports for one trigger: that of the dispatch found, or
      the one the sink just created. */
  ghost function EventRun(rows: Rows, tenant: string, event: string, t: Trigger, reply: SinkReply): Option<string> {
    var key := Key(tenant, event, t.triggerId);
    if HasKey(rows, key) then var e :| e in rows && rows[e].key == key; rows[e].runId
    else if t.enabled && reply.Created? then Some(reply.run)
    else None
  }

  ghost function EventRuns(rows: Rows, tenant: string, event: string, ts: seq<Trigger>, ids: seq<string>, reply: string -> SinkReply): seq<string>
    requires |ids| == |ts|
  {
    if ts == [] then []
    else
      var n := |ts| - 1;
      var run := EventRun(EventRows(rows, tenant, event, ts[..n], ids[..n], reply), tenant, event, ts[n], reply(ids[n]));
      EventRuns(rows, tenant, event, ts[..n], ids[..n], reply) + if run.Some? then [run.value] else []
  }

  class TriggerDispatchService {
    const store: SqlTriggerStore

    constructor (store: SqlTriggerStore)
      ensures this.store == store
    {
      this.store := store;
    }

    /** Drive one dispatch through the sink. */
    method DriveDispatch(d: string, seen: Row, enabled: bool, reply: SinkReply) returns (run: Option<string>)
      modifies store
      ensures store.rows == Run(old(store.rows), DriveOps(d, seen, enabled, reply))
      ensures d in old(store.rows) && old(store.rows)[d] == seen && !Terminal(seen.state) ==>
                d in store.rows && DriveOutcome(seen, store.rows[d], enabled, reply)
      ensures run == if enabled && reply.Created? then Some(reply.run) else None
    {
      hide Apply, DriveOutcome;
      if d in store.rows && store.rows[d] == seen && !Terminal(seen.state) {
        DriveTells(store.rows, d, seen, enabled, reply);
      }
      var tenant := seen.key.tenantId;
      ghost var before := store.rows;
      run := None;
      if !enabled {
        RunOne(before, MarkRejected(d, tenant, "disabled_trigger"));
        store.MarkRejected(d, tenant, "disabled_trigger");
        return;
      }
      var first := Transition(d, tenant, seen.state, Dispatching);
      RunOne(before, first);
      RunAppend(before, [first], RecordReply(d, tenant, reply));
      assert [first] + [RecordReply(d, tenant, reply)] == DriveOps(d, seen, enabled, reply);
      var _ := store.TransitionDispatch(d, tenant, seen.state, Dispatching);
      match reply
      case Denied(kind) =>
        store.MarkRejected(d, tenant, kind);
      case Created(r) =>
        store.MarkRunCreated(d, tenant, r);
        run := Some(r);
      case Neither =>
        store.MarkRetryable(d, tenant, NO_RUN);
      case Threw(error) =>
        store.MarkRetryable(d, tenant, error);
    }

    /** Dispatch an event to the triggers it matches; the sink answers as `reply` says. */
    method DispatchEvent(tenant: string, event: string, ts: seq<Trigger>, ids: seq<string>, reply: string -> SinkReply)
      returns (runIds: seq<string>)
      requires UniqueKeys(store.rows) && |ids| == |ts|
      requires forall i :: 0 <= i < |ids| ==> ids[i] !in store.rows
      requires forall i, j :: 0 <= i < j < |ids| ==> ids[i] != ids[j]
      modifies store
      ensures store.rows == EventRows(old(store.rows), tenant, event, ts, ids, reply)
      ensures runIds == EventRuns(old(store.rows), tenant, event, ts, ids, reply)
      ensures UniqueKeys(store.rows)
    {
      hide Run, Apply, EventRows, EventRuns, DriveOps;
      runIds := [];
      EventUnfolds(store.rows, tenant, event, ts, ids, reply, 0);
      ghost var before := store.rows;
      for n := 0 to |ts|
        invariant UniqueKeys(store.rows)
        invariant store.rows == EventRows(before, tenant, event, ts[..n], ids[..n], reply)
        invariant runIds == EventRuns(before, tenant, event, ts[..n], ids[..n], reply)
        invariant forall i :: n <= i < |ids| ==> ids[i] !in store.rows
      {
        EventUnfolds(before, tenant, event, ts, ids, reply, n + 1);
        var t, d := ts[n], ids[n];
        ghost var rows := store.rows;
        ReserveAddsOne(rows, d, Key(tenant, event, t.triggerId), t.revision);
        var reserved := store.ReserveDispatch(d, Key(tenant, event, t.triggerId), t.revision);
        if reserved.created {
          ghost var after := store.rows;
          DrivePersists(after, d, reserved.row, t.enabled, reply(d));
          var run := DriveDispatch(d, reserved.row, t.enabled, reply(d));
          if run.Some? {
            runIds := runIds + [run.value];
          }
        } else if reserved.row.runId.Some? {
          runIds := runIds + [reserved.row.runId.value];
        }
      }
      assert ts[..|ts|] == ts && ids[..|ts|] == ids;
    }

    /** One recovery pass over the dispatches listed as stranded. */
    method Redrive(list: seq<(string, Row)>, p: Pass, trigger: string -> Lookup, reply: string -> SinkReply)
      returns (driven: nat, created: nat, failed: nat)
      modifies store
      ensures Progress(store.rows, driven, created, failed) ==
              RedriveAll(Progress(old(store.rows), 0, 0, 0), list, p, trigger, reply)
    {
      hide Run, Apply, Claimable, DriveOps, RedriveOps, ClearLease;
      ghost var start := Progress(store.rows, 0, 0, 0);
      driven, created, failed := 0, 0, 0;
      for n := 0 to |list|
        invariant Progress(store.rows, driven, created, failed) == RedriveAll(start, list[..n], p, trigger, reply)
      {
        assert list[..n + 1][..n] == list[..n];
        var d, seen := list[n].0, list[n].1;
        var tenant := seen.key.tenantId;
        ghost var rows := store.rows;
        var lease := store.ClaimRedriveDispatch(d, tenant, p.who, p.leaseMs, p.now);
        if lease.Some? {
          driven := driven + 1;
          var t := trigger(d);
          RedriveUnfolds(rows, d, seen, lease.value, p, t, reply(d));
          if seen.attempts >= p.maxAttempts {
            store.DeadLetter(d, tenant, "exhausted attempts");
            failed := failed + 1;
          } else if t.Gone? {
            store.MarkRejected(d, tenant, "no_trigger");
            failed := failed + 1;
          } else {
            var run := DriveDispatch(d, seen, t.Enabled?, reply(d));
            if run.Some? {
              created := created + 1;
            }
          }
          store.ReleaseRedriveLease(d, tenant, lease.value);
        } else {
          ClaimRefused(rows, d, tenant, p);
        }
      }
      assert list[..|list|] == list;
    }
  }

  lemma EventUnfolds(rows: Rows, tenant: string, event: string, ts: seq<Trigger>, ids: seq<string>, reply: string -> SinkReply, n: nat)
    requires |ids| == |ts| && n <= |ts|
    ensures n == 0 ==>
              EventRows(rows, tenant, event, ts[..n], ids[..n], reply) == rows
              && EventRuns(rows, tenant, event, ts[..n], ids[..n], reply) == []
    ensures n > 0 ==>
              var before := EventRows(rows, tenant, event, ts[..n - 1], ids[..n - 1], reply);
              var run := EventRun(before, tenant, event, ts[n - 1], reply(ids[n - 1]));
              && EventRows(rows, tenant, event, ts[..n], ids[..n], reply) ==
                 EventStep(before, tenant, event, ts[n - 1], ids[n - 1], reply(ids[n - 1]))
              && EventRuns(rows, tenant, event, ts[..n], ids[..n], reply) ==
                 EventRuns(rows, tenant, event, ts[..n - 1], ids[..n - 1], reply) + if run.Some? then [run.value] else []
  {
    hide EventStep, EventRun;
    if n > 0 {
      assert ts[..n][..n - 1] == ts[..n - 1] && ids[..n][..n - 1] == ids[..n - 1];
    }
  }

  lemma ReserveAddsOne(rows: Rows, d: string, key: Key, revision: nat)
    ensures Apply(rows, Reserve(d, key, revision)).Keys <= rows.Keys + {d}
    ensures HasKey(rows, key) ==> Apply(rows, Reserve(d, key, revision)) == rows
  {
  }

  lemma ClaimRefused(rows: Rows, d: string, tenant: string, p: Pass)
    requires !(d in rows && rows[d].key.tenantId == tenant && Claimable(rows[d], p.who, p.now))
    ensures Apply(rows, Claim(d, tenant, p.who, p.leaseMs, p.now)) == rows
  {
    Unchanged(rows, Claim(d, tenant, p.who, p.leaseMs, p.now));
  }

  /** The operations of a pass on one dispatch, one after the other. */
  lemma RedriveUnfolds(rows: Rows, d: string, seen: Row, gen: nat, p: Pass, t: Lookup, reply: SinkReply)
    ensures var tenant := seen.key.tenantId;
            var claimed := Apply(rows, Claim(d, tenant, p.who, p.leaseMs, p.now));
            Run(rows, RedriveOps(d, seen, gen, p, t, reply)) ==
            Apply(if seen.attempts >= p.maxAttempts then Apply(claimed, MarkDead(d, tenant, "exhausted attempts"))
                  else if t.Gone? then Apply(claimed, MarkRejected(d, tenant, "no_trigger"))
                  else Run(claimed, DriveOps(d, seen, t.Enabled?, reply)),
                  Release(d, tenant, gen))
  {
    hide Apply, Run;
    var tenant := seen.key.tenantId;
    var claim := Claim(d, tenant, p.who, p.leaseMs, p.now);
    var middle := if seen.attempts >= p.maxAttempts then [MarkDead(d, tenant, "exhausted attempts")]
                  else if t.Gone? then [MarkRejected(d, tenant, "no_trigger")]
                  else DriveOps(d, seen, t.Enabled?, reply);
    RunOne(rows, claim);
    RunConcat(rows, [claim], middle);
    RunAppend(rows, [claim] + middle, Release(d, tenant, gen));
    if |middle| == 1 {
      RunOne(Apply(rows, claim), middle[0]);
      assert middle == [middle[0]];
    }
  }

  /** Driving a dispatch adds no rows and keeps keys unique. */
  lemma DrivePersists(rows: Rows, d: string, seen: Row, enabled: bool, reply: SinkReply)
    ensures var after := Run(rows, DriveOps(d, seen, enabled, reply));
            after.Keys == rows.Keys && (UniqueKeys(rows) ==> UniqueKeys(after))
  {
    var ops := DriveOps(d, seen, enabled, reply);
    RunPersists(rows, ops, |ops|);
    RunKeepsIds(rows, ops);
  }

  lemma {:induction false} RunKeepsIds(rows: Rows, ops: seq<Op>)
    requires forall i :: 0 <= i < |ops| ==> !ops[i].Reserve?
    ensures Run(rows, ops).Keys == rows.Keys
  {
    if ops != [] {
      RunKeepsIds(rows, ops[..|ops| - 1]);
    }
  }

  // ------------------------------------------------------------------
  // Re-delivering an event
  // ------------------------------------------------------------------

  lemma KeyStays(a: Rows, b: Rows, key: Key)
    requires Persists(a, b) && HasKey(a, key)
    ensures HasKey(b, key)
  {
    var d :| d in a && a[d].key == key;
    assert b[d].key == key;
  }

  lemma EventStepReserves(rows: Rows, tenant: string, event: string, t: Trigger, d: string, reply: SinkReply)
    requires d !in rows
    ensures HasKey(EventStep(rows, tenant, event, t, d, reply), Key(tenant, event, t.triggerId))
    ensures Persists(rows, EventStep(rows, tenant, event, t, d, reply))
    ensures EventStep(rows, tenant, event, t, d, reply).Keys <= rows.Keys + {d}
  {
    var key := Key(tenant, event, t.triggerId);
    if !HasKey(rows, key) {
      var reserved := Apply(rows, Reserve(d, key, t.revision));
      var ops := DriveOps(d, FreshRow(key, t.revision), t.enabled, reply);
      assert reserved[d].key == key;
      assert ops[..0] == [];
      RunPersists(reserved, ops, 0);
      RunKeepsIds(reserved, ops);
      assert Run(reserved, ops)[d].key == key;
    }
  }

  lemma {:induction false} EventReserves(rows: Rows, tenant: string, event: string, ts: seq<Trigger>, ids: seq<string>, reply: string -> SinkReply)
    requires |ids| == |ts|
    requires forall i :: 0 <= i < |ids| ==> ids[i] !in rows
    requires forall i, j :: 0 <= i < j < |ids| ==> ids[i] != ids[j]
    ensures forall i :: 0 <= i < |ts| ==> HasKey(EventRows(rows, tenant, event, ts, ids, reply), Key(tenant, event, ts[i].triggerId))
    ensures EventRows(rows, tenant, event, ts, ids, reply).Keys <= rows.Keys + set x | x in ids
  {
    hide EventStep, HasKey, Persists;
    if ts != [] {
      var n := |ts| - 1;
      EventReserves(rows, tenant, event, ts[..n], ids[..n], reply);
      var before := EventRows(rows, tenant, event, ts[..n], ids[..n], reply);
      assert ids[n] !in before;
      EventStepReserves(before, tenant, event, ts[n], ids[n], reply(ids[n]));
      forall i | 0 <= i < |ts|
        ensures HasKey(EventRows(rows, tenant, event, ts, ids, reply), Key(tenant, event, ts[i].triggerId))
      {
        if i < n {
          assert ts[..n][i] == ts[i];
          KeyStays(before, EventStep(before, tenant, event, ts[n], ids[n], reply(ids[n])), Key(tenant, event, ts[i].triggerId));
        }
      }
    }
  }

  lemma {:induction false} EventOnReserved(rows: Rows, tenant: string, event: string, ts: seq<Trigger>, ids: seq<string>, reply: string -> SinkReply)
    requires |ids| == |ts|
    requires forall i :: 0 <= i < |ts| ==> HasKey(rows, Key(tenant, event, ts[i].triggerId))
    ensures EventRows(rows, tenant, event, ts, ids, reply) == rows
  {
    hide HasKey;
    if ts != [] {
      var n := |ts| - 1;
      EventOnReserved(rows, tenant, event, ts[..n], ids[..n], reply);
      assert HasKey(rows, Key(tenant, event, ts[n].triggerId));
    }
  }

  /** After a delivery that went through all its triggers, a second delivery of the
      event changes nothing, whatever happened since and whatever the sink would say. */
  lemma RedeliveryIsNoOp(rows: Rows, tenant: string, event: string, ts: seq<Trigger>,
                         ids: seq<string>, reply: string -> SinkReply, later: seq<Op>,
                         ids': seq<string>, reply': string -> SinkReply)
    requires |ids| == |ts| == |ids'|
    requires forall i :: 0 <= i < |ids| ==> ids[i] !in rows
    requires forall i, j :: 0 <= i < j < |ids| ==> ids[i] != ids[j]
    ensures var first := Run(EventRows(rows, tenant, event, ts, ids, reply), later);
            EventRows(first, tenant, event, ts, ids', reply') == first
  {
    hide HasKey, Run, Persists;
    EventReserves(rows, tenant, event, ts, ids, reply);
    var once := EventRows(rows, tenant, event, ts, ids, reply);
    var first := Run(once, later);
    RunFromStart(once, later);
    forall i | 0 <= i < |ts|
      ensures HasKey(first, Key(tenant, event, ts[i].triggerId))
    {
      KeyStays(once, first, Key(tenant, event, ts[i].triggerId));
    }
    EventOnReserved(first, tenant, event, ts, ids', reply');
  }

  lemma RunFromStart(rows: Rows, ops: seq<Op>)
    ensures Persists(rows, Run(rows, ops))
  {
    RunPersists(rows, ops, 0);
    assert ops[..0] == [];
  }
}
