/**
 The durable dispatch ledger of triggers: one row per (tenant, event, trigger),
 guarded state updates, and the fenced redrive lease.  Each store operation is a
 function on the rows; the lemmas are about arbitrary sequences of operations.
 */
module DispatchLedger {
  import opened Wrappers

  datatype DispatchState =
    | Received | Matched | Dispatching | Admitted | RunCreated | Rejected | RetryableFailure | DeadLetter

  datatype Key = Key(tenantId: string, sourceEventId: string, triggerId: string)

  datatype Row = Row(
    key: Key, triggerRevision: nat, state: DispatchState, runId: Option<string>,
    rejection: Option<string>, attempts: nat, lastError: Option<string>,
    generation: nat, owner: Option<string>, expiresAt: Option<int>)

  type Rows = map<string, Row>

  datatype Op =
    | Reserve(d: string, key: Key, revision: nat)
    | Transition(d: string, tenant: string, from: DispatchState, to: DispatchState)
    | MarkRunCreated(d: string, tenant: string, run: string)
    | MarkRejected(d: string, tenant: string, kind: string)
    | MarkRetryable(d: string, tenant: string, error: string)
    | MarkDead(d: string, tenant: string, error: string)
    | Claim(d: string, tenant: string, who: string, leaseMs: int, now: int)
    | Renew(d: string, tenant: string, gen: nat, leaseMs: int, now: int)
    | Release(d: string, tenant: string, gen: nat)
    | RedriveDead(d: string, tenant: string, now: int)

  predicate Terminal(s: DispatchState) {
    s == RunCreated || s == Rejected || s == DeadLetter
  }

  function FreshRow(key: Key, revision: nat): Row {
    Row(key, revision, Matched, None, None, 0, None, 0, None, None)
  }

  predicate HasKey(rows: Rows, key: Key) {
    exists d :: d in rows && rows[d].key == key
  }

  /** Another owner holds a lease that has not run out. */
  predicate LeaseActive(r: Row, who: string, now: int) {
    r.owner.Some? && r.expiresAt.Some? && r.expiresAt.value > now && r.owner.value != who
  }

  predicate Claimable(r: Row, who: string, now: int) {
    !Terminal(r.state) && !LeaseActive(r, who, now)
  }

  function ClearLease(r: Row): Row {
    r.(owner := None, expiresAt := None)
  }

  /** The effect of an operation on the row it addresses. */
  function Update(r: Row, op: Op): Row
    requires !op.Reserve?
  {
    match op
    case Transition(_, _, from, to) =>
      if r.state != from then r
      else r.(state := to, rejection := None, attempts := r.attempts + 1, lastError := None)
    case MarkRunCreated(_, _, run) =>
      if r.state == Admitted || r.state == Dispatching || r.state == Matched
      then ClearLease(r).(state := RunCreated, runId := Some(run)) else r
    case MarkRejected(_, _, kind) =>
      if Terminal(r.state) then r else ClearLease(r).(state := Rejected, rejection := Some(kind))
    case MarkRetryable(_, _, error) =>
      if Terminal(r.state) then r
      else r.(state := RetryableFailure, lastError := Some(error), attempts := r.attempts + 1)
    case MarkDead(_, _, error) =>
      if r.state == RunCreated || r.state == Rejected then r
      else ClearLease(r).(state := DeadLetter, lastError := Some(error))
    case Claim(_, _, who, leaseMs, now) =>
      if !Claimable(r, who, now) then r
      else r.(generation := r.generation + 1, owner := Some(who), expiresAt := Some(now + leaseMs))
    case Renew(_, _, gen, leaseMs, now) =>
      if r.generation != gen then r else r.(expiresAt := Some(now + leaseMs))
    case Release(_, _, gen) =>
      if r.generation != gen then r else ClearLease(r)
    case RedriveDead(_, _, now) =>
      if r.state != DeadLetter then r
      else ClearLease(r).(state := RetryableFailure, attempts := 0, lastError := Some("operator redrive"))
  }

  function Apply(rows: Rows, op: Op): Rows {
    if op.Reserve? then
      if HasKey(rows, op.key) || op.d in rows then rows else rows[op.d := FreshRow(op.key, op.revision)]
    else if op.d in rows && rows[op.d].key.tenantId == op.tenant then
      rows[op.d := Update(rows[op.d], op)]
    else rows
  }

  ghost function Run(rows: Rows, ops: seq<Op>): Rows {
    if ops == [] then rows else Apply(Run(rows, ops[..|ops| - 1]), ops[|ops| - 1])
  }

  // ------------------------------------------------------------------
  // What every operation keeps
  // ------------------------------------------------------------------

  ghost predicate UniqueKeys(rows: Rows) {
    forall a, b :: a in rows && b in rows && rows[a].key == rows[b].key ==> a == b
  }

  /** Rows stay, keep their key, and their lease generation never falls. */
  ghost predicate Persists(a: Rows, b: Rows) {
    forall d :: d in a ==> d in b && b[d].key == a[d].key && b[d].generation >= a[d].generation
  }

  lemma ApplyPersists(rows: Rows, op: Op)
    ensures Persists(rows, Apply(rows, op))
    ensures UniqueKeys(rows) ==> UniqueKeys(Apply(rows, op))
  {
  }

  lemma {:induction false} RunPersists(rows: Rows, ops: seq<Op>, n: nat)
    requires n <= |ops|
    ensures Persists(Run(rows, ops[..n]), Run(rows, ops))
    ensures UniqueKeys(rows) ==> UniqueKeys(Run(rows, ops))
  {
    hide Apply;
    if n == |ops| {
      assert ops[..n] == ops;
    }
    if ops != [] {
      var init := ops[..|ops| - 1];
      ApplyPersists(Run(rows, init), ops[|ops| - 1]);
      RunPersists(rows, init, if n < |ops| then n else |init|);
      if n < |ops| {
        assert init[..n] == ops[..n];
      }
    }
  }

  lemma RunStep(rows: Rows, ops: seq<Op>, i: nat)
    requires i < |ops|
    ensures Run(rows, ops[..i + 1]) == Apply(Run(rows, ops[..i]), ops[i])
  {
    assert ops[..i + 1][..i] == ops[..i];
  }

  // ------------------------------------------------------------------
  // The redrive lease
  // ------------------------------------------------------------------

  /** Operation i of the sequence is a claim of d that succeeds. */
  ghost predicate ClaimsAt(rows: Rows, ops: seq<Op>, d: string, i: nat) {
    && i < |ops| && ops[i].Claim? && ops[i].d == d
    && var now := Run(rows, ops[..i]);
       d in now && now[d].key.tenantId == ops[i].tenant && Claimable(now[d], ops[i].who, ops[i].now)
  }

  /** The generation a successful claim is given. */
  ghost function GrantedAt(rows: Rows, ops: seq<Op>, d: string, i: nat): nat
    requires ClaimsAt(rows, ops, d, i)
  {
    Run(rows, ops[..i])[d].generation + 1
  }

  lemma GrantIsRecorded(rows: Rows, ops: seq<Op>, d: string, i: nat)
    requires ClaimsAt(rows, ops, d, i)
    ensures var after := Run(rows, ops[..i + 1]);
            && d in after && after[d].generation == GrantedAt(rows, ops, d, i)
            && after[d].owner == Some(ops[i].who) && after[d].expiresAt == Some(ops[i].now + ops[i].leaseMs)
  {
    RunStep(rows, ops, i);
  }

  /** Later successful claims get strictly larger generations. */
  lemma GenerationsGrow(rows: Rows, ops: seq<Op>, d: string, i: nat, j: nat)
    requires i < j && ClaimsAt(rows, ops, d, i) && ClaimsAt(rows, ops, d, j)
    ensures GrantedAt(rows, ops, d, i) < GrantedAt(rows, ops, d, j)
  {
    hide Apply;
    GrantIsRecorded(rows, ops, d, i);
    RunPersists(rows, ops[..j], i + 1);
    assert ops[..j][..i + 1] == ops[..i + 1];
  }

  /** The operation takes the lease on row r away: a release by the current
      generation, a terminal write, or an operator redrive. */
  ghost predicate TakesLease(r: Row, op: Op) {
    match op
    case Release(_, _, gen) => r.generation == gen
    case MarkRunCreated(_, _, _) => r.state == Admitted || r.state == Dispatching || r.state == Matched
    case MarkRejected(_, _, _) => !Terminal(r.state)
    case MarkDead(_, _, _) => r.state != RunCreated && r.state != Rejected
    case RedriveDead(_, _, _) => r.state == DeadLetter
    case _ => false
  }

  ghost predicate TakesLeaseAt(rows: Rows, ops: seq<Op>, d: string, i: nat) {
    && i < |ops| && !ops[i].Reserve? && ops[i].d == d
    && d in Run(rows, ops[..i]) && Run(rows, ops[..i])[d].key.tenantId == ops[i].tenant
    && TakesLease(Run(rows, ops[..i])[d], ops[i])
  }

  /** Until the lease is taken away or claimed by somebody else, it is held. */
  lemma {:induction false} LeaseIsHeld(rows: Rows, ops: seq<Op>, d: string, i: nat, j: nat)
    requires i < j <= |ops| && ClaimsAt(rows, ops, d, i)
    requires forall m: nat :: i < m < j ==> !TakesLeaseAt(rows, ops, d, m)
    requires forall m: nat :: i < m < j && ClaimsAt(rows, ops, d, m) ==> ops[m].who == ops[i].who
    ensures d in Run(rows, ops[..j]) && Run(rows, ops[..j])[d].owner == Some(ops[i].who)
    ensures Run(rows, ops[..j])[d].expiresAt.Some?
  {
    hide Run, Apply, TakesLeaseAt;
    if j == i + 1 {
      GrantIsRecorded(rows, ops, d, i);
    } else {
      LeaseIsHeld(rows, ops, d, i, j - 1);
      RunStep(rows, ops, j - 1);
      HeldStep(rows, ops, d, i, j - 1);
    }
  }

  lemma HeldStep(rows: Rows, ops: seq<Op>, d: string, i: nat, m: nat)
    requires i < m < |ops| && ops[i].Claim?
    requires d in Run(rows, ops[..m])
    requires Run(rows, ops[..m])[d].owner == Some(ops[i].who) && Run(rows, ops[..m])[d].expiresAt.Some?
    requires !TakesLeaseAt(rows, ops, d, m) && (ClaimsAt(rows, ops, d, m) ==> ops[m].who == ops[i].who)
    ensures var after := Apply(Run(rows, ops[..m]), ops[m]);
            d in after && after[d].owner == Some(ops[i].who) && after[d].expiresAt.Some?
  {
    hide Run;
    var before := Run(rows, ops[..m]);
    if !ops[m].Reserve? && ops[m].d == d && before[d].key.tenantId == ops[m].tenant {
      assert Apply(before, ops[m])[d] == Update(before[d], ops[m]);
    }
  }

  /** Operation i grants or extends the lease on d: a successful claim, or a renewal by the
      current generation. */
  ghost predicate LeasesAt(rows: Rows, ops: seq<Op>, d: string, i: nat) {
    || ClaimsAt(rows, ops, d, i)
    || (&& i < |ops| && ops[i].Renew? && ops[i].d == d
        && d in Run(rows, ops[..i]) && Run(rows, ops[..i])[d].key.tenantId == ops[i].tenant
        && Run(rows, ops[..i])[d].generation == ops[i].gen)
  }

  /** A lease runs until the moment it was last granted or extended to, unless it is taken
      away: until then its owner keeps it and nobody else can claim. */
  lemma {:induction false} LeaseRunsItsTime(rows: Rows, ops: seq<Op>, d: string, i: nat, j: nat)
    requires i < j <= |ops| && LeasesAt(rows, ops, d, i)
    requires forall m: nat :: i < m < j ==> !TakesLeaseAt(rows, ops, d, m) && !LeasesAt(rows, ops, d, m)
    ensures var granted, now := Run(rows, ops[..i + 1]), Run(rows, ops[..j]);
            && d in granted && d in now && now[d].owner == granted[d].owner
            && (ops[i].Claim? ==> now[d].owner == Some(ops[i].who))
            && now[d].expiresAt == Some(ops[i].now + ops[i].leaseMs)
            && forall who, t :: now[d].owner.Some? && now[d].owner != Some(who) && t < ops[i].now + ops[i].leaseMs ==>
                 !Claimable(now[d], who, t)
  {
    hide Run;
    RunStep(rows, ops, j - 1);
    if i < j - 1 {
      LeaseRunsItsTime(rows, ops, d, i, j - 1);
      assert !TakesLeaseAt(rows, ops, d, j - 1) && !LeasesAt(rows, ops, d, j - 1);
    }
  }

  /** A different owner gets the lease only after it ran out or was taken away. */
  lemma OtherOwnerWaits(rows: Rows, ops: seq<Op>, d: string, i: nat, j: nat)
    requires i < j && ClaimsAt(rows, ops, d, i) && ClaimsAt(rows, ops, d, j)
    requires ops[j].who != ops[i].who
    requires forall m: nat :: i < m < j && ClaimsAt(rows, ops, d, m) ==> ops[m].who == ops[i].who
    ensures (exists m: nat :: i < m < j && TakesLeaseAt(rows, ops, d, m)) ||
            (Run(rows, ops[..j])[d].expiresAt.Some? && Run(rows, ops[..j])[d].expiresAt.value <= ops[j].now)
  {
    hide Run, TakesLeaseAt;
    if forall m: nat :: i < m < j ==> !TakesLeaseAt(rows, ops, d, m) {
      LeaseIsHeld(rows, ops, d, i, j);
    }
  }

  /** Once a later claim succeeded, the generation of an earlier one can neither
      renew nor release the lease, ever. */
  lemma SupersededIsPowerless(rows: Rows, ops: seq<Op>, d: string, i: nat, j: nat, op: Op)
    requires i < j && ClaimsAt(rows, ops, d, i) && ClaimsAt(rows, ops, d, j)
    requires (op.Renew? || op.Release?) && op.d == d && op.gen == GrantedAt(rows, ops, d, i)
    ensures Apply(Run(rows, ops), op) == Run(rows, ops)
  {
    hide Run;
    GenerationsGrow(rows, ops, d, i, j);
    GrantIsRecorded(rows, ops, d, j);
    RunPersists(rows, ops, j + 1);
    var now := Run(rows, ops);
    assert now[d].generation != op.gen;
    assert now[d := now[d]] == now;
  }

  // ------------------------------------------------------------------
  // States
  // ------------------------------------------------------------------

  /** What drivers do: a transition starts from a state read as non-terminal and
      goes to `dispatching`. */
  predicate Driven(op: Op) {
    op.Transition? ==> !Terminal(op.from) && op.to == Dispatching
  }

  ghost predicate RunIdsRight(rows: Rows) {
    forall d :: d in rows ==> (rows[d].runId.Some? <==> rows[d].state == RunCreated)
  }

  /** Created runs and rejections are for good; a dead letter only revives by an
      operator redrive. */
  ghost predicate FinalStays(a: Rows, b: Rows, redriven: string -> bool) {
    && (forall d :: d in a && (a[d].state == RunCreated || a[d].state == Rejected) ==>
          d in b && b[d].state == a[d].state && b[d].runId == a[d].runId)
    && (forall d :: d in a && a[d].state == DeadLetter && !redriven(d) ==> d in b && b[d].state == DeadLetter)
  }

  ghost predicate RedrivenIn(ops: seq<Op>, d: string) {
    exists i :: 0 <= i < |ops| && ops[i].RedriveDead? && ops[i].d == d
  }

  lemma StatesStep(rows: Rows, op: Op)
    requires Driven(op) && RunIdsRight(rows)
    ensures RunIdsRight(Apply(rows, op))
    ensures FinalStays(rows, Apply(rows, op), d => op.RedriveDead? && op.d == d)
  {
    hide HasKey, Claimable;
  }

  /** Over every sequence of driver and operator operations, a row has a run id
      exactly when its run was created, and final states stay final. */
  lemma {:induction false} FinalStatesAreFinal(rows: Rows, ops: seq<Op>)
    requires (forall i :: 0 <= i < |ops| ==> Driven(ops[i])) && RunIdsRight(rows)
    ensures RunIdsRight(Run(rows, ops))
    ensures FinalStays(rows, Run(rows, ops), d => RedrivenIn(ops, d))
  {
    hide Apply;
    if ops != [] {
      var n := |ops| - 1;
      var init := ops[..n];
      FinalStatesAreFinal(rows, init);
      StatesStep(Run(rows, init), ops[n]);
      forall d | RedrivenIn(init, d) || (ops[n].RedriveDead? && ops[n].d == d)
        ensures RedrivenIn(ops, d)
      {
        if RedrivenIn(init, d) {
          var i :| 0 <= i < |init| && init[i].RedriveDead? && init[i].d == d;
          assert ops[i] == init[i];
        }
      }
    }
  }
}
