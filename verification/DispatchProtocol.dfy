/**
 Several drivers, crashing at any point, over one dispatch ledger and one run
 sink.  Every store call and every sink call is one atomic step; between two
 steps of a driver anything else may happen.
 */
module DispatchProtocol {
  import opened Wrappers
  import opened DispatchLedger
  import opened DispatchService

  /** Where a driver stands.  `lease` is the generation it works under, if it came
      from a recovery pass. */
  datatype Pc =
    | Idle
    | Listed(d: string, seen: Row)
    | Claimed(d: string, seen: Row, gen: nat)
    | Ready(d: string, seen: Row, lease: Option<nat>)
    | Calling(d: string, seen: Row, lease: Option<nat>)
    | Answered(d: string, seen: Row, reply: SinkReply, lease: Option<nat>)
    | Releasing(d: string, seen: Row, gen: nat)

  /** The ledger, the run the sink made for each dispatch, and the drivers. */
  datatype System = System(rows: Rows, sink: map<string, string>, drivers: map<nat, Pc>)

  datatype Action =
    | Begin(p: nat, d: string, key: Key, revision: nat)   // dispatchEvent reserves
    | List(p: nat, d: string)                             // redrive lists a stranded dispatch
    | TryClaim(p: nat, who: string, leaseMs: int, now: int)
    | GiveUp(p: nat, maxAttempts: nat)                    // attempts exhausted
    | NoTrigger(p: nat)
    | Proceed(p: nat)                                     // claimed, go on to drive
    | RejectDisabled(p: nat)
    | Move(p: nat)                                        // transition to dispatching
    | Call(p: nat, reply: SinkReply)
    | CallLost(p: nat, run: string)                       // the sink made a run, the answer was lost
    | Record(p: nat)
    | Finish(p: nat)                                      // release the lease
    | Crash(p: nat)
    | RenewLease(d: string, tenant: string, gen: nat, leaseMs: int, now: int)
    | Operator(d: string, tenant: string, now: int)       // operator redrive of a dead letter

  const START := System(map[], map[], map[])

  function PcOf(s: System, p: nat): Pc {
    if p in s.drivers then s.drivers[p] else Idle
  }

  function Goto(s: System, p: nat, pc: Pc): System {
    s.(drivers := s.drivers[p := pc])
  }

  function Write(s: System, op: Op): System {
    s.(rows := Apply(s.rows, op))
  }

  /** Idle again, or first give the lease back. */
  function Done(d: string, seen: Row, lease: Option<nat>): Pc {
    if lease.Some? then Releasing(d, seen, lease.value) else Idle
  }

  /** The sink may answer with this run: the one it already has for the dispatch,
      or a new one that nobody has. */
  predicate SinkAllows(s: System, d: string, run: string) {
    if d in s.sink then s.sink[d] == run else run !in s.sink.Values
  }

  /** One step; an action that is not possible in the current state does nothing. */
  function Next(s: System, a: Action): System {
    match a
    case Begin(p, d, key, revision) =>
      if PcOf(s, p).Idle? && d !in s.rows && !HasKey(s.rows, key)
      then Goto(Write(s, Reserve(d, key, revision)), p, Ready(d, FreshRow(key, revision), None)) else s
    case List(p, d) =>
      if PcOf(s, p).Idle? && d in s.rows && !Terminal(s.rows[d].state)
      then Goto(s, p, Listed(d, s.rows[d])) else s
    case TryClaim(p, who, leaseMs, now) =>
      (match PcOf(s, p)
       case Listed(d, seen) =>
         if d in s.rows && Claimable(s.rows[d], who, now)
         then Goto(Write(s, Claim(d, seen.key.tenantId, who, leaseMs, now)), p, Claimed(d, seen, s.rows[d].generation + 1))
         else Goto(s, p, Idle)
       case _ => s)
    case GiveUp(p, maxAttempts) =>
      (match PcOf(s, p)
       case Claimed(d, seen, gen) =>
         if seen.attempts >= maxAttempts
         then Goto(Write(s, MarkDead(d, seen.key.tenantId, "exhausted attempts")), p, Releasing(d, seen, gen)) else s
       case _ => s)
    case NoTrigger(p) =>
      (match PcOf(s, p)
       case Claimed(d, seen, gen) =>
         Goto(Write(s, MarkRejected(d, seen.key.tenantId, "no_trigger")), p, Releasing(d, seen, gen))
       case _ => s)
    case Proceed(p) =>
      (match PcOf(s, p)
       case Claimed(d, seen, gen) => Goto(s, p, Ready(d, seen, Some(gen)))
       case _ => s)
    case RejectDisabled(p) =>
      (match PcOf(s, p)
       case Ready(d, seen, lease) =>
         Goto(Write(s, MarkRejected(d, seen.key.tenantId, "disabled_trigger")), p, Done(d, seen, lease))
       case _ => s)
    case Move(p) =>
      (match PcOf(s, p)
       case Ready(d, seen, lease) =>
         Goto(Write(s, Transition(d, seen.key.tenantId, seen.state, Dispatching)), p, Calling(d, seen, lease))
       case _ => s)
    case Call(p, reply) =>
      (match PcOf(s, p)
       case Calling(d, seen, lease) =>
         if reply.Created? then
           if SinkAllows(s, d, reply.run)
           then Goto(s.(sink := s.sink[d := reply.run]), p, Answered(d, seen, reply, lease)) else s
         else Goto(s, p, Answered(d, seen, reply, lease))
       case _ => s)
    case CallLost(p, run) =>
      (match PcOf(s, p)
       case Calling(d, seen, lease) =>
         if SinkAllows(s, d, run)
         then Goto(s.(sink := s.sink[d := run]), p, Answered(d, seen, Threw("lost"), lease)) else s
       case _ => s)
    case Record(p) =>
      (match PcOf(s, p)
       case Answered(d, seen, reply, lease) =>
         Goto(Write(s, RecordReply(d, seen.key.tenantId, reply)), p, Done(d, seen, lease))
       case _ => s)
    case Finish(p) =>
      (match PcOf(s, p)
       case Releasing(d, seen, gen) => Goto(Write(s, Release(d, seen.key.tenantId, gen)), p, Idle)
       case _ => s)
    case Crash(p) => Goto(s, p, Idle)
    case RenewLease(d, tenant, gen, leaseMs, now) => Write(s, Renew(d, tenant, gen, leaseMs, now))
    case Operator(d, tenant, now) => Write(s, RedriveDead(d, tenant, now))
  }

  ghost function Execute(s: System, acts: seq<Action>): System {
    if acts == [] then s else Next(Execute(s, acts[..|acts| - 1]), acts[|acts| - 1])
  }

  // ------------------------------------------------------------------
  // The invariant
  // ------------------------------------------------------------------

  ghost predicate PcIsSound(s: System, pc: Pc) {
    pc.Idle? ||
    (&& pc.d in s.rows && s.rows[pc.d].key == pc.seen.key && !Terminal(pc.seen.state)
     && (pc.Answered? && pc.reply.Created? ==> pc.d in s.sink && s.sink[pc.d] == pc.reply.run))
  }

  /** A row that says its run was created names the sink's run for it. */
  ghost predicate RunsAreReal(s: System) {
    forall d :: d in s.rows && s.rows[d].state == RunCreated ==>
      d in s.sink && s.rows[d].runId == Some(s.sink[d])
  }

  ghost predicate SinkIsInjective(s: System) {
    forall a, b :: a in s.sink && b in s.sink && s.sink[a] == s.sink[b] ==> a == b
  }

  ghost predicate Inv(s: System) {
    && UniqueKeys(s.rows) && RunIdsRight(s.rows) && RunsAreReal(s) && SinkIsInjective(s)
    && forall p :: p in s.drivers ==> PcIsSound(s, s.drivers[p])
  }

  /** What one step may do to the past: nothing. */
  ghost predicate Follows(a: System, b: System) {
    && Persists(a.rows, b.rows)
    && (forall d :: d in a.sink ==> d in b.sink && b.sink[d] == a.sink[d])
    && (forall d :: d in a.rows && (a.rows[d].state == RunCreated || a.rows[d].state == Rejected) ==>
          d in b.rows && b.rows[d].state == a.rows[d].state && b.rows[d].runId == a.rows[d].runId)
  }

  /** Writing an operation to the ledger. */
  lemma WriteIsSafe(s: System, op: Op)
    requires Inv(s) && Driven(op)
    requires op.MarkRunCreated? ==> op.d in s.sink && s.sink[op.d] == op.run
    ensures Inv(Write(s, op)) && Follows(s, Write(s, op))
  {
    ApplyPersists(s.rows, op);
    StatesStep(s.rows, op);
    WriteKeepsRuns(s, op);
    hide Apply, RunIdsRight, UniqueKeys, RunsAreReal, SinkIsInjective;
    forall p | p in s.drivers
      ensures PcIsSound(Write(s, op), s.drivers[p])
    {
    }
  }

  lemma WriteKeepsRuns(s: System, op: Op)
    requires RunsAreReal(s) && Driven(op)
    requires op.MarkRunCreated? ==> op.d in s.sink && s.sink[op.d] == op.run
    ensures RunsAreReal(Write(s, op))
  {
    hide HasKey, Claimable;
  }

  lemma GotoIsSafe(s: System, p: nat, pc: Pc)
    requires Inv(s) && PcIsSound(s, pc)
    ensures Inv(Goto(s, p, pc)) && Follows(s, Goto(s, p, pc))
  {
    hide RunIdsRight, UniqueKeys;
    assert forall q :: q in s.drivers ==> PcIsSound(Goto(s, p, pc), s.drivers[q]);
    assert PcIsSound(Goto(s, p, pc), pc);
  }

  lemma SinkIsSafe(s: System, d: string, run: string)
    requires Inv(s) && SinkAllows(s, d, run)
    ensures Inv(s.(sink := s.sink[d := run])) && Follows(s, s.(sink := s.sink[d := run]))
  {
    hide RunIdsRight, UniqueKeys;
    var t := s.(sink := s.sink[d := run]);
    assert forall e :: e in s.sink ==> t.sink[e] == s.sink[e];
    assert forall q :: q in s.drivers ==> PcIsSound(t, s.drivers[q]);
    assert SinkIsInjective(t) by {
      if d !in s.sink {
        assert forall e :: e in s.sink ==> s.sink[e] in s.sink.Values;
      }
    }
  }

  lemma FollowsTwice(a: System, b: System, c: System)
    requires Follows(a, b) && Follows(b, c)
    ensures Follows(a, c)
  {
  }

  /** Write, then move the driver on. */
  lemma WriteGoto(s: System, op: Op, p: nat, pc: Pc)
    requires Inv(s) && Driven(op)
    requires op.MarkRunCreated? ==> op.d in s.sink && s.sink[op.d] == op.run
    requires PcIsSound(Write(s, op), pc)
    ensures Inv(Goto(Write(s, op), p, pc)) && Follows(s, Goto(Write(s, op), p, pc))
  {
    hide Write, Goto, Inv, Follows, PcIsSound;
    WriteIsSafe(s, op);
    GotoIsSafe(Write(s, op), p, pc);
    FollowsTwice(s, Write(s, op), Goto(Write(s, op), p, pc));
  }

  lemma FollowsItself(s: System)
    ensures Follows(s, s)
  {
  }

  /** A driver that stays with its dispatch stays sound across a write. */
  lemma StillSound(s: System, op: Op, pc: Pc, next: Pc)
    requires PcIsSound(s, pc) && !pc.Idle?
    requires !next.Idle? ==> next.d == pc.d && next.seen == pc.seen && !next.Answered?
    ensures PcIsSound(Write(s, op), next)
  {
    ApplyPersists(s.rows, op);
    hide Apply;
  }

  lemma DriverStep(s: System, p: nat, op: Op, next: Pc)
    requires Inv(s) && !PcOf(s, p).Idle?
    requires !next.Idle? ==> next.d == PcOf(s, p).d && next.seen == PcOf(s, p).seen && !next.Answered?
    requires Driven(op)
    requires op.MarkRunCreated? ==> op.d in s.sink && s.sink[op.d] == op.run
    ensures Inv(Goto(Write(s, op), p, next)) && Follows(s, Goto(Write(s, op), p, next))
  {
    assert PcIsSound(s, PcOf(s, p));
    StillSound(s, op, PcOf(s, p), next);
    hide Inv, Write, Goto, Follows, PcIsSound, Driven;
    WriteGoto(s, op, p, next);
  }

  lemma BeginIsSafe(s: System, a: Action)
    requires Inv(s) && a.Begin?
    ensures Inv(Next(s, a)) && Follows(s, Next(s, a))
  {
    FollowsItself(s);
    var op := Reserve(a.d, a.key, a.revision);
    if PcOf(s, a.p).Idle? && a.d !in s.rows && !HasKey(s.rows, a.key) {
      assert PcIsSound(Write(s, op), Ready(a.d, FreshRow(a.key, a.revision), None));
      WriteGoto(s, op, a.p, Ready(a.d, FreshRow(a.key, a.revision), None));
    }
  }

  lemma CallIsSafe(s: System, a: Action)
    requires Inv(s) && (a.Call? || a.CallLost?)
    ensures Inv(Next(s, a)) && Follows(s, Next(s, a))
  {
    hide SinkAllows, UniqueKeys, RunIdsRight, RunsAreReal, SinkIsInjective;
    FollowsItself(s);
    var pc := PcOf(s, a.p);
    if pc.Calling? {
      assert PcIsSound(s, pc);
      var run := if a.CallLost? then a.run else if a.reply.Created? then a.reply.run else "";
      var reply := if a.CallLost? then Threw("lost") else a.reply;
      var next := Answered(pc.d, pc.seen, reply, pc.lease);
      if a.CallLost? || a.reply.Created? {
        if SinkAllows(s, pc.d, run) {
          var t := s.(sink := s.sink[pc.d := run]);
          SinkIsSafe(s, pc.d, run);
          GotoIsSafe(t, a.p, next);
          FollowsTwice(s, t, Goto(t, a.p, next));
        }
      } else {
        GotoIsSafe(s, a.p, next);
      }
    }
  }

  /** The steps of a recovery pass before it drives. */
  lemma PassStepIsSafe(s: System, a: Action)
    requires Inv(s) && (a.List? || a.TryClaim? || a.GiveUp? || a.NoTrigger? || a.Proceed?)
    ensures Inv(Next(s, a)) && Follows(s, Next(s, a))
  {
    FollowsItself(s);
    var p := a.p;
    var pc := PcOf(s, p);
    assert PcIsSound(s, pc);
    hide Inv, Follows, Write, Goto, UniqueKeys, RunIdsRight, SinkAllows, HasKey, Claimable;
    match a
    case List(_, d) =>
      if pc.Idle? && d in s.rows && !Terminal(s.rows[d].state) {
        GotoIsSafe(s, p, Listed(d, s.rows[d]));
      }
    case TryClaim(_, who, leaseMs, now) =>
      if pc.Listed? {
        if Claimable(s.rows[pc.d], who, now) {
          DriverStep(s, p, Claim(pc.d, pc.seen.key.tenantId, who, leaseMs, now), Claimed(pc.d, pc.seen, s.rows[pc.d].generation + 1));
        } else {
          GotoIsSafe(s, p, Idle);
        }
      }
    case GiveUp(_, _) =>
      if pc.Claimed? {
        DriverStep(s, p, MarkDead(pc.d, pc.seen.key.tenantId, "exhausted attempts"), Releasing(pc.d, pc.seen, pc.gen));
      }
    case NoTrigger(_) =>
      if pc.Claimed? {
        DriverStep(s, p, MarkRejected(pc.d, pc.seen.key.tenantId, "no_trigger"), Releasing(pc.d, pc.seen, pc.gen));
      }
    case Proceed(_) =>
      if pc.Claimed? {
        GotoIsSafe(s, p, Ready(pc.d, pc.seen, Some(pc.gen)));
      }
  }

  /** The steps of a drive around the sink call. */
  lemma DriveStepIsSafe(s: System, a: Action)
    requires Inv(s) && (a.RejectDisabled? || a.Move? || a.Record? || a.Finish?)
    ensures Inv(Next(s, a)) && Follows(s, Next(s, a))
  {
    FollowsItself(s);
    var p := a.p;
    var pc := PcOf(s, p);
    assert PcIsSound(s, pc);
    hide Inv, Follows, Write, Goto, UniqueKeys, RunIdsRight, SinkAllows, HasKey, Claimable;
    match a
    case RejectDisabled(_) =>
      if pc.Ready? {
        DriverStep(s, p, MarkRejected(pc.d, pc.seen.key.tenantId, "disabled_trigger"), Done(pc.d, pc.seen, pc.lease));
      }
    case Move(_) =>
      if pc.Ready? {
        DriverStep(s, p, Transition(pc.d, pc.seen.key.tenantId, pc.seen.state, Dispatching), Calling(pc.d, pc.seen, pc.lease));
      }
    case Record(_) =>
      if pc.Answered? {
        DriverStep(s, p, RecordReply(pc.d, pc.seen.key.tenantId, pc.reply), Done(pc.d, pc.seen, pc.lease));
      }
    case Finish(_) =>
      if pc.Releasing? {
        DriverStep(s, p, Release(pc.d, pc.seen.key.tenantId, pc.gen), Idle);
      }
  }

  /** Every step, by any driver or operator, keeps the invariant and the past. */
  lemma NextIsSafe(s: System, a: Action)
    requires Inv(s)
    ensures Inv(Next(s, a)) && Follows(s, Next(s, a))
  {
    hide Inv, Follows, Write, Goto, UniqueKeys, RunIdsRight, SinkAllows, HasKey, Claimable;
    if a.Begin? {
      BeginIsSafe(s, a);
    } else if a.Call? || a.CallLost? {
      CallIsSafe(s, a);
    } else if a.Crash? {
      GotoIsSafe(s, a.p, Idle);
    } else if a.RenewLease? {
      WriteIsSafe(s, Renew(a.d, a.tenant, a.gen, a.leaseMs, a.now));
    } else if a.Operator? {
      WriteIsSafe(s, RedriveDead(a.d, a.tenant, a.now));
    } else if a.RejectDisabled? || a.Move? || a.Record? || a.Finish? {
      DriveStepIsSafe(s, a);
    } else {
      PassStepIsSafe(s, a);
    }
  }

  lemma StartIsSafe()
    ensures Inv(START)
  {
  }

  lemma {:induction false} AlwaysSafe(acts: seq<Action>)
    ensures Inv(Execute(START, acts))
  {
    hide Inv, Next;
    if acts == [] {
      StartIsSafe();
    } else {
      AlwaysSafe(acts[..|acts| - 1]);
      NextIsSafe(Execute(START, acts[..|acts| - 1]), acts[|acts| - 1]);
    }
  }

  lemma {:induction false} PastStays(acts: seq<Action>, n: nat)
    requires n <= |acts|
    ensures Follows(Execute(START, acts[..n]), Execute(START, acts))
  {
    hide Inv, Next, Follows;
    if n == |acts| {
      assert acts[..n] == acts;
      FollowsItself(Execute(START, acts));
    } else {
      var init := acts[..|acts| - 1];
      PastStays(init, n);
      assert init[..n] == acts[..n];
      AlwaysSafe(init);
      NextIsSafe(Execute(START, init), acts[|acts| - 1]);
      FollowsTwice(Execute(START, acts[..n]), Execute(START, init), Execute(START, acts));
    }
  }

  // ------------------------------------------------------------------
  // The laws
  // ------------------------------------------------------------------

  /** Exactly once, over every interleaving and crash: a (tenant, event, trigger)
      has at most one dispatch, now and later; once that dispatch names a run, it is
      the one run the sink made for it, it never changes, and no other dispatch
      names it. */
  lemma ExactlyOneRun(acts: seq<Action>, n: nat, d: string, e: string)
    requires n <= |acts|
    requires d in Execute(START, acts[..n]).rows && e in Execute(START, acts).rows
    ensures var earlier, now := Execute(START, acts[..n]), Execute(START, acts);
            && (earlier.rows[d].key == now.rows[e].key ==> d == e)
            && (earlier.rows[d].runId.Some? <==> earlier.rows[d].state == RunCreated)
            && (earlier.rows[d].runId.Some? ==>
                  && d in now.rows && now.rows[d].state == RunCreated && now.rows[d].runId == earlier.rows[d].runId
                  && d in now.sink && earlier.rows[d].runId == Some(now.sink[d])
                  && (now.rows[e].runId == earlier.rows[d].runId ==> d == e))
  {
    hide Execute;
    AlwaysSafe(acts[..n]);
    AlwaysSafe(acts);
    PastStays(acts, n);
  }

  /** A dead letter leaves its state only when an operator redrives it. */
  lemma DeadLettersWaitForOperator(acts: seq<Action>, a: Action, d: string)
    requires var s := Execute(START, acts); d in s.rows && s.rows[d].state == DeadLetter
    requires var t := Next(Execute(START, acts), a); !(d in t.rows && t.rows[d].state == DeadLetter)
    ensures a.Operator? && a.d == d
  {
    var s := Execute(START, acts);
    AlwaysSafe(acts);
    hide Execute, Inv;
    if !(a.Operator? && a.d == d) {
      DeadStays(s, a, d);
    }
  }

  /** What an action writes to the ledger, if it writes. */
  ghost function Written(s: System, a: Action): Option<Op> {
    if a.RenewLease? then Some(Renew(a.d, a.tenant, a.gen, a.leaseMs, a.now))
    else if a.Operator? then Some(RedriveDead(a.d, a.tenant, a.now))
    else if a.Begin? then
      if PcOf(s, a.p).Idle? && a.d !in s.rows && !HasKey(s.rows, a.key) then Some(Reserve(a.d, a.key, a.revision)) else None
    else
      match PcOf(s, a.p)
      case Listed(d, seen) =>
        if a.TryClaim? && d in s.rows && Claimable(s.rows[d], a.who, a.now)
        then Some(Claim(d, seen.key.tenantId, a.who, a.leaseMs, a.now)) else None
      case Claimed(d, seen, _) =>
        if a.GiveUp? && seen.attempts >= a.maxAttempts then Some(MarkDead(d, seen.key.tenantId, "exhausted attempts"))
        else if a.NoTrigger? then Some(MarkRejected(d, seen.key.tenantId, "no_trigger"))
        else None
      case Ready(d, seen, _) =>
        if a.RejectDisabled? then Some(MarkRejected(d, seen.key.tenantId, "disabled_trigger"))
        else if a.Move? then Some(Transition(d, seen.key.tenantId, seen.state, Dispatching))
        else None
      case Answered(d, seen, reply, _) => if a.Record? then Some(RecordReply(d, seen.key.tenantId, reply)) else None
      case Releasing(d, seen, gen) => if a.Finish? then Some(Release(d, seen.key.tenantId, gen)) else None
      case _ => None
  }

  lemma NextWrites(s: System, a: Action)
    ensures Next(s, a).rows == (match Written(s, a) case Some(op) => Apply(s.rows, op) case None => s.rows)
  {
    hide Apply, HasKey, Claimable, SinkAllows;
  }

  lemma WrittenIsDriven(s: System, a: Action)
    requires Inv(s) && Written(s, a).Some?
    ensures Driven(Written(s, a).value)
    ensures Written(s, a).value.RedriveDead? ==> a.Operator? && a.d == Written(s, a).value.d
  {
    hide Apply, HasKey, Claimable, UniqueKeys, RunIdsRight, RunsAreReal, SinkIsInjective;
    if a.Move? {
      assert PcIsSound(s, PcOf(s, a.p));
    }
  }

  lemma DeadStays(s: System, a: Action, d: string)
    requires Inv(s) && d in s.rows && s.rows[d].state == DeadLetter
    requires !(a.Operator? && a.d == d)
    ensures var t := Next(s, a); d in t.rows && t.rows[d].state == DeadLetter
  {
    hide Next, Written, Apply;
    NextWrites(s, a);
    if Written(s, a).Some? {
      WrittenIsDriven(s, a);
      StatesStep(s.rows, Written(s, a).value);
    }
  }

  /** The ledger operations of an execution, in order. */
  ghost function History(acts: seq<Action>): seq<Op> {
    if acts == [] then []
    else
      var init := acts[..|acts| - 1];
      History(init) +
      match Written(Execute(START, init), acts[|acts| - 1]) case Some(op) => [op] case None => []
  }

  /** What the drivers leave in the ledger is one run of ledger operations, so every
      law about operation sequences (leases included) holds of the protocol. */
  lemma {:induction false} ProtocolIsLedgerRun(acts: seq<Action>)
    ensures Execute(START, acts).rows == Run(map[], History(acts))
  {
    hide Next, Written, Apply;
    if acts != [] {
      var init := acts[..|acts| - 1];
      ProtocolIsLedgerRun(init);
      NextWrites(Execute(START, init), acts[|acts| - 1]);
      var w := Written(Execute(START, init), acts[|acts| - 1]);
      if w.Some? {
        RunAppend(map[], History(init), w.value);
      } else {
        assert History(init) + [] == History(init);
      }
    }
  }
}
