/**
 A driver that nobody interferes with leaves in the ledger what the service's methods
 leave there: the protocol's steps are the steps of the service.
 */
module DispatchRefinement {
  import opened Wrappers
  import opened DispatchLedger
  import opened DispatchService
  import opened DispatchProtocol

  /** The steps of driveDispatch. */
  ghost function LoneDrive(p: nat, enabled: bool, reply: SinkReply): seq<Action> {
    if enabled then [Move(p), Call(p, reply), Record(p)] else [RejectDisabled(p)]
  }

  /** The steps of a recovery pass on one dispatch. */
  ghost function LonePass(p: nat, d: string, seen: Row, pass: Pass, t: Lookup, reply: SinkReply): seq<Action> {
    [List(p, d), TryClaim(p, pass.who, pass.leaseMs, pass.now)] + LoneMiddle(p, seen, pass, t, reply) + [Finish(p)]
  }

  ghost function LoneMiddle(p: nat, seen: Row, pass: Pass, t: Lookup, reply: SinkReply): seq<Action> {
    if seen.attempts >= pass.maxAttempts then [GiveUp(p, pass.maxAttempts)]
    else if t.Gone? then [NoTrigger(p)]
    else [Proceed(p)] + LoneDrive(p, t.Enabled?, reply)
  }

  lemma {:induction false} ExecuteConcat(s: System, a: seq<Action>, b: seq<Action>)
    ensures Execute(s, a + b) == Execute(Execute(s, a), b)
  {
    hide Next;
    if b == [] {
      assert a + b == a;
    } else {
      var n := |b| - 1;
      ExecuteConcat(s, a, b[..n]);
      assert (a + b)[..|a + b| - 1] == a + b[..n];
    }
  }

  lemma ExecuteOne(s: System, a: Action)
    ensures Execute(s, [a]) == Next(s, a)
  {
    hide Next;
    assert [a][..0] == [];
  }

  /** One after the other. */
  lemma ExecuteTwo(s: System, a: Action, b: Action)
    ensures Execute(s, [a, b]) == Next(Next(s, a), b)
  {
    hide Next;
    ExecuteConcat(s, [a], [b]);
    ExecuteOne(s, a);
    ExecuteOne(Next(s, a), b);
    assert [a] + [b] == [a, b];
  }

  /** The sink's answer is one it may give. */
  ghost predicate MayAnswer(s: System, d: string, reply: SinkReply) {
    reply.Created? ==> SinkAllows(s, d, reply.run)
  }

  lemma DriveAlone(s: System, p: nat, d: string, seen: Row, lease: Option<nat>, enabled: bool, reply: SinkReply)
    requires PcOf(s, p) == Ready(d, seen, lease) && MayAnswer(s, d, reply)
    ensures var t := Execute(s, LoneDrive(p, enabled, reply));
            t.rows == Run(s.rows, DriveOps(d, seen, enabled, reply)) && PcOf(t, p) == Done(d, seen, lease)
  {
    hide Run, Apply, Execute;
    var tenant := seen.key.tenantId;
    if enabled {
      var move := Transition(d, tenant, seen.state, Dispatching);
      RunOne(s.rows, move);
      RunAppend(s.rows, [move], RecordReply(d, tenant, reply));
      assert [move] + [RecordReply(d, tenant, reply)] == DriveOps(d, seen, true, reply);
      ExecuteTwo(s, Move(p), Call(p, reply));
      ExecuteConcat(s, [Move(p), Call(p, reply)], [Record(p)]);
      ExecuteOne(Next(Next(s, Move(p)), Call(p, reply)), Record(p));
      assert [Move(p), Call(p, reply)] + [Record(p)] == LoneDrive(p, true, reply);
      assert PcOf(Next(s, Move(p)), p) == Calling(d, seen, lease);
      assert PcOf(Next(Next(s, Move(p)), Call(p, reply)), p) == Answered(d, seen, reply, lease);
    } else {
      RunOne(s.rows, MarkRejected(d, tenant, "disabled_trigger"));
      ExecuteOne(s, RejectDisabled(p));
    }
  }

  /** A driver alone that reserves a new dispatch and drives it does what dispatchEvent does
      for that trigger. */
  lemma EventAlone(s: System, p: nat, d: string, tenant: string, event: string, t: Trigger, reply: SinkReply)
    requires PcOf(s, p).Idle? && d !in s.rows && !HasKey(s.rows, Key(tenant, event, t.triggerId)) && MayAnswer(s, d, reply)
    ensures var key := Key(tenant, event, t.triggerId);
            Execute(s, [Begin(p, d, key, t.revision)] + LoneDrive(p, t.enabled, reply)).rows ==
            EventStep(s.rows, tenant, event, t, d, reply)
  {
    hide Run, Execute, DriveOps, LoneDrive;
    var key := Key(tenant, event, t.triggerId);
    ExecuteConcat(s, [Begin(p, d, key, t.revision)], LoneDrive(p, t.enabled, reply));
    ExecuteOne(s, Begin(p, d, key, t.revision));
    DriveAlone(Next(s, Begin(p, d, key, t.revision)), p, d, FreshRow(key, t.revision), None, t.enabled, reply);
  }

  /** After the claim, up to giving the lease back. */
  lemma MiddleAlone(s: System, p: nat, d: string, seen: Row, gen: nat, pass: Pass, t: Lookup, reply: SinkReply)
    requires PcOf(s, p) == Claimed(d, seen, gen) && MayAnswer(s, d, reply)
    ensures var after := Execute(s, LoneMiddle(p, seen, pass, t, reply));
            && PcOf(after, p) == Releasing(d, seen, gen)
            && after.rows == (if seen.attempts >= pass.maxAttempts then Apply(s.rows, MarkDead(d, seen.key.tenantId, "exhausted attempts"))
                              else if t.Gone? then Apply(s.rows, MarkRejected(d, seen.key.tenantId, "no_trigger"))
                              else Run(s.rows, DriveOps(d, seen, t.Enabled?, reply)))
  {
    hide Run, Apply, Execute, DriveOps, LoneDrive;
    if seen.attempts >= pass.maxAttempts {
      ExecuteOne(s, GiveUp(p, pass.maxAttempts));
    } else if t.Gone? {
      ExecuteOne(s, NoTrigger(p));
    } else {
      ExecuteConcat(s, [Proceed(p)], LoneDrive(p, t.Enabled?, reply));
      ExecuteOne(s, Proceed(p));
      DriveAlone(Next(s, Proceed(p)), p, d, seen, Some(gen), t.Enabled?, reply);
    }
  }

  /** A driver alone on a dispatch it can claim does what a recovery pass does with it. */
  lemma PassAlone(s: System, p: nat, d: string, pass: Pass, t: Lookup, reply: SinkReply)
    requires PcOf(s, p).Idle? && d in s.rows && Claimable(s.rows[d], pass.who, pass.now) && MayAnswer(s, d, reply)
    ensures var seen := s.rows[d];
            var after := Execute(s, LonePass(p, d, seen, pass, t, reply));
            && after.rows == Run(s.rows, RedriveOps(d, seen, seen.generation + 1, pass, t, reply))
            && PcOf(after, p).Idle?
  {
    var seen := s.rows[d];
    var claim := [List(p, d), TryClaim(p, pass.who, pass.leaseMs, pass.now)];
    ClaimAlone(s, p, d, pass);
    PassSplits(s, claim, LoneMiddle(p, seen, pass, t, reply), Finish(p));
    hide Run, Apply, Execute, Claimable, LoneMiddle, RedriveOps, Next;
    MiddleAlone(Execute(s, claim), p, d, seen, seen.generation + 1, pass, t, reply);
    FinishAlone(Execute(Execute(s, claim), LoneMiddle(p, seen, pass, t, reply)), p, d, seen, seen.generation + 1);
    RedriveUnfolds(s.rows, d, seen, seen.generation + 1, pass, t, reply);
  }

  lemma PassSplits(s: System, claim: seq<Action>, middle: seq<Action>, finish: Action)
    ensures Execute(s, claim + middle + [finish]) == Next(Execute(Execute(s, claim), middle), finish)
  {
    hide Next, Execute;
    ExecuteConcat(s, claim, middle);
    ExecuteConcat(s, claim + middle, [finish]);
    ExecuteOne(Execute(Execute(s, claim), middle), finish);
  }

  lemma FinishAlone(s: System, p: nat, d: string, seen: Row, gen: nat)
    requires PcOf(s, p) == Releasing(d, seen, gen)
    ensures Next(s, Finish(p)).rows == Apply(s.rows, Release(d, seen.key.tenantId, gen)) && PcOf(Next(s, Finish(p)), p).Idle?
  {
    hide Apply;
  }

  lemma ClaimAlone(s: System, p: nat, d: string, pass: Pass)
    requires PcOf(s, p).Idle? && d in s.rows && Claimable(s.rows[d], pass.who, pass.now)
    ensures var t := Execute(s, [List(p, d), TryClaim(p, pass.who, pass.leaseMs, pass.now)]);
            && PcOf(t, p) == Claimed(d, s.rows[d], s.rows[d].generation + 1) && t.sink == s.sink
            && t.rows == Apply(s.rows, Claim(d, s.rows[d].key.tenantId, pass.who, pass.leaseMs, pass.now))
  {
    hide Execute, Apply;
    ExecuteTwo(s, List(p, d), TryClaim(p, pass.who, pass.leaseMs, pass.now));
    assert PcOf(Next(s, List(p, d)), p) == Listed(d, s.rows[d]);
  }
}
