/**
 What the redrive lease does not fence: the write that records a created run looks at
 the state of the dispatch and not at the generation of its writer.
 */
module DispatchLease {
  import opened Wrappers
  import opened DispatchLedger
  import opened DispatchService
  import opened DispatchProtocol

  predicate Recordable(st: DispatchState) {
    st == Matched || st == Admitted || st == Dispatching
  }

  /** In every reachable state, recording the sink's run takes effect exactly when the
      dispatch is matched, admitted or dispatching, whatever lease its driver works under
      and whoever holds the lease now. */
  lemma RecordLooksAtTheState(acts: seq<Action>, p: nat)
    requires var pc := PcOf(Execute(START, acts), p); pc.Answered? && pc.reply.Created?
    ensures var s := Execute(START, acts);
            var pc := PcOf(s, p);
            var after := Next(s, Record(p)).rows;
            && pc.d in s.rows && pc.d in after
            && (after != s.rows <==> Recordable(s.rows[pc.d].state))
            && (Recordable(s.rows[pc.d].state) ==>
                  after[pc.d].state == RunCreated && after[pc.d].runId == Some(pc.reply.run))
  {
    hide Execute, UniqueKeys, RunIdsRight, RunsAreReal, SinkIsInjective;
    AlwaysSafe(acts);
    var s := Execute(START, acts);
    var pc := PcOf(s, p);
    assert PcIsSound(s, pc);
    var after := Next(s, Record(p)).rows;
    assert Recordable(s.rows[pc.d].state) ==> after[pc.d].state != s.rows[pc.d].state;
    assert !Recordable(s.rows[pc.d].state) ==> after == s.rows;
  }

  // ------------------------------------------------------------------
  // A superseded driver that still records
  // ------------------------------------------------------------------

  ghost predicate Reached(s: System) {
    exists acts :: Execute(START, acts) == s
  }

  lemma Extend(s: System, a: Action)
    requires Reached(s)
    ensures Reached(Next(s, a))
  {
    hide Next;
    var acts :| Execute(START, acts) == s;
    assert (acts + [a])[..|acts|] == acts;
    assert Execute(START, acts + [a]) == Next(s, a);
  }

  lemma StartIsReached()
    ensures Reached(START)
  {
    assert Execute(START, []) == START;
  }

  /** Driver 0 reserves d, and driver 1 claims it for owner x. */
  lemma FirstClaim(d: string, key: Key, x: string) returns (s: System)
    ensures Reached(s) && s.sink == map[] && PcOf(s, 2).Idle? && PcOf(s, 1) == Claimed(d, FreshRow(key, 1), 1)
    ensures s.rows == map[d := FreshRow(key, 1).(generation := 1, owner := Some(x), expiresAt := Some(10))]
  {
    hide Reached;
    StartIsReached();
    s := START;
    Extend(s, Begin(0, d, key, 1));
    s := Next(s, Begin(0, d, key, 1));
    assert s.rows == map[d := FreshRow(key, 1)] && PcOf(s, 1).Idle?;
    Extend(s, List(1, d));
    s := Next(s, List(1, d));
    assert PcOf(s, 1) == Listed(d, FreshRow(key, 1));
    Extend(s, TryClaim(1, x, 10, 0));
    s := Next(s, TryClaim(1, x, 10, 0));
  }

  /** Driver 1 goes on to the sink call. */
  lemma FirstDriver(d: string, key: Key, x: string) returns (s: System)
    ensures Reached(s) && s.sink == map[] && PcOf(s, 2).Idle? && PcOf(s, 1) == Calling(d, FreshRow(key, 1), Some(1))
    ensures d in s.rows && s.rows[d].state == Dispatching && s.rows[d].key == key
    ensures s.rows[d].generation == 1 && s.rows[d].expiresAt == Some(10)
  {
    hide Reached;
    s := FirstClaim(d, key, x);
    Extend(s, Proceed(1));
    s := Next(s, Proceed(1));
    Extend(s, Move(1));
    s := Next(s, Move(1));
  }

  /** The lease runs out, and driver 2 claims d for owner y. */
  lemma SecondClaim(d: string, key: Key, x: string, y: string) returns (s: System)
    ensures Reached(s) && s.sink == map[] && PcOf(s, 1) == Calling(d, FreshRow(key, 1), Some(1))
    ensures d in s.rows && s.rows[d].state == Dispatching && s.rows[d].key == key
    ensures s.rows[d].generation == 2 && s.rows[d].owner == Some(y)
  {
    hide Reached;
    s := FirstDriver(d, key, x);
    Extend(s, List(2, d));
    s := Next(s, List(2, d));
    Extend(s, TryClaim(2, y, 10, 20));
    s := Next(s, TryClaim(2, y, 10, 20));
  }

  /** Two claims, and the driver of the first one records its run after the second owner
      got the lease. */
  lemma SupersededDriverRecords(d: string, key: Key, run: string, x: string, y: string)
    ensures exists acts ::
              var s := Execute(START, acts);
              && PcOf(s, 1).Answered? && PcOf(s, 1).d == d && PcOf(s, 1).lease == Some(1)
              && d in s.rows && s.rows[d].generation == 2 && s.rows[d].owner == Some(y)
              && d in Next(s, Record(1)).rows && Next(s, Record(1)).rows[d].runId == Some(run)
  {
    hide Reached;
    var s := SecondClaim(d, key, x, y);
    Extend(s, Call(1, Created(run)));
    s := Next(s, Call(1, Created(run)));
    assert PcOf(s, 1) == Answered(d, FreshRow(key, 1), Created(run), Some(1));
    assert Next(s, Record(1)).rows[d].runId == Some(run);
    Found(s);
  }

  lemma Found(s: System)
    requires Reached(s)
    ensures exists acts :: Execute(START, acts) == s
  {
  }
}
