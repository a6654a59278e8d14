/**
 How often a dispatch whose sink always fails is tried before it is dead-lettered.
 Passes run one after the other; a crash cuts the operations of a pass short.
 */
module DispatchRetries {
  import opened Wrappers
  import opened DispatchLedger
  import opened DispatchService

  /** A recovery pass that stops after `stop` of its operations.  When it stops
      between the transition and the failure mark, the sink may or may not have
      been called. */
  datatype CutPass = CutPass(pass: Pass, stop: nat, called: bool)

  datatype Trial = Trial(rows: Rows, calls: nat)

  const FAILURE := Threw("sink failed")

  ghost predicate Tries(rows: Rows, d: string, p: Pass) {
    d in rows && Claimable(rows[d], p.who, p.now)
  }

  ghost function PassOps(rows: Rows, d: string, c: CutPass): seq<Op>
    requires Tries(rows, d, c.pass)
  {
    var ops := RedriveOps(d, rows[d], rows[d].generation + 1, c.pass, Enabled, FAILURE);
    if c.stop < |ops| then ops[..c.stop] else ops
  }

  /** Whether the pass gets to call the sink. */
  ghost predicate Calls(rows: Rows, d: string, c: CutPass) {
    && Tries(rows, d, c.pass) && rows[d].attempts < c.pass.maxAttempts
    && (c.stop >= 3 || (c.stop == 2 && c.called))
  }

  ghost function AfterPass(t: Trial, d: string, c: CutPass): Trial {
    if Tries(t.rows, d, c.pass)
    then Trial(Run(t.rows, PassOps(t.rows, d, c)), t.calls + if Calls(t.rows, d, c) then 1 else 0)
    else t
  }

  ghost function AfterPasses(t: Trial, d: string, cs: seq<CutPass>): Trial {
    if cs == [] then t else AfterPass(AfterPasses(t, d, cs[..|cs| - 1]), d, cs[|cs| - 1])
  }

  // ------------------------------------------------------------------
  // One pass on the row
  // ------------------------------------------------------------------

  /** The row after the first n operations of a pass that tries. */
  lemma PassOnRow(rows: Rows, d: string, c: CutPass)
    requires Tries(rows, d, c.pass)
    ensures var r, after := rows[d], Run(rows, PassOps(rows, d, c));
            && d in after && after[d].key == r.key
            && (r.attempts < c.pass.maxAttempts ==>
                  && !Terminal(after[d].state)
                  && after[d].attempts == r.attempts + (if c.stop >= 3 then 2 else if c.stop == 2 then 1 else 0)
                  && (c.stop >= 4 ==> after[d].owner == None)
                  && (1 <= c.stop < 4 ==> after[d].owner == Some(c.pass.who)))
            && (r.attempts >= c.pass.maxAttempts ==>
                  && after[d].attempts == r.attempts
                  && (c.stop >= 2 ==> after[d].state == DeadLetter)
                  && (c.stop < 2 ==> after[d].state == r.state))
  {
    hide Run;
    var r := rows[d];
    var tenant, gen := r.key.tenantId, r.generation + 1;
    var claim := Claim(d, tenant, c.pass.who, c.pass.leaseMs, c.pass.now);
    var ops := RedriveOps(d, r, gen, c.pass, Enabled, FAILURE);
    var n := if c.stop < |ops| then c.stop else |ops|;
    assert ops[..|ops|] == ops;
    var r1 := r.(generation := gen, owner := Some(c.pass.who), expiresAt := Some(c.pass.now + c.pass.leaseMs));
    if r.attempts >= c.pass.maxAttempts {
      assert ops == [claim, MarkDead(d, tenant, "exhausted attempts"), Release(d, tenant, gen)];
      RowSteps(rows, d, ops, n, [r, r1, Update(r1, ops[1]), Update(Update(r1, ops[1]), ops[2])]);
    } else {
      assert ops == [claim, Transition(d, tenant, r.state, Dispatching),
                     MarkRetryable(d, tenant, "sink failed"), Release(d, tenant, gen)];
      var r2 := Update(r1, ops[1]);
      var r3 := Update(r2, ops[2]);
      RowSteps(rows, d, ops, n, [r, r1, r2, r3, Update(r3, ops[3])]);
    }
  }

  /** Operations on one row take it through the states that their updates give. */
  lemma {:induction false} RowSteps(rows: Rows, d: string, ops: seq<Op>, n: nat, states: seq<Row>)
    requires n <= |ops| && |states| == |ops| + 1 && d in rows && states[0] == rows[d]
    requires forall i :: 0 <= i < |ops| ==>
               && !ops[i].Reserve? && ops[i].d == d && ops[i].tenant == rows[d].key.tenantId
               && states[i].key == rows[d].key && states[i + 1] == Update(states[i], ops[i])
    ensures var after := Run(rows, ops[..n]); d in after && after[d] == states[n]
  {
    if n == 0 {
      assert ops[..0] == [];
    } else {
      RowSteps(rows, d, ops, n - 1, states);
      RunStep(rows, ops, n - 1);
      assert states[n - 1].key == rows[d].key;
    }
  }

  // ------------------------------------------------------------------
  // Bounds
  // ------------------------------------------------------------------

  /** However the passes crash, a dispatch that starts with no attempts reaches the
      sink at most maxAttempts times. */
  lemma {:induction false} CallsAreBounded(rows: Rows, d: string, cs: seq<CutPass>, max: nat)
    requires d in rows && rows[d].attempts == 0
    requires forall i :: 0 <= i < |cs| ==> cs[i].pass.maxAttempts == max
    ensures var t := AfterPasses(Trial(rows, 0), d, cs);
            d in t.rows && t.calls <= t.rows[d].attempts && t.calls <= max
  {
    hide Run, PassOps, Claimable;
    if cs != [] {
      var n := |cs| - 1;
      CallsAreBounded(rows, d, cs[..n], max);
      var t := AfterPasses(Trial(rows, 0), d, cs[..n]);
      if Tries(t.rows, d, cs[n].pass) {
        PassOnRow(t.rows, d, cs[n]);
      }
    }
  }

  function HalfUp(max: nat): nat {
    (max + 1) / 2
  }

  /** With passes that all run to their end, every failed drive costs two attempts:
      after n passes the sink was called min(n, ceil(max / 2)) times, and the
      dispatch is dead-lettered exactly from the pass after that on. */
  lemma {:induction false} FullPassesDeadLetter(rows: Rows, d: string, cs: seq<CutPass>, max: nat)
    requires d in rows && rows[d].attempts == 0 && !Terminal(rows[d].state) && rows[d].owner == None
    requires forall i :: 0 <= i < |cs| ==> cs[i].pass.maxAttempts == max && cs[i].stop >= 4
    ensures var t := AfterPasses(Trial(rows, 0), d, cs);
            && d in t.rows
            && t.calls == (if |cs| <= HalfUp(max) then |cs| else HalfUp(max))
            && (t.rows[d].state == DeadLetter <==> |cs| > HalfUp(max))
            && (|cs| <= HalfUp(max) ==>
                  !Terminal(t.rows[d].state) && t.rows[d].owner == None && t.rows[d].attempts == 2 * |cs|)
  {
    hide Run, PassOps;
    if cs != [] {
      var n := |cs| - 1;
      FullPassesDeadLetter(rows, d, cs[..n], max);
      var t := AfterPasses(Trial(rows, 0), d, cs[..n]);
      if Tries(t.rows, d, cs[n].pass) {
        PassOnRow(t.rows, d, cs[n]);
      }
    }
  }

  /** The bound is reached: a worker that crashes right after each sink call, and is
      restarted under its old name, calls the sink maxAttempts times. */
  lemma {:induction false} CrashesReachTheBound(rows: Rows, d: string, cs: seq<CutPass>, max: nat, who: string)
    requires d in rows && rows[d].attempts == 0 && !Terminal(rows[d].state) && rows[d].owner == None
    requires forall i :: 0 <= i < |cs| ==>
               cs[i].pass.maxAttempts == max && cs[i].pass.who == who && cs[i].stop == 2 && cs[i].called
    requires |cs| <= max
    ensures var t := AfterPasses(Trial(rows, 0), d, cs);
            && t.calls == |cs| && d in t.rows && t.rows[d].attempts == |cs| && !Terminal(t.rows[d].state)
            && (t.rows[d].owner == None || t.rows[d].owner == Some(who))
  {
    hide Run, PassOps;
    if cs != [] {
      var n := |cs| - 1;
      CrashesReachTheBound(rows, d, cs[..n], max, who);
      PassOnRow(AfterPasses(Trial(rows, 0), d, cs[..n]).rows, d, cs[n]);
    }
  }
}
