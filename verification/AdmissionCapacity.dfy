/**
 Which admissions hold capacity: a success returns a reservation, but not always one
 that is still active.
 */
module AdmissionCapacity {
  import opened Wrappers
  import opened Admission
  import opened AdmissionProtocol

  ghost predicate ActiveRow(d: Data, k: Key) {
    k in d.rows && d.rows[k].state == Active
  }

  /** The caller has its reservation and is on its way to success. */
  predicate OnTheWay(pc: Pc) {
    pc.Creating? || pc.Attaching? || pc.Finishing?
  }

  /** The reaper, or the settlement of a job, ends the reservation of k. */
  predicate EndsRow(a: Action, k: Key) {
    (a.Reap? || a.Settle?) && a.k == k
  }

  /** A step of a caller touches at most the reservation of the key it owns. */
  lemma StepSparesRows(releases: bool, d: Data, pc: Pc, c: Choice, k: Key)
    requires !Owns(pc, k)
    ensures ActiveRow(AdmitStep(releases, d, pc, c).d, k) == ActiveRow(d, k)
  {
    hide ApplyOp, Answer;
    FailKeepsRows(d, pc, c);
  }

  lemma OwnStepKeepsRow(releases: bool, d: Data, pc: Pc, c: Choice)
    requires OnTheWay(pc) && OnTheWay(AdmitStep(releases, d, pc, c).pc)
    ensures AdmitStep(releases, d, pc, c).pc.r == pc.r
    ensures ActiveRow(AdmitStep(releases, d, pc, c).d, pc.r.at) == ActiveRow(d, pc.r.at)
  {
    hide ApplyOp;
  }

  lemma RowStep(releases: bool, s: System, a: Action, w: nat, k: Key)
    requires Inv(releases, s) && OnTheWay(PcOf(s, w)) && PcOf(s, w).r.at == k
    requires OnTheWay(PcOf(Next(releases, s, a), w))
    ensures PcOf(Next(releases, s, a), w).r.at == k
    ensures ActiveRow(Next(releases, s, a).data, k) <==> ActiveRow(s.data, k) && !EndsRow(a, k)
  {
    hide Core, PcOk, AdmitStep;
    if a.Go? {
      if a.w == w {
        OwnStepKeepsRow(releases, s.data, PcOf(s, w), a.c);
      } else {
        assert Owns(s.callers[w], k);
        StepSparesRows(releases, s.data, PcOf(s, a.w), a.c, k);
      }
    }
  }

  /** The caller reserves, and the reservation is active then exactly if the quota store
      had none for the key or an active one. */
  lemma ReserveStep(releases: bool, s: System, a: Action, w: nat)
    requires PcOf(s, w).Reserving? && a.Go? && a.w == w && OnTheWay(PcOf(Next(releases, s, a), w))
    ensures var k := PcOf(s, w).r.at;
            && PcOf(Next(releases, s, a), w).r.at == k
            && (ActiveRow(Next(releases, s, a).data, k) <==> k !in s.data.rows || s.data.rows[k].state == Active)
  {
  }

  /** A call that reserved at step m and has been on its way since holds capacity exactly
      if the key had no reservation, or an active one, when it reserved, and neither the
      reaper nor a settlement ended it in between. */
  lemma {:induction false} HoldsCapacityExactlyWhen(releases: bool, acts: seq<Action>, m: nat, w: nat)
    requires m < |acts| && acts[m].Go? && acts[m].w == w && PcOf(Execute(releases, acts[..m]), w).Reserving?
    requires forall n :: m < n <= |acts| ==> OnTheWay(PcOf(Execute(releases, acts[..n]), w))
    ensures var k := PcOf(Execute(releases, acts[..m]), w).r.at;
            var before := Execute(releases, acts[..m]).data;
            && OnTheWay(PcOf(Execute(releases, acts), w)) && PcOf(Execute(releases, acts), w).r.at == k
            && (ActiveRow(Execute(releases, acts).data, k) <==>
                  && (k !in before.rows || before.rows[k].state == Active)
                  && forall j :: m < j < |acts| ==> !EndsRow(acts[j], k))
  {
    hide Inv, Next, ActiveRow;
    var n := |acts| - 1;
    var init := acts[..n];
    assert acts[..|acts|] == acts;
    assert OnTheWay(PcOf(Execute(releases, acts[..|acts|]), w));
    if m == n {
      ReserveStep(releases, Execute(releases, init), acts[n], w);
    } else {
      assert forall i :: 0 <= i <= n ==> init[..i] == acts[..i];
      HoldsCapacityExactlyWhen(releases, init, m, w);
      AlwaysSound(releases, init);
      RowStep(releases, Execute(releases, init), acts[n], w, PcOf(Execute(releases, acts[..m]), w).r.at);
    }
  }

  // ------------------------------------------------------------------
  // Successes without capacity
  // ------------------------------------------------------------------

  /** Some execution leaves this durable state and one caller standing here. */
  ghost predicate Reached(d: Data, pc: Pc) {
    exists acts :: Execute(true, acts) == System(d, map[0 := pc])
  }

  lemma Extend(d: Data, pc: Pc, a: Action, e: Data, next: Pc)
    requires Reached(d, pc) && Next(true, System(d, map[0 := pc]), a) == System(e, map[0 := next])
    ensures Reached(e, next)
  {
    hide Next;
    var acts :| Execute(true, acts) == System(d, map[0 := pc]);
    assert (acts + [a])[..|acts|] == acts;
    assert Execute(true, acts + [a]) == System(e, map[0 := next]);
  }

  lemma Tick(d: Data, pc: Pc, c: Choice)
    requires Reached(d, pc)
    ensures Reached(AdmitStep(true, d, pc, c).d, AdmitStep(true, d, pc, c).pc)
  {
    hide AdmitStep, Reached;
    var out := AdmitStep(true, d, pc, c);
    assert map[0 := pc][0 := out.pc] == map[0 := out.pc];
    Extend(d, pc, Go(0, c), out.d, out.pc);
  }

  lemma ReachStart()
    ensures Reached(START.data, Idle)
  {
    assert START.callers[0 := Idle] == map[0 := Idle];
    assert [Crash(0)][..0] == [];
    assert Execute(true, [Crash(0)]) == System(START.data, map[0 := Idle]);
  }

  function Good(name: string): Choice {
    Choice(true, false, name, 0)
  }

  /** From a slot that can be claimed to a reservation: the one the key has, or a new one. */
  lemma ReachCreating(r: Request, d0: Data) returns (d: Data, row: Reservation)
    requires Reached(d0, Idle) && r.at.key != ""
    requires SlotAt(d0, r.at).Some? ==> SlotAt(d0, r.at).value.state == FailedRetriable
    ensures Reached(d, Creating(r, row)) && d.jobs == d0.jobs && d.results == d0.results
    ensures r.at in d.rows && d.rows[r.at] == row && r.at in d.slots
    ensures r.at in d0.rows ==> row == d0.rows[r.at]
    ensures r.at !in d0.rows ==> row.state == Active && row.version == 1
  {
    hide Reached;
    assert map[0 := Idle][0 := Claiming(r)] == map[0 := Claiming(r)];
    Extend(d0, Idle, Call(0, r), d0, Claiming(r));
    Tick(d0, Claiming(r), Good(""));
    d := AdmitStep(true, d0, Claiming(r), Good("")).d;
    assert r.at in d.slots && d.rows == d0.rows;
    Tick(d, Evaluating(r), Good(""));
    Tick(d, Reserving(r), Good("res"));
    var out := AdmitStep(true, d, Reserving(r), Good("res"));
    d, row := out.d, out.pc.row;
  }

  /** Job creation fails and is compensated. */
  lemma ReachFailed(r: Request, d0: Data, row: Reservation) returns (d: Data)
    requires Reached(d0, Creating(r, row)) && r.at in d0.rows && d0.rows[r.at] == row && row.state == Active
    requires r.at in d0.slots
    ensures Reached(d, Idle) && d.jobs == d0.jobs && d.results == d0.results
    ensures r.at in d.rows && d.rows[r.at].state == Released
    ensures SlotAt(d, r.at).Some? && SlotAt(d, r.at).value.state == FailedRetriable
  {
    hide Reached;
    Tick(d0, Creating(r, row), Choice(false, false, "", 0));
    Tick(d0, Releasing(r, row), Good(""));
    d := AdmitStep(true, d0, Releasing(r, row), Good("")).d;
    Tick(d, CreationFailing(r), Good(""));
    d := AdmitStep(true, d, CreationFailing(r), Good("")).d;
  }

  /** Job creation succeeds, and so does the call, whatever became of the reservation. */
  lemma ReachSuccess(r: Request, d0: Data, row: Reservation) returns (d: Data)
    requires Reached(d0, Creating(r, row)) && "job" !in d0.jobs && r.at in d0.rows && r.at in d0.slots
    ensures Reached(d, Idle) && d.results == d0.results + [Result(r, "job", row.id, false)]
    ensures r.at in d.rows && d.rows[r.at].state == d0.rows[r.at].state
  {
    hide Reached;
    Tick(d0, Creating(r, row), Good("job"));
    d := d0.(jobs := d0.jobs["job" := r.at]);
    Tick(d, Attaching(r, row, "job"), Good(""));
    d := Attach(d, r.at, "job");
    Tick(d, Finishing(r, row, "job"), Good(""));
    d := AdmitStep(true, d, Finishing(r, row, "job"), Good("")).d;
  }

  /** An execution whose only result is a success of r with its reservation in this state. */
  ghost predicate SucceedsWith(r: Request, state: ReservationState) {
    exists acts ::
      var d := Execute(true, acts).data;
      && |d.results| == 1 && d.results[0].request == r && !d.results[0].replayed
      && r.at in d.rows && d.rows[r.at].state == state
  }

  lemma Succeeds(d: Data, r: Request, row: Reservation)
    requires Reached(d, Idle) && d.results == [Result(r, "job", row.id, false)] && r.at in d.rows
    ensures SucceedsWith(r, d.rows[r.at].state)
  {
    var acts :| Execute(true, acts) == System(d, map[0 := Idle]);
  }

  /** Whatever the request: a retry after a failed creation succeeds on the released
      reservation, and a first call whose reservation is reaped on the way succeeds on an
      expired one. */
  lemma SuccessesWithoutCapacity(r: Request)
    requires r.at.key != ""
    ensures SucceedsWith(r, Released) && SucceedsWith(r, Expired)
  {
    hide Reached, SucceedsWith;
    ReachStart();
    var d, row := ReachCreating(r, START.data);
    var failed := ReachFailed(r, d, row);
    var again, old_row := ReachCreating(r, failed);
    var done := ReachSuccess(r, again, old_row);
    Succeeds(done, r, old_row);
    var reaped := Ended(d, r.at, Expired);
    Extend(d, Creating(r, row), Reap(r.at), reaped, Creating(r, row));
    var late := ReachSuccess(r, reaped, row);
    Succeeds(late, r, row);
  }
}
