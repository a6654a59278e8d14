/**
 What one reconciliation does when its calls do not fail: it repairs the step rows, fails
 a run with a lost step, and drives an interrupted run on.
 */
module OrchestrationReconcile {
  import opened Wrappers
  import opened RunRecords
  import opened Orchestration
  import opened OrchestrationSafety
  import opened OrchestrationLaws
  import opened OrchestrationStages
  import opened OrchestrationProgress

  // ------------------------------------------------------------------
  // A pass over the mappings
  // ------------------------------------------------------------------

  /** The worker alone, as long as it is projecting mappings. */
  ghost function Pass(plan: Plan, d: Data, pc: Pc, cs: seq<Choice>): Out
    decreases |cs|
  {
    if cs == [] || !InReconcile(pc) then Out(d, pc)
    else
      var out := WorkerStep(plan, d, pc, cs[0]);
      Pass(plan, out.d, out.pc, cs[1..])
  }

  ghost predicate NoneFails(cs: seq<Choice>) {
    forall i :: 0 <= i < |cs| ==> cs[i].ok
  }

  /** The row of x says what its job's state means. */
  ghost predicate RowIsRight(d: Data, x: string) {
    && x in d.mappings && d.mappings[x] in d.status
    && x in d.rows && d.rows[x] == StepStatusOf(d.status[d.mappings[x]])
  }

  /** Step i of the list is mapped to a job that failed or was cancelled. */
  ghost predicate LostAt(d: Data, todo: seq<string>, i: nat) {
    i < |todo| && StepLost(d, todo[i])
  }

  ghost predicate AllMapped(d: Data, todo: seq<string>) {
    forall x :: x in todo ==> x in d.mappings && d.mappings[x] in d.status
  }

  ghost predicate Distinct(todo: seq<string>) {
    forall i, j :: 0 <= i < j < |todo| ==> todo[i] != todo[j]
  }

  /** Step i is the first lost one of the list, and the pass stopped there to fail the run,
      with the rows up to it repaired. */
  ghost predicate StopsAt(d: Data, snap: Run, todo: seq<string>, out: Out, i: nat) {
    && LostAt(d, todo, i) && (forall j :: 0 <= j < i ==> !LostAt(d, todo, j))
    && out.pc == FailingStep(snap, todo[i]) && forall j :: 0 <= j <= i ==> RowIsRight(out.d, todo[j])
  }

  ghost predicate SomeLost(d: Data, todo: seq<string>) {
    exists i: nat :: LostAt(d, todo, i)
  }

  /** Where reconcileRun goes on after its pass. */
  function Afterwards(snap: Run): Pc {
    if snap.status == Admitted || snap.status == Running || snap.status == Collecting then Advancing else Idle
  }

  /** How the pass over this list ends: at the first lost step if the run has not ended,
      and otherwise with all rows repaired and the run handed to advanceRun if it was
      interrupted.  Only rows of listed steps are written. */
  ghost predicate PassedOver(d: Data, snap: Run, todo: seq<string>, out: Out) {
    && out.d == d.(rows := out.d.rows)
    && (forall x :: x !in todo && x in d.rows ==> x in out.d.rows && out.d.rows[x] == d.rows[x])
    && (SomeLost(d, todo) && !TerminalRun(snap.status) ==> exists i: nat :: StopsAt(d, snap, todo, out, i))
    && (!SomeLost(d, todo) || TerminalRun(snap.status) ==>
          (forall x :: x in todo ==> RowIsRight(out.d, x)) && out.pc == Afterwards(snap))
  }

  lemma PassUnfolds(plan: Plan, d: Data, pc: Pc, cs: seq<Choice>)
    requires cs != []
    ensures InReconcile(pc) ==>
              Pass(plan, d, pc, cs) == Pass(plan, ReconcileStep(d, pc, cs[0]).d, ReconcileStep(d, pc, cs[0]).pc, cs[1..])
  {
    hide ReconcileStep;
  }

  lemma PassEnds(plan: Plan, d: Data, pc: Pc, cs: seq<Choice>)
    requires !InReconcile(pc)
    ensures Pass(plan, d, pc, cs) == Out(d, pc)
  {
    hide WorkerStep;
  }

  lemma ReadsState(plan: Plan, d: Data, snap: Run, todo: seq<string>, c: Choice)
    requires todo != [] && todo[0] in d.mappings && d.mappings[todo[0]] in d.status && c.ok
    ensures ReconcileStep(d, Projecting(snap, todo), c) == Out(d, Comparing(snap, todo, d.status[d.mappings[todo[0]]]))
  {
  }

  lemma ComparesRow(plan: Plan, d: Data, snap: Run, todo: seq<string>, seen: JobStatus, c: Choice)
    requires todo != [] && c.ok
    ensures ReconcileStep(d, Comparing(snap, todo, seen), c) ==
            Out(d, if todo[0] in d.rows && d.rows[todo[0]] == StepStatusOf(seen) then AfterRow(snap, todo, seen)
                   else Repairing(snap, todo, seen))
  {
    hide StepStatusOf, AfterRow;
  }

  lemma RepairsRow(plan: Plan, d: Data, snap: Run, todo: seq<string>, seen: JobStatus, c: Choice)
    requires todo != []
    ensures ReconcileStep(d, Repairing(snap, todo, seen), c) ==
            Out(d.(rows := d.rows[todo[0] := StepStatusOf(seen)]), AfterRow(snap, todo, seen))
  {
    hide StepStatusOf, AfterRow;
  }

  /** The steps of one mapping: its job's state is read, its row compared and written if it
      differs. */
  lemma OneMapping(plan: Plan, d: Data, snap: Run, todo: seq<string>, cs: seq<Choice>) returns (n: nat)
    requires todo != [] && AllMapped(d, todo) && NoneFails(cs) && |cs| >= 3
    ensures var x := todo[0];
            var seen := d.status[d.mappings[x]];
            var e := d.(rows := d.rows[x := StepStatusOf(seen)]);
            n <= 3 && Pass(plan, d, Projecting(snap, todo), cs) == Pass(plan, e, AfterRow(snap, todo, seen), cs[n..])
  {
    hide Pass, AfterRow, StepStatusOf, ReconcileStep;
    var x := todo[0];
    assert x in todo;
    var seen := d.status[d.mappings[x]];
    assert cs[1..][0] == cs[1] && cs[1..][1..] == cs[2..] && cs[2..][0] == cs[2] && cs[2..][1..] == cs[3..];
    PassUnfolds(plan, d, Projecting(snap, todo), cs);
    ReadsState(plan, d, snap, todo, cs[0]);
    PassUnfolds(plan, d, Comparing(snap, todo, seen), cs[1..]);
    ComparesRow(plan, d, snap, todo, seen, cs[1]);
    if x in d.rows && d.rows[x] == StepStatusOf(seen) {
      n := 2;
      assert d.rows[x := StepStatusOf(seen)] == d.rows;
    } else {
      n := 3;
      PassUnfolds(plan, d, Repairing(snap, todo, seen), cs[2..]);
      RepairsRow(plan, d, snap, todo, seen, cs[2]);
    }
  }

  lemma NothingListed(plan: Plan, d: Data, snap: Run, cs: seq<Choice>)
    requires cs != []
    ensures PassedOver(d, snap, [], Pass(plan, d, Projecting(snap, []), cs))
  {
    hide Pass;
    PassUnfolds(plan, d, Projecting(snap, []), cs);
    PassEnds(plan, d, Afterwards(snap), cs[1..]);
  }

  lemma StopsFirst(d: Data, snap: Run, todo: seq<string>)
    requires todo != [] && AllMapped(d, todo) && Distinct(todo) && LostAt(d, todo, 0) && !TerminalRun(snap.status)
    ensures var e := d.(rows := d.rows[todo[0] := StepStatusOf(d.status[d.mappings[todo[0]]])]);
            PassedOver(d, snap, todo, Out(e, FailingStep(snap, todo[0])))
  {
    var e := d.(rows := d.rows[todo[0] := StepStatusOf(d.status[d.mappings[todo[0]]])]);
    assert StopsAt(d, snap, todo, Out(e, FailingStep(snap, todo[0])), 0);
  }

  /** What the pass does with the rest of the list, seen from the whole list. */
  lemma PassedOneMore(d: Data, snap: Run, todo: seq<string>, out: Out)
    requires todo != [] && AllMapped(d, todo) && Distinct(todo) && (TerminalRun(snap.status) || !LostAt(d, todo, 0))
    requires PassedOver(d.(rows := d.rows[todo[0] := StepStatusOf(d.status[d.mappings[todo[0]]])]), snap, todo[1..], out)
    ensures PassedOver(d, snap, todo, out)
  {
    hide StepStatusOf, StepLost, StopsAt, SomeLost;
    var rest := todo[1..];
    var e := d.(rows := d.rows[todo[0] := StepStatusOf(d.status[d.mappings[todo[0]]])]);
    LostInRest(d, e, todo);
    assert todo[0] in todo && todo[0] !in rest;
    assert RowIsRight(out.d, todo[0]);
    if SomeLost(d, todo) && !TerminalRun(snap.status) {
      var i: nat :| StopsAt(e, snap, rest, out, i);
      StopsLater(d, e, snap, todo, out, i);
    }
  }

  lemma StopsLater(d: Data, e: Data, snap: Run, todo: seq<string>, out: Out, i: nat)
    requires todo != [] && e == d.(rows := e.rows) && StopsAt(e, snap, todo[1..], out, i)
    requires !LostAt(d, todo, 0) && RowIsRight(out.d, todo[0])
    ensures StopsAt(d, snap, todo, out, i + 1)
  {
    hide StepLost, RowIsRight, SomeLost;
    LostInRest(d, e, todo);
    forall j | 0 <= j < i + 1
      ensures !LostAt(d, todo, j)
    {
      if j > 0 {
        assert !LostAt(e, todo[1..], j - 1);
      }
    }
    forall j | 0 <= j <= i + 1
      ensures RowIsRight(out.d, todo[j])
    {
      if j > 0 {
        assert todo[j] == todo[1..][j - 1];
      }
    }
    assert LostAt(d, todo, i + 1);
  }

  lemma LostInRest(d: Data, e: Data, todo: seq<string>)
    requires todo != [] && e == d.(rows := e.rows)
    ensures forall i: nat :: LostAt(e, todo[1..], i) <==> LostAt(d, todo, i + 1)
    ensures SomeLost(d, todo) <==> LostAt(d, todo, 0) || SomeLost(e, todo[1..])
  {
    hide StepLost;
    assert forall x :: StepLost(e, x) == StepLost(d, x) by { SameLost(d, e); }
    assert forall i: nat :: LostAt(e, todo[1..], i) <==> LostAt(d, todo, i + 1);
    if i: nat :| LostAt(d, todo, i) && i > 0 {
      assert LostAt(e, todo[1..], i - 1);
    }
  }

  lemma SameLost(d: Data, e: Data)
    requires e == d.(rows := e.rows)
    ensures forall x :: StepLost(e, x) == StepLost(d, x)
  {
  }

  /** A pass whose calls do not fail ends within three steps a mapping, as it should. */
  lemma {:induction false} PassRepairs(plan: Plan, d: Data, snap: Run, todo: seq<string>, cs: seq<Choice>)
    requires AllMapped(d, todo) && Distinct(todo) && NoneFails(cs) && |cs| > 3 * |todo|
    ensures PassedOver(d, snap, todo, Pass(plan, d, Projecting(snap, todo), cs))
    decreases |todo|
  {
    hide Pass, PassedOver, StepStatusOf, StepLost;
    if todo == [] {
      NothingListed(plan, d, snap, cs);
    } else {
      var n := OneMapping(plan, d, snap, todo, cs);
      var x := todo[0];
      assert x in todo;
      var seen := d.status[d.mappings[x]];
      var e := d.(rows := d.rows[x := StepStatusOf(seen)]);
      LostMeansFailed(d, x);
      if StepStatusOf(seen) == StepFailed && !TerminalRun(snap.status) {
        PassEnds(plan, e, FailingStep(snap, x), cs[n..]);
        StopsFirst(d, snap, todo);
      } else {
        assert NoneFails(cs[n..]);
        PassRepairs(plan, e, snap, todo[1..], cs[n..]);
        PassedOneMore(d, snap, todo, Pass(plan, e, Projecting(snap, todo[1..]), cs[n..]));
      }
    }
  }

  lemma LostMeansFailed(d: Data, x: string)
    requires x in d.mappings && d.mappings[x] in d.status
    ensures StepLost(d, x) <==> StepStatusOf(d.status[d.mappings[x]]) == StepFailed
  {
  }

  // ------------------------------------------------------------------
  // Reconciling from a sound state
  // ------------------------------------------------------------------

  /** From any sound durable state, whatever the order in which the store lists the
      mappings: a reconciliation alone, none of whose calls fails, leaves every mapped step
      with the row its job's state means; if a step is lost and the run has not ended, it
      stops at the first such step, and its next step fails the run. */
  lemma ReconcileRepairs(plan: Plan, d: Data, snap: Run, todo: seq<string>, cs: seq<Choice>, c: Choice)
    requires Core(plan, d) && d.run == Some(snap) && Lists(todo, d.mappings) && NoneFails(cs) && |cs| > 3 * |todo|
    ensures var out := Pass(plan, d, Projecting(snap, todo), cs);
            && PassedOver(d, snap, todo, out)
            && ((exists x :: StepLost(d, x)) && !TerminalRun(snap.status) ==>
                  var after := WorkerStep(plan, out.d, out.pc, c).d;
                  after.run.Some? && after.run.value.status == Failed)
            && ((forall x :: !StepLost(d, x)) || TerminalRun(snap.status) ==>
                  (forall x :: x in d.mappings ==> RowIsRight(out.d, x)) && out.pc == Afterwards(snap))
  {
    hide Pass, PassedOver, StepLost, WorkerStep;
    ListedAreMapped(plan, d, todo);
    PassRepairs(plan, d, snap, todo, cs);
    var out := Pass(plan, d, Projecting(snap, todo), cs);
    PassTells(d, snap, todo, out);
    if out.pc.FailingStep? {
      FailsRun(plan, out.d, snap, out.pc.x, c);
    }
  }

  lemma ListedAreMapped(plan: Plan, d: Data, todo: seq<string>)
    requires Core(plan, d) && Lists(todo, d.mappings)
    ensures AllMapped(d, todo) && Distinct(todo)
  {
    forall x | x in todo
      ensures x in d.mappings && d.mappings[x] in d.status
    {
      MappedJob(plan, d, x);
    }
  }

  lemma PassTells(d: Data, snap: Run, todo: seq<string>, out: Out)
    requires Lists(todo, d.mappings) && PassedOver(d, snap, todo, out)
    ensures out.d.run == d.run
    ensures (exists x :: StepLost(d, x)) && !TerminalRun(snap.status) ==> out.pc.FailingStep? && out.pc.snap == snap
    ensures (forall x :: !StepLost(d, x)) || TerminalRun(snap.status) ==>
              (forall x :: x in d.mappings ==> RowIsRight(out.d, x)) && out.pc == Afterwards(snap)
  {
    hide RowIsRight;
    if x :| StepLost(d, x) {
      assert x in todo;
      var i: nat :| i < |todo| && todo[i] == x;
      assert LostAt(d, todo, i);
    }
  }

  lemma FailsRun(plan: Plan, d: Data, snap: Run, x: string, c: Choice)
    requires d.run == Some(snap) && !TerminalRun(snap.status)
    ensures var after := WorkerStep(plan, d, FailingStep(snap, x), c).d;
            after.run.Some? && after.run.value.status == Failed
  {
  }

  // ------------------------------------------------------------------
  // Reconciling drives an interrupted run
  // ------------------------------------------------------------------

  lemma {:induction false} Listing(names: set<string>) returns (todo: seq<string>)
    ensures forall x :: x in todo <==> x in names
    ensures Distinct(todo)
  {
    if names == {} {
      todo := [];
    } else {
      var x :| x in names;
      var rest := Listing(names - {x});
      todo := [x] + rest;
    }
  }

  lemma {:induction false} CanPass(plan: Plan, s: Base, d: Data, pc: Pc, cs: seq<Choice>)
    requires Can(plan, s, d, pc)
    ensures Can(plan, s, Pass(plan, d, pc, cs).d, Pass(plan, d, pc, cs).pc)
    decreases |cs|
  {
    hide Can, WorkerStep;
    if cs != [] && InReconcile(pc) {
      Tick(plan, s, d, pc, cs[0]);
      var out := WorkerStep(plan, d, pc, cs[0]);
      CanPass(plan, s, out.d, out.pc, cs[1..]);
    }
  }

  function Ok(todo: seq<string>): Choice {
    Choice(true, false, "", todo, 0)
  }

  /** An idle worker reconciles and gets through its pass. */
  lemma CanReconcile(plan: Plan, s: Base, d: Data, snap: Run) returns (out: Out, todo: seq<string>)
    requires Sane(plan, s) && Can(plan, s, d, Idle) && d.run == Some(snap)
    ensures Lists(todo, d.mappings) && PassedOver(d, snap, todo, out) && Can(plan, s, out.d, out.pc)
  {
    hide Sane, Can, Core, Grows, DataStaged, Pass, PassedOver;
    CanSound(plan, s, d, Idle);
    todo := Listing(d.mappings.Keys);
    Open(plan, s, d, Reconcile);
    Tick(plan, s, d, Reconciling, Ok([]));
    Tick(plan, s, d, ListingMappings(snap), Ok(todo));
    var cs := seq(3 * |todo| + 1, _ => Ok([]));
    CanPass(plan, s, d, Projecting(snap, todo), cs);
    ListedAreMapped(plan, d, todo);
    PassRepairs(plan, d, snap, todo, cs);
    out := Pass(plan, d, Projecting(snap, todo), cs);
  }

  /** From every reachable state whose workers are all idle, an interrupted run is carried
      on by reconciling alone: an admitted or running run gets to collecting, or to failed
      if a job is lost, by steps of one worker in reconcileRun while jobs progress. */
  lemma ReconcileDrives(plan: Plan, s: Base)
    requires Sane(plan, s) && s.mode.ByReconcile? && s.sys.data.run.Some?
    requires s.sys.data.run.value.status == Admitted || s.sys.data.run.value.status == Running
    ensures exists more :: AllAllowed(ByReconcile, more) && DrivenBy(plan, s.sys, more)
  {
    hide PlanOk, Inv, Staged, Can, PassedOver, StepLost, LostJob;
    var d := s.sys.data;
    var snap := d.run.value;
    Begun(plan, s);
    var out, todo := CanReconcile(plan, s, d, snap);
    PassTells(d, snap, todo, out);
    if out.pc.FailingStep? {
      CanSound(plan, s, d, Idle);
      LostStepsAreLostJobs(plan, d);
      FailsRun(plan, out.d, snap, out.pc.x, Ok([]));
      Tick(plan, s, out.d, out.pc, Ok([]));
      var e := WorkerStep(plan, out.d, out.pc, Ok([]));
      DrivesTo(plan, s, e.d, e.pc);
    } else {
      var e, q := Driven(plan, s, out.d, snap);
      SameLosses(d, snap, todo, out, e);
      var f, pc := DriveSteps(plan, s, e, q, 0);
      DrivesTo(plan, s, f, pc);
    }
  }

  lemma LostStepsAreLostJobs(plan: Plan, d: Data)
    requires Core(plan, d)
    ensures forall x :: StepLost(d, x) ==> LostJob(d, x)
  {
    hide DispatchOk, RowsOk, DeliveryOk, Justified;
  }

  lemma SameLosses(d: Data, snap: Run, todo: seq<string>, out: Out, e: Data)
    requires PassedOver(d, snap, todo, out) && e == out.d.(run := e.run)
    ensures forall x :: LostJob(e, x) == LostJob(d, x)
  {
    hide StopsAt, RowIsRight, SomeLost;
  }

  lemma DrivesTo(plan: Plan, s: Base, e: Data, pc: Pc)
    requires Can(plan, s, e, pc) && s.mode.ByReconcile? && e.run.Some?
    requires e.run.value.status == Collecting || e.run.value.status == Failed
    requires (forall x :: !LostJob(s.sys.data, x)) ==> e.run.value.status == Collecting
    ensures exists more :: AllAllowed(ByReconcile, more) && DrivenBy(plan, s.sys, more)
  {
    hide LostJob;
    var more :| AllAllowed(s.mode, more) && Stands(s.sys, Execute(plan, s.sys, more), e, pc);
    assert DrivenBy(plan, s.sys, more);
  }

  /** The run was driven to collecting, or to failed. */
  ghost predicate DrivenBy(plan: Plan, s: System, more: seq<Action>) {
    var d := Execute(plan, s, more).data;
    && d.run.Some? && (d.run.value.status == Collecting || d.run.value.status == Failed)
    && ((forall x :: !LostJob(s.data, x)) ==> d.run.value.status == Collecting)
  }
}
