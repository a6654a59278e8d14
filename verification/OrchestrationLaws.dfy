/**
 The laws of a run over every execution: any workers, any interleaving, any crash.
 */
module OrchestrationLaws {
  import opened Wrappers
  import opened RunRecords
  import opened Orchestration
  import opened OrchestrationSafety

  // ------------------------------------------------------------------
  // Every reachable state is sound, and nothing durable is undone
  // ------------------------------------------------------------------

  ghost predicate Inv(plan: Plan, s: System) {
    Core(plan, s.data) && forall w :: w in s.workers ==> PcOk(plan, s.data, s.workers[w])
  }

  lemma WorkerSound(plan: Plan, d: Data, pc: Pc, c: Choice)
    requires PlanOk(plan) && Core(plan, d) && PcOk(plan, d, pc)
    ensures StepSound(plan, d, WorkerStep(plan, d, pc, c))
  {
    hide PlanOk, Core, PcOk, StepSound, CreateStep, AdvanceStep, DispatchStep, DeliverStep, ReconcileStep, ApprovalStep;
    if InCreate(pc) {
      CreateSound(plan, d, pc, c);
    } else if InAdvance(pc) {
      AdvanceSound(plan, d, pc, c);
    } else if InDispatch(pc) {
      DispatchStepSound(plan, d, pc, c);
    } else if InDeliver(pc) {
      DeliverSound(plan, d, pc, c);
    } else if InReconcile(pc) {
      ReconcileSound(plan, d, pc, c);
    } else {
      ApprovalSound(plan, d, pc, c);
    }
  }

  lemma OpeningSound(plan: Plan, d: Data, call: Call, now: int)
    requires Core(plan, d)
    ensures StepSound(plan, d, Opening(d, call, now))
  {
    hide JobsOk, DispatchOk, RowsOk;
    SoundItself(plan, d);
    if call.Create? && d.run.None? {
      CoreStays(plan, d, d.(run := Some(NewRun(now))));
    }
  }

  lemma PlaceSound(plan: Plan, s: System, w: nat, out: Out)
    requires Inv(plan, s) && StepSound(plan, s.data, out)
    ensures Inv(plan, Place(s, w, out)) && Grows(plan, s.data, out.d)
  {
    hide Core, PcOk, Grows;
    forall v | v in Place(s, w, out).workers
      ensures PcOk(plan, out.d, Place(s, w, out).workers[v])
    {
      if v != w {
        PcStays(plan, s.data, out.d, s.workers[v]);
      }
    }
  }

  lemma WorldSound(plan: Plan, s: System, e: Data)
    requires Inv(plan, s) && Sound(plan, s.data, e)
    ensures Inv(plan, s.(data := e))
  {
    hide Core, PcOk, Grows;
    forall v | v in s.workers
      ensures PcOk(plan, e, s.workers[v])
    {
      PcStays(plan, s.data, e, s.workers[v]);
    }
  }

  lemma ExpirySound(plan: Plan, d: Data, now: int)
    requires Core(plan, d)
    ensures Sound(plan, d, RequestExpires(d, now))
  {
    hide Core, Sound;
    if d.approval.Some? {
      DecideSound(plan, d, Expire(d.approval.value, now));
    } else {
      SoundItself(plan, d);
    }
  }

  lemma NextSound(plan: Plan, s: System, a: Action)
    requires PlanOk(plan) && Inv(plan, s)
    ensures Inv(plan, Next(plan, s, a)) && Grows(plan, s.data, Next(plan, s, a).data)
  {
    hide PlanOk, Core, PcOk, Grows, Opening, WorkerStep, JobMoves, RequestExpires;
    SoundItself(plan, s.data);
    IdleSound(plan, s.data);
    match a
    case Begin(w, call, now) =>
      OpeningSound(plan, s.data, call, now);
      PlaceSound(plan, s, w, Opening(s.data, call, now));
    case Go(w, c) =>
      WorkerSound(plan, s.data, PcOf(s, w), c);
      PlaceSound(plan, s, w, WorkerStep(plan, s.data, PcOf(s, w), c));
    case Crash(w) => PlaceSound(plan, s, w, Out(s.data, Idle));
    case Progress(job, to) =>
      ProgressSound(plan, s.data, job, to);
      WorldSound(plan, s, JobMoves(s.data, job, to));
    case ExpireRequest(now) =>
      ExpirySound(plan, s.data, now);
      WorldSound(plan, s, RequestExpires(s.data, now));
  }

  lemma IdleSound(plan: Plan, d: Data)
    ensures PcOk(plan, d, Idle)
  {
  }

  lemma StartSound(plan: Plan)
    ensures Inv(plan, START)
  {
  }

  lemma {:induction false} AlwaysSound(plan: Plan, acts: seq<Action>)
    requires PlanOk(plan)
    ensures Inv(plan, Execute(plan, START, acts))
  {
    hide Inv, Next, PlanOk;
    if acts == [] {
      StartSound(plan);
    } else {
      AlwaysSound(plan, acts[..|acts| - 1]);
      NextSound(plan, Execute(plan, START, acts[..|acts| - 1]), acts[|acts| - 1]);
    }
  }

  /** Nothing durable is ever undone: later states of an execution grow out of
      earlier ones. */
  lemma {:induction false} NothingIsUndone(plan: Plan, acts: seq<Action>, n: nat)
    requires PlanOk(plan) && n <= |acts|
    ensures Grows(plan, Execute(plan, START, acts[..n]).data, Execute(plan, START, acts).data)
  {
    hide Inv, Next, Grows, PlanOk;
    if n == |acts| {
      assert acts[..n] == acts;
      GrowsItself(plan, Execute(plan, START, acts).data);
    } else {
      var init := acts[..|acts| - 1];
      NothingIsUndone(plan, init, n);
      assert init[..n] == acts[..n];
      AlwaysSound(plan, init);
      NextSound(plan, Execute(plan, START, init), acts[|acts| - 1]);
      GrowsTwice(plan, Execute(plan, START, acts[..n]).data, Execute(plan, START, init).data, Execute(plan, START, acts).data);
    }
  }

  lemma GrowsItself(plan: Plan, d: Data)
    ensures Grows(plan, d, d)
  {
  }

  // ------------------------------------------------------------------
  // Steps and jobs
  // ------------------------------------------------------------------

  /** A step has a job only if every step it depends on was already done: mapped to
      a job that completed, with a completed step row when the dispatcher answers
      with final states. */
  lemma DependenciesAreDoneFirst(plan: Plan, acts: seq<Action>, x: string, y: string)
    requires PlanOk(plan) && x in Execute(plan, START, acts).data.jobs && WaitsFor(plan, x, y)
    ensures StepDone(plan, Execute(plan, START, acts).data, y)
  {
    hide Execute, WaitsFor, PlanOk;
    AlwaysSound(plan, acts);
  }

  /** Each step is mapped to one job, forever: the dispatcher's only job for it, which
      no other step shares. */
  lemma OneJobPerStep(plan: Plan, acts: seq<Action>, n: nat, x: string, y: string)
    requires PlanOk(plan) && n <= |acts|
    requires x in Execute(plan, START, acts[..n]).data.mappings && y in Execute(plan, START, acts).data.mappings
    ensures var earlier, now := Execute(plan, START, acts[..n]).data, Execute(plan, START, acts).data;
            && x in now.mappings && now.mappings[x] == earlier.mappings[x]
            && x in now.jobs && now.jobs[x] == now.mappings[x]
            && (now.mappings[x] == now.mappings[y] ==> x == y)
  {
    hide Execute, WaitsFor, PlanOk, PcOk;
    AlwaysSound(plan, acts);
    NothingIsUndone(plan, acts, n);
  }

  /** With final answers, a step row once completed stays completed. */
  lemma CompletedRowsStay(plan: Plan, acts: seq<Action>, n: nat, x: string)
    requires PlanOk(plan) && n <= |acts| && plan.runsToEnd
    requires var d := Execute(plan, START, acts[..n]).data; x in d.rows && d.rows[x] == StepCompleted
    ensures var d := Execute(plan, START, acts).data; StepDone(plan, d, x)
  {
    hide Execute, PlanOk, PcOk, DispatchOk, Justified;
    AlwaysSound(plan, acts[..n]);
    NothingIsUndone(plan, acts, n);
  }

  // ------------------------------------------------------------------
  // What a run's status promises
  // ------------------------------------------------------------------

  ghost predicate StatusAt(plan: Plan, acts: seq<Action>, st: RunStatus) {
    var d := Execute(plan, START, acts).data;
    d.run.Some? && d.run.value.status == st
  }

  /** Once a run has reached a status, everything that status promises holds, then
      and ever after. */
  lemma StatusIsJustified(plan: Plan, acts: seq<Action>, n: nat, st: RunStatus)
    requires PlanOk(plan) && n <= |acts| && StatusAt(plan, acts[..n], st)
    ensures Justified(plan, Execute(plan, START, acts).data, st)
  {
    hide Execute, PlanOk, PcOk, DispatchOk, Justified;
    AlwaysSound(plan, acts[..n]);
    NothingIsUndone(plan, acts, n);
    JustifiedStays(plan, Execute(plan, START, acts[..n]).data, Execute(plan, START, acts).data, st);
  }

  /** A run that has reached admitted has its input revision stored. */
  lemma AdmittedHasInput(plan: Plan, acts: seq<Action>, n: nat)
    requires PlanOk(plan) && n <= |acts| && StatusAt(plan, acts[..n], Admitted)
    ensures Execute(plan, START, acts).data.input
  {
    hide Execute, PlanOk, AllDone;
    StatusIsJustified(plan, acts, n, Admitted);
  }

  /** A version that requires approval never delivers without it: a run that has
      reached delivering or completed has an approved request at its gate. */
  lemma DeliveryNeedsApproval(plan: Plan, acts: seq<Action>, n: nat)
    requires PlanOk(plan) && n <= |acts| && plan.approvalRequired
    requires StatusAt(plan, acts[..n], Delivering) || StatusAt(plan, acts[..n], Completed)
    ensures var d := Execute(plan, START, acts).data; d.approval.Some? && d.approval.value.status == Approved
  {
    hide Execute, PlanOk, AllDone;
    StatusIsJustified(plan, acts, n, if StatusAt(plan, acts[..n], Delivering) then Delivering else Completed);
  }

  /** A completed run has all its steps' jobs completed and a delivered attempt whose
      result the provider really confirmed. */
  lemma CompletedIsDelivered(plan: Plan, acts: seq<Action>, n: nat, x: string)
    requires PlanOk(plan) && n <= |acts| && StatusAt(plan, acts[..n], Completed)
    ensures var d := Execute(plan, START, acts).data;
            && d.delivery.Some? && d.delivery.value.status == Delivered
            && d.confirmed.Some? && d.delivery.value.resultRef == d.confirmed
    ensures x in plan.order ==> StepDone(plan, Execute(plan, START, acts).data, x)
  {
    hide Execute, PlanOk, PcOk, DispatchOk, StepDone;
    AlwaysSound(plan, acts);
    StatusIsJustified(plan, acts, n, Completed);
  }

  /** A failed run has a cause on record: a step whose job failed or was cancelled,
      or a failed delivery.  A rejected run has a declined request. */
  lemma EndsHaveCauses(plan: Plan, acts: seq<Action>, n: nat)
    requires PlanOk(plan) && n <= |acts|
    ensures StatusAt(plan, acts[..n], Failed) ==>
              var d := Execute(plan, START, acts).data;
              DeliveryIs(d, Undelivered) || exists x :: StepLost(d, x)
    ensures StatusAt(plan, acts[..n], RunStatus.Rejected) ==>
              var d := Execute(plan, START, acts).data; ApprovalIs(d, Declined)
  {
    hide Execute, PlanOk, StepLost, AllDone, StatusAt;
    if StatusAt(plan, acts[..n], Failed) {
      StatusIsJustified(plan, acts, n, Failed);
    }
    if StatusAt(plan, acts[..n], RunStatus.Rejected) {
      StatusIsJustified(plan, acts, n, RunStatus.Rejected);
    }
  }

  /** No operation ever suspends a run: asking for changes reads an awaiting run, and
      the table has no step from there to suspended. */
  lemma NeverSuspended(plan: Plan, acts: seq<Action>)
    requires PlanOk(plan)
    ensures !StatusAt(plan, acts, Suspended)
  {
    hide Execute, PlanOk, AllDone;
    assert acts[..|acts|] == acts;
    AlwaysSound(plan, acts);
  }

  // ------------------------------------------------------------------
  // The run record is fenced
  // ------------------------------------------------------------------

  /** The run was created, is unchanged, or made one fenced transition. */
  ghost predicate RunMoves(d: Data, e: Data) {
    || e.run == d.run
    || (d.run.None? && exists now :: e.run == Some(NewRun(now)))
    || (d.run.Some? && e.run.Some? && exists a :: TransitionRun(d.run.value, a) == Ok(e.run.value))
  }

  lemma CommitMoves(d: Data, snap: Run, to: RunStatus, now: int)
    ensures Commit(d, snap, to, now).Some? ==> RunMoves(d, Commit(d, snap, to, now).value)
    ensures RunMoves(d, CommitAndStop(d, snap, to, now).d)
  {
    if d.run.Some? {
      var reply := TransitionRun(d.run.value, Attempt(snap.version, to, None, now));
      assert reply.Ok? ==> TransitionRun(d.run.value, Attempt(snap.version, to, None, now)) == Ok(reply.value);
    }
  }

  lemma AllCommitsMove(d: Data, now: int)
    ensures forall snap, to :: Commit(d, snap, to, now).Some? ==> RunMoves(d, Commit(d, snap, to, now).value)
    ensures forall snap, to :: RunMoves(d, CommitAndStop(d, snap, to, now).d)
  {
    hide Commit, CommitAndStop, RunMoves;
    forall snap, to
      ensures Commit(d, snap, to, now).Some? ==> RunMoves(d, Commit(d, snap, to, now).value)
      ensures RunMoves(d, CommitAndStop(d, snap, to, now).d)
    {
      CommitMoves(d, snap, to, now);
    }
  }

  lemma StepMoves(plan: Plan, d: Data, pc: Pc, c: Choice)
    ensures RunMoves(d, WorkerStep(plan, d, pc, c).d)
  {
    hide Commit, CommitAndStop, RunMoves, DispatchStep, DeliverStep, ReconcileStep;
    AllCommitsMove(d, c.now);
    UnmovedMoves(d);
    if InDispatch(pc) {
      assert DispatchStep(plan, d, pc, c).d.run == d.run by { DispatchUnmoved(plan, d, pc, c); }
    } else if InDeliver(pc) {
      DeliverMoves(plan, d, pc, c);
    } else if InReconcile(pc) {
      ReconcileUnmoved(d, pc, c);
    }
  }

  lemma UnmovedMoves(d: Data)
    ensures forall e: Data :: e.run == d.run ==> RunMoves(d, e)
  {
  }

  lemma DispatchUnmoved(plan: Plan, d: Data, pc: Pc, c: Choice)
    ensures DispatchStep(plan, d, pc, c).d.run == d.run
  {
    hide StepStatusOf;
  }

  lemma ReconcileUnmoved(d: Data, pc: Pc, c: Choice)
    ensures ReconcileStep(d, pc, c).d.run == d.run
  {
    hide StepStatusOf, AfterRow;
  }

  lemma DeliverMoves(plan: Plan, d: Data, pc: Pc, c: Choice)
    ensures RunMoves(d, DeliverStep(plan, d, pc, c).d)
  {
    hide Commit, CommitAndStop, RunMoves, TransitionDelivery;
    AllCommitsMove(d, c.now);
    UnmovedMoves(d);
  }

  lemma NextMoves(plan: Plan, s: System, a: Action)
    ensures RunMoves(s.data, Next(plan, s, a).data)
  {
    hide WorkerStep, TransitionRun;
    if a.Go? {
      StepMoves(plan, s.data, PcOf(s, a.w), a.c);
    }
  }

  /** The run's record is what fenced attempts of some writers leave of a new run, so
      the laws of fenced histories hold of it; it commits at most seven times. */
  lemma {:induction false} RunIsFenced(plan: Plan, acts: seq<Action>)
    requires PlanOk(plan)
    ensures var d := Execute(plan, START, acts).data;
            d.run.Some? ==> d.run.value.version <= 8 && IsFencedHistory(d.run.value)
  {
    hide Next, PlanOk, Inv, TransitionRun, After, Trail, RunMoves;
    var d := Execute(plan, START, acts).data;
    if acts != [] && d.run.Some? {
      var init := acts[..|acts| - 1];
      RunIsFenced(plan, init);
      var c := Execute(plan, START, init).data;
      NextMoves(plan, Execute(plan, START, init), acts[|acts| - 1]);
      NeverSuspended(plan, acts);
      FencedStep(c, d);
      var now, attempts :| After(NewRun(now), attempts) == d.run.value && Suspended !in Trail(NewRun(now), attempts);
      AtMostSevenCommits(now, attempts);
    }
  }

  ghost predicate IsFencedHistory(r: Run) {
    exists now, attempts :: After(NewRun(now), attempts) == r && Suspended !in Trail(NewRun(now), attempts)
  }

  lemma FencedStep(d: Data, e: Data)
    requires RunMoves(d, e) && e.run.Some? && e.run.value.status != Suspended
    requires d.run.Some? ==> IsFencedHistory(d.run.value)
    ensures IsFencedHistory(e.run.value)
  {
    if d.run.None? {
      var now :| e.run == Some(NewRun(now));
      assert After(NewRun(now), []) == e.run.value;
    } else if e.run != d.run {
      var now, attempts :| After(NewRun(now), attempts) == d.run.value && Suspended !in Trail(NewRun(now), attempts);
      var a :| TransitionRun(d.run.value, a) == Ok(e.run.value);
      assert (attempts + [a])[..|attempts|] == attempts;
      assert After(NewRun(now), attempts + [a]) == e.run.value;
    }
  }
}
