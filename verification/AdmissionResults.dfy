/**
 What callers of `admit` are told, and what a failure means for the next caller.
 */
module AdmissionResults {
  import opened Wrappers
  import opened Admission
  import opened AdmissionProtocol

  // ------------------------------------------------------------------
  // Which results are replays
  // ------------------------------------------------------------------

  ghost predicate FreshAt(results: seq<Result>, i: nat, k: Key) {
    i < |results| && results[i].request.at == k && !results[i].replayed
  }

  /** Of the results of a key the first is fresh and all others are replays. */
  ghost predicate FirstIsFresh(results: seq<Result>) {
    && (forall j :: 0 <= j < |results| && results[j].replayed ==>
          exists i: nat :: i < j && FreshAt(results, i, results[j].request.at))
    && (forall i, j :: 0 <= i < j < |results| && results[i].request.at == results[j].request.at ==> results[j].replayed)
  }

  /** And a completed slot has its fresh result. */
  ghost predicate Told(d: Data) {
    && FirstIsFresh(d.results)
    && forall k :: k in d.slots && d.slots[k].state == Completed ==> exists i: nat :: FreshAt(d.results, i, k)
  }

  /** A slot is completed only by the step that returns the fresh result. */
  lemma CompletesOnlyAtTheEnd(releases: bool, d: Data, pc: Pc, c: Choice, k: Key)
    requires !pc.Finishing? || pc.r.at != k
    ensures var e := AdmitStep(releases, d, pc, c).d;
            k in e.slots && e.slots[k].state == Completed ==> k in d.slots && d.slots[k].state == Completed
  {
  }

  lemma OtherStepsTellNothing(releases: bool, d: Data, pc: Pc, c: Choice)
    requires !pc.Finishing? && !pc.Replaying?
    ensures AdmitStep(releases, d, pc, c).d.results == d.results
  {
    hide ApplyOp, Answer;
  }

  lemma LongerResults(results: seq<Result>, x: Result)
    requires FirstIsFresh(results)
    requires x.replayed <==> exists i: nat :: FreshAt(results, i, x.request.at)
    requires !x.replayed ==> forall i :: 0 <= i < |results| ==> results[i].request.at != x.request.at
    ensures FirstIsFresh(results + [x])
    ensures forall i: nat, k :: FreshAt(results, i, k) ==> FreshAt(results + [x], i, k)
    ensures !x.replayed ==> FreshAt(results + [x], |results|, x.request.at)
  {
    var longer := results + [x];
    assert forall i: nat, k :: FreshAt(results, i, k) ==> FreshAt(longer, i, k);
    forall j | 0 <= j < |longer| && longer[j].replayed
      ensures exists i: nat :: i < j && FreshAt(longer, i, longer[j].request.at)
    {
      if j < |results| {
        var i: nat :| i < j && FreshAt(results, i, results[j].request.at);
        assert FreshAt(longer, i, longer[j].request.at);
      } else {
        var i: nat :| FreshAt(results, i, x.request.at);
        assert i < j && FreshAt(longer, i, longer[j].request.at);
      }
    }
  }

  lemma FinishTells(releases: bool, d: Data, pc: Pc, c: Choice)
    requires Core(d) && PcOk(releases, d, pc) && Told(d) && pc.Finishing?
    ensures Told(AdmitStep(releases, d, pc, c).d)
  {
    hide SlotOk, JobOk, RowOk, OneJobEach, FirstIsFresh;
    var k, e := pc.r.at, AdmitStep(releases, d, pc, c).d;
    forall i | 0 <= i < |d.results|
      ensures d.results[i].request.at != k
    {
      assert ResultOk(d, d.results[i]);
    }
    LongerResults(d.results, Result(pc.r, pc.job, pc.row.id, false));
    forall x | x in e.slots && e.slots[x].state == Completed
      ensures exists i: nat :: FreshAt(e.results, i, x)
    {
      if x != k {
        CompletesOnlyAtTheEnd(releases, d, pc, c, x);
        var i: nat :| FreshAt(d.results, i, x);
        assert FreshAt(e.results, i, x);
      }
    }
  }

  lemma ReplayTells(releases: bool, d: Data, pc: Pc, c: Choice)
    requires Core(d) && PcOk(releases, d, pc) && Told(d) && pc.Replaying?
    ensures Told(AdmitStep(releases, d, pc, c).d)
  {
    hide JobOk, RowOk, OneJobEach, FirstIsFresh, ResultOk;
    assert SlotOk(d, pc.r.at);
    var e := AdmitStep(releases, d, pc, c).d;
    if e.results != d.results {
      LongerResults(d.results, e.results[|d.results|]);
    }
    forall x | x in e.slots && e.slots[x].state == Completed
      ensures exists i: nat :: FreshAt(e.results, i, x)
    {
      var i: nat :| FreshAt(d.results, i, x);
      assert FreshAt(e.results, i, x);
    }
  }

  lemma NextTells(releases: bool, s: System, a: Action)
    requires Inv(releases, s) && Told(s.data)
    ensures Told(Next(releases, s, a).data)
  {
    hide Core, PcOk, AdmitStep, FirstIsFresh;
    if a.Go? {
      var pc := PcOf(s, a.w);
      IdleOk(releases, s.data, Request(Key("", ""), ""));
      if pc.Finishing? {
        FinishTells(releases, s.data, pc, a.c);
      } else if pc.Replaying? {
        ReplayTells(releases, s.data, pc, a.c);
      } else {
        OtherStepsTellNothing(releases, s.data, pc, a.c);
        forall k
          ensures var e := AdmitStep(releases, s.data, pc, a.c).d;
                  k in e.slots && e.slots[k].state == Completed ==> k in s.data.slots && s.data.slots[k].state == Completed
        {
          CompletesOnlyAtTheEnd(releases, s.data, pc, a.c, k);
        }
      }
    }
  }

  lemma {:induction false} AlwaysTold(releases: bool, acts: seq<Action>)
    ensures Told(Execute(releases, acts).data)
  {
    hide Inv, Next, Told;
    if acts == [] {
      StartTold();
    } else {
      var init := acts[..|acts| - 1];
      AlwaysTold(releases, init);
      AlwaysSound(releases, init);
      NextTells(releases, Execute(releases, init), acts[|acts| - 1]);
    }
  }

  lemma StartTold()
    ensures Told(START.data)
  {
  }

  /** Over every interleaving and crash, the first success of a (tenant, key) is told as
      fresh and every later one as a replay. */
  lemma FirstSuccessIsFresh(releases: bool, acts: seq<Action>, j: nat)
    requires j < |Execute(releases, acts).data.results|
    ensures var results := Execute(releases, acts).data.results;
            results[j].replayed <==> exists i :: 0 <= i < j && results[i].request.at == results[j].request.at
  {
    hide Execute;
    AlwaysTold(releases, acts);
    var results := Execute(releases, acts).data.results;
    if results[j].replayed {
      var i: nat :| i < j && FreshAt(results, i, results[j].request.at);
    }
  }

  // ------------------------------------------------------------------
  // What a failure means for the next caller
  // ------------------------------------------------------------------

  /** Anybody's next claim of the key wins. */
  ghost predicate Open(d: Data, k: Key) {
    forall fingerprint, now :: Answer(SlotAt(d, k), fingerprint, now) == New
  }

  /** Nobody's next claim of the key wins. */
  ghost predicate Closed(d: Data, k: Key) {
    forall fingerprint, now :: Answer(SlotAt(d, k), fingerprint, now) != New
  }

  /** A quota refusal and a failed job creation leave the key open to the next caller once
      they are recorded; a policy denial closes it. */
  lemma FailuresDecideTheKey(releases: bool, d: Data, pc: Pc, c: Choice)
    requires Core(d) && PcOk(releases, d, pc) && c.ok
    ensures pc.QuotaFailing? || pc.CreationFailing? ==> Open(AdmitStep(releases, d, pc, c).d, pc.r.at)
    ensures pc.Denying? ==> Closed(AdmitStep(releases, d, pc, c).d, pc.r.at)
  {
    hide JobOk, RowOk, OneJobEach, ResultOk;
    if pc.Denying? {
      assert SlotOk(d, pc.r.at);
    }
  }

  ghost predicate Denied(d: Data, k: Key) {
    k in d.slots && d.slots[k].state == FailedTerminal
  }

  lemma DeniedStays(releases: bool, s: System, a: Action, k: Key)
    requires Inv(releases, s) && Denied(s.data, k)
    ensures Denied(Next(releases, s, a).data, k) && Next(releases, s, a).data.slots[k] == s.data.slots[k]
  {
    hide OneJobEach, JobOk, RowOk, ResultOk, PcOk, AdmitStep, Exclusive;
    assert SlotOk(s.data, k);
    if a.Go? {
      IdleOk(releases, s.data, Request(k, ""));
      StepLeavesDenied(releases, s.data, PcOf(s, a.w), a.c, k);
    }
  }

  lemma StepLeavesDenied(releases: bool, d: Data, pc: Pc, c: Choice, k: Key)
    requires PcOk(releases, d, pc) && Denied(d, k) && d.slots[k].expiresAt.None?
    ensures var e := AdmitStep(releases, d, pc, c).d; k in e.slots && e.slots[k] == d.slots[k]
  {
    hide HasJob, HoldsRow, EndedRow;
  }

  /** A key once denied by policy stays denied in every execution, with the slot as it is. */
  lemma {:induction false} DenialIsFinal(releases: bool, acts: seq<Action>, n: nat, k: Key)
    requires n <= |acts| && Denied(Execute(releases, acts[..n]).data, k)
    ensures Closed(Execute(releases, acts).data, k)
    ensures Denied(Execute(releases, acts).data, k)
    ensures Execute(releases, acts).data.slots[k] == Execute(releases, acts[..n]).data.slots[k]
  {
    hide Inv, Next, Closed, Answer;
    if n == |acts| {
      assert acts[..n] == acts;
    } else {
      var init := acts[..|acts| - 1];
      assert init[..n] == acts[..n];
      DenialIsFinal(releases, init, n, k);
      AlwaysSound(releases, init);
      DeniedStays(releases, Execute(releases, init), acts[|acts| - 1], k);
    }
    AlwaysSound(releases, acts);
    DeniedIsClosed(releases, Execute(releases, acts), k);
  }

  lemma DeniedIsClosed(releases: bool, s: System, k: Key)
    requires Inv(releases, s) && Denied(s.data, k)
    ensures Closed(s.data, k)
  {
    hide OneJobEach, JobOk, RowOk, ResultOk, PcOk, Exclusive;
    assert SlotOk(s.data, k);
  }

  // ------------------------------------------------------------------
  // The reservation of a job
  // ------------------------------------------------------------------

  /** A reservation is linked to no job but its key's. */
  ghost predicate RowLinked(d: Data, k: Key) {
    k in d.rows && d.rows[k].jobId.Some? ==> d.rows[k].jobId.value in d.jobs && d.jobs[d.rows[k].jobId.value] == k
  }

  ghost predicate LinkedTo(d: Data, k: Key, job: string) {
    k in d.rows && d.rows[k].jobId == Some(job)
  }

  ghost predicate Linked(s: System) {
    && (forall k :: RowLinked(s.data, k))
    && (forall w :: w in s.callers && s.callers[w].Finishing? ==> LinkedTo(s.data, s.callers[w].r.at, s.callers[w].job))
    && (forall i :: 0 <= i < |s.data.results| ==> LinkedTo(s.data, s.data.results[i].request.at, s.data.results[i].jobId))
  }

  /** Links, once made, stay. */
  ghost predicate KeepsLinks(d: Data, e: Data) {
    forall k, job :: LinkedTo(d, k, job) ==> LinkedTo(e, k, job)
  }

  lemma AttachLinks(d: Data, k: Key, job: string)
    requires (forall x :: RowLinked(d, x)) && OneJobEach(d) && job in d.jobs && d.jobs[job] == k && k in d.rows
    ensures var e := Attach(d, k, job); KeepsLinks(d, e) && (forall x :: RowLinked(e, x)) && LinkedTo(e, k, job)
  {
    assert RowLinked(d, k);
    var e := Attach(d, k, job);
    assert forall x :: RowLinked(d, x) ==> RowLinked(e, x);
  }

  lemma StepLinks(releases: bool, d: Data, pc: Pc, c: Choice)
    requires Core(d) && PcOk(releases, d, pc) && forall k :: RowLinked(d, k)
    ensures var out := AdmitStep(releases, d, pc, c);
            && KeepsLinks(d, out.d) && (forall k :: RowLinked(out.d, k))
            && (out.pc.Finishing? ==> LinkedTo(out.d, out.pc.r.at, out.pc.job))
  {
    hide SlotOk, JobOk, RowOk, ResultOk;
    if pc.Attaching? {
      hide RowLinked, LinkedTo, KeepsLinks;
      AttachLinks(d, pc.r.at, pc.job);
    } else {
      StepsOfOthersLink(releases, d, pc, c);
    }
  }

  lemma StepsOfOthersLink(releases: bool, d: Data, pc: Pc, c: Choice)
    requires !pc.Attaching? && forall k :: RowLinked(d, k)
    ensures var out := AdmitStep(releases, d, pc, c);
            KeepsLinks(d, out.d) && (forall k :: RowLinked(out.d, k)) && !out.pc.Finishing?
  {
    hide ApplyOp, Answer;
    FailKeepsRows(d, pc, c);
    var out := AdmitStep(releases, d, pc, c);
    assert forall j :: j in d.jobs ==> j in out.d.jobs && (out.d.jobs[j] == d.jobs[j]);
    forall k
      ensures RowLinked(out.d, k)
    {
      assert RowLinked(d, k);
    }
  }

  /** The result a step adds names the job its reservation is linked to. */
  lemma ResultLinks(releases: bool, d: Data, pc: Pc, c: Choice)
    requires Core(d) && PcOk(releases, d, pc) && (pc.Finishing? ==> LinkedTo(d, pc.r.at, pc.job))
    requires forall i :: 0 <= i < |d.results| ==> LinkedTo(d, d.results[i].request.at, d.results[i].jobId)
    requires Told(d) && KeepsLinks(d, AdmitStep(releases, d, pc, c).d)
    ensures var e := AdmitStep(releases, d, pc, c).d;
            forall i :: 0 <= i < |e.results| ==> LinkedTo(e, e.results[i].request.at, e.results[i].jobId)
  {
    hide JobOk, RowOk, OneJobEach, ApplyOp, Answer, FirstIsFresh, KeepsLinks, LinkedTo;
    var e := AdmitStep(releases, d, pc, c).d;
    if pc.Finishing? {
      FinishKeeps(releases, d, pc, c);
    } else if pc.Replaying? {
      assert SlotOk(d, pc.r.at);
      var i: nat :| FreshAt(d.results, i, pc.r.at);
      assert ResultOk(d, d.results[i]);
      assert LinkedTo(d, d.results[i].request.at, d.results[i].jobId);
    } else {
      OtherStepsTellNothing(releases, d, pc, c);
    }
    forall i | 0 <= i < |e.results|
      ensures LinkedTo(e, e.results[i].request.at, e.results[i].jobId)
    {
      KeepsOne(d, e, e.results[i].request.at, e.results[i].jobId);
    }
  }

  lemma FinishKeeps(releases: bool, d: Data, pc: Pc, c: Choice)
    requires pc.Finishing?
    ensures AdmitStep(releases, d, pc, c).d.results == d.results + [Result(pc.r, pc.job, pc.row.id, false)]
  {
    hide ApplyOp;
  }

  lemma KeepsOne(d: Data, e: Data, k: Key, job: string)
    requires KeepsLinks(d, e)
    ensures LinkedTo(d, k, job) ==> LinkedTo(e, k, job)
  {
  }

  lemma EndLinks(d: Data, k: Key, state: ReservationState)
    ensures KeepsLinks(d, Ended(d, k, state)) && Ended(d, k, state).results == d.results
    ensures (forall x :: RowLinked(d, x)) ==> forall x :: RowLinked(Ended(d, k, state), x)
  {
    var e := Ended(d, k, state);
    assert forall x, job :: LinkedTo(d, x, job) ==> LinkedTo(e, x, job);
    assert forall x :: RowLinked(d, x) ==> RowLinked(e, x);
  }

  lemma LinksMoveOn(s: System, t: System)
    requires Linked(s) && KeepsLinks(s.data, t.data) && forall k :: RowLinked(t.data, k)
    requires forall w :: w in t.callers && t.callers[w].Finishing? ==>
               (w in s.callers && t.callers[w] == s.callers[w]) || LinkedTo(t.data, t.callers[w].r.at, t.callers[w].job)
    requires forall i :: 0 <= i < |t.data.results| ==> LinkedTo(t.data, t.data.results[i].request.at, t.data.results[i].jobId)
    ensures Linked(t)
  {
    hide RowLinked, LinkedTo, KeepsLinks;
    forall w | w in t.callers && t.callers[w].Finishing?
      ensures LinkedTo(t.data, t.callers[w].r.at, t.callers[w].job)
    {
      KeepsOne(s.data, t.data, t.callers[w].r.at, t.callers[w].job);
    }
  }

  lemma NextLinks(releases: bool, s: System, a: Action)
    requires Inv(releases, s) && Linked(s) && Told(s.data)
    ensures Linked(Next(releases, s, a))
  {
    hide Core, PcOk, AdmitStep, Told, Exclusive, RowLinked, LinkedTo, KeepsLinks, Ended;
    var t := Next(releases, s, a);
    SameLinks(s.data);
    match a {
      case Go(w, c) =>
        IdleOk(releases, s.data, Request(Key("", ""), ""));
        StepLinks(releases, s.data, PcOf(s, w), c);
        ResultLinks(releases, s.data, PcOf(s, w), c);
      case Reap(k) => EndLinks(s.data, k, Expired);
      case Settle(k) => EndLinks(s.data, k, Settled);
      case _ =>
    }
    forall i | 0 <= i < |t.data.results|
      ensures LinkedTo(t.data, t.data.results[i].request.at, t.data.results[i].jobId)
    {
      if !a.Go? {
        KeepsOne(s.data, t.data, t.data.results[i].request.at, t.data.results[i].jobId);
      }
    }
    LinksMoveOn(s, t);
  }

  lemma SameLinks(d: Data)
    ensures KeepsLinks(d, d)
  {
  }

  lemma {:induction false} AlwaysLinked(releases: bool, acts: seq<Action>)
    ensures Linked(Execute(releases, acts))
  {
    hide Inv, Next, Told, Linked;
    if acts == [] {
      StartLinked();
    } else {
      var init := acts[..|acts| - 1];
      AlwaysLinked(releases, init);
      AlwaysSound(releases, init);
      AlwaysTold(releases, init);
      NextLinks(releases, Execute(releases, init), acts[|acts| - 1]);
    }
  }

  lemma StartLinked()
    ensures Linked(START)
  {
  }

  /** Every success names a reservation that is linked to the very job it returns. */
  lemma ReservationsNameTheirJobs(releases: bool, acts: seq<Action>, i: nat)
    requires i < |Execute(releases, acts).data.results|
    ensures var d := Execute(releases, acts).data;
            var x := d.results[i];
            x.request.at in d.rows && d.rows[x.request.at].id == x.reservationId && d.rows[x.request.at].jobId == Some(x.jobId)
  {
    hide Execute;
    AlwaysLinked(releases, acts);
    SuccessesAgree(releases, acts, i, i);
    assert LinkedTo(Execute(releases, acts).data, Execute(releases, acts).data.results[i].request.at,
                    Execute(releases, acts).data.results[i].jobId);
  }
}
