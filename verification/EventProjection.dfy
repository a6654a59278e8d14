/**
 What the projection keeps of a runner log, and that what is appended in turn is logged.
 */
module EventProjection {
  import opened EventLog

  /** The events a product event is made of: the first start, what the assistant says, and
      every completion. */
  ghost predicate Kept(events: seq<JobEvent>, i: nat) {
    && i < |events|
    && match events[i]
       case Started(_) => forall j :: 0 <= j < i ==> !events[j].Started?
       case Message(role, _) => role == "assistant"
       case Completed(_) => true
       case OtherEvent => false
  }

  ghost predicate Becomes(e: JobEvent, k: Kind) {
    match e
    case Started(attempt) => k == StepStarted(attempt)
    case Message(_, text) => k == StepProgress(text)
    case Completed(usage) => k == StepCompleted(usage)
    case OtherEvent => false
  }

  /** The positions of the kept events, in order, each once. */
  ghost predicate Selects(idx: seq<nat>, events: seq<JobEvent>) {
    && (forall a, b :: 0 <= a < b < |idx| ==> idx[a] < idx[b])
    && (forall a :: 0 <= a < |idx| ==> Kept(events, idx[a]))
    && (forall i: nat :: Kept(events, i) ==> i in idx)
  }

  /** The events at these positions are what the projection is made of. */
  ghost predicate MadeOf(kinds: seq<Kind>, events: seq<JobEvent>, idx: seq<nat>) {
    |kinds| == |idx| && forall a :: 0 <= a < |idx| ==> idx[a] < |events| && Becomes(events[idx[a]], kinds[a])
  }

  /** The projection is made of the kept events, each exactly once, in their order, and of
      nothing else. */
  lemma {:induction false} ProjectionKeepsInOrder(events: seq<JobEvent>) returns (idx: seq<nat>)
    ensures Selects(idx, events) && MadeOf(Picks(events), events, idx)
  {
    hide Picks, Kept, Selects, MadeOf;
    if events == [] {
      idx := [];
      NothingKept();
    } else {
      var n := |events| - 1;
      var before := ProjectionKeepsInOrder(events[..n]);
      idx := if Kept(events, n) then before + [n] else before;
      SelectsOneMore(events, before);
      LastContributes(events);
      assert events == events[..n] + [events[n]];
      MadeOfLonger(Picks(events[..n]), events[..n], events[n], before);
      if Kept(events, n) {
        var sofar := Picks(events[..n]);
        assert Picks(events) == sofar + [Picks(events)[|sofar|]];
        MadeOfOneMore(sofar, Picks(events)[|sofar|], events, before, n);
      }
    }
  }

  lemma NothingKept()
    ensures Selects([], []) && MadeOf(Picks([]), [], [])
  {
  }

  lemma SelectsOneMore(events: seq<JobEvent>, before: seq<nat>)
    requires events != [] && Selects(before, events[..|events| - 1])
    ensures Selects(if Kept(events, |events| - 1) then before + [|events| - 1] else before, events)
  {
    var n := |events| - 1;
    KeptSoFar(events);
    forall i: nat
      ensures Kept(events, i) ==> i <= n
      ensures Kept(events[..n], i) ==> i < n
    {
      KeptIsInside(events, i);
      KeptIsInside(events[..n], i);
    }
    hide Kept;
    var idx := if Kept(events, n) then before + [n] else before;
    forall i: nat | Kept(events, i)
      ensures i in idx
    {
      if i < n {
        assert i in before;
      } else {
        assert idx[|before|] == n;
      }
    }
  }

  lemma MadeOfLonger(kinds: seq<Kind>, init: seq<JobEvent>, last: JobEvent, idx: seq<nat>)
    requires MadeOf(kinds, init, idx)
    ensures MadeOf(kinds, init + [last], idx)
  {
    hide Becomes;
    forall a | 0 <= a < |idx|
      ensures idx[a] < |init + [last]| && Becomes((init + [last])[idx[a]], kinds[a])
    {
      assert (init + [last])[idx[a]] == init[idx[a]];
    }
  }

  lemma MadeOfOneMore(kinds: seq<Kind>, k: Kind, events: seq<JobEvent>, idx: seq<nat>, n: nat)
    requires MadeOf(kinds, events, idx) && n < |events| && Becomes(events[n], k)
    ensures MadeOf(kinds + [k], events, idx + [n])
  {
    hide Becomes;
    forall a | 0 <= a < |idx + [n]|
      ensures (idx + [n])[a] < |events| && Becomes(events[(idx + [n])[a]], (kinds + [k])[a])
    {
      if a < |idx| {
        assert (idx + [n])[a] == idx[a] && (kinds + [k])[a] == kinds[a];
      }
    }
  }

  lemma KeptIsInside(events: seq<JobEvent>, i: nat)
    ensures Kept(events, i) ==> i < |events|
  {
  }

  lemma KeptSoFar(events: seq<JobEvent>)
    requires events != []
    ensures forall i: nat :: i < |events| - 1 ==> (Kept(events, i) <==> Kept(events[..|events| - 1], i))
  {
  }

  /** The last event adds itself exactly if it is kept. */
  lemma LastContributes(events: seq<JobEvent>)
    requires events != []
    ensures var n := |events| - 1;
            var init := events[..n];
            if Kept(events, n) then
              |Picks(events)| == |Picks(init)| + 1 && Picks(events)[..|Picks(init)|] == Picks(init)
              && Becomes(events[n], Picks(events)[|Picks(init)|])
            else Picks(events) == Picks(init)
  {
    var n := |events| - 1;
    var init := events[..n];
    assert events == init + [events[n]];
    PicksUnfold(init, events[n]);
    assert SeenStart(init) <==> exists j :: 0 <= j < n && events[j].Started? by {
      assert forall j :: 0 <= j < n ==> init[j] == events[j];
    }
    hide Picks;
  }

  // ------------------------------------------------------------------
  // Appending
  // ------------------------------------------------------------------

  /** An event with the next number is added at the end; one whose number is taken is
      dropped. */
  lemma AppendAddsOrDrops(log: seq<Event>, e: Event)
    requires Dense(log) && 1 <= e.number <= |log| + 1
    ensures Append(log, e) == if e.number == |log| + 1 then log + [e] else log
  {
    if e.number <= |log| {
      assert log[e.number - 1].number == e.number;
    }
  }

  ghost function AppendAll(log: seq<Event>, es: seq<Event>): seq<Event>
    decreases |es|
  {
    if es == [] then log else AppendAll(Append(log, es[0]), es[1..])
  }

  /** A batch that starts from the next number and is not interrupted is logged whole. */
  lemma UninterruptedBatchIsLogged(log: seq<Event>, kinds: seq<Kind>)
    requires Dense(log)
    ensures AppendAll(log, Numbered(kinds, NextSeq(log))) == log + Numbered(kinds, NextSeq(log))
  {
    hide Append, MaxSeq, AppendAll;
    DenseMax(log);
    BatchIsLogged(log, kinds);
  }

  lemma {:induction false} BatchIsLogged(log: seq<Event>, kinds: seq<Kind>)
    requires Dense(log)
    ensures AppendAll(log, Numbered(kinds, |log| + 1)) == log + Numbered(kinds, |log| + 1)
    decreases |kinds|
  {
    hide Append;
    var es := Numbered(kinds, |log| + 1);
    if kinds != [] {
      AppendAddsOrDrops(log, es[0]);
      var longer := log + [es[0]];
      BatchIsLogged(longer, kinds[1..]);
      assert es[1..] == Numbered(kinds[1..], |longer| + 1);
      assert es == [es[0]] + es[1..];
    }
  }
}
