/**
 The automation event log of a run: projecting runner events into product events,
 appending from many writers, and following the log from a cursor.
 */
module EventLog {

  /** Runner events, as far as the projection looks at them. */
  datatype JobEvent = Started(attempt: nat) | Message(role: string, text: string) | Completed(usage: string) | OtherEvent

  datatype Kind =
    | StepStarted(attempt: nat)
    | StepProgress(text: string)
    | StepCompleted(usage: string)
    | RunEvent(name: string)

  datatype Event = Event(number: nat, kind: Kind)

  // ------------------------------------------------------------------
  // Projection
  // ------------------------------------------------------------------

  /** What each runner event contributes, given whether a start was seen before. */
  function Contribution(e: JobEvent, started: bool): seq<Kind> {
    match e
    case Started(attempt) => if started then [] else [StepStarted(attempt)]
    case Message(role, text) => if role == "assistant" then [StepProgress(text)] else []
    case Completed(usage) => [StepCompleted(usage)]
    case OtherEvent => []
  }

  function SeenStart(events: seq<JobEvent>): bool {
    exists i :: 0 <= i < |events| && events[i].Started?
  }

  function Picks(events: seq<JobEvent>): seq<Kind> {
    if events == [] then []
    else
      var init := events[..|events| - 1];
      Picks(init) + Contribution(events[|events| - 1], SeenStart(init))
  }

  /** Kinds given consecutive sequence numbers. */
  function Numbered(kinds: seq<Kind>, from: nat): seq<Event> {
    seq(|kinds|, i requires 0 <= i < |kinds| => Event(from + i, kinds[i]))
  }

  method ProjectStepEvents(events: seq<JobEvent>, startSeq: nat) returns (out: seq<Event>, nextSeq: nat)
    ensures out == Numbered(Picks(events), startSeq)
    ensures nextSeq == startSeq + |out|
  {
    hide Picks, SeenStart, Numbered;
    var seqNo := startSeq;
    out := [];
    NothingPicked(startSeq);
    assert events[..0] == [];
    var started := false;
    for i := 0 to |events|
      invariant out == Numbered(Picks(events[..i]), startSeq)
      invariant seqNo == startSeq + |out|
      invariant started == SeenStart(events[..i])
    {
      var e := events[i];
      assert events[..i + 1] == events[..i] + [e];
      PicksStep(events[..i], e, startSeq);
      if e.Started? && !started {
        started := true;
        out := out + [Event(seqNo, StepStarted(e.attempt))];
        seqNo := seqNo + 1;
      } else if e.Message? && e.role == "assistant" {
        out := out + [Event(seqNo, StepProgress(e.text))];
        seqNo := seqNo + 1;
      } else if e.Completed? {
        out := out + [Event(seqNo, StepCompleted(e.usage))];
        seqNo := seqNo + 1;
      }
    }
    assert events[..|events|] == events;
    nextSeq := seqNo;
  }

  lemma NothingPicked(from: nat)
    ensures Numbered(Picks([]), from) == [] && !SeenStart([]) && Starts(Picks([])) == 0
  {
  }

  lemma PicksStep(init: seq<JobEvent>, e: JobEvent, from: nat)
    ensures SeenStart(init + [e]) <==> SeenStart(init) || e.Started?
    ensures Picks(init + [e]) == Picks(init) + Contribution(e, SeenStart(init))
    ensures var add, sofar := Contribution(e, SeenStart(init)), Numbered(Picks(init), from);
            Numbered(Picks(init + [e]), from) == sofar + if add == [] then [] else [Event(from + |sofar|, add[0])]
  {
    hide SeenStart, Numbered, Picks, Contribution;
    SeenStartStep(init, e);
    PicksUnfold(init, e);
    NumberedAppend(Picks(init), Contribution(e, SeenStart(init)), from);
  }

  lemma PicksUnfold(init: seq<JobEvent>, e: JobEvent)
    ensures Picks(init + [e]) == Picks(init) + Contribution(e, SeenStart(init))
    ensures |Contribution(e, SeenStart(init))| <= 1
  {
    hide SeenStart;
    assert (init + [e])[..|init|] == init;
  }

  lemma NumberedAppend(kinds: seq<Kind>, add: seq<Kind>, from: nat)
    requires |add| <= 1
    ensures |Numbered(kinds, from)| == |kinds|
    ensures Numbered(kinds + add, from) == Numbered(kinds, from) + if add == [] then [] else [Event(from + |kinds|, add[0])]
  {
    if add == [] {
      assert kinds + add == kinds;
    } else {
      assert add == [add[0]];
    }
  }

  lemma SeenStartStep(init: seq<JobEvent>, e: JobEvent)
    ensures SeenStart(init + [e]) <==> SeenStart(init) || e.Started?
  {
    var all := init + [e];
    assert all[|init|] == e;
    if i :| 0 <= i < |init| && init[i].Started? {
      assert all[i] == init[i];
    }
  }

  /** Replaying a longer runner log only adds to the projection. */
  lemma {:induction false} ProjectionGrows(events: seq<JobEvent>, n: nat)
    requires n <= |events|
    ensures Picks(events[..n]) <= Picks(events)
  {
    if n == |events| {
      assert events[..n] == events;
    } else {
      var init := events[..|events| - 1];
      ProjectionGrows(init, n);
      assert init[..n] == events[..n];
    }
  }

  ghost function Starts(kinds: seq<Kind>): nat {
    if kinds == [] then 0
    else Starts(kinds[..|kinds| - 1]) + if kinds[|kinds| - 1].StepStarted? then 1 else 0
  }

  lemma StartsAppend(kinds: seq<Kind>, add: seq<Kind>)
    requires |add| <= 1
    ensures Starts(kinds + add) == Starts(kinds) + if add != [] && add[0].StepStarted? then 1 else 0
  {
    if add == [] {
      assert kinds + add == kinds;
    } else {
      assert (kinds + add)[..|kinds|] == kinds;
    }
  }

  /** However often a job restarts, its step is reported as started at most once. */
  lemma {:induction false} StartedOnce(events: seq<JobEvent>)
    ensures Starts(Picks(events)) == if SeenStart(events) then 1 else 0
  {
    hide SeenStart, Starts;
    if events == [] {
      NothingPicked(0);
    } else {
      var init, e := events[..|events| - 1], events[|events| - 1];
      StartedOnce(init);
      SeenStartStep(init, e);
      assert events == init + [e];
      StartsAppend(Picks(init), Contribution(e, SeenStart(init)));
    }
  }

  // ------------------------------------------------------------------
  // The log
  // ------------------------------------------------------------------

  predicate HasSeq(log: seq<Event>, n: nat) {
    exists i :: 0 <= i < |log| && log[i].number == n
  }

  /** Append unless the sequence number is taken. */
  function Append(log: seq<Event>, e: Event): seq<Event> {
    if HasSeq(log, e.number) then log else log + [e]
  }

  function MaxSeq(log: seq<Event>): nat {
    if log == [] then 0
    else
      var m := MaxSeq(log[..|log| - 1]);
      if log[|log| - 1].number > m then log[|log| - 1].number else m
  }

  function NextSeq(log: seq<Event>): nat {
    MaxSeq(log) + 1
  }

  function EventsAfter(log: seq<Event>, cursor: nat): seq<Event> {
    if log == [] then []
    else
      var n := |log| - 1;
      EventsAfter(log[..n], cursor) + if log[n].number > cursor then [log[n]] else []
  }

  /** The sequence numbers are 1, 2, 3 and so on, in list order. */
  ghost predicate Dense(log: seq<Event>) {
    forall i :: 0 <= i < |log| ==> log[i].number == i + 1
  }

  lemma {:induction false} DenseMax(log: seq<Event>)
    requires Dense(log)
    ensures MaxSeq(log) == |log|
  {
    if log != [] {
      DenseMax(log[..|log| - 1]);
    }
  }

  lemma {:induction false} DenseAfter(log: seq<Event>, cursor: nat)
    requires Dense(log)
    ensures EventsAfter(log, cursor) == if cursor <= |log| then log[cursor..] else []
  {
    hide EventsAfter;
    AfterStep(log, cursor);
    if log != [] {
      var n := |log| - 1;
      DenseAfter(log[..n], cursor);
      assert log[n].number == n + 1;
      if cursor <= n {
        assert log[cursor..] == log[..n][cursor..] + [log[n]];
      } else {
        assert EventsAfter(log, cursor) == [];
      }
    }
  }

  lemma AfterStep(log: seq<Event>, cursor: nat)
    ensures log == [] ==> EventsAfter(log, cursor) == []
    ensures log != [] ==>
              EventsAfter(log, cursor) ==
              EventsAfter(log[..|log| - 1], cursor) +
              if log[|log| - 1].number > cursor then [log[|log| - 1]] else []
  {
  }

  /** One poll of a follower: emit what is new, move the cursor past it. */
  method Poll(log: seq<Event>, cursor: nat) returns (emitted: seq<Event>, cursor': nat)
    ensures emitted == EventsAfter(log, cursor)
    ensures cursor' == (if MaxSeq(emitted) > cursor then MaxSeq(emitted) else cursor)
  {
    emitted, cursor' := [], cursor;
    var events := EventsAfter(log, cursor);
    for i := 0 to |events|
      invariant emitted == events[..i]
      invariant cursor' == (if MaxSeq(events[..i]) > cursor then MaxSeq(events[..i]) else cursor)
    {
      var e := events[i];
      assert events[..i + 1][..i] == events[..i];
      emitted := emitted + [e];
      if e.number > cursor' {
        cursor' := e.number;
      }
    }
    assert events[..|events|] == events;
  }

  // ------------------------------------------------------------------
  // Many writers, many readers
  // ------------------------------------------------------------------

  datatype Reader = Reader(start: nat, cursor: nat, emitted: seq<Event>)

  /** The log, the events each writer still has to append, and the readers. */
  datatype System = System(log: seq<Event>, writers: map<nat, seq<Event>>, readers: map<nat, Reader>)

  datatype Action =
    | Prepare(w: nat, kinds: seq<Kind>)   // read the next number, number a batch from it
    | AppendOne(w: nat)                   // append the first event still pending
    | CrashWriter(w: nat)
    | Open(r: nat, start: nat)            // a reader starts after a sequence number
    | PollOnce(r: nat)

  const EMPTY := System([], map[], map[])

  function Next(s: System, a: Action): System {
    match a
    case Prepare(w, kinds) => s.(writers := s.writers[w := Numbered(kinds, NextSeq(s.log))])
    case AppendOne(w) =>
      if w in s.writers && s.writers[w] != []
      then s.(log := Append(s.log, s.writers[w][0]), writers := s.writers[w := s.writers[w][1..]]) else s
    case CrashWriter(w) => s.(writers := s.writers[w := []])
    case Open(r, start) => s.(readers := s.readers[r := Reader(start, start, [])])
    case PollOnce(r) =>
      if r in s.readers then
        var news := EventsAfter(s.log, s.readers[r].cursor);
        var m := MaxSeq(news);
        s.(readers := s.readers[r := Reader(s.readers[r].start,
                                            if m > s.readers[r].cursor then m else s.readers[r].cursor,
                                            s.readers[r].emitted + news)])
      else s
  }

  ghost function Execute(acts: seq<Action>): System {
    if acts == [] then EMPTY else Next(Execute(acts[..|acts| - 1]), acts[|acts| - 1])
  }

  /** A pending batch is consecutive and starts no later than the next free number. */
  ghost predicate BatchFits(pending: seq<Event>, n: nat) {
    pending != [] ==>
      && 1 <= pending[0].number <= n + 1
      && forall i :: 0 <= i < |pending| ==> pending[i].number == pending[0].number + i
  }

  /** A reader has emitted exactly the stretch of the log from its start to its cursor. */
  ghost predicate ReaderIsExact(r: Reader, log: seq<Event>) {
    if r.cursor == r.start then r.emitted == []
    else r.start < r.cursor <= |log| && r.emitted == log[r.start..r.cursor]
  }

  ghost predicate Inv(s: System) {
    && Dense(s.log)
    && (forall w :: w in s.writers ==> BatchFits(s.writers[w], |s.log|))
    && (forall r :: r in s.readers ==> ReaderIsExact(s.readers[r], s.log))
  }

  lemma AppendKeeps(log: seq<Event>, pending: seq<Event>)
    requires Dense(log) && pending != [] && BatchFits(pending, |log|)
    ensures var after := Append(log, pending[0]);
            Dense(after) && log <= after && BatchFits(pending[1..], |after|)
  {
    var n := pending[0].number;
    if n <= |log| {
      assert log[n - 1].number == n;
    }
  }

  lemma ReaderSurvives(r: Reader, log: seq<Event>, log': seq<Event>)
    requires ReaderIsExact(r, log) && log <= log'
    ensures ReaderIsExact(r, log')
  {
    if r.cursor != r.start {
      assert log'[r.start..r.cursor] == log[r.start..r.cursor];
    }
  }

  lemma PollKeeps(r: Reader, log: seq<Event>)
    requires Dense(log) && ReaderIsExact(r, log)
    ensures var news := EventsAfter(log, r.cursor);
            var m := MaxSeq(news);
            ReaderIsExact(Reader(r.start, if m > r.cursor then m else r.cursor, r.emitted + news), log)
  {
    hide EventsAfter, MaxSeq, Dense;
    DenseAfter(log, r.cursor);
    MaxOfNothing();
    if r.cursor <= |log| {
      MaxOfTail(log, r.cursor);
      if r.cursor != r.start {
        assert log[r.start..|log|] == log[r.start..r.cursor] + log[r.cursor..];
      }
    }
  }

  lemma MaxOfNothing()
    ensures MaxSeq([]) == 0
  {
  }

  lemma {:induction false} MaxOfTail(log: seq<Event>, k: nat)
    requires Dense(log) && k <= |log|
    ensures MaxSeq(log[k..]) == if k < |log| then |log| else 0
  {
    if k < |log| {
      assert log[k..][..|log| - k - 1] == log[..|log| - 1][k..];
      MaxOfTail(log[..|log| - 1], k);
    }
  }

  lemma PrepareKeeps(kinds: seq<Kind>, log: seq<Event>)
    requires Dense(log)
    ensures BatchFits(Numbered(kinds, NextSeq(log)), |log|)
  {
    DenseMax(log);
  }

  lemma NextKeeps(s: System, a: Action)
    requires Inv(s)
    ensures Inv(Next(s, a)) && s.log <= Next(s, a).log
  {
    hide Dense, BatchFits, ReaderIsExact, Append, EventsAfter, MaxSeq, Numbered, NextSeq;
    match a
    case Prepare(w, kinds) => PrepareKeeps(kinds, s.log);
    case AppendOne(w) =>
      if w in s.writers && s.writers[w] != [] {
        AppendKeeps(s.log, s.writers[w]);
        var t := Next(s, a);
        forall v | v in t.writers
          ensures BatchFits(t.writers[v], |t.log|)
        {
          if v != w {
            LongerLogFits(s.writers[v], |s.log|, |t.log|);
          }
        }
        forall r | r in t.readers
          ensures ReaderIsExact(t.readers[r], t.log)
        {
          ReaderSurvives(s.readers[r], s.log, t.log);
        }
      }
    case CrashWriter(w) => NothingFits(|s.log|);
    case Open(r, start) => FreshReader(start, s.log);
    case PollOnce(r) =>
      if r in s.readers {
        PollKeeps(s.readers[r], s.log);
      }
  }

  lemma LongerLogFits(pending: seq<Event>, n: nat, m: nat)
    requires BatchFits(pending, n) && n <= m
    ensures BatchFits(pending, m)
  {
  }

  lemma NothingFits(n: nat)
    ensures BatchFits([], n)
  {
  }

  lemma FreshReader(start: nat, log: seq<Event>)
    ensures ReaderIsExact(Reader(start, start, []), log)
  {
  }

  /** Under every interleaving and crash of writers, the log is numbered 1 to n
      without a gap or a repeat, and every reader has emitted exactly the part of it
      between where it started and where its cursor stands. */
  lemma {:induction false} LogIsDense(acts: seq<Action>)
    ensures var s := Execute(acts);
            Dense(s.log) && forall r :: r in s.readers ==> ReaderIsExact(s.readers[r], s.log)
    ensures Inv(Execute(acts))
  {
    if acts != [] {
      LogIsDense(acts[..|acts| - 1]);
      NextKeeps(Execute(acts[..|acts| - 1]), acts[|acts| - 1]);
    }
  }

  /** What is in the log stays where it is. */
  lemma {:induction false} LogOnlyGrows(acts: seq<Action>, n: nat)
    requires n <= |acts|
    ensures Execute(acts[..n]).log <= Execute(acts).log
  {
    hide Next;
    if n == |acts| {
      assert acts[..n] == acts;
    } else {
      var init := acts[..|acts| - 1];
      LogOnlyGrows(init, n);
      assert init[..n] == acts[..n];
      LogIsDense(init);
      NextKeeps(Execute(init), acts[|acts| - 1]);
    }
  }
}
