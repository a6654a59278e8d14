/**
 Step graphs of an automation version: acceptance (`validateStepGraph`) and
 scheduling (`executionOrder`).  Both run Kahn's algorithm over the same
 in-degree and adjacency tables, so the tables and the drain loop are modelled
 once and shared.
 */
module StepGraph {

  datatype Step = Step(stepId: string, dependsOn: seq<string>)

  datatype GraphError =
    | StepIdRequired
    | DuplicateStepId(stepId: string)
    | SelfDependency(stepId: string)
    | DuplicateDependency(stepId: string, dep: string)
    | UnknownDependency(stepId: string, dep: string)
    | ContainsCycle

  datatype Outcome = Accepted | Rejected(error: GraphError)

  /** Each step id with the set of step ids it waits for. */
  type Graph = map<string, set<string>>

  // ------------------------------------------------------------------
  // What an acceptable step list is
  // ------------------------------------------------------------------

  ghost predicate Distinct(s: seq<string>) {
    forall i, j :: 0 <= i < j < |s| ==> s[i] != s[j]
  }

  ghost predicate DistinctIds(steps: seq<Step>) {
    forall i, j :: 0 <= i < j < |steps| ==> steps[i].stepId != steps[j].stepId
  }

  ghost predicate Known(steps: seq<Step>, id: string) {
    exists i :: 0 <= i < |steps| && steps[i].stepId == id
  }

  /** What can be seen of a step without looking at the other steps. */
  ghost predicate SoundStep(s: Step) {
    s.stepId != "" && Distinct(s.dependsOn) && s.stepId !in s.dependsOn
  }

  ghost predicate WellFormed(steps: seq<Step>) {
    && DistinctIds(steps)
    && (forall i :: 0 <= i < |steps| ==> SoundStep(steps[i]))
    && (forall i, d :: 0 <= i < |steps| && d in steps[i].dependsOn ==> Known(steps, d))
  }

  ghost function GraphOf(steps: seq<Step>): Graph {
    if steps == [] then map[]
    else
      var s := steps[|steps| - 1];
      GraphOf(steps[..|steps| - 1])[s.stepId := set d | d in s.dependsOn]
  }

  /** c[0] waits for c[1], which waits for c[2], and so on. */
  ghost predicate Chain(g: Graph, c: seq<string>) {
    && (forall i :: 0 <= i < |c| ==> c[i] in g)
    && (forall i, j :: 0 <= i && j == i + 1 && j < |c| ==> c[j] in g[c[i]])
  }

  ghost predicate CycleIn(g: Graph, c: seq<string>) {
    Chain(g, c) && |c| >= 2 && c[0] == c[|c| - 1]
  }

  ghost predicate Acyclic(g: Graph) {
    forall c :: !CycleIn(g, c)
  }

  /** x heads a dependency chain of n edges: the depth of x is at least n. */
  ghost predicate HasChain(g: Graph, x: string, n: nat) {
    exists c :: Chain(g, c) && |c| == n + 1 && c[0] == x
  }

  // ------------------------------------------------------------------
  // What a schedule is
  // ------------------------------------------------------------------

  /** Position of a step in the declaration. */
  ghost function Declared(steps: seq<Step>, id: string): int {
    if steps == [] then -1
    else if steps[|steps| - 1].stepId == id then |steps| - 1
    else Declared(steps[..|steps| - 1], id)
  }

  /** The dependency of y that comes last in L stands at position p. */
  ghost predicate LastDep(g: Graph, L: seq<string>, y: string, p: nat) {
    && y in g && p < |L| && L[p] in g[y]
    && forall d :: d in g[y] ==> d in L[..p + 1]
  }

  /** Steps without dependencies come first; after them, a step is placed by the
      position of its last dependency, and ties follow the declaration. */
  ghost predicate ReadyOrder(steps: seq<Step>, g: Graph, L: seq<string>) {
    && (forall a, b :: 0 <= a < b < |L| && L[a] in g && L[b] in g && g[L[b]] == {} ==>
          g[L[a]] == {} && Declared(steps, L[a]) < Declared(steps, L[b]))
    && (forall a, b, p, q :: 0 <= a < b < |L| && LastDep(g, L, L[a], p) && LastDep(g, L, L[b], q) ==>
          p < q || (p == q && Declared(steps, L[a]) < Declared(steps, L[b])))
  }

  ghost predicate DepsFirst(g: Graph, L: seq<string>) {
    forall i, d :: 0 <= i < |L| && L[i] in g && d in g[L[i]] ==> d in L[..i]
  }

  ghost predicate IsSchedule(steps: seq<Step>, order: seq<string>) {
    var g := GraphOf(steps);
    && Distinct(order)
    && (forall x :: x in order <==> x in g)
    && DepsFirst(g, order)
    && ReadyOrder(steps, g, order)
  }

  // ------------------------------------------------------------------
  // The graph of a step list
  // ------------------------------------------------------------------

  lemma {:induction false} GraphOfSteps(steps: seq<Step>)
    ensures forall x :: x in GraphOf(steps) <==> Known(steps, x)
    ensures DistinctIds(steps) ==>
              forall i :: 0 <= i < |steps| ==>
                && steps[i].stepId in GraphOf(steps)
                && GraphOf(steps)[steps[i].stepId] == set d | d in steps[i].dependsOn
    ensures DistinctIds(steps) ==>
              forall i :: 0 <= i < |steps| ==> Declared(steps, steps[i].stepId) == i
  {
    if steps != [] {
      var n := |steps| - 1;
      var init := steps[..n];
      GraphOfSteps(init);
      forall x
        ensures x in GraphOf(steps) <==> Known(steps, x)
      {
        if Known(init, x) {
          var i :| 0 <= i < n && init[i].stepId == x;
          assert steps[i].stepId == x;
        }
        if Known(steps, x) && x != steps[n].stepId {
          var i :| 0 <= i < |steps| && steps[i].stepId == x;
          assert init[i].stepId == x;
        }
      }
      if DistinctIds(steps) {
        forall i | 0 <= i < |steps|
          ensures steps[i].stepId in GraphOf(steps)
          ensures GraphOf(steps)[steps[i].stepId] == set d | d in steps[i].dependsOn
          ensures Declared(steps, steps[i].stepId) == i
        {
          if i < n {
            assert init[i] == steps[i];
          }
        }
      }
    }
  }

  lemma GraphClosed(steps: seq<Step>)
    requires WellFormed(steps)
    ensures forall x, d :: x in GraphOf(steps) && d in GraphOf(steps)[x] ==> d in GraphOf(steps) && d != x
  {
    GraphOfSteps(steps);
    forall x, d | x in GraphOf(steps) && d in GraphOf(steps)[x]
      ensures d in GraphOf(steps) && d != x
    {
      assert Known(steps, x);
      var i :| 0 <= i < |steps| && steps[i].stepId == x;
      assert d in steps[i].dependsOn;
      assert SoundStep(steps[i]);
    }
  }

  // ------------------------------------------------------------------
  // Cycles
  // ------------------------------------------------------------------

  lemma {:induction false} DistinctBound(s: seq<string>, r: set<string>)
    requires Distinct(s)
    requires forall x :: x in s ==> x in r
    ensures |s| <= |r|
  {
    if s != [] {
      var n := |s| - 1;
      assert s[n] in s;
      forall x | x in s[..n]
        ensures x in r - {s[n]}
      {
      }
      DistinctBound(s[..n], r - {s[n]});
    }
  }

  /** Walk from x, staying inside r. */
  ghost function Walk(g: Graph, r: set<string>, x: string, n: nat): (c: seq<string>)
    requires x in r && forall y :: y in r ==> y in g && g[y] * r != {}
    ensures Chain(g, c) && |c| == n + 1 && c[0] == x
    ensures forall y :: y in c ==> y in r
    decreases n
  {
    if n == 0 then [x]
    else
      var d :| d in g[x] * r;
      [x] + Walk(g, r, d, n - 1)
  }

  /** A non-empty set of steps that each wait for a member of the set holds a cycle. */
  lemma StuckSetHasCycle(g: Graph, r: set<string>)
    requires r != {} && forall y :: y in r ==> y in g && g[y] * r != {}
    ensures !Acyclic(g)
  {
    var x :| x in r;
    var c := Walk(g, r, x, |r|);
    if Distinct(c) {
      DistinctBound(c, r);
      assert false;
    }
    var i, j :| 0 <= i < j < |c| && c[i] == c[j];
    var loop := c[i..j + 1];
    assert CycleIn(g, loop);
  }

  /** An order in which dependencies come first rules cycles out. */
  lemma OrderedIsAcyclic(g: Graph, order: seq<string>)
    requires Distinct(order) && DepsFirst(g, order)
    requires forall x :: x in g ==> x in order
    ensures Acyclic(g)
  {
    forall c | Chain(g, c) && |c| >= 2
      ensures c[0] != c[|c| - 1]
    {
      var p := ChainDescends(g, order, c);
    }
  }

  /** Along a chain, positions in a dependency-first order strictly fall. */
  lemma {:induction false} ChainDescends(g: Graph, order: seq<string>, c: seq<string>) returns (p: nat)
    requires Distinct(order) && DepsFirst(g, order)
    requires forall x :: x in g ==> x in order
    requires Chain(g, c) && |c| >= 2
    ensures p < |order| && order[p] == c[|c| - 1]
    ensures forall q :: 0 <= q < |order| && order[q] == c[0] ==> p < q
  {
    assert c[0] in order;
    var q :| 0 <= q < |order| && order[q] == c[0];
    assert c[1] in order[..q];
    var m :| 0 <= m < q && order[m] == c[1];
    if |c| == 2 {
      p := m;
    } else {
      assert Chain(g, c[1..]);
      p := ChainDescends(g, order, c[1..]);
      assert p < m;
    }
  }

  // ------------------------------------------------------------------
  // Consequences of being a schedule
  // ------------------------------------------------------------------

  lemma {:induction false} FindLastDep(g: Graph, L: seq<string>, y: string, m: nat) returns (p: nat)
    requires m <= |L| && y in g && g[y] != {}
    requires forall d :: d in g[y] ==> d in L[..m]
    ensures p < m && LastDep(g, L, y, p)
  {
    var d :| d in g[y];
    assert d in L[..m];
    if L[m - 1] in g[y] {
      p := m - 1;
    } else {
      assert L[..m] == L[..m - 1] + [L[m - 1]];
      p := FindLastDep(g, L, y, m - 1);
    }
  }

  lemma PrependChain(g: Graph, x: string, d: string, n: nat)
    requires x in g && d in g[x] && HasChain(g, d, n)
    ensures HasChain(g, x, n + 1)
  {
    var c :| Chain(g, c) && |c| == n + 1 && c[0] == d;
    assert Chain(g, [x] + c);
  }

  lemma ChainTail(g: Graph, x: string, n: nat) returns (d: string)
    requires n > 0 && HasChain(g, x, n)
    ensures x in g && d in g[x] && HasChain(g, d, n - 1)
  {
    var c :| Chain(g, c) && |c| == n + 1 && c[0] == x;
    d := c[1];
    assert Chain(g, c[1..]);
  }

  lemma PositionIn(L: seq<string>, d: string, m: nat) returns (i: nat)
    requires m <= |L| && d in L[..m]
    ensures i < m && L[i] == d
  {
    i :| 0 <= i < m && L[..m][i] == d;
  }

  lemma LastDepsInOrder(steps: seq<Step>, order: seq<string>, a: nat, b: nat) returns (p: nat, q: nat)
    requires IsSchedule(steps, order)
    requires a < b < |order| && order[a] in GraphOf(steps) && GraphOf(steps)[order[a]] != {}
    ensures order[b] in GraphOf(steps) && p <= q < b
    ensures forall d :: d in GraphOf(steps)[order[a]] ==> d in order[..p + 1]
    ensures order[q] in GraphOf(steps)[order[b]]
  {
    assert order[b] in order;
    p := FindLastDep(GraphOf(steps), order, order[a], a);
    q := FindLastDep(GraphOf(steps), order, order[b], b);
  }

  lemma ScheduledHasChain(steps: seq<Step>, order: seq<string>, b: nat)
    requires IsSchedule(steps, order) && b < |order|
    ensures HasChain(GraphOf(steps), order[b], 0)
  {
    assert order[b] in order;
    assert Chain(GraphOf(steps), [order[b]]);
  }

  /** A schedule never goes back to a smaller dependency depth: whatever chain an
      earlier step heads, every later step heads one at least as long. */
  lemma {:induction false} ScheduleByDepth(steps: seq<Step>, order: seq<string>, a: nat, b: nat, n: nat)
    requires IsSchedule(steps, order)
    requires a <= b < |order|
    requires HasChain(GraphOf(steps), order[a], n)
    ensures HasChain(GraphOf(steps), order[b], n)
    decreases b
  {
    hide IsSchedule, HasChain;
    var g := GraphOf(steps);
    if n == 0 {
      ScheduledHasChain(steps, order, b);
    } else if a < b {
      var d := ChainTail(g, order[a], n);
      var p, q := LastDepsInOrder(steps, order, a, b);
      var i := PositionIn(order, d, p + 1);
      ScheduleByDepth(steps, order, i, q, n - 1);
      PrependChain(g, order[b], order[q], n - 1);
    }
  }

  /** The rules of a schedule leave no freedom: a step list has one schedule. */
  lemma {:induction false} ScheduleIsUnique(steps: seq<Step>, o1: seq<string>, o2: seq<string>)
    requires IsSchedule(steps, o1) && IsSchedule(steps, o2)
    ensures o1 == o2
  {
    hide IsSchedule;
    SchedulesSameLength(steps, o1, o2);
    var k := 0;
    while k < |o1|
      invariant k <= |o1| && o1[..k] == o2[..k]
    {
      SchedulesAgreeAt(steps, o1, o2, k);
      assert o1[..k + 1] == o1[..k] + [o1[k]];
      assert o2[..k + 1] == o2[..k] + [o2[k]];
      k := k + 1;
    }
    assert o1 == o1[..|o1|] && o2 == o2[..|o2|];
  }

  lemma SchedulesSameLength(steps: seq<Step>, o1: seq<string>, o2: seq<string>)
    requires IsSchedule(steps, o1) && IsSchedule(steps, o2)
    ensures |o1| == |o2|
  {
    hide ReadyOrder, DepsFirst, GraphOf;
    assert (set x | x in o1) == (set x | x in o2);
    SetOfDistinct(o1);
    SetOfDistinct(o2);
  }

  lemma {:induction false} SetOfDistinct(s: seq<string>)
    requires Distinct(s)
    ensures |set x | x in s| == |s|
  {
    if s != [] {
      var n := |s| - 1;
      SetOfDistinct(s[..n]);
      assert (set x | x in s) == (set x | x in s[..n]) + {s[n]};
      assert s[n] !in s[..n];
    }
  }

  lemma SchedulesAgreeAt(steps: seq<Step>, o1: seq<string>, o2: seq<string>, k: nat)
    requires IsSchedule(steps, o1) && IsSchedule(steps, o2)
    requires k < |o1| == |o2| && o1[..k] == o2[..k]
    ensures o1[k] == o2[k]
  {
    var g := GraphOf(steps);
    var x, y := o1[k], o2[k];
    if x != y {
      assert x in o1 && y in o2;
      var i := Later(o1, o2, k, y);
      var j := Later(o2, o1, k, x);
      if g[x] != {} && g[y] != {} {
        var p := FindLastDep(g, o1, x, k);
        var q := FindLastDep(g, o2, y, k);
        LastDepTransfers(g, o1, o2, k, x, p);
        LastDepTransfers(g, o2, o1, k, y, q);
      }
    }
  }

  /** y stands in o1 too, after the shared prefix of length k. */
  lemma Later(o1: seq<string>, o2: seq<string>, k: nat, y: string) returns (i: nat)
    requires Distinct(o1) && Distinct(o2) && k < |o1| == |o2| && o1[..k] == o2[..k]
    requires y == o2[k] && y in o1 && o1[k] != y
    ensures k < i < |o1| && o1[i] == y
  {
    i :| 0 <= i < |o1| && o1[i] == y;
    assert forall m :: 0 <= m < k ==> o1[..k][m] == o2[..k][m];
  }

  lemma LastDepTransfers(g: Graph, o1: seq<string>, o2: seq<string>, k: nat, x: string, p: nat)
    requires p < k <= |o1| == |o2| && o1[..k] == o2[..k] && LastDep(g, o1, x, p)
    ensures LastDep(g, o2, x, p)
  {
    assert o2[p] == o2[..k][p] == o1[..k][p];
    assert o2[..p + 1] == o2[..k][..p + 1] == o1[..k][..p + 1] == o1[..p + 1];
  }

  /** The last position of L[..m] that holds a dependency of y; -1 if none does. */
  ghost function LastAmong(g: Graph, L: seq<string>, y: string, m: nat): int
    requires m <= |L| && y in g
  {
    if m == 0 then -1 else if L[m - 1] in g[y] then m - 1 else LastAmong(g, L, y, m - 1)
  }

  /** Where in L the step y becomes ready: after its last dependency, or at once. */
  ghost function ReadyAt(g: Graph, L: seq<string>, y: string): int
    requires y in g
  {
    LastAmong(g, L, y, |L|)
  }

  lemma {:induction false} LastAmongIsLast(g: Graph, L: seq<string>, y: string, m: nat)
    requires m <= |L| && y in g
    ensures var p := LastAmong(g, L, y, m);
            -1 <= p < m && (p >= 0 ==> L[p] in g[y]) && forall k :: p < k < m ==> L[k] !in g[y]
  {
    if m > 0 && L[m - 1] !in g[y] {
      LastAmongIsLast(g, L, y, m - 1);
    }
  }

  /** In a dependency-first order without repeats, that position is before y, it is -1
      exactly for roots, and it is the last dependency otherwise. */
  lemma ReadyAtIsLastDep(g: Graph, L: seq<string>, a: nat, p: nat)
    requires Distinct(L) && DepsFirst(g, L) && a < |L| && L[a] in g
    ensures -1 <= ReadyAt(g, L, L[a]) < a
    ensures g[L[a]] == {} <==> ReadyAt(g, L, L[a]) == -1
    ensures LastDep(g, L, L[a], p) <==> ReadyAt(g, L, L[a]) == p
  {
    hide LastAmong;
    var y := L[a];
    var q := ReadyAt(g, L, y);
    LastAmongIsLast(g, L, y, |L|);
    if g[y] != {} {
      var f := FindLastDep(g, L, y, a);
      LastDepsAgree(g, L, y, f, q);
      if LastDep(g, L, y, p) {
        LastDepsAgree(g, L, y, p, q);
      }
    }
  }

  lemma LastDepsAgree(g: Graph, L: seq<string>, y: string, p: nat, q: int)
    requires Distinct(L) && LastDep(g, L, y, p)
    requires -1 <= q < |L| && (q >= 0 ==> L[q] in g[y]) && forall k :: q < k < |L| ==> L[k] !in g[y]
    ensures p == q
  {
    if q > p {
      var i := PositionIn(L, L[q], p + 1);
    }
  }

  /** The order of any two steps: the one that becomes ready earlier comes first, and
      of two that become ready together the one declared earlier. */
  lemma ScheduledBefore(steps: seq<Step>, order: seq<string>, a: nat, b: nat)
    requires IsSchedule(steps, order) && a < |order| && b < |order| && a != b
    ensures order[a] in GraphOf(steps) && order[b] in GraphOf(steps)
    ensures var p, q := ReadyAt(GraphOf(steps), order, order[a]), ReadyAt(GraphOf(steps), order, order[b]);
            a < b <==> p < q || (p == q && Declared(steps, order[a]) < Declared(steps, order[b]))
  {
    assert order[a] in order && order[b] in order;
    if a < b {
      EarlierIsReadyEarlier(steps, order, a, b);
    } else {
      EarlierIsReadyEarlier(steps, order, b, a);
    }
  }

  lemma EarlierIsReadyEarlier(steps: seq<Step>, order: seq<string>, a: nat, b: nat)
    requires IsSchedule(steps, order) && a < b < |order| && order[a] in GraphOf(steps) && order[b] in GraphOf(steps)
    ensures var p, q := ReadyAt(GraphOf(steps), order, order[a]), ReadyAt(GraphOf(steps), order, order[b]);
            p < q || (p == q && Declared(steps, order[a]) < Declared(steps, order[b]))
  {
    hide GraphOf, ReadyAt, Declared;
    var g := GraphOf(steps);
    var p, q := ReadyAt(g, order, order[a]), ReadyAt(g, order, order[b]);
    ReadyAtIsLastDep(g, order, a, if p >= 0 then p else 0);
    ReadyAtIsLastDep(g, order, b, if q >= 0 then q else 0);
  }

  ghost function Ids(steps: seq<Step>): seq<string> {
    seq(|steps|, i requires 0 <= i < |steps| => steps[i].stepId)
  }

  /** What the declaration must satisfy to be its own schedule: dependencies come first,
      and no step becomes ready before one declared earlier. */
  ghost predicate DeclaredInReadyOrder(steps: seq<Step>) {
    var g, ids := GraphOf(steps), Ids(steps);
    && DepsFirst(g, ids)
    && forall i, j :: 0 <= i < j < |ids| && ids[i] in g && ids[j] in g ==> ReadyAt(g, ids, ids[i]) <= ReadyAt(g, ids, ids[j])
  }

  lemma DeclaredOrderIsSchedule(steps: seq<Step>)
    requires WellFormed(steps) && DeclaredInReadyOrder(steps)
    ensures IsSchedule(steps, Ids(steps))
  {
    hide GraphOf, ReadyAt, Declared, LastDep, SoundStep;
    var g, ids := GraphOf(steps), Ids(steps);
    GraphOfSteps(steps);
    IdsAreKnown(steps);
    forall a, b | 0 <= a < b < |ids| && g[ids[b]] == {}
      ensures g[ids[a]] == {}
    {
      ReadyAtIsLastDep(g, ids, a, 0);
      ReadyAtIsLastDep(g, ids, b, 0);
    }
    forall a, b, p, q | 0 <= a < b < |ids| && LastDep(g, ids, ids[a], p) && LastDep(g, ids, ids[b], q)
      ensures p <= q
    {
      ReadyAtIsLastDep(g, ids, a, p);
      ReadyAtIsLastDep(g, ids, b, q);
    }
    assert ReadyOrder(steps, g, ids);
  }

  lemma IdsAreKnown(steps: seq<Step>)
    requires DistinctIds(steps)
    ensures Distinct(Ids(steps))
    ensures forall x :: x in Ids(steps) <==> Known(steps, x)
  {
    forall x | Known(steps, x)
      ensures x in Ids(steps)
    {
      var i :| 0 <= i < |steps| && steps[i].stepId == x;
      assert Ids(steps)[i] == x;
    }
  }

  /** The schedule is the declared order exactly when the declaration has dependencies
      first and becomes ready in order. */
  lemma DeclarationOrderIsKeptExactlyWhen(steps: seq<Step>, order: seq<string>)
    requires WellFormed(steps) && IsSchedule(steps, order)
    ensures order == Ids(steps) <==> DeclaredInReadyOrder(steps)
  {
    hide WellFormed, GraphOf, Declared;
    if DeclaredInReadyOrder(steps) {
      DeclaredOrderIsSchedule(steps);
      ScheduleIsUnique(steps, order, Ids(steps));
    } else if order == Ids(steps) {
      forall i, j | 0 <= i < j < |order|
        ensures order[i] in GraphOf(steps) && order[j] in GraphOf(steps)
        ensures ReadyAt(GraphOf(steps), order, order[i]) <= ReadyAt(GraphOf(steps), order, order[j])
      {
        ScheduledBefore(steps, order, i, j);
      }
    }
  }

  const THREE := [Step("p", ["r"]), Step("q", []), Step("r", [])]

  lemma GraphOfThree()
    ensures GraphOf(THREE) == map["p" := {"r"}, "q" := {}, "r" := {}]
    ensures Declared(THREE, "q") == 1 && Declared(THREE, "r") == 2 && Declared(THREE, "p") == 0
  {
    hide Declared;
    var a, b, c := Step("p", ["r"]), Step("q", []), Step("r", []);
    GraphOfSteps(THREE);
    var deps := set d | d in a.dependsOn;
    assert "r" == a.dependsOn[0] && deps == {"r"};
    assert [a][..0] == [];
    assert GraphOf([a]) == map["p" := {"r"}];
    assert "p"[0] != "q"[0] && "q"[0] != "r"[0] && "p"[0] != "r"[0];
    var none := set d | d in b.dependsOn;
    assert none == {};
    assert [a, b][..1] == [a] && [a, b][1] == b;
    assert GraphOf([a, b]) == map["p" := {"r"}, "q" := {}];
    assert THREE[..2] == [a, b];
    assert DistinctIds(THREE);
    assert THREE[0].stepId == "p" && THREE[1].stepId == "q" && THREE[2].stepId == "r";
  }

  /** Three steps whose first and second do not depend on each other, yet the first
      declared is scheduled last. */
  lemma DeclarationOrderIsNotKept()
    ensures IsSchedule(THREE, ["q", "r", "p"]) && Ids(THREE) == ["p", "q", "r"]
  {
    hide GraphOf, Declared, LastDep;
    var order := ["q", "r", "p"];
    GraphOfThree();
    assert order[..2] == ["q", "r"] && "r" in order[..2];
    assert DepsFirst(GraphOf(THREE), order);
    OneDependent(order);
  }

  /** Only the last step has a dependency, so there is no pair to compare. */
  lemma OneDependent(order: seq<string>)
    requires order == ["q", "r", "p"]
    ensures ReadyOrder(THREE, GraphOf(THREE), order)
  {
    hide GraphOf, Declared;
    GraphOfThree();
    assert forall a, p: nat :: 0 <= a < 2 ==> !LastDep(GraphOf(THREE), order, order[a], p);
  }

  // ------------------------------------------------------------------
  // The tables of Kahn's algorithm
  // ------------------------------------------------------------------

  /** The steps that wait for d, in declaration order. */
  ghost function Dependents(steps: seq<Step>, d: string): seq<string> {
    if steps == [] then []
    else
      var s := steps[|steps| - 1];
      Dependents(steps[..|steps| - 1], d) + (if d in s.dependsOn then [s.stepId] else [])
  }

  /** The steps that wait for nothing, in declaration order. */
  ghost function Roots(steps: seq<Step>): seq<string> {
    if steps == [] then []
    else
      var s := steps[|steps| - 1];
      Roots(steps[..|steps| - 1]) + (if s.dependsOn == [] then [s.stepId] else [])
  }

  ghost predicate DeclarationOrder(steps: seq<Step>, s: seq<string>) {
    forall i, j :: 0 <= i < j < |s| ==> Declared(steps, s[i]) < Declared(steps, s[j])
  }

  lemma InitFacts(steps: seq<Step>)
    requires DistinctIds(steps) && steps != []
    ensures DistinctIds(steps[..|steps| - 1])
    ensures steps[|steps| - 1].stepId !in GraphOf(steps[..|steps| - 1])
    ensures forall x :: x in GraphOf(steps[..|steps| - 1]) ==>
              Declared(steps, x) == Declared(steps[..|steps| - 1], x) < |steps| - 1
  {
    var init := steps[..|steps| - 1];
    GraphOfSteps(init);
    forall x | x in GraphOf(init)
      ensures x != steps[|steps| - 1].stepId && Declared(init, x) < |init|
    {
      assert Known(init, x);
      var i :| 0 <= i < |init| && init[i].stepId == x;
      assert steps[i].stepId == x;
    }
  }

  lemma {:induction false} DependentsListed(steps: seq<Step>, d: string)
    requires DistinctIds(steps)
    ensures forall x :: x in Dependents(steps, d) <==> x in GraphOf(steps) && d in GraphOf(steps)[x]
    ensures DeclarationOrder(steps, Dependents(steps, d))
  {
    if steps != [] {
      InitFacts(steps);
      DependentsListed(steps[..|steps| - 1], d);
    }
  }

  lemma {:induction false} RootsListed(steps: seq<Step>)
    requires DistinctIds(steps)
    ensures forall x :: x in Roots(steps) <==> x in GraphOf(steps) && GraphOf(steps)[x] == {}
    ensures DeclarationOrder(steps, Roots(steps))
  {
    if steps != [] {
      InitFacts(steps);
      RootsListed(steps[..|steps| - 1]);
      var s := steps[|steps| - 1];
      if s.dependsOn != [] {
        assert s.dependsOn[0] in GraphOf(steps)[s.stepId];
      }
    }
  }

  ghost predicate Tables(steps: seq<Step>, indeg: map<string, int>, adj: map<string, seq<string>>) {
    var g := GraphOf(steps);
    && indeg.Keys == adj.Keys == g.Keys
    && (forall x :: x in g ==> indeg[x] == |g[x]|)
    && (forall x :: x in g ==> adj[x] == Dependents(steps, x))
  }

  /** The tables once steps[..i] and the first j dependencies of steps[i] are entered. */
  ghost predicate PartTables(steps: seq<Step>, indeg: map<string, int>, adj: map<string, seq<string>>, i: nat, j: nat) {
    && i <= |steps| && (if i < |steps| then j <= |steps[i].dependsOn| else j == 0)
    && indeg.Keys == adj.Keys == GraphOf(steps).Keys
    && (forall x :: x in adj ==> adj[x] == Dependents(steps[..i], x) + Tail(steps, i, j, x))
    && (forall k :: 0 <= k < |steps| ==>
          steps[k].stepId in indeg &&
          indeg[steps[k].stepId] == if k < i then |steps[k].dependsOn| else if k == i then j else 0)
  }

  ghost function Tail(steps: seq<Step>, i: nat, j: nat, x: string): seq<string>
    requires i <= |steps| && (if i < |steps| then j <= |steps[i].dependsOn| else j == 0)
  {
    if i < |steps| && x in steps[i].dependsOn[..j] then [steps[i].stepId] else []
  }

  lemma EnterDependency(steps: seq<Step>, indeg: map<string, int>, adj: map<string, seq<string>>, i: nat, j: nat)
    requires DistinctIds(steps) && PartTables(steps, indeg, adj, i, j)
    requires i < |steps| && SoundStep(steps[i]) && j < |steps[i].dependsOn| && steps[i].dependsOn[j] in adj
    ensures steps[i].stepId in indeg
    ensures PartTables(steps, indeg[steps[i].stepId := indeg[steps[i].stepId] + 1],
                       adj[steps[i].dependsOn[j] := adj[steps[i].dependsOn[j]] + [steps[i].stepId]], i, j + 1)
  {
    hide Dependents, GraphOf, Tail;
    assert steps[i].stepId in indeg;
    var dep := steps[i].dependsOn[j];
    forall x | x in adj
      ensures adj[dep := adj[dep] + [steps[i].stepId]][x] == Dependents(steps[..i], x) + Tail(steps, i, j + 1, x)
    {
      TailGrows(steps, i, j, x);
    }
  }

  lemma TailGrows(steps: seq<Step>, i: nat, j: nat, x: string)
    requires i < |steps| && SoundStep(steps[i]) && j < |steps[i].dependsOn|
    ensures Tail(steps, i, j + 1, x) ==
            Tail(steps, i, j, x) + if x == steps[i].dependsOn[j] then [steps[i].stepId] else []
  {
    var deps := steps[i].dependsOn;
    assert deps[j] !in deps[..j];
    assert deps[..j + 1] == deps[..j] + [deps[j]];
  }

  lemma PartTablesDomain(steps: seq<Step>, indeg: map<string, int>, adj: map<string, seq<string>>, i: nat, j: nat)
    requires PartTables(steps, indeg, adj, i, j)
    ensures indeg.Keys == adj.Keys
    ensures forall x :: x in indeg <==> Known(steps, x)
    ensures i < |steps| ==> steps[i].stepId in indeg
  {
    GraphOfSteps(steps);
  }

  lemma EnterNextStep(steps: seq<Step>, indeg: map<string, int>, adj: map<string, seq<string>>, i: nat)
    requires i < |steps| && PartTables(steps, indeg, adj, i, |steps[i].dependsOn|)
    ensures PartTables(steps, indeg, adj, i + 1, 0)
  {
    hide GraphOf, Dependents, Tail;
    forall x | x in adj
      ensures adj[x] == Dependents(steps[..i + 1], x) + Tail(steps, i + 1, 0, x)
    {
      TailJoins(steps, i, x);
    }
  }

  lemma TailJoins(steps: seq<Step>, i: nat, x: string)
    requires i < |steps|
    ensures Dependents(steps[..i + 1], x) + Tail(steps, i + 1, 0, x) ==
            Dependents(steps[..i], x) + Tail(steps, i, |steps[i].dependsOn|, x)
  {
    var deps := steps[i].dependsOn;
    assert deps[..|deps|] == deps;
    assert steps[..i + 1][..i] == steps[..i] && steps[..i + 1][i] == steps[i];
  }

  lemma TablesComplete(steps: seq<Step>, indeg: map<string, int>, adj: map<string, seq<string>>)
    requires DistinctIds(steps) && (forall i :: 0 <= i < |steps| ==> SoundStep(steps[i]))
    requires PartTables(steps, indeg, adj, |steps|, 0)
    ensures Tables(steps, indeg, adj)
  {
    GraphOfSteps(steps);
    assert steps[..|steps|] == steps;
    forall x | x in GraphOf(steps)
      ensures indeg[x] == |GraphOf(steps)[x]|
    {
      assert Known(steps, x);
      var k :| 0 <= k < |steps| && steps[k].stepId == x;
      assert SoundStep(steps[k]);
      SetOfDistinct(steps[k].dependsOn);
    }
  }

  method EmptyTables(steps: seq<Step>) returns (indeg: map<string, int>, adj: map<string, seq<string>>)
    ensures PartTables(steps, indeg, adj, 0, 0)
  {
    indeg, adj := map[], map[];
    for i := 0 to |steps|
      invariant indeg.Keys == adj.Keys == set k | 0 <= k < i :: steps[k].stepId
      invariant forall x :: x in indeg ==> indeg[x] == 0 && adj[x] == []
    {
      indeg, adj := indeg[steps[i].stepId := 0], adj[steps[i].stepId := []];
    }
    GraphOfSteps(steps);
    forall x
      ensures x in indeg.Keys <==> x in GraphOf(steps)
    {
      if x in GraphOf(steps) {
        assert Known(steps, x);
      }
    }
  }

  /** Fill the in-degree and adjacency tables, refusing a dependency on an unknown step. */
  method BuildTables(steps: seq<Step>) returns (indeg: map<string, int>, adj: map<string, seq<string>>, r: Outcome)
    requires DistinctIds(steps)
    requires forall i :: 0 <= i < |steps| ==> SoundStep(steps[i])
    ensures r.Accepted? <==> WellFormed(steps)
    ensures r.Accepted? ==> Tables(steps, indeg, adj)
    ensures r.Rejected? ==>
              && r.error.UnknownDependency? && !Known(steps, r.error.dep)
              && exists i :: 0 <= i < |steps| && steps[i].stepId == r.error.stepId && r.error.dep in steps[i].dependsOn
  {
    hide PartTables, GraphOf, Tables;
    indeg, adj := EmptyTables(steps);
    for i := 0 to |steps|
      invariant PartTables(steps, indeg, adj, i, 0)
      invariant forall k, d :: 0 <= k < i && d in steps[k].dependsOn ==> Known(steps, d)
    {
      var s := steps[i];
      for j := 0 to |s.dependsOn|
        invariant PartTables(steps, indeg, adj, i, j)
        invariant forall d :: d in s.dependsOn[..j] ==> Known(steps, d)
      {
        var dep := s.dependsOn[j];
        PartTablesDomain(steps, indeg, adj, i, j);
        if dep !in indeg {
          r := Rejected(UnknownDependency(s.stepId, dep));
          return;
        }
        EnterDependency(steps, indeg, adj, i, j);
        adj := adj[dep := adj[dep] + [s.stepId]];
        indeg := indeg[s.stepId := indeg[s.stepId] + 1];
        assert s.dependsOn[..j + 1] == s.dependsOn[..j] + [dep];
      }
      assert s.dependsOn[..|s.dependsOn|] == s.dependsOn;
      EnterNextStep(steps, indeg, adj, i);
    }
    TablesComplete(steps, indeg, adj);
    r := Accepted;
  }

  // ------------------------------------------------------------------
  // Draining the ready queue
  // ------------------------------------------------------------------

  /** What step x still waits for, when L[..k] has been worked off and, of the
      steps waiting for L[k], those in t have been told about it. */
  ghost function Pending(g: Graph, L: seq<string>, k: nat, t: set<string>, x: string): set<string>
    requires k <= |L| && x in g && (x in t ==> k < |L|)
  {
    set d | d in g[x] && d !in L[..k] && (x in t ==> d != L[k])
  }

  /** L holds exactly the ids that wait for nothing more, each once. */
  ghost predicate Discovered(g: Graph, L: seq<string>, k: nat, t: set<string>) {
    && k <= |L|
    && Distinct(L)
    && (forall x :: x in L ==> x in g)
    && (forall x :: x in t ==> x in g && k < |L| && L[k] in g[x])
    && (forall x :: x in g ==> (x in L <==> Pending(g, L, k, t, x) == {}))
  }

  /** L holds the ids dequeued or queued so far, in the order they became ready. */
  ghost predicate Draining(steps: seq<Step>, g: Graph, L: seq<string>, k: nat, t: set<string>) {
    && Discovered(g, L, k, t)
    && DepsFirst(g, L)
    && ReadyOrder(steps, g, L)
  }

  lemma DrainStart(steps: seq<Step>)
    requires DistinctIds(steps)
    ensures Draining(steps, GraphOf(steps), Roots(steps), 0, {})
  {
    RootsListed(steps);
    RootsDiscovered(GraphOf(steps), Roots(steps));
  }

  lemma RootsDiscovered(g: Graph, L: seq<string>)
    requires Distinct(L) && forall x :: x in L <==> x in g && g[x] == {}
    ensures Discovered(g, L, 0, {})
  {
    forall x | x in g
      ensures Pending(g, L, 0, {}, x) == g[x]
    {
    }
  }

  /** Telling y about L[k] when y still waits for something else. */
  lemma DrainSkip(steps: seq<Step>, g: Graph, L: seq<string>, k: nat, t: set<string>, y: string)
    requires Draining(steps, g, L, k, t)
    requires k < |L| && y in g && L[k] in g[y] && y !in t
    requires Pending(g, L, k, t + {y}, y) != {}
    ensures Draining(steps, g, L, k, t + {y})
  {
    assert Pending(g, L, k, t + {y}, y) <= Pending(g, L, k, t, y);
    forall x | x in g && x != y
      ensures Pending(g, L, k, t + {y}, x) == Pending(g, L, k, t, x)
    {
    }
  }

  lemma PendingAfterPush(g: Graph, L: seq<string>, k: nat, t: set<string>, y: string, x: string)
    requires k < |L| && x in g
    ensures Pending(g, L + [y], k, t, x) == Pending(g, L, k, t, x)
  {
    assert (L + [y])[..k] == L[..k];
  }

  lemma LastDepBeforePush(g: Graph, L: seq<string>, y: string, x: string, p: nat)
    requires x in g && (forall d :: d in g[x] ==> d in L) && y !in L
    requires LastDep(g, L + [y], x, p)
    ensures LastDep(g, L, x, p)
  {
    assert p < |L|;
    assert (L + [y])[..p + 1] == L[..p + 1];
  }

  /** Once every dependency of x is among L[..k + 1], so is the last one. */
  lemma LastDepBound(g: Graph, L: seq<string>, k: nat, x: string, p: nat)
    requires k < |L| && Distinct(L) && LastDep(g, L, x, p)
    requires forall d :: d in g[x] ==> d in L[..k + 1]
    ensures p <= k
    ensures L[k] in g[x] ==> p == k
  {
    var i := PositionIn(L, L[p], k + 1);
    if L[k] in g[x] {
      var j := PositionIn(L, L[k], p + 1);
    }
  }

  lemma PendingEmptyMeansSeen(g: Graph, L: seq<string>, k: nat, t: set<string>, x: string)
    requires k < |L| && Distinct(L) && x in g && Pending(g, L, k, t, x) == {}
    ensures forall d :: d in g[x] ==> d in L[..k + 1]
    ensures L[k] in g[x] ==> x in t
  {
    assert L[..k + 1] == L[..k] + [L[k]];
    forall d | d in g[x]
      ensures d in L[..k + 1]
    {
      assert d !in Pending(g, L, k, t, x);
    }
    if L[k] in g[x] {
      assert L[k] !in L[..k];
      assert L[k] !in Pending(g, L, k, t, x);
    }
  }

  /** Telling y about L[k] when that was the last thing y waited for: y is queued. */
  lemma DrainPush(steps: seq<Step>, g: Graph, L: seq<string>, k: nat, t: set<string>, y: string)
    requires Draining(steps, g, L, k, t)
    requires k < |L| && y in g && L[k] in g[y] && y !in t
    requires Pending(g, L, k, t + {y}, y) == {}
    requires forall x :: x in t ==> Declared(steps, x) < Declared(steps, y)
    ensures Draining(steps, g, L + [y], k, t + {y})
  {
    PushIsNew(g, L, k, t, y);
    hide ReadyOrder, DepsFirst;
    PushKeepsReadyOrder(steps, g, L, k, t, y);
    PushKeepsDepsFirst(g, L, k, y);
    PushDiscovers(g, L, k, t, y);
  }

  lemma PushDiscovers(g: Graph, L: seq<string>, k: nat, t: set<string>, y: string)
    requires Discovered(g, L, k, t) && k < |L| && y in g && L[k] in g[y] && y !in L
    requires Pending(g, L, k, t + {y}, y) == {}
    ensures Discovered(g, L + [y], k, t + {y})
  {
    PushMembership(g, L, k, t, y);
    hide Pending;
    assert forall x :: x in t + {y} ==> x in g && (L + [y])[k] in g[x];
  }

  lemma PushMembership(g: Graph, L: seq<string>, k: nat, t: set<string>, y: string)
    requires k < |L| && y in g && Pending(g, L, k, t + {y}, y) == {}
    requires forall x :: x in g ==> (x in L <==> Pending(g, L, k, t, x) == {})
    ensures forall x :: x in g ==> (x in L + [y] <==> Pending(g, L + [y], k, t + {y}, x) == {})
  {
    hide Pending;
    forall x | x in g
      ensures x in L + [y] <==> Pending(g, L + [y], k, t + {y}, x) == {}
    {
      PendingAfterPush(g, L, k, t + {y}, y, x);
      if x != y {
        PendingOfOthers(g, L, k, t, y, x);
      }
    }
  }

  lemma PendingOfOthers(g: Graph, L: seq<string>, k: nat, t: set<string>, y: string, x: string)
    requires k < |L| && x in g && x != y
    ensures Pending(g, L, k, t + {y}, x) == Pending(g, L, k, t, x)
  {
  }

  lemma PushIsNew(g: Graph, L: seq<string>, k: nat, t: set<string>, y: string)
    requires k < |L| && Distinct(L) && y in g && L[k] in g[y] && y !in t
    requires y in L ==> Pending(g, L, k, t, y) == {}
    requires Pending(g, L, k, t + {y}, y) == {}
    ensures y !in L && forall d :: d in g[y] ==> d in L[..k + 1]
  {
    PendingEmptyMeansSeen(g, L, k, t + {y}, y);
    assert L[k] !in L[..k];
    assert L[k] in Pending(g, L, k, t, y);
  }

  lemma PushKeepsDepsFirst(g: Graph, L: seq<string>, k: nat, y: string)
    requires k < |L| && DepsFirst(g, L) && y in g && forall d :: d in g[y] ==> d in L[..k + 1]
    ensures DepsFirst(g, L + [y])
  {
    var M := L + [y];
    forall i, d | 0 <= i < |M| && M[i] in g && d in g[M[i]]
      ensures d in M[..i]
    {
      if i < |L| {
        assert M[..i] == L[..i];
      } else {
        var j := PositionIn(L, d, k + 1);
        assert M[..i] == L;
      }
    }
  }

  lemma PushKeepsReadyOrder(steps: seq<Step>, g: Graph, L: seq<string>, k: nat, t: set<string>, y: string)
    requires Discovered(g, L, k, t) && ReadyOrder(steps, g, L)
    requires k < |L| && y in g && y !in L && L[k] in g[y]
    requires forall d :: d in g[y] ==> d in L[..k + 1]
    requires forall x :: x in t ==> Declared(steps, x) < Declared(steps, y)
    ensures ReadyOrder(steps, g, L + [y])
  {
    var M := L + [y];
    forall a, b, p, q | 0 <= a < b < |M| && LastDep(g, M, M[a], p) && LastDep(g, M, M[b], q)
      ensures p < q || (p == q && Declared(steps, M[a]) < Declared(steps, M[b]))
    {
      assert M[a] in L;
      PendingEmptyMeansSeen(g, L, k, t, M[a]);
      LastDepBeforePush(g, L, y, M[a], p);
      LastDepBound(g, L, k, M[a], p);
      if b < |L| {
        assert M[b] in L;
        PendingEmptyMeansSeen(g, L, k, t, M[b]);
        LastDepBeforePush(g, L, y, M[b], q);
      } else {
        LastDepBeforePush(g, L, y, y, q);
        LastDepBound(g, L, k, y, q);
      }
    }
    forall a, b | 0 <= a < b < |M| && M[a] in g && M[b] in g && g[M[b]] == {}
      ensures g[M[a]] == {} && Declared(steps, M[a]) < Declared(steps, M[b])
    {
      assert b < |L|;
    }
  }

  /** Every step waiting for L[k] has been told: L[k] is worked off. */
  lemma DrainNext(steps: seq<Step>, g: Graph, L: seq<string>, k: nat, t: set<string>)
    requires Draining(steps, g, L, k, t)
    requires k < |L| && forall x :: x in g && L[k] in g[x] ==> x in t
    ensures Draining(steps, g, L, k + 1, {})
  {
    assert L[..k + 1] == L[..k] + [L[k]];
    forall x | x in g
      ensures Pending(g, L, k + 1, {}, x) == Pending(g, L, k, t, x)
    {
    }
  }

  /** The in-degree table counts what each step still waits for. */
  ghost predicate Counts(g: Graph, indeg: map<string, int>, L: seq<string>, k: nat, t: set<string>) {
    && indeg.Keys == g.Keys && k <= |L| && (t != {} ==> k < |L|)
    && forall x :: x in g ==> indeg[x] == |Pending(g, L, k, t, x)|
  }

  lemma CountsStep(steps: seq<Step>, g: Graph, indeg: map<string, int>, L: seq<string>, k: nat, t: set<string>, y: string)
    requires Draining(steps, g, L, k, t) && Counts(g, indeg, L, k, t)
    requires k < |L| && y in g && L[k] in g[y] && y !in t
    ensures y in indeg && Counts(g, indeg[y := indeg[y] - 1], L, k, t + {y})
    ensures indeg[y] == 1 <==> Pending(g, L, k, t + {y}, y) == {}
  {
    hide ReadyOrder, DepsFirst;
    assert L[k] !in L[..k];
    assert Pending(g, L, k, t, y) == Pending(g, L, k, t + {y}, y) + {L[k]};
    forall x | x in g && x != y
      ensures Pending(g, L, k, t + {y}, x) == Pending(g, L, k, t, x)
    {
    }
  }

  lemma CountsPush(g: Graph, indeg: map<string, int>, L: seq<string>, k: nat, t: set<string>, y: string)
    requires Counts(g, indeg, L, k, t) && k < |L|
    ensures Counts(g, indeg, L + [y], k, t)
  {
    forall x | x in g
      ensures Pending(g, L + [y], k, t, x) == Pending(g, L, k, t, x)
    {
      PendingAfterPush(g, L, k, t, y, x);
    }
  }

  lemma CountsNext(g: Graph, indeg: map<string, int>, L: seq<string>, k: nat, t: set<string>)
    requires Counts(g, indeg, L, k, t)
    requires k < |L| && forall x :: x in g ==> (x in t <==> L[k] in g[x])
    ensures Counts(g, indeg, L, k + 1, {})
  {
    assert L[..k + 1] == L[..k] + [L[k]];
    forall x | x in g
      ensures Pending(g, L, k + 1, {}, x) == Pending(g, L, k, t, x)
    {
    }
  }

  /** Collect the ready steps in declaration order. */
  method InitialReady(steps: seq<Step>, indeg: map<string, int>, ghost adj: map<string, seq<string>>) returns (ready: seq<string>)
    requires WellFormed(steps) && Tables(steps, indeg, adj)
    ensures ready == Roots(steps)
  {
    ready := [];
    GraphOfSteps(steps);
    for i := 0 to |steps|
      invariant ready == Roots(steps[..i])
    {
      var s := steps[i];
      assert SoundStep(s) && s.stepId in indeg;
      SetOfDistinct(s.dependsOn);
      if indeg[s.stepId] == 0 {
        ready := ready + [s.stepId];
      }
      assert steps[..i + 1][..i] == steps[..i];
    }
    assert steps[..|steps|] == steps;
  }

  /** Everything the loop keeps between two dequeues and between two releases. */
  ghost predicate Running(steps: seq<Step>, indeg: map<string, int>, L: seq<string>, k: nat, t: set<string>) {
    Draining(steps, GraphOf(steps), L, k, t) && Counts(GraphOf(steps), indeg, L, k, t)
  }

  lemma RunningStart(steps: seq<Step>, indeg: map<string, int>, adj: map<string, seq<string>>)
    requires WellFormed(steps) && Tables(steps, indeg, adj)
    ensures Running(steps, indeg, Roots(steps), 0, {})
  {
    DrainStart(steps);
    forall x | x in GraphOf(steps)
      ensures Pending(GraphOf(steps), Roots(steps), 0, {}, x) == GraphOf(steps)[x]
    {
    }
  }

  ghost function Elems(s: seq<string>): set<string> {
    set x | x in s
  }

  /** Decrement the m-th step waiting for L[k] and queue it when it reaches zero. */
  lemma RunningRelease(steps: seq<Step>, indeg: map<string, int>, L: seq<string>, k: nat, m: nat)
    requires WellFormed(steps) && k < |L|
    requires m < |Dependents(steps, L[k])|
    requires Running(steps, indeg, L, k, Elems(Dependents(steps, L[k])[..m]))
    ensures var y := Dependents(steps, L[k])[m];
            y in indeg &&
            Running(steps, indeg[y := indeg[y] - 1], if indeg[y] == 1 then L + [y] else L, k,
                    Elems(Dependents(steps, L[k])[..m + 1]))
  {
    var g := GraphOf(steps);
    var ns := Dependents(steps, L[k]);
    DependentsListed(steps, L[k]);
    var t, y := Elems(ns[..m]), ns[m];
    assert y in ns && y !in t;
    assert ns[..m + 1] == ns[..m] + [y];
    assert Elems(ns[..m + 1]) == t + {y};
    hide Draining, Counts, Pending, Dependents, GraphOf;
    CountsStep(steps, g, indeg, L, k, t, y);
    if indeg[y] == 1 {
      DrainPush(steps, g, L, k, t, y);
      CountsPush(g, indeg[y := indeg[y] - 1], L, k, t + {y}, y);
    } else {
      DrainSkip(steps, g, L, k, t, y);
    }
  }

  lemma RunningNext(steps: seq<Step>, indeg: map<string, int>, L: seq<string>, k: nat)
    requires WellFormed(steps) && k < |L|
    requires Running(steps, indeg, L, k, Elems(Dependents(steps, L[k])))
    ensures Running(steps, indeg, L, k + 1, {})
  {
    DependentsListed(steps, L[k]);
    DrainNext(steps, GraphOf(steps), L, k, Elems(Dependents(steps, L[k])));
    CountsNext(GraphOf(steps), indeg, L, k, Elems(Dependents(steps, L[k])));
  }

  lemma RunningBound(steps: seq<Step>, indeg: map<string, int>, L: seq<string>, k: nat, t: set<string>)
    requires Running(steps, indeg, L, k, t)
    ensures |L| <= |GraphOf(steps).Keys|
    ensures Draining(steps, GraphOf(steps), L, k, t)
    ensures forall x :: x in L ==> x in GraphOf(steps)
  {
    DistinctBound(L, GraphOf(steps).Keys);
  }

  /** Kahn's loop.  It stops exactly when every step whose dependencies were all
      dequeued has been dequeued itself. */
  method Drain(steps: seq<Step>, indegrees: map<string, int>, adj: map<string, seq<string>>) returns (order: seq<string>)
    requires WellFormed(steps) && Tables(steps, indegrees, adj)
    ensures Draining(steps, GraphOf(steps), order, |order|, {})
  {
    hide Running, Draining, Dependents, WellFormed, GraphOf;
    var indeg := indegrees;
    var ready := InitialReady(steps, indeg, adj);
    order := [];
    RunningStart(steps, indeg, adj);
    assert order + ready == ready;
    while |ready| > 0
      invariant Running(steps, indeg, order + ready, |order|, {})
      decreases |GraphOf(steps).Keys| - |order|
    {
      RunningBound(steps, indeg, order + ready, |order|, {});
      var id := ready[0];
      assert (order + ready)[|order|] == id && id in order + ready;
      assert (order + [id]) + ready[1..] == order + ready;
      order, ready := order + [id], ready[1..];
      indeg, ready := ReleaseDependents(steps, indeg, adj, order, ready);
    }
    assert order + ready == order;
    RunningBound(steps, indeg, order, |order|, {});
  }

  /** Tell every step waiting for the step just dequeued, queueing those that become ready. */
  method ReleaseDependents(steps: seq<Step>, indegrees: map<string, int>, adj: map<string, seq<string>>,
                           order: seq<string>, queue: seq<string>)
    returns (indeg: map<string, int>, ready: seq<string>)
    requires WellFormed(steps) && order != []
    requires order[|order| - 1] in adj && adj[order[|order| - 1]] == Dependents(steps, order[|order| - 1])
    requires Running(steps, indegrees, order + queue, |order| - 1, {})
    ensures Running(steps, indeg, order + ready, |order|, {})
  {
    hide Running, Dependents;
    indeg, ready := indegrees, queue;
    var id := order[|order| - 1];
    var nexts := adj[id];
    assert Elems(nexts[..0]) == {};
    for m := 0 to |nexts|
      invariant Running(steps, indeg, order + ready, |order| - 1, Elems(nexts[..m]))
    {
      assert (order + ready)[|order| - 1] == id;
      RunningRelease(steps, indeg, order + ready, |order| - 1, m);
      var next := nexts[m];
      indeg := indeg[next := indeg[next] - 1];
      if indeg[next] == 0 {
        assert order + (ready + [next]) == (order + ready) + [next];
        ready := ready + [next];
      }
    }
    assert nexts[..|nexts|] == nexts;
    assert (order + ready)[|order| - 1] == id;
    RunningNext(steps, indeg, order + ready, |order| - 1);
  }

  lemma GraphSize(steps: seq<Step>)
    requires DistinctIds(steps)
    ensures |GraphOf(steps).Keys| == |steps|
  {
    var ids := seq(|steps|, i requires 0 <= i < |steps| => steps[i].stepId);
    SetOfDistinct(ids);
    GraphOfSteps(steps);
    hide GraphOf, Declared;
    forall x | x in GraphOf(steps)
      ensures x in ids
    {
      assert Known(steps, x);
      var i :| 0 <= i < |steps| && steps[i].stepId == x;
      assert ids[i] == x;
    }
    forall i | 0 <= i < |ids|
      ensures ids[i] in GraphOf(steps)
    {
      assert Known(steps, steps[i].stepId);
    }
    assert (set x | x in ids) == GraphOf(steps).Keys;
  }

  lemma LeftBehindIsStuck(steps: seq<Step>, order: seq<string>)
    requires WellFormed(steps) && Draining(steps, GraphOf(steps), order, |order|, {})
    requires GraphOf(steps).Keys != Elems(order)
    ensures !Acyclic(GraphOf(steps))
  {
    var g := GraphOf(steps);
    var rest := g.Keys - Elems(order);
    GraphClosed(steps);
    assert order[..|order|] == order;
    forall y | y in rest
      ensures g[y] * rest != {}
    {
      var d :| d in Pending(g, order, |order|, {}, y);
      assert d in g[y] * rest;
    }
    StuckSetHasCycle(g, rest);
  }

  /** A drained queue that left steps behind proves a cycle among them, and one
      that left none behind proves there is no cycle. */
  lemma DrainedAll(steps: seq<Step>, order: seq<string>)
    requires WellFormed(steps) && Draining(steps, GraphOf(steps), order, |order|, {})
    ensures |order| == |steps| <==> Acyclic(GraphOf(steps))
    ensures |order| == |steps| ==> IsSchedule(steps, order)
  {
    GraphSize(steps);
    SetOfDistinct(order);
    if Elems(order) == GraphOf(steps).Keys {
      OrderedIsAcyclic(GraphOf(steps), order);
    } else {
      LeftBehindIsStuck(steps, order);
      SubsetOfSameSize(Elems(order), GraphOf(steps).Keys);
    }
  }

  lemma SubsetOfSameSize(a: set<string>, b: set<string>)
    requires a <= b
    ensures a == b <==> |a| == |b|
  {
    assert b == a + (b - a);
  }

  // ------------------------------------------------------------------
  // The two exported operations
  // ------------------------------------------------------------------

  ghost predicate ErrorIsReal(steps: seq<Step>, e: GraphError) {
    match e
    case StepIdRequired => exists i :: 0 <= i < |steps| && steps[i].stepId == ""
    case DuplicateStepId(id) => exists i, j :: 0 <= i < j < |steps| && steps[i].stepId == id == steps[j].stepId
    case SelfDependency(id) => exists i :: 0 <= i < |steps| && steps[i].stepId == id && id in steps[i].dependsOn
    case DuplicateDependency(id, d) =>
      exists i, j, k :: 0 <= i < |steps| && steps[i].stepId == id &&
        0 <= j < k < |steps[i].dependsOn| && steps[i].dependsOn[j] == d == steps[i].dependsOn[k]
    case UnknownDependency(id, d) =>
      && !Known(steps, d)
      && exists i :: 0 <= i < |steps| && steps[i].stepId == id && d in steps[i].dependsOn
    case ContainsCycle => WellFormed(steps) && !Acyclic(GraphOf(steps))
  }

  /** The checks made on one pass over the steps, before any table is built. */
  method CheckSteps(steps: seq<Step>) returns (r: Outcome)
    ensures r.Accepted? <==> DistinctIds(steps) && forall i :: 0 <= i < |steps| ==> SoundStep(steps[i])
    ensures r.Rejected? ==> ErrorIsReal(steps, r.error) && !r.error.UnknownDependency? && !r.error.ContainsCycle?
  {
    var stepIds: set<string> := {};
    for i := 0 to |steps|
      invariant stepIds == set k | 0 <= k < i :: steps[k].stepId
      invariant forall a, b :: 0 <= a < b < i ==> steps[a].stepId != steps[b].stepId
      invariant forall k :: 0 <= k < i ==> SoundStep(steps[k])
    {
      var s := steps[i];
      if s.stepId == "" {
        return Rejected(StepIdRequired);
      }
      if s.stepId in stepIds {
        return Rejected(DuplicateStepId(s.stepId));
      }
      stepIds := stepIds + {s.stepId};
      var deps: set<string> := {};
      for j := 0 to |s.dependsOn|
        invariant deps == set k | 0 <= k < j :: s.dependsOn[k]
        invariant forall a, b :: 0 <= a < b < j ==> s.dependsOn[a] != s.dependsOn[b]
        invariant forall k :: 0 <= k < j ==> s.dependsOn[k] != s.stepId
      {
        var dep := s.dependsOn[j];
        if dep == s.stepId {
          return Rejected(SelfDependency(s.stepId));
        }
        if dep in deps {
          return Rejected(DuplicateDependency(s.stepId, dep));
        }
        deps := deps + {dep};
      }
    }
    return Accepted;
  }

  /** Acceptance: exactly the well-formed step lists whose graph has no cycle. */
  method ValidateStepGraph(steps: seq<Step>) returns (r: Outcome)
    ensures r.Accepted? <==> WellFormed(steps) && Acyclic(GraphOf(steps))
    ensures r.Rejected? ==> ErrorIsReal(steps, r.error)
  {
    r := CheckSteps(steps);
    if r.Rejected? {
      return;
    }
    var indeg, adj;
    indeg, adj, r := BuildTables(steps);
    if r.Rejected? {
      return;
    }
    var visited := Drain(steps, indeg, adj);
    DrainedAll(steps, visited);
    if |visited| != |steps| {
      return Rejected(ContainsCycle);
    }
  }

  /** Scheduling a validated step list yields its one schedule. */
  method ExecutionOrder(steps: seq<Step>) returns (order: seq<string>)
    requires WellFormed(steps) && Acyclic(GraphOf(steps))
    ensures IsSchedule(steps, order)
  {
    var indeg, adj, r := BuildTables(steps);
    order := Drain(steps, indeg, adj);
    DrainedAll(steps, order);
  }
}
