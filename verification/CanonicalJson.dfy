/**
 The canonical JSON printer behind every checksum (`stableString`), the normal form
 of a value, and when two values are the same JSON value.
 */
module CanonicalJson {
  import opened JsValues

  // ------------------------------------------------------------------
  // Sorting by key
  // ------------------------------------------------------------------

  function Insert<T>(e: Keyed<T>, s: seq<Keyed<T>>): seq<Keyed<T>> {
    if s == [] then [e]
    else if Less(s[0].key, e.key) then [s[0]] + Insert(e, s[1..])
    else [e] + s
  }

  /** Array.prototype.sort by key; on distinct keys every sort gives this. */
  function SortByKey<T>(s: seq<Keyed<T>>): seq<Keyed<T>> {
    if s == [] then [] else Insert(s[0], SortByKey(s[1..]))
  }

  ghost predicate Ascending<T>(s: seq<Keyed<T>>) {
    forall i, j :: 0 <= i < j < |s| ==> Less(s[i].key, s[j].key)
  }

  ghost predicate SameElements<T>(a: seq<Keyed<T>>, b: seq<Keyed<T>>) {
    (forall e :: e in a ==> e in b) && (forall e :: e in b ==> e in a)
  }

  lemma {:induction false} InsertElements<T>(e: Keyed<T>, s: seq<Keyed<T>>)
    ensures SameElements(Insert(e, s), [e] + s)
  {
    if s != [] && Less(s[0].key, e.key) {
      InsertElements(e, s[1..]);
      assert s == [s[0]] + s[1..];
    }
  }

  lemma {:induction false} InsertAscending<T>(e: Keyed<T>, s: seq<Keyed<T>>)
    requires Ascending(s) && forall x :: x in s ==> x.key != e.key
    ensures Ascending(Insert(e, s))
  {
    if s != [] {
      assert s[0] in s;
      LessIsTotalOrder(s[0].key, e.key);
      if Less(s[0].key, e.key) {
        InsertAscending(e, s[1..]);
        InsertElements(e, s[1..]);
        var r := Insert(e, s[1..]);
        forall j | 0 <= j < |r|
          ensures Less(s[0].key, r[j].key)
        {
          assert r[j] in [e] + s[1..];
        }
      } else {
        forall j | 0 < j < |s|
          ensures Less(e.key, s[j].key)
        {
          LessIsTransitive(e.key, s[0].key, s[j].key);
        }
      }
    }
  }

  lemma {:induction false} SortSorts<T>(s: seq<Keyed<T>>)
    requires DistinctKeys(s)
    ensures Ascending(SortByKey(s)) && SameElements(SortByKey(s), s)
  {
    if s != [] {
      SortSorts(s[1..]);
      InsertElements(s[0], SortByKey(s[1..]));
      assert s == [s[0]] + s[1..];
      InsertAscending(s[0], SortByKey(s[1..]));
    }
  }

  lemma AscendingTail<T>(s: seq<Keyed<T>>, e: Keyed<T>)
    requires Ascending(s) && s != []
    ensures e in s[1..] <==> e in s && e != s[0]
  {
    assert s == [s[0]] + s[1..];
    if e in s[1..] {
      var i :| 0 <= i < |s[1..]| && s[1..][i] == e;
      LessIsTotalOrder(s[0].key, s[i + 1].key);
    }
  }

  lemma AscendingHeads<T>(a: seq<Keyed<T>>, b: seq<Keyed<T>>)
    requires Ascending(a) && Ascending(b) && a != [] && b != [] && a[0] in b && b[0] in a
    ensures a[0] == b[0]
  {
    var i :| 0 <= i < |b| && b[i] == a[0];
    var j :| 0 <= j < |a| && a[j] == b[0];
    LessIsTotalOrder(a[0].key, b[0].key);
  }

  /** An ascending list is determined by its elements. */
  lemma {:induction false} AscendingIsUnique<T>(a: seq<Keyed<T>>, b: seq<Keyed<T>>)
    requires Ascending(a) && Ascending(b) && SameElements(a, b)
    ensures a == b
  {
    if a == [] {
      assert forall i :: 0 <= i < |b| ==> b[i] in b;
    } else {
      assert a[0] in a && a[0] in b;
      assert b[0] in b;
      AscendingHeads(a, b);
      forall e
        ensures e in a[1..] <==> e in b[1..]
      {
        AscendingTail(a, e);
        AscendingTail(b, e);
      }
      AscendingIsUnique(a[1..], b[1..]);
      assert a == [a[0]] + a[1..] && b == [b[0]] + b[1..];
    }
  }

  /** Sorting lists with the same elements gives the same list. */
  lemma SortIsCanonical<T>(a: seq<Keyed<T>>, b: seq<Keyed<T>>)
    requires DistinctKeys(a) && DistinctKeys(b)
    ensures SameElements(a, b) <==> SortByKey(a) == SortByKey(b)
  {
    SortSorts(a);
    SortSorts(b);
    if SameElements(a, b) {
      AscendingIsUnique(SortByKey(a), SortByKey(b));
    }
  }

  lemma SortOfAscending<T>(s: seq<Keyed<T>>)
    requires Ascending(s)
    ensures DistinctKeys(s) && SortByKey(s) == s
  {
    forall i, j | 0 <= i < j < |s|
      ensures s[i].key != s[j].key
    {
      LessIsTotalOrder(s[i].key, s[j].key);
    }
    SortSorts(s);
    AscendingIsUnique(s, SortByKey(s));
  }

  // ------------------------------------------------------------------
  // Printing
  // ------------------------------------------------------------------

  const NULL_TEXT: Text := [0x6E, 0x75, 0x6C, 0x6C]
  const TRUE_TEXT: Text := [0x74, 0x72, 0x75, 0x65]
  const FALSE_TEXT: Text := [0x66, 0x61, 0x6C, 0x73, 0x65]

  predicate HighSurrogate(c: CodeUnit) { 0xD800 <= c < 0xDC00 }
  predicate LowSurrogate(c: CodeUnit) { 0xDC00 <= c < 0xE000 }

  function HexDigit(n: int): CodeUnit
    requires 0 <= n < 16
  {
    if n < 10 then 0x30 + n else 0x57 + n
  }

  function UnicodeEscape(c: CodeUnit): Text {
    [0x5C, 0x75, HexDigit(c / 4096), HexDigit(c / 256 % 16), HexDigit(c / 16 % 16), HexDigit(c % 16)]
  }

  /** JSON.stringify of one code unit that is not half of a surrogate pair. */
  function Escape(c: CodeUnit): Text {
    if c == 0x22 then [0x5C, 0x22]
    else if c == 0x5C then [0x5C, 0x5C]
    else if c == 8 then [0x5C, 0x62]
    else if c == 9 then [0x5C, 0x74]
    else if c == 10 then [0x5C, 0x6E]
    else if c == 12 then [0x5C, 0x66]
    else if c == 13 then [0x5C, 0x72]
    else if c < 0x20 || HighSurrogate(c) || LowSurrogate(c) then UnicodeEscape(c)
    else [c]
  }

  function QuoteBody(s: Text): Text {
    if s == [] then []
    else if |s| > 1 && HighSurrogate(s[0]) && LowSurrogate(s[1]) then [s[0], s[1]] + QuoteBody(s[2..])
    else Escape(s[0]) + QuoteBody(s[1..])
  }

  /** JSON.stringify of a string. */
  function Quote(s: Text): Text {
    [0x22] + QuoteBody(s) + [0x22]
  }

  function StableString(v: Value): Text
    decreases v, 1
  {
    match v
    case Undefined => []
    case Null => NULL_TEXT
    case Bool(b) => if b then TRUE_TEXT else FALSE_TEXT
    case Number(t) => t
    case NonFinite => NULL_TEXT
    case Str(s) => Quote(s)
    case Arr(items) => [0x5B] + StableItems(items) + [0x5D]
    case Obj(ms) => [0x7B] + JoinEntries(SortByKey(StableEntries(ms))) + [0x7D]
  }

  /** The printed items, joined by commas. */
  function StableItems(items: seq<Value>): Text
    decreases items, 0
  {
    if items == [] then []
    else if |items| == 1 then StableString(items[0])
    else StableString(items[0]) + [0x2C] + StableItems(items[1..])
  }

  /** The members whose value is not undefined, printed. */
  function StableEntries(ms: seq<Keyed<Value>>): seq<Keyed<Text>>
    decreases ms, 0
  {
    if ms == [] then []
    else if ms[0].val.Undefined? then StableEntries(ms[1..])
    else [Keyed(ms[0].key, StableString(ms[0].val))] + StableEntries(ms[1..])
  }

  function Entry(e: Keyed<Text>): Text {
    Quote(e.key) + [0x3A] + e.val
  }

  function JoinEntries(es: seq<Keyed<Text>>): Text {
    if es == [] then []
    else if |es| == 1 then Entry(es[0])
    else Entry(es[0]) + [0x2C] + JoinEntries(es[1..])
  }

  // ------------------------------------------------------------------
  // Normal form, and when two values are the same JSON value
  // ------------------------------------------------------------------

  /** Sorted keys, no undefined members, null for numbers JSON cannot express. */
  ghost function Normalize(v: Value): Value
    decreases v, 1
  {
    match v
    case NonFinite => Null
    case Arr(items) => Arr(NormalizeItems(items))
    case Obj(ms) => Obj(SortByKey(NormalizeMembers(ms)))
    case _ => v
  }

  ghost function NormalizeItems(items: seq<Value>): seq<Value>
    decreases items, 0
  {
    if items == [] then [] else [Normalize(items[0])] + NormalizeItems(items[1..])
  }

  ghost function NormalizeMembers(ms: seq<Keyed<Value>>): seq<Keyed<Value>>
    decreases ms, 0
  {
    if ms == [] then []
    else if ms[0].val.Undefined? then NormalizeMembers(ms[1..])
    else [Keyed(ms[0].key, Normalize(ms[0].val))] + NormalizeMembers(ms[1..])
  }

  /** Two values are the same JSON value: order of members, undefined members and
      the choice of unprintable number do not matter, everything else does. */
  ghost predicate Same(v: Value, w: Value)
    decreases v
  {
    match v
    case Null => w.Null? || w.NonFinite?
    case NonFinite => w.Null? || w.NonFinite?
    case Arr(a) => w.Arr? && |a| == |w.items| && forall i :: 0 <= i < |a| ==> Same(a[i], w.items[i])
    case Obj(a) =>
      && w.Obj?
      && (forall i :: 0 <= i < |a| && !a[i].val.Undefined? ==> Found(a[i], w.members))
      && HasKeysOf(a, w.members)
    case _ => v == w
  }

  /** Some defined member of b has the key of m and the same value. */
  ghost predicate Found(m: Keyed<Value>, b: seq<Keyed<Value>>)
    decreases m
  {
    exists j :: 0 <= j < |b| && b[j].key == m.key && !b[j].val.Undefined? && Same(m.val, b[j].val)
  }

  /** Every key defined in b is defined in a. */
  ghost predicate HasKeysOf(a: seq<Keyed<Value>>, b: seq<Keyed<Value>>) {
    forall j :: 0 <= j < |b| && !b[j].val.Undefined? ==>
      exists i :: 0 <= i < |a| && a[i].key == b[j].key && !a[i].val.Undefined?
  }

  /** How many array slots hold undefined, at any printed level. */
  ghost function Holes(v: Value): nat
    decreases v, 1
  {
    match v
    case Arr(items) => ItemHoles(items)
    case Obj(ms) => MemberHoles(ms)
    case _ => 0
  }

  ghost function ItemHoles(items: seq<Value>): nat
    decreases items, 0
  {
    if items == [] then 0
    else (if items[0].Undefined? then 1 else Holes(items[0])) + ItemHoles(items[1..])
  }

  ghost function MemberHoles(ms: seq<Keyed<Value>>): nat
    decreases ms, 0
  {
    if ms == [] then 0 else Holes(ms[0].val) + MemberHoles(ms[1..])
  }

  // ------------------------------------------------------------------
  // Printing sees only the normal form
  // ------------------------------------------------------------------

  ghost predicate PrintedFrom(e: Keyed<Text>, m: Keyed<Value>) {
    !m.val.Undefined? && e == Keyed(m.key, StableString(m.val))
  }

  ghost predicate NormalizedFrom(n: Keyed<Value>, m: Keyed<Value>) {
    !m.val.Undefined? && n == Keyed(m.key, Normalize(m.val))
  }

  lemma {:induction false} EntriesOf(ms: seq<Keyed<Value>>)
    ensures forall i :: 0 <= i < |ms| && !ms[i].val.Undefined? ==>
              Keyed(ms[i].key, StableString(ms[i].val)) in StableEntries(ms)
    ensures forall e :: e in StableEntries(ms) ==> exists i :: 0 <= i < |ms| && PrintedFrom(e, ms[i])
    ensures DistinctKeys(ms) ==> DistinctKeys(StableEntries(ms))
  {
    if ms != [] {
      EntriesOf(ms[1..]);
      forall e | e in StableEntries(ms[1..])
        ensures exists i :: 0 < i < |ms| && PrintedFrom(e, ms[i])
      {
        var i :| 0 <= i < |ms[1..]| && PrintedFrom(e, ms[1..][i]);
        assert PrintedFrom(e, ms[i + 1]);
      }
      assert forall i :: 0 < i < |ms| ==> ms[i] == ms[1..][i - 1];
      if DistinctKeys(ms) {
        assert DistinctKeys(ms[1..]);
        forall j | 0 <= j < |StableEntries(ms[1..])|
          ensures StableEntries(ms[1..])[j].key != ms[0].key
        {
          assert StableEntries(ms[1..])[j] in StableEntries(ms[1..]);
        }
      }
      if !ms[0].val.Undefined? {
        assert PrintedFrom(Keyed(ms[0].key, StableString(ms[0].val)), ms[0]);
      }
    }
  }

  lemma {:induction false} NormalizedMembersOf(ms: seq<Keyed<Value>>)
    ensures forall i :: 0 <= i < |ms| && !ms[i].val.Undefined? ==>
              Keyed(ms[i].key, Normalize(ms[i].val)) in NormalizeMembers(ms)
    ensures forall n :: n in NormalizeMembers(ms) ==>
              !n.val.Undefined? && exists i :: 0 <= i < |ms| && NormalizedFrom(n, ms[i])
    ensures DistinctKeys(ms) ==> DistinctKeys(NormalizeMembers(ms))
  {
    if ms != [] {
      NormalizedMembersOf(ms[1..]);
      forall n | n in NormalizeMembers(ms[1..])
        ensures exists i :: 0 < i < |ms| && NormalizedFrom(n, ms[i])
      {
        var i :| 0 <= i < |ms[1..]| && NormalizedFrom(n, ms[1..][i]);
        assert NormalizedFrom(n, ms[i + 1]);
      }
      assert forall i :: 0 < i < |ms| ==> ms[i] == ms[1..][i - 1];
      if DistinctKeys(ms) {
        assert DistinctKeys(ms[1..]);
        forall j | 0 <= j < |NormalizeMembers(ms[1..])|
          ensures NormalizeMembers(ms[1..])[j].key != ms[0].key
        {
          assert NormalizeMembers(ms[1..])[j] in NormalizeMembers(ms[1..]);
        }
      }
      if !ms[0].val.Undefined? {
        assert NormalizedFrom(Keyed(ms[0].key, Normalize(ms[0].val)), ms[0]);
      }
    }
  }

  lemma SortedMembersOf(ms: seq<Keyed<Value>>)
    requires DistinctKeys(ms)
    ensures DistinctKeys(SortByKey(NormalizeMembers(ms)))
    ensures Ascending(SortByKey(NormalizeMembers(ms)))
    ensures SameElements(SortByKey(NormalizeMembers(ms)), NormalizeMembers(ms))
  {
    NormalizedMembersOf(ms);
    SortSorts(NormalizeMembers(ms));
    SortOfAscending(SortByKey(NormalizeMembers(ms)));
  }

  lemma {:induction false} StableOfNormal(v: Value)
    requires WellFormed(v)
    ensures StableString(Normalize(v)) == StableString(v)
    decreases v, 1
  {
    match v
    case Arr(items) => StableOfNormalItems(items);
    case Obj(ms) =>
      forall i | 0 <= i < |ms|
        ensures StableString(Normalize(ms[i].val)) == StableString(ms[i].val)
      {
        StableOfNormal(ms[i].val);
      }
      EntriesOfNormal(ms);
    case _ =>
  }

  lemma {:induction false} StableOfNormalItems(items: seq<Value>)
    requires forall i :: 0 <= i < |items| ==> WellFormed(items[i])
    ensures StableItems(NormalizeItems(items)) == StableItems(items)
    ensures |NormalizeItems(items)| == |items|
    decreases items, 0
  {
    if items != [] {
      StableOfNormal(items[0]);
      StableOfNormalItems(items[1..]);
      assert NormalizeItems(items)[1..] == NormalizeItems(items[1..]);
    }
  }

  lemma EntriesOfNormal(ms: seq<Keyed<Value>>)
    requires DistinctKeys(ms)
    requires forall i :: 0 <= i < |ms| ==> StableString(Normalize(ms[i].val)) == StableString(ms[i].val)
    ensures SortByKey(StableEntries(SortByKey(NormalizeMembers(ms)))) == SortByKey(StableEntries(ms))
  {
    hide StableEntries, NormalizeMembers, SortByKey, StableString, Normalize, DistinctKeys, Ascending;
    var ns := SortByKey(NormalizeMembers(ms));
    NormalizedMembersOf(ms);
    SortedMembersOf(ms);
    EntriesOf(ms);
    EntriesOf(ns);
    forall e | e in StableEntries(ns)
      ensures e in StableEntries(ms)
    {
      var j :| 0 <= j < |ns| && PrintedFrom(e, ns[j]);
      assert ns[j] in NormalizeMembers(ms);
      var i :| 0 <= i < |ms| && NormalizedFrom(ns[j], ms[i]);
      assert e == Keyed(ms[i].key, StableString(ms[i].val));
    }
    forall e | e in StableEntries(ms)
      ensures e in StableEntries(ns)
    {
      var i :| 0 <= i < |ms| && PrintedFrom(e, ms[i]);
      var n := Keyed(ms[i].key, Normalize(ms[i].val));
      assert n in ns;
      var j :| 0 <= j < |ns| && ns[j] == n;
    }
    SortIsCanonical(StableEntries(ns), StableEntries(ms));
  }

  // ------------------------------------------------------------------
  // Being the same JSON value is having the same normal form
  // ------------------------------------------------------------------

  lemma {:induction false} SameIsSameNormal(v: Value, w: Value)
    requires WellFormed(v) && WellFormed(w)
    ensures Same(v, w) <==> Normalize(v) == Normalize(w)
    decreases v
  {
    match v
    case Arr(a) =>
      if w.Arr? {
        NormalItemsAt(a);
        NormalItemsAt(w.items);
        forall i | 0 <= i < |a| && |a| == |w.items|
          ensures Same(a[i], w.items[i]) <==> Normalize(a[i]) == Normalize(w.items[i])
        {
          SameIsSameNormal(a[i], w.items[i]);
        }
        if Same(v, w) {
          assert NormalizeItems(a) == NormalizeItems(w.items);
        } else if |a| == |w.items| {
          var i :| 0 <= i < |a| && !Same(a[i], w.items[i]);
          assert NormalizeItems(a)[i] != NormalizeItems(w.items)[i];
        }
      }
    case Obj(a) =>
      if w.Obj? {
        forall i, j | 0 <= i < |a| && 0 <= j < |w.members|
          ensures Same(a[i].val, w.members[j].val) <==> Normalize(a[i].val) == Normalize(w.members[j].val)
        {
          SameIsSameNormal(a[i].val, w.members[j].val);
        }
        SameMembers(v, w);
      }
    case _ =>
  }

  lemma {:induction false} NormalItemsAt(items: seq<Value>)
    ensures |NormalizeItems(items)| == |items|
    ensures forall i :: 0 <= i < |items| ==> NormalizeItems(items)[i] == Normalize(items[i])
  {
    if items != [] {
      NormalItemsAt(items[1..]);
    }
  }

  ghost predicate Counterpart(m: Keyed<Value>, n: Keyed<Value>) {
    n.key == m.key && !n.val.Undefined? && Normalize(m.val) == Normalize(n.val)
  }

  ghost predicate Covers(a: seq<Keyed<Value>>, b: seq<Keyed<Value>>) {
    forall i :: 0 <= i < |a| && !a[i].val.Undefined? ==> exists j :: 0 <= j < |b| && Counterpart(a[i], b[j])
  }

  lemma SameMembers(v: Value, w: Value)
    requires v.Obj? && w.Obj? && DistinctKeys(v.members) && DistinctKeys(w.members)
    requires forall i, j :: 0 <= i < |v.members| && 0 <= j < |w.members| ==>
               (Same(v.members[i].val, w.members[j].val) <==> Normalize(v.members[i].val) == Normalize(w.members[j].val))
    ensures Same(v, w) <==> Normalize(v) == Normalize(w)
  {
    var a, b := v.members, w.members;
    SameIsCovering(v, w);
    NormalizedMembersOf(a);
    NormalizedMembersOf(b);
    SortIsCanonical(NormalizeMembers(a), NormalizeMembers(b));
    hide Same, NormalizeMembers, SameElements, DistinctKeys, Covers, HasKeysOf;
    if Covers(a, b) && HasKeysOf(a, b) {
      CoveringIsMutual(a, b);
      CoveringGivesElements(a, b);
      CoveringGivesElements(b, a);
      ElementsBothWays(NormalizeMembers(a), NormalizeMembers(b));
    }
    if SameElements(NormalizeMembers(a), NormalizeMembers(b)) {
      ElementsBothWays(NormalizeMembers(a), NormalizeMembers(b));
      ElementsGiveCovering(a, b);
      ElementsGiveCovering(b, a);
      CoveringHasKeys(b, a);
    }
  }

  lemma ElementsBothWays<T>(a: seq<Keyed<T>>, b: seq<Keyed<T>>)
    ensures SameElements(a, b) <==> (forall e :: e in a ==> e in b) && (forall e :: e in b ==> e in a)
  {
  }

  lemma SameIsCovering(v: Value, w: Value)
    requires v.Obj? && w.Obj?
    requires forall i, j :: 0 <= i < |v.members| && 0 <= j < |w.members| ==>
               (Same(v.members[i].val, w.members[j].val) <==> Normalize(v.members[i].val) == Normalize(w.members[j].val))
    ensures Same(v, w) <==> Covers(v.members, w.members) && HasKeysOf(v.members, w.members)
  {
    hide Normalize, Found, HasKeysOf, Counterpart;
    var a, b := v.members, w.members;
    forall i | 0 <= i < |a|
      ensures Found(a[i], b) <==> exists j :: 0 <= j < |b| && Counterpart(a[i], b[j])
    {
      FoundIsCounterpart(a[i], b);
    }
  }

  lemma FoundIsCounterpart(m: Keyed<Value>, b: seq<Keyed<Value>>)
    requires forall j :: 0 <= j < |b| ==> (Same(m.val, b[j].val) <==> Normalize(m.val) == Normalize(b[j].val))
    ensures Found(m, b) <==> exists j :: 0 <= j < |b| && Counterpart(m, b[j])
  {
    hide Same, Normalize;
    if Found(m, b) {
      var j :| 0 <= j < |b| && b[j].key == m.key && !b[j].val.Undefined? && Same(m.val, b[j].val);
      assert Counterpart(m, b[j]);
    }
    if j :| 0 <= j < |b| && Counterpart(m, b[j]) {
      assert Same(m.val, b[j].val);
    }
  }

  lemma CoveringIsMutual(a: seq<Keyed<Value>>, b: seq<Keyed<Value>>)
    requires DistinctKeys(b) && Covers(a, b) && HasKeysOf(a, b)
    ensures Covers(b, a)
  {
    hide Normalize;
    forall j | 0 <= j < |b| && !b[j].val.Undefined?
      ensures exists i :: 0 <= i < |a| && Counterpart(b[j], a[i])
    {
      var i :| 0 <= i < |a| && a[i].key == b[j].key && !a[i].val.Undefined?;
      var k :| 0 <= k < |b| && Counterpart(a[i], b[k]);
      assert k == j;
      assert Counterpart(b[j], a[i]);
    }
  }

  lemma CoveringHasKeys(a: seq<Keyed<Value>>, b: seq<Keyed<Value>>)
    requires Covers(a, b)
    ensures HasKeysOf(b, a)
  {
    hide Normalize;
    forall i | 0 <= i < |a| && !a[i].val.Undefined?
      ensures exists j :: 0 <= j < |b| && b[j].key == a[i].key && !b[j].val.Undefined?
    {
      var j :| 0 <= j < |b| && Counterpart(a[i], b[j]);
    }
  }

  lemma CoveringGivesElements(a: seq<Keyed<Value>>, b: seq<Keyed<Value>>)
    requires Covers(a, b)
    ensures forall n :: n in NormalizeMembers(a) ==> n in NormalizeMembers(b)
  {
    hide Normalize, NormalizeMembers;
    NormalizedMembersOf(a);
    NormalizedMembersOf(b);
    forall n | n in NormalizeMembers(a)
      ensures n in NormalizeMembers(b)
    {
      var i :| 0 <= i < |a| && NormalizedFrom(n, a[i]);
      var j :| 0 <= j < |b| && Counterpart(a[i], b[j]);
      assert n == Keyed(b[j].key, Normalize(b[j].val));
    }
  }

  lemma ElementsGiveCovering(a: seq<Keyed<Value>>, b: seq<Keyed<Value>>)
    requires forall n :: n in NormalizeMembers(a) ==> n in NormalizeMembers(b)
    ensures Covers(a, b)
  {
    hide Normalize, NormalizeMembers;
    NormalizedMembersOf(a);
    NormalizedMembersOf(b);
    forall i | 0 <= i < |a| && !a[i].val.Undefined?
      ensures exists j :: 0 <= j < |b| && Counterpart(a[i], b[j])
    {
      var n := Keyed(a[i].key, Normalize(a[i].val));
      assert n in NormalizeMembers(b);
      var j :| 0 <= j < |b| && NormalizedFrom(n, b[j]);
      assert Counterpart(a[i], b[j]);
    }
  }
}
