/**
 A parser for compact JSON text (values as in RFC 8259, strings as in its
 section 7), and the proof that it inverts the canonical printer.
 */
module JsonParser {
  import opened JsValues
  import opened CanonicalJson

  datatype Parsed<T> = Fail | Done(val: T, rest: Text)

  // ------------------------------------------------------------------
  // The parser
  // ------------------------------------------------------------------

  ghost function HexValue(c: CodeUnit): int {
    if 0x30 <= c <= 0x39 then c - 0x30
    else if 0x61 <= c <= 0x66 then c - 0x57
    else if 0x41 <= c <= 0x46 then c - 0x37
    else -1
  }

  /** The code unit a backslash sequence stands for. */
  ghost function ParseEscape(s: Text): (r: Parsed<CodeUnit>)
    ensures r.Done? ==> |r.rest| < |s|
  {
    if |s| < 2 then Fail
    else if s[1] == 0x22 || s[1] == 0x5C || s[1] == 0x2F then Done(s[1], s[2..])
    else if s[1] == 0x62 then Done(8, s[2..])
    else if s[1] == 0x74 then Done(9, s[2..])
    else if s[1] == 0x6E then Done(10, s[2..])
    else if s[1] == 0x66 then Done(12, s[2..])
    else if s[1] == 0x72 then Done(13, s[2..])
    else if s[1] == 0x75 && |s| >= 6 && HexValue(s[2]) >= 0 && HexValue(s[3]) >= 0
         && HexValue(s[4]) >= 0 && HexValue(s[5]) >= 0 then
      Done(HexValue(s[2]) * 4096 + HexValue(s[3]) * 256 + HexValue(s[4]) * 16 + HexValue(s[5]), s[6..])
    else Fail
  }

  /** The rest of a string, after its opening quote. */
  ghost function ParseString(s: Text): (r: Parsed<Text>)
    ensures r.Done? ==> |r.rest| < |s|
    decreases |s|
  {
    if s == [] then Fail
    else if s[0] == 0x22 then Done([], s[1..])
    else if s[0] < 0x20 then Fail
    else
      var c := if s[0] == 0x5C then ParseEscape(s) else Done(s[0], s[1..]);
      if c.Fail? then Fail
      else
        var more := ParseString(c.rest);
        if more.Fail? then Fail else Done([c.val] + more.val, more.rest)
  }

  ghost function NumberLength(s: Text): (n: nat)
    ensures n <= |s|
    ensures s != [] && NumberChar(s[0]) ==> n > 0
  {
    if s == [] || !NumberChar(s[0]) then 0 else 1 + NumberLength(s[1..])
  }

  ghost function ParseValue(s: Text): (r: Parsed<Value>)
    ensures r.Done? ==> |r.rest| < |s|
    decreases |s|, 0
  {
    if s == [] then Fail
    else if s[0] == 0x22 then
      var t := ParseString(s[1..]);
      if t.Fail? then Fail else Done(Str(t.val), t.rest)
    else if s[0] == 0x5B then
      if |s| > 1 && s[1] == 0x5D then Done(Arr([]), s[2..])
      else
        var t := ParseItems(s[1..]);
        if t.Fail? then Fail else Done(Arr(t.val), t.rest)
    else if s[0] == 0x7B then
      if |s| > 1 && s[1] == 0x7D then Done(Obj([]), s[2..])
      else
        var t := ParseMembers(s[1..]);
        if t.Fail? then Fail else Done(Obj(t.val), t.rest)
    else if NULL_TEXT <= s then Done(Null, s[4..])
    else if TRUE_TEXT <= s then Done(Bool(true), s[4..])
    else if FALSE_TEXT <= s then Done(Bool(false), s[5..])
    else if s[0] == 0x2D || 0x30 <= s[0] <= 0x39 then
      Done(Number(s[..NumberLength(s)]), s[NumberLength(s)..])
    else Fail
  }

  /** One or more values separated by commas and closed by a bracket. */
  ghost function ParseItems(s: Text): (r: Parsed<seq<Value>>)
    ensures r.Done? ==> |r.rest| < |s|
    decreases |s|, 1
  {
    var v := ParseValue(s);
    if v.Fail? || v.rest == [] then Fail
    else if v.rest[0] == 0x5D then Done([v.val], v.rest[1..])
    else if v.rest[0] == 0x2C then
      var more := ParseItems(v.rest[1..]);
      if more.Fail? then Fail else Done([v.val] + more.val, more.rest)
    else Fail
  }

  ghost function ParseMember(s: Text): (r: Parsed<Keyed<Value>>)
    ensures r.Done? ==> |r.rest| < |s|
    decreases |s|, 1
  {
    if s == [] || s[0] != 0x22 then Fail
    else
      var k := ParseString(s[1..]);
      if k.Fail? || k.rest == [] || k.rest[0] != 0x3A then Fail
      else
        var v := ParseValue(k.rest[1..]);
        if v.Fail? then Fail else Done(Keyed(k.val, v.val), v.rest)
  }

  ghost function ParseMembers(s: Text): (r: Parsed<seq<Keyed<Value>>>)
    ensures r.Done? ==> |r.rest| < |s|
    decreases |s|, 2
  {
    var m := ParseMember(s);
    if m.Fail? || m.rest == [] then Fail
    else if m.rest[0] == 0x7D then Done([m.val], m.rest[1..])
    else if m.rest[0] == 0x2C then
      var more := ParseMembers(m.rest[1..]);
      if more.Fail? then Fail else Done([m.val] + more.val, more.rest)
    else Fail
  }

  /** A whole text. */
  ghost function Parse(s: Text): Parsed<Value> {
    var v := ParseValue(s);
    if v.Done? && v.rest == [] then v else Fail
  }

  // ------------------------------------------------------------------
  // Strings
  // ------------------------------------------------------------------

  lemma HexRoundTrip(n: int)
    requires 0 <= n < 16
    ensures HexValue(HexDigit(n)) == n
  {
  }

  lemma NibblesRebuild(c: CodeUnit)
    ensures 0 <= c / 4096 < 16 && 0 <= c / 256 % 16 < 16 && 0 <= c / 16 % 16 < 16 && 0 <= c % 16 < 16
    ensures c / 4096 * 4096 + c / 256 % 16 * 256 + c / 16 % 16 * 16 + c % 16 == c
  {
    assert c / 16 / 16 == c / 256 && c / 256 / 16 == c / 4096;
  }

  lemma EscapeRoundTrip(c: CodeUnit, rest: Text)
    ensures var s := Escape(c) + rest;
            s[0] >= 0x20 && s[0] != 0x22 &&
            (if s[0] == 0x5C then ParseEscape(s) else Done(s[0], s[1..])) == Done(c, rest)
  {
    var s := Escape(c) + rest;
    assert s[|Escape(c)|..] == rest;
    if s[0] == 0x5C && |Escape(c)| == 6 {
      NibblesRebuild(c);
      HexRoundTrip(c / 4096);
      HexRoundTrip(c / 256 % 16);
      HexRoundTrip(c / 16 % 16);
      HexRoundTrip(c % 16);
    }
  }

  lemma StringStep(s: Text, c: CodeUnit, tail: Text)
    requires s != [] && s[0] >= 0x20 && s[0] != 0x22
    requires (if s[0] == 0x5C then ParseEscape(s) else Done(s[0], s[1..])) == Done(c, tail)
    requires ParseString(tail).Done?
    ensures ParseString(s) == Done([c] + ParseString(tail).val, ParseString(tail).rest)
  {
    hide ParseEscape;
  }

  lemma EndOfString(rest: Text)
    ensures ParseString([0x22] + rest) == Done([], rest)
  {
    hide ParseEscape;
  }

  lemma RawStep(c: CodeUnit, tail: Text)
    requires c >= 0x20 && c != 0x22 && c != 0x5C && ParseString(tail).Done?
    ensures ParseString([c] + tail) == Done([c] + ParseString(tail).val, ParseString(tail).rest)
  {
    hide ParseEscape;
    assert ([c] + tail)[1..] == tail;
    StringStep([c] + tail, c, tail);
  }

  /** A quoted string reads back as itself, lone surrogates included. */
  lemma {:induction false} StringRoundTrip(s: Text, rest: Text)
    ensures ParseString(QuoteBody(s) + [0x22] + rest) == Done(s, rest)
    decreases |s|
  {
    hide ParseString, ParseEscape, Escape;
    var text := QuoteBody(s) + [0x22] + rest;
    if s == [] {
      assert text == [0x22] + rest;
      EndOfString(rest);
    } else {
      if |s| > 1 && HighSurrogate(s[0]) && LowSurrogate(s[1]) {
        var tail := QuoteBody(s[2..]) + [0x22] + rest;
        StringRoundTrip(s[2..], rest);
        RawStep(s[1], tail);
        RawStep(s[0], [s[1]] + tail);
        assert text == [s[0]] + ([s[1]] + tail);
        assert s == [s[0]] + ([s[1]] + s[2..]);
      } else {
        var tail := QuoteBody(s[1..]) + [0x22] + rest;
        StringRoundTrip(s[1..], rest);
        assert text == Escape(s[0]) + tail;
        EscapeRoundTrip(s[0], tail);
        StringStep(text, s[0], tail);
        assert s == [s[0]] + s[1..];
      }
    }
  }

  // ------------------------------------------------------------------
  // Values in normal form
  // ------------------------------------------------------------------

  ghost predicate Normal(n: Value) {
    match n
    case Undefined => false
    case NonFinite => false
    case Number(t) => IsNumberText(t)
    case Arr(items) => forall i :: 0 <= i < |items| ==> Normal(items[i])
    case Obj(ms) => Ascending(ms) && forall i :: 0 <= i < |ms| ==> Normal(ms[i].val)
    case _ => true
  }

  lemma {:induction false} NormalizeIsNormal(v: Value)
    requires WellFormed(v) && Holes(v) == 0 && !v.Undefined?
    ensures Normal(Normalize(v))
    decreases v
  {
    match v
    case Arr(items) =>
      NormalItemsAt(items);
      forall i | 0 <= i < |items|
        ensures Normal(Normalize(items[i]))
      {
        NoHolesInItems(items, i);
        NormalizeIsNormal(items[i]);
      }
    case Obj(ms) =>
      NormalizedMembersOf(ms);
      SortedMembersOf(ms);
      forall i | 0 <= i < |ms| && !ms[i].val.Undefined?
        ensures Normal(Normalize(ms[i].val))
      {
        NoHolesInMembers(ms, i);
        NormalizeIsNormal(ms[i].val);
      }
      var ns := SortByKey(NormalizeMembers(ms));
      forall j | 0 <= j < |ns|
        ensures Normal(ns[j].val)
      {
        assert ns[j] in NormalizeMembers(ms);
        var i :| 0 <= i < |ms| && NormalizedFrom(ns[j], ms[i]);
      }
    case _ =>
  }

  lemma {:induction false} NoHolesInItems(items: seq<Value>, i: nat)
    requires ItemHoles(items) == 0 && i < |items|
    ensures Holes(items[i]) == 0 && !items[i].Undefined?
  {
    if i > 0 {
      NoHolesInItems(items[1..], i - 1);
    }
  }

  lemma {:induction false} NoHolesInMembers(ms: seq<Keyed<Value>>, i: nat)
    requires MemberHoles(ms) == 0 && i < |ms|
    ensures Holes(ms[i].val) == 0
  {
    if i > 0 {
      NoHolesInMembers(ms[1..], i - 1);
    }
  }

  // ------------------------------------------------------------------
  // Printing, then parsing
  // ------------------------------------------------------------------

  /** What may follow a value inside a larger text. */
  ghost predicate Stops(rest: Text) {
    rest != [] ==> rest[0] == 0x2C || rest[0] == 0x5D || rest[0] == 0x7D
  }

  lemma {:induction false} NumberRoundTrip(t: Text, rest: Text)
    requires (forall i :: 0 <= i < |t| ==> NumberChar(t[i])) && Stops(rest)
    ensures NumberLength(t + rest) == |t|
  {
    if t == [] {
      assert t + rest == rest;
    } else {
      assert (t + rest)[1..] == t[1..] + rest;
      NumberRoundTrip(t[1..], rest);
    }
  }

  lemma FirstUnit(n: Value)
    requires Normal(n)
    ensures StableString(n) != [] && StableString(n)[0] != 0x5D && StableString(n)[0] != 0x7D
  {
  }

  lemma ScalarRoundTrip(n: Value, rest: Text)
    requires Normal(n) && Stops(rest) && (n.Null? || n.Bool? || n.Number?)
    ensures ParseValue(StableString(n) + rest) == Done(n, rest)
  {
    hide ParseString, ParseItems, ParseMembers;
    var text := StableString(n) + rest;
    match n
    case Null =>
      assert text[..4] == NULL_TEXT && text[4..] == rest;
    case Bool(b) =>
      assert text[|StableString(n)|..] == rest;
    case Number(t) =>
      NumberRoundTrip(t, rest);
      assert text[..|t|] == t && text[|t|..] == rest;
  }

  lemma StringValueRoundTrip(s: Text, rest: Text)
    ensures ParseValue(StableString(Str(s)) + rest) == Done(Str(s), rest)
  {
    StringRoundTrip(s, rest);
    hide ParseString, ParseItems, ParseMembers, QuoteBody;
    var text := StableString(Str(s)) + rest;
    assert text[1..] == QuoteBody(s) + [0x22] + rest;
  }

  lemma ArrayStep(inner: Text)
    requires inner != [] && inner[0] != 0x5D && ParseItems(inner).Done?
    ensures ParseValue([0x5B] + inner) == Done(Arr(ParseItems(inner).val), ParseItems(inner).rest)
  {
    hide ParseString, ParseItems, ParseMembers;
    assert ([0x5B] + inner)[1..] == inner;
  }

  lemma ObjectStep(inner: Text)
    requires inner != [] && inner[0] != 0x7D && ParseMembers(inner).Done?
    ensures ParseValue([0x7B] + inner) == Done(Obj(ParseMembers(inner).val), ParseMembers(inner).rest)
  {
    hide ParseString, ParseItems, ParseMembers;
    assert ([0x7B] + inner)[1..] == inner;
  }

  lemma EmptyRoundTrip(rest: Text)
    ensures ParseValue([0x5B, 0x5D] + rest) == Done(Arr([]), rest)
    ensures ParseValue([0x7B, 0x7D] + rest) == Done(Obj([]), rest)
  {
    hide ParseString, ParseItems, ParseMembers;
  }

  lemma ItemsStep(s: Text, v: Value, tail: Text)
    ensures ParseValue(s) == Done(v, [0x5D] + tail) ==> ParseItems(s) == Done([v], tail)
    ensures ParseValue(s) == Done(v, [0x2C] + tail) && ParseItems(tail).Done? ==>
              ParseItems(s) == Done([v] + ParseItems(tail).val, ParseItems(tail).rest)
  {
    hide ParseValue;
    assert ([0x5D] + tail)[1..] == tail && ([0x2C] + tail)[1..] == tail;
  }

  lemma MembersStep(s: Text, m: Keyed<Value>, tail: Text)
    ensures ParseMember(s) == Done(m, [0x7D] + tail) ==> ParseMembers(s) == Done([m], tail)
    ensures ParseMember(s) == Done(m, [0x2C] + tail) && ParseMembers(tail).Done? ==>
              ParseMembers(s) == Done([m] + ParseMembers(tail).val, ParseMembers(tail).rest)
  {
    hide ParseMember;
    assert ([0x7D] + tail)[1..] == tail && ([0x2C] + tail)[1..] == tail;
  }

  lemma MemberStep(s: Text, key: Text, body: Text)
    requires ParseString(s) == Done(key, [0x3A] + body) && ParseValue(body).Done?
    ensures ParseMember([0x22] + s) == Done(Keyed(key, ParseValue(body).val), ParseValue(body).rest)
  {
    hide ParseValue, ParseString;
    assert ([0x22] + s)[1..] == s && ([0x3A] + body)[1..] == body;
  }

  lemma {:induction false} ValueRoundTrip(n: Value, rest: Text)
    requires Normal(n) && Stops(rest)
    ensures ParseValue(StableString(n) + rest) == Done(n, rest)
    decreases n, 1
  {
    hide ParseValue, ParseItems;
    match n
    case Str(s) => StringValueRoundTrip(s, rest);
    case Arr(items) =>
      if items == [] {
        EmptyRoundTrip(rest);
        assert StableString(n) + rest == [0x5B, 0x5D] + rest;
      } else {
        ItemsRoundTrip(items, rest);
        var inner := StableItems(items) + [0x5D] + rest;
        assert StableString(n) + rest == [0x5B] + inner;
        FirstUnit(items[0]);
        assert inner[0] == StableString(items[0])[0];
        ArrayStep(inner);
      }
    case Obj(ms) => ObjectRoundTrip(n, rest);
    case _ => ScalarRoundTrip(n, rest);
  }

  lemma {:induction false} ItemsRoundTrip(items: seq<Value>, rest: Text)
    requires items != [] && forall i :: 0 <= i < |items| ==> Normal(items[i])
    ensures ParseItems(StableItems(items) + [0x5D] + rest) == Done(items, rest)
    decreases items, 0
  {
    hide ParseValue, ParseItems, StableString;
    var text := StableItems(items) + [0x5D] + rest;
    if |items| == 1 {
      ValueRoundTrip(items[0], [0x5D] + rest);
      assert text == StableString(items[0]) + ([0x5D] + rest);
      ItemsStep(text, items[0], rest);
      assert items == [items[0]];
    } else {
      var tail := StableItems(items[1..]) + [0x5D] + rest;
      ValueRoundTrip(items[0], [0x2C] + tail);
      assert text == StableString(items[0]) + ([0x2C] + tail);
      ItemsRoundTrip(items[1..], rest);
      ItemsStep(text, items[0], tail);
      assert items == [items[0]] + items[1..];
    }
  }

  lemma {:induction false} ObjectRoundTrip(n: Value, rest: Text)
    requires n.Obj? && Normal(n)
    ensures ParseValue(StableString(n) + rest) == Done(n, rest)
    decreases n, 0
  {
    hide ParseValue, ParseMembers, StableEntries, SortByKey, QuoteBody;
    var ms := n.members;
    NormalEntries(ms);
    if ms == [] {
      EmptyRoundTrip(rest);
      assert StableString(n) + rest == [0x7B, 0x7D] + rest;
    } else {
      MembersRoundTrip(ms, rest);
      var inner := JoinEntries(StableEntries(ms)) + [0x7D] + rest;
      assert StableString(n) + rest == [0x7B] + inner;
      ObjectStep(inner);
    }
  }

  lemma NormalEntries(ms: seq<Keyed<Value>>)
    requires Ascending(ms) && forall i :: 0 <= i < |ms| ==> Normal(ms[i].val)
    ensures SortByKey(StableEntries(ms)) == StableEntries(ms) && |StableEntries(ms)| == |ms|
  {
    DefinedEntries(ms);
    SortOfAscending(StableEntries(ms));
  }

  lemma NormalIsDefined(ms: seq<Keyed<Value>>)
    requires forall i :: 0 <= i < |ms| ==> Normal(ms[i].val)
    ensures forall i :: 0 <= i < |ms| ==> !ms[i].val.Undefined?
  {
  }

  lemma {:induction false} DefinedEntries(ms: seq<Keyed<Value>>)
    requires forall i :: 0 <= i < |ms| ==> !ms[i].val.Undefined?
    ensures |StableEntries(ms)| == |ms|
    ensures forall i :: 0 <= i < |ms| ==> StableEntries(ms)[i] == Keyed(ms[i].key, StableString(ms[i].val))
    ensures ms != [] ==> StableEntries(ms[1..]) == StableEntries(ms)[1..]
  {
    if ms != [] {
      DefinedEntries(ms[1..]);
    }
  }

  lemma {:induction false} MembersRoundTrip(ms: seq<Keyed<Value>>, rest: Text)
    requires ms != [] && forall i :: 0 <= i < |ms| ==> Normal(ms[i].val)
    ensures ParseMembers(JoinEntries(StableEntries(ms)) + [0x7D] + rest) == Done(ms, rest)
    decreases ms, 1
  {
    hide ParseMember, ParseMembers, StableEntries, StableString, Entry, Normal;
    NormalIsDefined(ms);
    DefinedEntries(ms);
    var es := StableEntries(ms);
    var text := JoinEntries(es) + [0x7D] + rest;
    if |ms| == 1 {
      MemberRoundTrip(ms[0], [0x7D] + rest);
      assert text == Entry(es[0]) + ([0x7D] + rest);
      MembersStep(text, ms[0], rest);
      assert ms == [ms[0]];
    } else {
      var tail := JoinEntries(StableEntries(ms[1..])) + [0x7D] + rest;
      MemberRoundTrip(ms[0], [0x2C] + tail);
      assert text == Entry(es[0]) + ([0x2C] + tail);
      MembersRoundTrip(ms[1..], rest);
      MembersStep(text, ms[0], tail);
      assert ms == [ms[0]] + ms[1..];
    }
  }

  lemma {:induction false} MemberRoundTrip(m: Keyed<Value>, rest: Text)
    requires Normal(m.val) && Stops(rest)
    ensures ParseMember(Entry(Keyed(m.key, StableString(m.val))) + rest) == Done(m, rest)
    decreases m, 0
  {
    hide ParseMember, ParseString, ParseValue, StableString, QuoteBody;
    var body := StableString(m.val) + rest;
    var s := QuoteBody(m.key) + [0x22] + ([0x3A] + body);
    StringRoundTrip(m.key, [0x3A] + body);
    ValueRoundTrip(m.val, rest);
    MemberStep(s, m.key, body);
    assert Entry(Keyed(m.key, StableString(m.val))) + rest == [0x22] + s;
  }

  // ------------------------------------------------------------------
  // The laws
  // ------------------------------------------------------------------

  /** Parsing what was printed recovers the normal form of the value. */
  lemma PrintThenParse(v: Value)
    requires WellFormed(v) && !v.Undefined? && Holes(v) == 0
    ensures Parse(StableString(v)) == Done(Normalize(v), [])
  {
    StableOfNormal(v);
    NormalizeIsNormal(v);
    ValueRoundTrip(Normalize(v), []);
    assert StableString(v) + [] == StableString(v);
  }

  /** Canonical and injective: two values print alike exactly when they are the
      same JSON value. */
  lemma StableStringIsCanonical(v: Value, w: Value)
    requires WellFormed(v) && !v.Undefined? && Holes(v) == 0
    requires WellFormed(w) && !w.Undefined? && Holes(w) == 0
    ensures StableString(v) == StableString(w) <==> Same(v, w)
  {
    SameIsSameNormal(v, w);
    StableOfNormal(v);
    StableOfNormal(w);
    PrintThenParse(v);
    PrintThenParse(w);
  }
}
