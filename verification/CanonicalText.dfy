/**
 The printed text itself: the order of the members of an object and the form of every
 string, so that a checksum is computed over one definite text.
 */
module CanonicalText {
  import opened JsValues
  import opened CanonicalJson
  import opened JsonParser

  /** The literals, spelled out. */
  lemma LiteralsSpelledOut()
    ensures Spelled(StableString(Null), "null") && Spelled(StableString(NonFinite), "null")
    ensures Spelled(StableString(Bool(true)), "true") && Spelled(StableString(Bool(false)), "false")
  {
  }

  // ------------------------------------------------------------------
  // Objects
  // ------------------------------------------------------------------

  ghost predicate InKeyOrder(es: seq<Keyed<Text>>) {
    forall i, j :: 0 <= i < j < |es| ==> Precedes(es[i].key, es[j].key)
  }

  /** The entries are the defined members, each with its printed value, and nothing else. */
  ghost predicate EntriesAre(es: seq<Keyed<Text>>, ms: seq<Keyed<Value>>) {
    && (forall i :: 0 <= i < |ms| && !ms[i].val.Undefined? ==> Keyed(ms[i].key, StableString(ms[i].val)) in es)
    && (forall e :: e in es ==> exists i :: 0 <= i < |ms| && PrintedFrom(e, ms[i]))
  }

  /** An object prints as its defined members, each once, in ascending order of their
      keys by code units. */
  lemma ObjectsPrintInKeyOrder(v: Value)
    requires v.Obj? && DistinctKeys(v.members)
    ensures exists es ::
              && StableString(v) == [0x7B] + JoinEntries(es) + [0x7D]
              && InKeyOrder(es) && EntriesAre(es, v.members)
  {
    hide Precedes, JoinEntries;
    var raw := StableEntries(v.members);
    var es := SortByKey(raw);
    EntriesOf(v.members);
    SortSorts(raw);
    forall i, j | 0 <= i < j < |es|
      ensures Precedes(es[i].key, es[j].key)
    {
      LessIsByCodeUnit(es[i].key, es[j].key);
    }
    assert StableString(v) == [0x7B] + JoinEntries(es) + [0x7D];
  }

  // ------------------------------------------------------------------
  // Strings
  // ------------------------------------------------------------------

  /** No quote, backslash or control unit, and every surrogate half has its other half. */
  ghost predicate Plain(s: Text) {
    && (forall i :: 0 <= i < |s| ==> s[i] >= 0x20 && s[i] != 0x22 && s[i] != 0x5C)
    && (forall i :: 0 <= i < |s| && 0xD800 <= s[i] < 0xDC00 ==> i + 1 < |s| && 0xDC00 <= s[i + 1] < 0xE000)
    && (forall i :: 0 <= i < |s| && 0xDC00 <= s[i] < 0xE000 ==> i > 0 && 0xD800 <= s[i - 1] < 0xDC00)
  }

  /** A plain string prints as itself between quotes. */
  lemma PlainStringsPrintAsTheyAre(s: Text)
    requires Plain(s)
    ensures StableString(Str(s)) == [0x22] + s + [0x22]
  {
    PlainBody(s);
  }

  lemma PlainTail(s: Text, n: nat)
    requires Plain(s) && n <= |s| && (n < |s| ==> !(0xDC00 <= s[n] < 0xE000))
    ensures Plain(s[n..])
  {
    var rest := s[n..];
    forall i | 0 <= i < |rest|
      ensures rest[i] >= 0x20 && rest[i] != 0x22 && rest[i] != 0x5C
      ensures 0xD800 <= rest[i] < 0xDC00 ==> i + 1 < |rest| && 0xDC00 <= rest[i + 1] < 0xE000
      ensures 0xDC00 <= rest[i] < 0xE000 ==> i > 0 && 0xD800 <= rest[i - 1] < 0xDC00
    {
      assert rest[i] == s[n + i];
      assert 0xD800 <= s[n + i] < 0xDC00 ==> s[n + i + 1] == rest[i + 1];
      assert i > 0 ==> rest[i - 1] == s[n + i - 1];
    }
  }

  lemma {:induction false} PlainBody(s: Text)
    requires Plain(s)
    ensures QuoteBody(s) == s
    decreases |s|
  {
    if s != [] {
      var n := if 0xD800 <= s[0] < 0xDC00 then 2 else 1;
      PlainStep(s, n);
      hide Plain, Escape;
      PlainBody(s[n..]);
      assert s == s[..n] + s[n..];
    }
  }

  lemma PlainStep(s: Text, n: nat)
    requires Plain(s) && s != [] && n == if 0xD800 <= s[0] < 0xDC00 then 2 else 1
    ensures n <= |s| && Plain(s[n..]) && QuoteBody(s) == s[..n] + QuoteBody(s[n..])
  {
    hide QuoteBody, Escape;
    if n == 2 {
      assert |s| > 1 && 0xDC00 <= s[1] < 0xE000;
      PairBody(s);
    } else {
      assert s[0] >= 0x20 && s[0] != 0x22 && s[0] != 0x5C && !(0xDC00 <= s[0] < 0xE000);
      UnitBody(s);
    }
    PlainTail(s, n);
  }

  lemma PairBody(s: Text)
    requires |s| > 1 && 0xD800 <= s[0] < 0xDC00 && 0xDC00 <= s[1] < 0xE000
    ensures QuoteBody(s) == s[..2] + QuoteBody(s[2..])
  {
    hide Escape;
    assert s[..2] == [s[0], s[1]];
  }

  lemma UnitBody(s: Text)
    requires s != [] && s[0] >= 0x20 && s[0] != 0x22 && s[0] != 0x5C && !(0xD800 <= s[0] < 0xE000)
    ensures QuoteBody(s) == s[..1] + QuoteBody(s[1..])
  {
    assert Escape(s[0]) == s[..1];
    hide Escape;
  }

  /** The units that have an escape of their own, each with the letter that names it. */
  const SHORT: map<CodeUnit, CodeUnit> :=
    map[0x22 := 0x22, 0x5C := 0x5C, 8 := 0x62, 9 := 0x74, 10 := 0x6E, 12 := 0x66, 13 := 0x72]

  /** The digits 0 to 9 and a to f. */
  const HEX: Text :=
    [0x30, 0x31, 0x32, 0x33, 0x34, 0x35, 0x36, 0x37, 0x38, 0x39, 0x61, 0x62, 0x63, 0x64, 0x65, 0x66]

  ghost function Hex(n: nat): CodeUnit
    requires n < 16
  {
    HEX[n]
  }

  /** t spells c with a backslash, a u and four hexadecimal digits. */
  ghost predicate Spells(t: Text, c: CodeUnit, h: nat, i: nat, j: nat, k: nat) {
    && h < 16 && i < 16 && j < 16 && k < 16
    && t == [0x5C, 0x75, Hex(h), Hex(i), Hex(j), Hex(k)]
    && c == 4096 * h + 256 * i + 16 * j + k
  }

  /** What a single unit prints as: its short escape if it has one, four lower-case
      hexadecimal digits if it is another control unit or half a surrogate pair, and
      itself otherwise. */
  ghost predicate PrintsAs(c: CodeUnit, t: Text) {
    if c in SHORT then t == [0x5C, SHORT[c]]
    else if c < 0x20 || 0xD800 <= c < 0xE000 then exists h, i, j, k :: Spells(t, c, h, i, j, k)
    else t == [c]
  }

  lemma HexDigits(n: nat)
    requires n < 16
    ensures HexDigit(n) == Hex(n)
  {
  }

  lemma UnicodeSpells(c: CodeUnit)
    ensures exists h, i, j, k :: Spells(UnicodeEscape(c), c, h, i, j, k)
  {
    hide HexDigit, Hex;
    var h, i, j, k := c / 4096, c / 256 % 16, c / 16 % 16, c % 16;
    NibblesRebuild(c);
    HexDigits(h);
    HexDigits(i);
    HexDigits(j);
    HexDigits(k);
    assert Spells(UnicodeEscape(c), c, h, i, j, k);
  }

  lemma EscapePrints(c: CodeUnit)
    ensures PrintsAs(c, Escape(c))
  {
    hide Spells, UnicodeEscape;
    UnicodeSpells(c);
  }

  lemma SingleUnits(c: CodeUnit)
    ensures PrintsAs(c, QuoteBody([c]))
  {
    hide Escape, PrintsAs;
    EscapePrints(c);
    assert [c][1..] == [];
    assert QuoteBody([]) == [];
    assert QuoteBody([c]) == Escape(c) + [];
    assert Escape(c) + [] == Escape(c);
  }

  /** Strings print piece by piece, as long as no surrogate pair is cut in two; with the
      two lemmas above this fixes the text of every string. */
  lemma {:induction false} PiecesPrintInTurn(a: Text, b: Text)
    requires a != [] && b != [] ==> !(0xD800 <= a[|a| - 1] < 0xDC00 && 0xDC00 <= b[0] < 0xE000)
    ensures QuoteBody(a + b) == QuoteBody(a) + QuoteBody(b)
    decreases |a|
  {
    hide Escape, QuoteBody;
    if a == [] {
      assert a + b == b;
      EmptyBody();
    } else {
      var n := if |a| > 1 && 0xD800 <= a[0] < 0xDC00 && 0xDC00 <= a[1] < 0xE000 then 2 else 1;
      PiecesPrintInTurn(a[n..], b);
      assert (a + b)[n..] == a[n..] + b;
      BodyStep(a);
      BodyStep(a + b);
      assert |a| > 1 ==> (a + b)[1] == a[1];
      assert |a| == 1 && b != [] ==> (a + b)[1] == b[0];
    }
  }

  lemma EmptyBody()
    ensures QuoteBody([]) == []
  {
  }

  lemma BodyStep(s: Text)
    requires s != []
    ensures QuoteBody(s) ==
            if |s| > 1 && 0xD800 <= s[0] < 0xDC00 && 0xDC00 <= s[1] < 0xE000 then [s[0], s[1]] + QuoteBody(s[2..])
            else Escape(s[0]) + QuoteBody(s[1..])
  {
    hide Escape;
  }
}
