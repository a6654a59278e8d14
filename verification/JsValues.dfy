/**
 JavaScript values as far as the canonical printer and the metadata sanitizer
 see them.  Strings are sequences of UTF-16 code units, compared unit by unit.
 */
module JsValues {

  type CodeUnit = x: int | 0 <= x < 0x1_0000
  type Text = seq<CodeUnit>

  /** A value under a key: an own enumerable property, or a printed one. */
  datatype Keyed<T> = Keyed(key: Text, val: T)

  /** A finite number is represented by the text ECMAScript prints for it. */
  datatype Value =
    | Undefined
    | Null
    | Bool(b: bool)
    | Number(text: Text)
    | NonFinite
    | Str(s: Text)
    | Arr(items: seq<Value>)
    | Obj(members: seq<Keyed<Value>>)

  ghost predicate DistinctKeys<T>(s: seq<Keyed<T>>) {
    forall i, j :: 0 <= i < j < |s| ==> s[i].key != s[j].key
  }

  predicate NumberChar(c: CodeUnit) {
    0x30 <= c <= 0x39 || c == 0x2B || c == 0x2D || c == 0x2E || c == 0x45 || c == 0x65
  }

  predicate IsNumberText(t: Text) {
    && t != [] && (t[0] == 0x2D || 0x30 <= t[0] <= 0x39)
    && forall i :: 0 <= i < |t| ==> NumberChar(t[i])
  }

  /** Object keys are distinct and numbers are numbers, at every level. */
  ghost predicate WellFormed(v: Value) {
    match v
    case Number(t) => IsNumberText(t)
    case Arr(items) => forall i :: 0 <= i < |items| ==> WellFormed(items[i])
    case Obj(ms) => DistinctKeys(ms) && forall i :: 0 <= i < |ms| ==> WellFormed(ms[i].val)
    case _ => true
  }

  /** `a < b` on strings. */
  predicate Less(a: Text, b: Text) {
    if b == [] then false
    else if a == [] then true
    else if a[0] != b[0] then a[0] < b[0]
    else Less(a[1..], b[1..])
  }

  lemma {:induction false} LessIsTotalOrder(a: Text, b: Text)
    ensures Less(a, b) || Less(b, a) || a == b
    ensures !(Less(a, b) && Less(b, a))
    ensures !Less(a, a)
  {
    if a != [] {
      if b != [] && a[0] == b[0] {
        LessIsTotalOrder(a[1..], b[1..]);
        assert a == [a[0]] + a[1..] && b == [b[0]] + b[1..];
      } else {
        LessIsTotalOrder(a[1..], a[1..]);
      }
    }
  }

  lemma {:induction false} LessIsTransitive(a: Text, b: Text, c: Text)
    requires Less(a, b) && Less(b, c)
    ensures Less(a, c)
  {
    if a != [] && a[0] == b[0] == c[0] {
      LessIsTransitive(a[1..], b[1..], c[1..]);
    }
  }

  /** b goes on where a ends, or the first code unit in which they differ is smaller in a. */
  ghost predicate Precedes(a: Text, b: Text) {
    || (|a| < |b| && a == b[..|a|])
    || exists i: nat :: DiffersAt(a, b, i)
  }

  ghost predicate DiffersAt(a: Text, b: Text, i: nat) {
    i < |a| && i < |b| && a[..i] == b[..i] && a[i] < b[i]
  }

  /** The order is the lexicographic one on code units, and no other. */
  lemma {:induction false} LessIsByCodeUnit(a: Text, b: Text)
    ensures Less(a, b) <==> Precedes(a, b)
  {
    if a == [] || b == [] {
    } else if a[0] != b[0] {
      FirstUnitsDecide(a, b);
    } else {
      LessIsByCodeUnit(a[1..], b[1..]);
      TailsPrecede(a, b);
    }
  }

  lemma FirstUnitsDecide(a: Text, b: Text)
    requires a != [] && b != [] && a[0] != b[0]
    ensures Precedes(a, b) <==> a[0] < b[0]
  {
    assert a[..0] == b[..0];
    assert a[0] < b[0] ==> DiffersAt(a, b, 0);
    forall i: nat | DiffersAt(a, b, i)
      ensures a[0] < b[0]
    {
      assert i > 0 ==> a[..i][0] == b[..i][0];
    }
    assert |a| < |b| ==> b[..|a|][0] == b[0];
  }

  lemma TailsPrecede(a: Text, b: Text)
    requires a != [] && b != [] && a[0] == b[0]
    ensures Precedes(a[1..], b[1..]) <==> Precedes(a, b)
  {
    assert a == [a[0]] + a[1..] && b == [b[0]] + b[1..];
    forall i: nat
      ensures DiffersAt(a[1..], b[1..], i) <==> DiffersAt(a, b, i + 1)
    {
      if i < |a| - 1 && i < |b| - 1 {
        assert a[..i + 1] == [a[0]] + a[1..][..i] && b[..i + 1] == [b[0]] + b[1..][..i];
      }
    }
    assert !DiffersAt(a, b, 0);
    forall i: nat | DiffersAt(a, b, i)
      ensures exists j: nat :: DiffersAt(a[1..], b[1..], j)
    {
      assert DiffersAt(a[1..], b[1..], i - 1);
    }
    if |a| < |b| {
      assert b[..|a|] == [b[0]] + b[1..][..|a| - 1];
    }
  }

  /** The text t is the ASCII string s. */
  ghost predicate Spelled(t: Text, s: string) {
    |t| == |s| && forall i :: 0 <= i < |s| ==> s[i] as int == t[i]
  }
}
