/**
 The checksum of an automation version: computed when the version is built,
 recomputed every time it is loaded from a store that keeps JSON copies.
 */
module VersionChecksum {
  import opened JsValues
  import opened CanonicalJson
  import opened JsonParser

  /** JSON.parse(JSON.stringify(v)), the copy a store keeps. */
  function JsonCopy(v: Value): Value
    decreases v, 1
  {
    match v
    case NonFinite => Null
    case Arr(items) => Arr(CopyItems(items))
    case Obj(ms) => Obj(CopyMembers(ms))
    case _ => v
  }

  function CopyItems(items: seq<Value>): seq<Value>
    decreases items, 0
  {
    if items == [] then []
    else [if items[0].Undefined? then Null else JsonCopy(items[0])] + CopyItems(items[1..])
  }

  function CopyMembers(ms: seq<Keyed<Value>>): seq<Keyed<Value>>
    decreases ms, 0
  {
    if ms == [] then []
    else if ms[0].val.Undefined? then CopyMembers(ms[1..])
    else [Keyed(ms[0].key, JsonCopy(ms[0].val))] + CopyMembers(ms[1..])
  }

  // ------------------------------------------------------------------
  // Lengths of printed text
  // ------------------------------------------------------------------

  ghost function TotalLength(es: seq<Keyed<Text>>): nat {
    if es == [] then 0 else |Entry(es[0])| + TotalLength(es[1..])
  }

  lemma {:induction false} JoinLength(es: seq<Keyed<Text>>)
    ensures |JoinEntries(es)| == TotalLength(es) + if es == [] then 0 else |es| - 1
  {
    hide Entry;
    if |es| > 1 {
      JoinLength(es[1..]);
    }
  }

  lemma {:induction false} InsertLength(e: Keyed<Text>, s: seq<Keyed<Text>>)
    ensures TotalLength(Insert(e, s)) == |Entry(e)| + TotalLength(s)
    ensures |Insert(e, s)| == 1 + |s|
  {
    hide Entry;
    if s != [] && Less(s[0].key, e.key) {
      InsertLength(e, s[1..]);
      assert Insert(e, s)[1..] == Insert(e, s[1..]);
    } else {
      assert Insert(e, s)[1..] == s;
    }
  }

  lemma {:induction false} SortLength(s: seq<Keyed<Text>>)
    ensures TotalLength(SortByKey(s)) == TotalLength(s) && |SortByKey(s)| == |s|
  {
    if s != [] {
      SortLength(s[1..]);
      InsertLength(s[0], SortByKey(s[1..]));
    }
  }

  lemma ObjectLength(ms: seq<Keyed<Value>>)
    ensures |StableString(Obj(ms))| ==
            2 + TotalLength(StableEntries(ms)) + if StableEntries(ms) == [] then 0 else |StableEntries(ms)| - 1
  {
    hide StableEntries, SortByKey, TotalLength;
    SortLength(StableEntries(ms));
    JoinLength(SortByKey(StableEntries(ms)));
  }

  // ------------------------------------------------------------------
  // What a JSON copy does to the printed text
  // ------------------------------------------------------------------

  /** Each undefined array slot comes back as null and costs four characters. */
  lemma {:induction false} CopyLength(v: Value)
    ensures |StableString(JsonCopy(v))| == |StableString(v)| + 4 * Holes(v)
    decreases v, 1
  {
    match v
    case Arr(items) => CopyItemsLength(items);
    case Obj(ms) =>
      CopyMembersLength(ms);
      ObjectLength(ms);
      ObjectLength(CopyMembers(ms));
    case _ =>
  }

  lemma {:induction false} CopyItemsLength(items: seq<Value>)
    ensures |StableItems(CopyItems(items))| == |StableItems(items)| + 4 * ItemHoles(items)
    ensures |CopyItems(items)| == |items|
    decreases items, 0
  {
    if items != [] {
      CopyLength(items[0]);
      CopyItemsLength(items[1..]);
      assert CopyItems(items)[1..] == CopyItems(items[1..]);
    }
  }

  lemma {:induction false} CopyMembersLength(ms: seq<Keyed<Value>>)
    ensures TotalLength(StableEntries(CopyMembers(ms))) == TotalLength(StableEntries(ms)) + 4 * MemberHoles(ms)
    ensures |StableEntries(CopyMembers(ms))| == |StableEntries(ms)|
    decreases ms, 0
  {
    if ms != [] {
      CopyLength(ms[0].val);
      CopyMembersLength(ms[1..]);
      if !ms[0].val.Undefined? {
        CopyMembersStep(ms);
      }
    }
  }

  lemma CopyMembersStep(ms: seq<Keyed<Value>>)
    requires ms != [] && !ms[0].val.Undefined?
    ensures StableEntries(ms) == [Keyed(ms[0].key, StableString(ms[0].val))] + StableEntries(ms[1..])
    ensures StableEntries(CopyMembers(ms)) ==
            [Keyed(ms[0].key, StableString(JsonCopy(ms[0].val)))] + StableEntries(CopyMembers(ms[1..]))
  {
    assert CopyMembers(ms)[1..] == CopyMembers(ms[1..]);
  }

  lemma {:induction false} CopyWithoutHoles(v: Value)
    requires Holes(v) == 0
    ensures StableString(JsonCopy(v)) == StableString(v)
    decreases v, 1
  {
    match v
    case Arr(items) => CopyItemsWithoutHoles(items);
    case Obj(ms) => CopyMembersWithoutHoles(ms);
    case _ =>
  }

  lemma {:induction false} CopyItemsWithoutHoles(items: seq<Value>)
    requires ItemHoles(items) == 0
    ensures StableItems(CopyItems(items)) == StableItems(items)
    ensures |CopyItems(items)| == |items|
    decreases items, 0
  {
    if items != [] {
      CopyWithoutHoles(items[0]);
      CopyItemsWithoutHoles(items[1..]);
      assert CopyItems(items)[1..] == CopyItems(items[1..]);
    }
  }

  lemma {:induction false} CopyMembersWithoutHoles(ms: seq<Keyed<Value>>)
    requires MemberHoles(ms) == 0
    ensures StableEntries(CopyMembers(ms)) == StableEntries(ms)
    decreases ms, 0
  {
    if ms != [] {
      CopyWithoutHoles(ms[0].val);
      CopyMembersWithoutHoles(ms[1..]);
      if !ms[0].val.Undefined? {
        CopyMembersStep(ms);
      }
    }
  }

  /** A JSON copy prints as the original exactly when no array slot is undefined. */
  lemma CopyPrintsAlike(v: Value)
    ensures StableString(JsonCopy(v)) == StableString(v) <==> Holes(v) == 0
  {
    CopyLength(v);
    if Holes(v) == 0 {
      CopyWithoutHoles(v);
    }
  }

  // ------------------------------------------------------------------
  // Versions
  // ------------------------------------------------------------------

  datatype Version = Version(definition: Value, inputContract: Value, checksum: Text)

  const DEFINITION_KEY: Text := [0x64, 0x65, 0x66, 0x69, 0x6E, 0x69, 0x74, 0x69, 0x6F, 0x6E]
  const INPUT_CONTRACT_KEY: Text :=
    [0x69, 0x6E, 0x70, 0x75, 0x74, 0x43, 0x6F, 0x6E, 0x74, 0x72, 0x61, 0x63, 0x74]

  function Checked(definition: Value, inputContract: Value): Value {
    Obj([Keyed(DEFINITION_KEY, definition), Keyed(INPUT_CONTRACT_KEY, inputContract)])
  }

  function DefinitionChecksum(sha: Text -> Text, definition: Value, inputContract: Value): Text {
    sha(StableString(Checked(definition, inputContract)))
  }

  predicate VerifyVersionChecksum(sha: Text -> Text, v: Version) {
    DefinitionChecksum(sha, v.definition, v.inputContract) == v.checksum
  }

  function BuildVersion(sha: Text -> Text, definition: Value, inputContract: Value): Version {
    Version(definition, inputContract, DefinitionChecksum(sha, definition, inputContract))
  }

  /** What the store hands back for a version it was given. */
  function SavedAndLoaded(v: Version): Version {
    v.(definition := JsonCopy(v.definition), inputContract := JsonCopy(v.inputContract))
  }

  ghost predicate Injective(f: Text -> Text) {
    forall a, b :: f(a) == f(b) ==> a == b
  }

  lemma HolesOfChecked(d: Value, c: Value)
    requires !d.Undefined? && !c.Undefined?
    ensures Holes(Checked(d, c)) == Holes(d) + Holes(c)
    ensures JsonCopy(Checked(d, c)) == Checked(JsonCopy(d), JsonCopy(c))
  {
    var ms := Checked(d, c).members;
    assert ms[1..] == [Keyed(INPUT_CONTRACT_KEY, c)] && ms[1..][1..] == [];
    assert MemberHoles(ms) == Holes(d) + MemberHoles(ms[1..]);
    assert CopyMembers(ms) == [Keyed(DEFINITION_KEY, JsonCopy(d))] + CopyMembers(ms[1..]);
  }

  /** A version that was saved and loaded still verifies, unless its content has an
      undefined array slot; and then it never does, the hash being collision-free. */
  lemma SavedVersionVerifies(sha: Text -> Text, d: Value, c: Value)
    requires !d.Undefined? && !c.Undefined?
    ensures Holes(d) == 0 && Holes(c) == 0 ==>
              VerifyVersionChecksum(sha, SavedAndLoaded(BuildVersion(sha, d, c)))
    ensures Injective(sha) && VerifyVersionChecksum(sha, SavedAndLoaded(BuildVersion(sha, d, c))) ==>
              Holes(d) == 0 && Holes(c) == 0
  {
    HolesOfChecked(d, c);
    CopyPrintsAlike(Checked(d, c));
  }

  /** The two parts of a version that the checksum covers, by their names. */
  lemma KeysSpelledOut(d: Value, c: Value)
    ensures Checked(d, c).Obj? && |Checked(d, c).members| == 2
    ensures Spelled(Checked(d, c).members[0].key, "definition") && Checked(d, c).members[0].val == d
    ensures Spelled(Checked(d, c).members[1].key, "inputContract") && Checked(d, c).members[1].val == c
  {
  }

  lemma KeysDiffer()
    ensures DEFINITION_KEY != INPUT_CONTRACT_KEY
  {
    assert |DEFINITION_KEY| != |INPUT_CONTRACT_KEY|;
  }

  lemma FoundAt(m: Keyed<Value>, b: seq<Keyed<Value>>, i: nat)
    requires i < |b| && b[i].key == m.key && !b[i].val.Undefined?
    requires forall j :: 0 <= j < |b| && j != i ==> b[j].key != m.key
    ensures Found(m, b) <==> Same(m.val, b[i].val)
  {
    hide Same;
  }

  lemma SameObjects(a: seq<Keyed<Value>>, b: seq<Keyed<Value>>)
    requires |a| == |b| == 2 && !a[0].val.Undefined? && !a[1].val.Undefined? && HasKeysOf(a, b)
    ensures Same(Obj(a), Obj(b)) <==> Found(a[0], b) && Found(a[1], b)
  {
    hide Found, HasKeysOf;
  }

  lemma SamePair(k: Text, l: Text, d: Value, c: Value, d': Value, c': Value)
    requires k != l && !d.Undefined? && !c.Undefined? && !d'.Undefined? && !c'.Undefined?
    ensures Same(Obj([Keyed(k, d), Keyed(l, c)]), Obj([Keyed(k, d'), Keyed(l, c')])) <==> Same(d, d') && Same(c, c')
  {
    hide Same, Found;
    var a, b := [Keyed(k, d), Keyed(l, c)], [Keyed(k, d'), Keyed(l, c')];
    assert a[0].key == b[0].key && a[1].key == b[1].key;
    FoundAt(a[0], b, 0);
    FoundAt(a[1], b, 1);
    SameObjects(a, b);
  }

  lemma SameChecked(d: Value, c: Value, d': Value, c': Value)
    requires !d.Undefined? && !c.Undefined? && !d'.Undefined? && !c'.Undefined?
    ensures Same(Checked(d, c), Checked(d', c')) <==> Same(d, d') && Same(c, c')
  {
    hide Same;
    KeysDiffer();
    SamePair(DEFINITION_KEY, INPUT_CONTRACT_KEY, d, c, d', c');
  }

  /** Replacing a stored definition or contract goes unnoticed exactly when the
      replacement is the same JSON value, the hash being collision-free. */
  lemma TamperingIsDetected(sha: Text -> Text, d: Value, c: Value, d': Value, c': Value)
    requires Injective(sha)
    requires !d.Undefined? && !c.Undefined? && !d'.Undefined? && !c'.Undefined?
    requires WellFormed(d) && WellFormed(c) && WellFormed(d') && WellFormed(c')
    requires Holes(d) == 0 && Holes(c) == 0 && Holes(d') == 0 && Holes(c') == 0
    ensures VerifyVersionChecksum(sha, BuildVersion(sha, d, c).(definition := d', inputContract := c')) <==>
            Same(d, d') && Same(c, c')
  {
    hide Same, StableString, Holes;
    CheckedWellFormed(d, c);
    CheckedWellFormed(d', c');
    SameChecked(d, c, d', c');
    StableStringIsCanonical(Checked(d, c), Checked(d', c'));
  }

  lemma CheckedWellFormed(d: Value, c: Value)
    requires !d.Undefined? && !c.Undefined? && WellFormed(d) && WellFormed(c) && Holes(d) == 0 && Holes(c) == 0
    ensures WellFormed(Checked(d, c)) && Holes(Checked(d, c)) == 0
  {
    KeysDiffer();
    HolesOfChecked(d, c);
    var ms := Checked(d, c).members;
    assert WellFormed(ms[0].val) && WellFormed(ms[1].val);
  }
}
