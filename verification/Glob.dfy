/**
 The resource-pattern matcher of triggers (`globMatch`), measured against the
 textbook glob language in which a star stands for any run of characters.
 */
module Glob {

  // ------------------------------------------------------------------
  // The textbook language
  // ------------------------------------------------------------------

  ghost predicate Language(pattern: string, value: string)
    decreases |pattern|, 0
  {
    if pattern == [] then value == []
    else if pattern[0] == '*' then SomeSuffix(pattern[1..], value)
    else value != [] && value[0] == pattern[0] && Language(pattern[1..], value[1..])
  }

  ghost predicate SomeSuffix(pattern: string, value: string)
    decreases |pattern|, 1
  {
    exists k :: 0 <= k <= |value| && Language(pattern, value[k..])
  }

  // ------------------------------------------------------------------
  // Strings as the source uses them
  // ------------------------------------------------------------------

  /** pattern.split("*") */
  function Split(pattern: string): (parts: seq<string>)
    ensures parts != []
    ensures |parts| == 1 <==> '*' !in pattern
    ensures |parts| == 1 ==> parts[0] == pattern
  {
    if pattern == [] then [""]
    else
      var rest := Split(pattern[1..]);
      if pattern[0] == '*' then [""] + rest
      else [[pattern[0]] + rest[0]] + rest[1..]
  }

  /** parts.join("*") */
  function JoinStars(parts: seq<string>): string
    requires parts != []
  {
    if |parts| == 1 then parts[0] else parts[0] + "*" + JoinStars(parts[1..])
  }

  lemma JoinStar(rest: seq<string>)
    requires rest != []
    ensures JoinStars([""] + rest) == "*" + JoinStars(rest)
  {
    assert ([""] + rest)[1..] == rest;
    assert "" + "*" == "*";
  }

  lemma JoinLetter(c: char, rest: seq<string>)
    requires rest != []
    ensures JoinStars([[c] + rest[0]] + rest[1..]) == [c] + JoinStars(rest)
  {
    assert ([[c] + rest[0]] + rest[1..])[1..] == rest[1..];
  }

  /** The parts of a pattern, joined with stars, are the pattern, and hold no star. */
  lemma {:induction false} SplitThenJoin(pattern: string)
    ensures JoinStars(Split(pattern)) == pattern
    ensures forall i :: 0 <= i < |Split(pattern)| ==> '*' !in Split(pattern)[i]
  {
    hide JoinStars;
    if pattern == [] {
      assert JoinStars([""]) == "" by { JoinOne(""); }
    } else {
      SplitThenJoin(pattern[1..]);
      var rest := Split(pattern[1..]);
      if pattern[0] == '*' {
        JoinStar(rest);
      } else {
        JoinLetter(pattern[0], rest);
      }
      assert pattern == [pattern[0]] + pattern[1..];
    }
  }

  lemma JoinOne(part: string)
    ensures JoinStars([part]) == part
  {
  }

  /** No other list of star-free parts joins to the pattern. */
  lemma {:induction false} JoinThenSplit(parts: seq<string>)
    requires parts != [] && forall i :: 0 <= i < |parts| ==> '*' !in parts[i]
    ensures Split(JoinStars(parts)) == parts
    decreases |parts|, |parts[0]|
  {
    var joined := JoinStars(parts);
    if parts[0] != "" {
      var c, shorter := parts[0][0], [parts[0][1..]] + parts[1..];
      JoinThenSplit(shorter);
      assert joined[0] == c && c in parts[0];
      assert shorter[1..] == parts[1..];
      assert joined[1..] == JoinStars(shorter);
      assert parts[0] == [c] + parts[0][1..];
      assert parts == [parts[0]] + parts[1..];
    } else if |parts| > 1 {
      JoinThenSplit(parts[1..]);
      assert joined[0] == '*' && joined[1..] == JoinStars(parts[1..]);
      assert parts == [""] + parts[1..];
    }
  }

  predicate OccursAt(value: string, part: string, k: nat) {
    k + |part| <= |value| && value[k..k + |part|] == part
  }

  predicate StartsWith(value: string, prefix: string) {
    OccursAt(value, prefix, 0)
  }

  predicate EndsWith(value: string, suffix: string) {
    |suffix| <= |value| && OccursAt(value, suffix, |value| - |suffix|)
  }

  /** value.indexOf(part, from) */
  method IndexOf(value: string, part: string, from: nat) returns (k: int)
    ensures k == -1 || k >= from
    ensures k >= 0 ==> OccursAt(value, part, k)
    ensures forall j: nat :: from <= j && (k == -1 || j < k) ==> !OccursAt(value, part, j)
  {
    k := from;
    while k + |part| <= |value|
      invariant k >= from
      invariant forall j: nat :: from <= j < k ==> !OccursAt(value, part, j)
    {
      if value[k..k + |part|] == part {
        return;
      }
      k := k + 1;
    }
    k := -1;
  }

  // ------------------------------------------------------------------
  // Placing the pieces of a pattern
  // ------------------------------------------------------------------

  function NonEmpty(parts: seq<string>): seq<string> {
    if parts == [] then []
    else (if parts[0] == "" then [] else [parts[0]]) + NonEmpty(parts[1..])
  }

  lemma NonEmptyStep(parts: seq<string>, i: nat)
    requires i < |parts|
    ensures parts[i] == "" ==> NonEmpty(parts[i..]) == NonEmpty(parts[i + 1..])
    ensures parts[i] != "" ==>
              && NonEmpty(parts[i..]) == [parts[i]] + NonEmpty(parts[i + 1..])
              && NonEmpty(parts[i..])[1..] == NonEmpty(parts[i + 1..])
  {
    assert parts[i..][1..] == parts[i + 1..];
  }

  /** pos places the pieces in order, without overlap, from index `from` on. */
  ghost predicate Placement(ps: seq<string>, value: string, from: nat, pos: seq<nat>) {
    && |pos| == |ps|
    && (forall i :: 0 <= i < |ps| ==> pos[i] >= from && OccursAt(value, ps[i], pos[i]))
    && (forall i, j :: 0 <= i < j < |ps| ==> pos[i] + |ps[i]| <= pos[j])
  }

  ghost predicate Placeable(ps: seq<string>, value: string, from: nat) {
    exists pos :: Placement(ps, value, from, pos)
  }

  /** Taking the first occurrence of the first piece loses nothing. */
  lemma GreedyStep(ps: seq<string>, value: string, from: nat, k: nat)
    requires ps != [] && from <= k && OccursAt(value, ps[0], k)
    requires forall j: nat :: from <= j < k ==> !OccursAt(value, ps[0], j)
    ensures Placeable(ps, value, from) <==> Placeable(ps[1..], value, k + |ps[0]|)
  {
    if Placeable(ps, value, from) {
      var pos :| Placement(ps, value, from, pos);
      assert OccursAt(value, ps[0], pos[0]);
      assert Placement(ps[1..], value, k + |ps[0]|, pos[1..]);
    }
    if Placeable(ps[1..], value, k + |ps[0]|) {
      var pos :| Placement(ps[1..], value, k + |ps[0]|, pos);
      Prepend(ps, value, from, k, pos);
    }
  }

  lemma Prepend(ps: seq<string>, value: string, from: nat, k: nat, pos: seq<nat>)
    requires ps != [] && from <= k && OccursAt(value, ps[0], k)
    requires Placement(ps[1..], value, k + |ps[0]|, pos)
    ensures Placement(ps, value, from, [k] + pos)
  {
    hide OccursAt;
    assert forall i :: 0 < i < |ps| ==> ps[i] == ps[1..][i - 1] && ([k] + pos)[i] == pos[i - 1];
  }

  lemma NothingToPlace(value: string, from: nat)
    ensures Placeable([], value, from)
  {
    assert Placement([], value, from, []);
  }

  lemma NoOccurrence(ps: seq<string>, value: string, from: nat)
    requires ps != [] && forall j: nat :: from <= j ==> !OccursAt(value, ps[0], j)
    ensures !Placeable(ps, value, from)
  {
    forall pos
      ensures !Placement(ps, value, from, pos)
    {
      if |pos| == |ps| {
        assert pos[0] >= from ==> !OccursAt(value, ps[0], pos[0]);
      }
    }
  }

  /** What the matcher decides, pattern by pattern. */
  ghost predicate Accepts(pattern: string, value: string) {
    var parts := Split(pattern);
    if |parts| == 1 then pattern == value
    else if |parts| == 2 then StartsWith(value, parts[0]) && EndsWith(value, parts[1])
    else Placeable(NonEmpty(parts), value, 0)
  }

  method GlobMatch(pattern: string, value: string) returns (r: bool)
    ensures r <==> Accepts(pattern, value)
  {
    if pattern == "*" {
      assert pattern[1..] == "" && Split(pattern) == ["", ""];
      return true;
    }
    if '*' !in pattern {
      return pattern == value;
    }
    var parts := Split(pattern);
    if |parts| == 2 {
      if parts[0] != "" && !StartsWith(value, parts[0]) {
        return false;
      }
      if parts[1] != "" && !EndsWith(value, parts[1]) {
        return false;
      }
      return true;
    }
    var idx: nat := 0;
    assert parts[0..] == parts;
    for i := 0 to |parts|
      invariant Accepts(pattern, value) <==> Placeable(NonEmpty(parts[i..]), value, idx)
    {
      var part := parts[i];
      NonEmptyStep(parts, i);
      if part != "" {
        var found := IndexOf(value, part, idx);
        if found == -1 {
          NoOccurrence(NonEmpty(parts[i..]), value, idx);
          return false;
        }
        GreedyStep(NonEmpty(parts[i..]), value, idx, found);
        idx := found + |part|;
      }
    }
    NothingToPlace(value, idx);
    return true;
  }

  // ------------------------------------------------------------------
  // The language, piece by piece
  // ------------------------------------------------------------------

  /** value[from..] is in the language of the pattern with these parts. */
  ghost predicate PartsMatch(parts: seq<string>, value: string, from: nat)
    requires parts != []
    decreases |parts|, 0
  {
    && OccursAt(value, parts[0], from)
    && if |parts| == 1 then from + |parts[0]| == |value|
       else MatchLater(parts[1..], value, from + |parts[0]|)
  }

  ghost predicate MatchLater(parts: seq<string>, value: string, from: nat)
    requires parts != []
    decreases |parts|, 1
  {
    exists k :: from <= k <= |value| && PartsMatch(parts, value, k)
  }

  lemma FirstCharacter(c: char, r: seq<string>, value: string, from: nat)
    requires r != []
    ensures PartsMatch([[c] + r[0]] + r[1..], value, from) <==>
            from < |value| && value[from] == c && PartsMatch(r, value, from + 1)
  {
    hide OccursAt, MatchLater;
    var parts := [[c] + r[0]] + r[1..];
    assert parts[0] == [c] + r[0] && parts[1..] == r[1..] && |parts| == |r|;
    OccursCons(value, c, r[0], from);
    if |r| > 1 {
      assert MatchLater(parts[1..], value, from + |parts[0]|) <==> MatchLater(r[1..], value, from + 1 + |r[0]|);
    }
  }

  lemma OccursCons(value: string, c: char, part: string, from: nat)
    ensures OccursAt(value, [c] + part, from) <==>
            from < |value| && value[from] == c && OccursAt(value, part, from + 1)
  {
    var m := from + 1 + |part|;
    if m <= |value| {
      var w := value[from..m];
      assert w == [value[from]] + w[1..] && w[1..] == value[from + 1..m];
      assert ([c] + part)[1..] == part && ([c] + part)[0] == c;
    }
  }

  lemma {:induction false} LanguageByParts(pattern: string, value: string, from: nat)
    requires from <= |value|
    ensures Language(pattern, value[from..]) <==> PartsMatch(Split(pattern), value, from)
    decreases |pattern|
  {
    hide OccursAt, SomeSuffix, MatchLater, Split, Language;
    if pattern == [] {
      EmptyByParts(value, from);
    } else if pattern[0] == '*' {
      forall k | from <= k <= |value|
        ensures Language(pattern[1..], value[k..]) <==> PartsMatch(Split(pattern[1..]), value, k)
      {
        LanguageByParts(pattern[1..], value, k);
      }
      SuffixByParts(pattern[1..], value, from);
      StarUnfolds(pattern, value, from);
    } else {
      LetterUnfolds(pattern, value, from);
      FirstCharacter(pattern[0], Split(pattern[1..]), value, from);
      if from < |value| {
        LanguageByParts(pattern[1..], value, from + 1);
      }
    }
  }

  lemma EmptyByParts(value: string, from: nat)
    requires from <= |value|
    ensures Language("", value[from..]) <==> PartsMatch(Split(""), value, from)
  {
    EmptyOccurs(value, from);
  }

  lemma StarUnfolds(pattern: string, value: string, from: nat)
    requires from <= |value| && pattern != [] && pattern[0] == '*'
    ensures Language(pattern, value[from..]) <==> SomeSuffix(pattern[1..], value[from..])
    ensures PartsMatch(Split(pattern), value, from) <==> MatchLater(Split(pattern[1..]), value, from)
  {
    hide OccursAt, SomeSuffix, MatchLater;
    EmptyOccurs(value, from);
    assert Split(pattern)[1..] == Split(pattern[1..]);
  }

  lemma LetterUnfolds(pattern: string, value: string, from: nat)
    requires from <= |value| && pattern != [] && pattern[0] != '*'
    ensures Language(pattern, value[from..]) <==>
            from < |value| && value[from] == pattern[0] && Language(pattern[1..], value[from + 1..])
    ensures Split(pattern) == [[pattern[0]] + Split(pattern[1..])[0]] + Split(pattern[1..])[1..]
  {
    hide SomeSuffix;
    if from < |value| {
      assert value[from..][1..] == value[from + 1..];
    }
  }

  lemma EmptyOccurs(value: string, from: nat)
    ensures OccursAt(value, "", from) <==> from <= |value|
  {
  }

  lemma SuffixByParts(pattern: string, value: string, from: nat)
    requires from <= |value|
    requires forall k :: from <= k <= |value| ==>
               (Language(pattern, value[k..]) <==> PartsMatch(Split(pattern), value, k))
    ensures SomeSuffix(pattern, value[from..]) <==> MatchLater(Split(pattern), value, from)
  {
    hide Language, PartsMatch, Split, SomeSuffix, MatchLater;
    if SomeSuffix(pattern, value[from..]) {
      var k := SuffixWitness(pattern, value[from..]);
      assert value[from..][k..] == value[from + k..];
      LaterIntro(Split(pattern), value, from, from + k);
    }
    if MatchLater(Split(pattern), value, from) {
      var k := LaterWitness(Split(pattern), value, from);
      assert value[from..][k - from..] == value[k..];
      SuffixIntro(pattern, value[from..], k - from);
    }
  }

  lemma SuffixWitness(pattern: string, value: string) returns (k: nat)
    requires SomeSuffix(pattern, value)
    ensures k <= |value| && Language(pattern, value[k..])
  {
    k :| 0 <= k <= |value| && Language(pattern, value[k..]);
  }

  lemma SuffixIntro(pattern: string, value: string, k: nat)
    requires k <= |value| && Language(pattern, value[k..])
    ensures SomeSuffix(pattern, value)
  {
  }

  lemma LaterWitness(parts: seq<string>, value: string, from: nat) returns (k: nat)
    requires parts != [] && MatchLater(parts, value, from)
    ensures from <= k <= |value| && PartsMatch(parts, value, k)
  {
    k :| from <= k <= |value| && PartsMatch(parts, value, k);
  }

  lemma LaterIntro(parts: seq<string>, value: string, from: nat, k: nat)
    requires parts != [] && from <= k <= |value| && PartsMatch(parts, value, k)
    ensures MatchLater(parts, value, from)
  {
  }

  lemma {:induction false} PartsMatchPlaces(parts: seq<string>, value: string, from: nat)
    requires parts != [] && PartsMatch(parts, value, from)
    ensures Placeable(NonEmpty(parts), value, from)
    decreases |parts|
  {
    hide OccursAt;
    var ps := NonEmpty(parts[1..]);
    var k := from + |parts[0]|;
    if |parts| > 1 {
      k := LaterWitness(parts[1..], value, k);
      PartsMatchPlaces(parts[1..], value, k);
    } else {
      NothingToPlace(value, k);
    }
    var pos :| Placement(ps, value, k, pos);
    assert Placement(ps, value, from, pos) && Placement(ps, value, from + |parts[0]|, pos);
    NonEmptyStep(parts, 0);
    assert parts[0..] == parts;
    if parts[0] != "" {
      Prepend(NonEmpty(parts), value, from, from, pos);
    }
  }

  /** The last part of a matching pattern ends the value, the first starts it. */
  lemma {:induction false} PartsMatchAnchors(parts: seq<string>, value: string, from: nat)
    requires parts != [] && PartsMatch(parts, value, from)
    ensures OccursAt(value, parts[0], from)
    ensures EndsWith(value, parts[|parts| - 1])
    decreases |parts|
  {
    if |parts| > 1 {
      var k := LaterWitness(parts[1..], value, from + |parts[0]|);
      PartsMatchAnchors(parts[1..], value, k);
    }
  }

  /** With nothing after the last star, a placement of the pieces is a match that
      starts where it likes. */
  lemma {:induction false} PlacementMatches(parts: seq<string>, value: string, from: nat) returns (k: nat)
    requires parts != [] && parts[|parts| - 1] == "" && from <= |value|
    requires Placeable(NonEmpty(parts), value, from)
    ensures from <= k <= |value| && PartsMatch(parts, value, k)
    decreases |parts|
  {
    hide OccursAt;
    NonEmptyStep(parts, 0);
    assert parts[0..] == parts;
    if |parts| == 1 {
      k := |value|;
      EmptyOccurs(value, k);
    } else if parts[0] == "" {
      k := PlacementMatches(parts[1..], value, from);
      EmptyOccurs(value, k);
    } else {
      k := FirstPlaced(NonEmpty(parts), value, from);
      var m := PlacementMatches(parts[1..], value, k + |parts[0]|);
    }
  }

  lemma FirstPlaced(ps: seq<string>, value: string, from: nat) returns (k: nat)
    requires ps != [] && Placeable(ps, value, from)
    ensures k >= from && OccursAt(value, ps[0], k) && k + |ps[0]| <= |value|
    ensures Placeable(ps[1..], value, k + |ps[0]|)
  {
    var pos :| Placement(ps, value, from, pos);
    k := pos[0];
    assert OccursAt(value, ps[0], k);
    assert Placement(ps[1..], value, k + |ps[0]|, pos[1..]);
  }

  // ------------------------------------------------------------------
  // The matcher against the language
  // ------------------------------------------------------------------

  lemma LanguageIsParts(pattern: string, value: string)
    ensures Language(pattern, value) <==> PartsMatch(Split(pattern), value, 0)
  {
    assert value[0..] == value;
    LanguageByParts(pattern, value, 0);
  }

  /** The matcher never misses: whatever the textbook language holds, it accepts. */
  lemma NeverMisses(pattern: string, value: string)
    requires Language(pattern, value)
    ensures Accepts(pattern, value)
  {
    LanguageIsParts(pattern, value);
    var parts := Split(pattern);
    PartsMatchPlaces(parts, value, 0);
    PartsMatchAnchors(parts, value, 0);
    if |parts| == 1 {
      assert value[0..|value|] == value;
    }
  }

  /** With at most one star the matcher is exact, except that with one star it
      also accepts values too short to hold the prefix and the suffix apart. */
  lemma ExactWithOneStar(pattern: string, value: string)
    requires |Split(pattern)| <= 2
    ensures var parts := Split(pattern);
            (Accepts(pattern, value) <==> Language(pattern, value)) <==>
            !(|parts| == 2 && StartsWith(value, parts[0]) && EndsWith(value, parts[1]) &&
              |value| < |parts[0]| + |parts[1]|)
  {
    LanguageIsParts(pattern, value);
    var parts := Split(pattern);
    if |parts| == 1 {
      assert value[0..|value|] == value;
    } else {
      assert parts[1..] == [parts[1]];
      TwoPartsMatch(parts[0], parts[1], value);
      assert parts == [parts[0], parts[1]];
    }
  }

  /** The overlap at work: one letter stands for both ends of the pattern. */
  lemma OverlapIsAccepted()
    ensures Accepts("a*a", "a") && !Language("a*a", "a")
  {
    var p := "a*a";
    assert p[1..] == "*a" && p[2..] == "a" && p[1..][1..] == p[2..] && p[2..][1..] == "";
    assert Split("a") == ["a"];
    assert Split("*a") == ["", "a"];
    assert Split(p) == ["a", "a"];
    ExactWithOneStar(p, "a");
  }

  lemma OccursInside(value: string, part: string, k: nat)
    requires OccursAt(value, part, k)
    ensures k + |part| <= |value|
  {
  }

  lemma TwoPartsMatch(a: string, b: string, value: string)
    ensures PartsMatch([a, b], value, 0) <==>
            StartsWith(value, a) && EndsWith(value, b) && |a| + |b| <= |value|
  {
    hide MatchLater, OccursAt;
    assert [a, b][1..] == [b];
    if PartsMatch([a, b], value, 0) {
      var k := LaterWitness([b], value, |a|);
      OccursInside(value, a, 0);
    } else if |a| + |b| <= |value| && EndsWith(value, b) {
      LaterIntro([b], value, |a|, |value| - |b|);
    }
  }

  ghost function Glue(parts: seq<string>): string {
    if parts == [] then [] else parts[0] + Glue(parts[1..])
  }

  lemma {:induction false} GluePlaces(parts: seq<string>, before: string, after: string)
    ensures Placeable(NonEmpty(parts), before + Glue(parts) + after, |before|)
  {
    hide OccursAt;
    var value := before + Glue(parts) + after;
    if parts == [] {
      NothingToPlace(value, |before|);
    } else {
      GluePlaces(parts[1..], before + parts[0], after);
      assert value == before + parts[0] + Glue(parts[1..]) + after;
      PartInPlace(before, parts[0], Glue(parts[1..]) + after);
      assert before + parts[0] + (Glue(parts[1..]) + after) == value;
      var pos :| Placement(NonEmpty(parts[1..]), value, |before| + |parts[0]|, pos);
      NonEmptyStep(parts, 0);
      assert parts[0..] == parts;
      if parts[0] != "" {
        Prepend(NonEmpty(parts), value, |before|, |before|, pos);
      }
    }
  }

  lemma PartInPlace(before: string, part: string, after: string)
    ensures OccursAt(before + part + after, part, |before|)
  {
  }

  ghost predicate ExactOn(pattern: string, value: string) {
    Accepts(pattern, value) <==> Language(pattern, value)
  }

  /** A value the matcher accepts although it does not end, or start, as the
      pattern demands. */
  lemma UnanchoredWitness(pattern: string) returns (value: string)
    requires |Split(pattern)| > 2
    requires var parts := Split(pattern); parts[0] != "" || parts[|parts| - 1] != ""
    ensures !ExactOn(pattern, value)
  {
    var parts := Split(pattern);
    var last := parts[|parts| - 1];
    if last != "" {
      var c := if last[|last| - 1] == 'a' then 'b' else 'a';
      value := "" + Glue(parts) + [c];
      GluePlaces(parts, "", [c]);
      LanguageIsParts(pattern, value);
      assert !EndsWith(value, last) by {
        if |last| <= |value| {
          assert value[|value| - |last|..|value|][|last| - 1] == c;
        }
      }
      if PartsMatch(parts, value, 0) {
        PartsMatchAnchors(parts, value, 0);
      }
    } else {
      var first := parts[0];
      var c := if first[0] == 'a' then 'b' else 'a';
      value := [c] + Glue(parts) + "";
      GluePlaces(parts, [c], "");
      var pos :| Placement(NonEmpty(parts), value, 1, pos);
      assert Placement(NonEmpty(parts), value, 0, pos);
      LanguageIsParts(pattern, value);
      assert !OccursAt(value, first, 0) by {
        if |first| <= |value| {
          assert value[0..|first|][0] == c;
        }
      }
    }
  }

  /** With two or more stars the matcher is exact on every value precisely for the
      patterns that begin and end with a star. */
  lemma ExactWithManyStars(pattern: string)
    requires |Split(pattern)| > 2
    ensures (forall value :: ExactOn(pattern, value)) <==>
            var parts := Split(pattern); parts[0] == "" && parts[|parts| - 1] == ""
  {
    var parts := Split(pattern);
    if parts[0] == "" && parts[|parts| - 1] == "" {
      forall value
        ensures ExactOn(pattern, value)
      {
        LanguageIsParts(pattern, value);
        if Language(pattern, value) {
          NeverMisses(pattern, value);
        }
        if Accepts(pattern, value) {
          assert NonEmpty(parts) == NonEmpty(parts[1..]);
          var k := PlacementMatches(parts[1..], value, 0);
          assert OccursAt(value, "", 0);
          assert PartsMatch(parts, value, 0);
        }
      }
    } else {
      var value := UnanchoredWitness(pattern);
    }
  }
}
