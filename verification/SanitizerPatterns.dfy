/**
 The regular expressions of the sanitizer, with the meaning regular expressions have, and
 that the sanitizer's tests are exactly these.
 */
module SanitizerPatterns {
  import opened JsValues
  import opened Sanitizer

  /** The classes of code units the expressions use; `Letter` is one given lower-case letter
      or other unit, `AnyLetter` is [a-z]. */
  datatype Class = Dot | Separator | Letter(c: CodeUnit) | AnyLetter | Url

  datatype Re =
    | Empty
    | One(units: Class)
    | Then(first: Re, second: Re)
    | Maybe(re: Re)
    | AtLeast(n: nat, units: Class)

  /** Membership, letter case aside if `fold` is set. */
  predicate InClass(units: Class, c: CodeUnit, fold: bool) {
    match units
    case Dot => c != 0x0A && c != 0x0D && c != 0x2028 && c != 0x2029
    case Separator => c == 0x5F || c == 0x2D
    case Letter(l) => c == l || (fold && 0x41 <= c <= 0x5A && c + 0x20 == l)
    case AnyLetter => 0x61 <= c <= 0x7A || (fold && 0x41 <= c <= 0x5A)
    case Url => 0x41 <= c <= 0x5A || 0x61 <= c <= 0x7A || 0x30 <= c <= 0x39 || c == 0x5F || c == 0x2D
  }

  /** The whole text matches, as with ^ and $. */
  ghost predicate Matches(re: Re, s: Text, fold: bool)
    decreases re
  {
    match re
    case Empty => s == []
    case One(units) => |s| == 1 && InClass(units, s[0], fold)
    case Then(first, second) => exists k :: 0 <= k <= |s| && Matches(first, s[..k], fold) && Matches(second, s[k..], fold)
    case Maybe(r) => s == [] || Matches(r, s, fold)
    case AtLeast(n, units) => |s| >= n && forall i :: 0 <= i < |s| ==> InClass(units, s[i], fold)
  }

  function Word(w: Text): Re {
    if w == [] then Empty else Then(One(Letter(w[0])), Word(w[1..]))
  }

  /** (.*[_-]?)? */
  const BEFORE := Maybe(Then(AtLeast(0, Dot), Maybe(One(Separator))))

  /** ([_-]?.*)? */
  const AFTER := Maybe(Then(Maybe(One(Separator)), AtLeast(0, Dot)))

  /** The pattern of a secret word, to be used without regard to case. */
  function KeyPattern(w: Text): Re {
    Then(BEFORE, Then(Word(w), AFTER))
  }

  /** vc_[a-z]+_[A-Za-z0-9_-]{20,} */
  function ApiKeyPattern(): Re {
    Then(Word([0x76, 0x63, 0x5F]), Then(AtLeast(1, AnyLetter), Then(One(Letter(0x5F)), AtLeast(20, Url))))
  }

  // ------------------------------------------------------------------
  // The parts
  // ------------------------------------------------------------------

  ghost predicate OnOneLine(s: Text) {
    forall i :: 0 <= i < |s| ==> !LineTerminator(s[i])
  }

  lemma BeforeIsOneLine(s: Text, fold: bool)
    ensures Matches(BEFORE, s, fold) <==> OnOneLine(s)
  {
    var inner := Then(AtLeast(0, Dot), Maybe(One(Separator)));
    if OnOneLine(s) {
      assert s[..|s|] == s && s[|s|..] == [];
      assert Matches(AtLeast(0, Dot), s[..|s|], fold) && Matches(Maybe(One(Separator)), s[|s|..], fold);
      assert Matches(inner, s, fold);
    }
    if s != [] && Matches(inner, s, fold) {
      var k :| 0 <= k <= |s| && Matches(AtLeast(0, Dot), s[..k], fold) && Matches(Maybe(One(Separator)), s[k..], fold);
      forall i | 0 <= i < |s|
        ensures !LineTerminator(s[i])
      {
        if i < k {
          assert s[..k][i] == s[i];
        } else {
          assert s[k..][i - k] == s[i];
        }
      }
    }
  }

  lemma AfterIsOneLine(s: Text, fold: bool)
    ensures Matches(AFTER, s, fold) <==> OnOneLine(s)
  {
    var inner := Then(Maybe(One(Separator)), AtLeast(0, Dot));
    if OnOneLine(s) {
      assert s[..0] == [] && s[0..] == s;
      assert Matches(Maybe(One(Separator)), s[..0], fold) && Matches(AtLeast(0, Dot), s[0..], fold);
      assert Matches(inner, s, fold);
    }
    if s != [] && Matches(inner, s, fold) {
      var k :| 0 <= k <= |s| && Matches(Maybe(One(Separator)), s[..k], fold) && Matches(AtLeast(0, Dot), s[k..], fold);
      forall i | 0 <= i < |s|
        ensures !LineTerminator(s[i])
      {
        if i < k {
          assert s[..k][i] == s[i];
        } else {
          assert s[k..][i - k] == s[i];
        }
      }
    }
  }

  /** A word of lower-case letters and marks matches letter by letter. */
  ghost predicate IsWord(w: Text) {
    forall i :: 0 <= i < |w| ==> 0x61 <= w[i] <= 0x7A || w[i] == 0x5F
  }

  lemma {:induction false} WordMatches(w: Text, s: Text)
    requires IsWord(w)
    ensures Matches(Word(w), s, true) <==> |s| == |w| && WordAt(s, w, 0)
    decreases |w|
  {
    if w != [] {
      WordSplits(w, s);
      if s != [] {
        WordMatches(w[1..], s[1..]);
      }
    }
  }

  lemma WordSplits(w: Text, s: Text)
    requires w != []
    ensures Matches(Word(w), s, true) <==> s != [] && InClass(Letter(w[0]), s[0], true) && Matches(Word(w[1..]), s[1..], true)
  {
    var one, rest := One(Letter(w[0])), Word(w[1..]);
    assert Word(w) == Then(one, rest);
    hide Word;
    if Matches(Then(one, rest), s, true) {
      var k :| 0 <= k <= |s| && Matches(one, s[..k], true) && Matches(rest, s[k..], true);
      assert k == 1 && s[..k][0] == s[0];
    }
    if s != [] && InClass(Letter(w[0]), s[0], true) && Matches(rest, s[1..], true) {
      assert s[..1] == [s[0]];
      assert Matches(one, s[..1], true);
    }
  }

  // ------------------------------------------------------------------
  // Keys
  // ------------------------------------------------------------------

  /** The word stands at k, on one line with what is before and after it. */
  ghost predicate StandsAt(key: Text, w: Text, k: nat) {
    && k <= |key| && WordAt(key, w, k)
    && (forall i :: 0 <= i < k ==> !LineTerminator(key[i]))
    && (forall i :: k + |w| <= i < |key| ==> !LineTerminator(key[i]))
  }

  lemma KeyPatternIsWordInside(w: Text, key: Text)
    requires IsWord(w)
    ensures Matches(KeyPattern(w), key, true) <==> exists k: nat :: StandsAt(key, w, k)
  {
    hide Matches, BEFORE, AFTER, Word;
    if Matches(KeyPattern(w), key, true) {
      var k := SplitKey(w, key);
      var l := SplitRest(w, key[k..]);
      WordMatches(w, key[k..][..l]);
      BeforeIsOneLine(key[..k], true);
      AfterIsOneLine(key[k..][l..], true);
      PartsStand(w, key, k, l);
    }
    if k: nat :| StandsAt(key, w, k) {
      StandingParts(w, key, k);
      JoinKey(w, key, k);
    }
  }

  lemma SplitKey(w: Text, key: Text) returns (k: nat)
    requires Matches(KeyPattern(w), key, true)
    ensures k <= |key| && Matches(BEFORE, key[..k], true) && Matches(Then(Word(w), AFTER), key[k..], true)
  {
    k :| 0 <= k <= |key| && Matches(BEFORE, key[..k], true) && Matches(Then(Word(w), AFTER), key[k..], true);
  }

  lemma SplitRest(w: Text, s: Text) returns (l: nat)
    requires Matches(Then(Word(w), AFTER), s, true)
    ensures l <= |s| && Matches(Word(w), s[..l], true) && Matches(AFTER, s[l..], true)
  {
    l :| 0 <= l <= |s| && Matches(Word(w), s[..l], true) && Matches(AFTER, s[l..], true);
  }

  lemma PartsStand(w: Text, key: Text, k: nat, l: nat)
    requires k <= |key| && l <= |key| - k && l == |w| && WordAt(key[k..][..l], w, 0)
    requires OnOneLine(key[..k]) && OnOneLine(key[k..][l..])
    ensures StandsAt(key, w, k)
  {
    assert forall i :: 0 <= i < l ==> key[k..][..l][i] == key[k + i];
    assert forall i :: 0 <= i < k ==> key[..k][i] == key[i];
    forall i | k + l <= i < |key|
      ensures !LineTerminator(key[i])
    {
      assert key[k..][l..][i - k - l] == key[i];
    }
  }

  lemma StandingParts(w: Text, key: Text, k: nat)
    requires StandsAt(key, w, k)
    ensures k + |w| <= |key| && WordAt(key[k..][..|w|], w, 0) && |key[k..][..|w|]| == |w|
    ensures OnOneLine(key[..k]) && OnOneLine(key[k..][|w|..])
  {
    assert forall i :: 0 <= i < |w| ==> key[k..][..|w|][i] == key[k + i];
  }

  lemma JoinKey(w: Text, key: Text, k: nat)
    requires IsWord(w) && k + |w| <= |key| && WordAt(key[k..][..|w|], w, 0)
    requires OnOneLine(key[..k]) && OnOneLine(key[k..][|w|..])
    ensures Matches(KeyPattern(w), key, true)
  {
    WordMatches(w, key[k..][..|w|]);
    BeforeIsOneLine(key[..k], true);
    AfterIsOneLine(key[k..][|w|..], true);
    assert Matches(Then(Word(w), AFTER), key[k..], true);
  }

  const SPELLED: seq<string> := ["secret", "password", "passwd", "credential", "token", "apikey", "api_key",
                                 "accesstoken", "authorization", "privatekey", "bearer"]

  lemma WordIsSpelled(i: nat)
    requires i < 11
    ensures Spelled(SECRET_WORDS[i], SPELLED[i]) && IsWord(SECRET_WORDS[i])
  {
    var w, t := SECRET_WORDS[i], SPELLED[i];
  }

  /** The secret words, spelled out. */
  lemma WordsSpelledOut()
    ensures |SECRET_WORDS| == |SPELLED| == 11
    ensures forall i :: 0 <= i < 11 ==> Spelled(SECRET_WORDS[i], SPELLED[i]) && IsWord(SECRET_WORDS[i])
  {
    forall i | 0 <= i < 11
      ensures Spelled(SECRET_WORDS[i], SPELLED[i]) && IsWord(SECRET_WORDS[i])
    {
      WordIsSpelled(i);
    }
  }

  ghost predicate MatchesWord(key: Text, i: nat) {
    i < |SECRET_WORDS| && Matches(KeyPattern(SECRET_WORDS[i]), key, true)
  }

  /** A key is secret exactly if one of the eleven patterns matches it, case aside. */
  lemma SecretKeysMatchAPattern(key: Text)
    ensures IsSecretKey(key) <==> exists i: nat :: MatchesWord(key, i)
  {
    WordsSpelledOut();
    hide SECRET_WORDS, Matches, KeyPattern, WordAt;
    forall i: nat | i < |SECRET_WORDS|
      ensures MatchesWord(key, i) <==> exists k: nat :: StandsAt(key, SECRET_WORDS[i], k)
    {
      KeyPatternIsWordInside(SECRET_WORDS[i], key);
    }
    if IsSecretKey(key) {
      var w, k :|
        && 0 <= w < |SECRET_WORDS| && 0 <= k <= |key| && WordAt(key, SECRET_WORDS[w], k)
        && (forall i :: 0 <= i < k ==> !LineTerminator(key[i]))
        && (forall i :: k + |SECRET_WORDS[w]| <= i < |key| ==> !LineTerminator(key[i]));
      assert StandsAt(key, SECRET_WORDS[w], k);
      assert MatchesWord(key, w);
    }
    if i: nat :| MatchesWord(key, i) {
      var k: nat :| StandsAt(key, SECRET_WORDS[i], k);
    }
  }

  // ------------------------------------------------------------------
  // Values
  // ------------------------------------------------------------------

  ghost predicate ApiKeyAt(s: Text, k: nat) {
    && |s| >= 3 && WordAt(s[..3], [0x76, 0x63, 0x5F], 0) && 4 <= k && k + 21 <= |s| && s[k] == 0x5F
    && (forall i :: 3 <= i < k ==> Lower(LowerCase(s[i])))
    && (forall i :: k < i < |s| ==> UrlChar(s[i]))
  }

  lemma ApiKeyIsAt(s: Text)
    ensures IsApiKey(s) <==> exists k: nat :: ApiKeyAt(s, k)
  {
    if |s| >= 3 {
      var w: Text := [0x76, 0x63, 0x5F];
      var t := s[..3];
      assert w[0] == 0x76 && w[1] == 0x63 && w[2] == 0x5F && t[0] == s[0] && t[1] == s[1] && t[2] == s[2];
      assert WordAt(t, w, 0) <==> LowerCase(t[0]) == w[0] && LowerCase(t[1]) == w[1] && LowerCase(t[2]) == w[2];
    }
    if IsApiKey(s) {
      var k :| 4 <= k && k + 21 <= |s| && s[k] == 0x5F
               && (forall i :: 3 <= i < k ==> Lower(LowerCase(s[i])))
               && (forall i :: k < i < |s| ==> UrlChar(s[i]));
      assert ApiKeyAt(s, k);
    }
  }

  /** What follows vc_ in an API key. */
  function Middle(): Re {
    Then(AtLeast(1, AnyLetter), Tail())
  }

  function Tail(): Re {
    Then(One(Letter(0x5F)), AtLeast(20, Url))
  }

  lemma TailMatches(s: Text)
    ensures Matches(Tail(), s, true) <==> |s| >= 21 && s[0] == 0x5F && forall i :: 0 < i < |s| ==> UrlChar(s[i])
  {
    if Matches(Tail(), s, true) {
      var k :| 0 <= k <= |s| && Matches(One(Letter(0x5F)), s[..k], true) && Matches(AtLeast(20, Url), s[k..], true);
      assert k == 1 && s[..k][0] == s[0];
      assert forall i :: 0 < i < |s| ==> s[k..][i - 1] == s[i];
    }
    if |s| >= 21 && s[0] == 0x5F && forall i :: 0 < i < |s| ==> UrlChar(s[i]) {
      assert s[..1] == [s[0]];
      assert Matches(One(Letter(0x5F)), s[..1], true) && Matches(AtLeast(20, Url), s[1..], true);
    }
  }

  ghost predicate MiddleAt(s: Text, k: nat) {
    && 1 <= k && k + 21 <= |s| && s[k] == 0x5F
    && (forall i :: 0 <= i < k ==> Lower(LowerCase(s[i])))
    && (forall i :: k < i < |s| ==> UrlChar(s[i]))
  }

  lemma MiddleMatches(s: Text)
    ensures Matches(Middle(), s, true) <==> exists k: nat :: MiddleAt(s, k)
  {
    hide Tail;
    if Matches(Middle(), s, true) {
      var k :| 0 <= k <= |s| && Matches(AtLeast(1, AnyLetter), s[..k], true) && Matches(Tail(), s[k..], true);
      TailMatches(s[k..]);
      assert forall i :: 0 <= i < k ==> s[..k][i] == s[i];
      assert forall i :: k <= i < |s| ==> s[k..][i - k] == s[i];
      assert MiddleAt(s, k);
    }
    if k: nat :| MiddleAt(s, k) {
      assert forall i :: 0 <= i < k ==> s[..k][i] == s[i];
      assert forall i :: k <= i < |s| ==> s[k..][i - k] == s[i];
      TailMatches(s[k..]);
      assert Matches(AtLeast(1, AnyLetter), s[..k], true) && Matches(Tail(), s[k..], true);
    }
  }

  lemma ShiftedMiddle(s: Text, k: nat)
    requires |s| >= 3
    ensures MiddleAt(s[3..], k) && WordAt(s[..3], [0x76, 0x63, 0x5F], 0) <==> ApiKeyAt(s, k + 3)
  {
    assert forall i :: 3 <= i < |s| ==> s[3..][i - 3] == s[i];
  }

  /** A value is taken for an API key exactly if the pattern of API keys matches it. */
  lemma ApiKeysMatchThePattern(s: Text)
    ensures IsApiKey(s) <==> Matches(ApiKeyPattern(), s, true)
  {
    hide Matches, Middle, IsApiKey, ApiKeyAt, MiddleAt, Word, WordAt;
    ApiKeyIsAt(s);
    var w: Text := [0x76, 0x63, 0x5F];
    PatternShape();
    if Matches(ApiKeyPattern(), s, true) {
      var l := SplitThen(Word(w), Middle(), s);
      WordMatches(w, s[..l]);
      MiddleMatches(s[l..]);
      var k: nat :| MiddleAt(s[3..], k);
      ShiftedMiddle(s, k);
    }
    if k: nat :| ApiKeyAt(s, k) {
      LongEnough(s, k);
      ShiftedMiddle(s, k - 3);
      MiddleMatches(s[3..]);
      WordMatches(w, s[..3]);
      JoinThen(Word(w), Middle(), s, 3);
    }
  }

  lemma PatternShape()
    ensures ApiKeyPattern() == Then(Word([0x76, 0x63, 0x5F]), Middle())
  {
  }

  lemma LongEnough(s: Text, k: nat)
    requires ApiKeyAt(s, k)
    ensures |s| >= 3 && k >= 3
  {
  }

  lemma SplitThen(a: Re, b: Re, s: Text) returns (l: nat)
    requires Matches(Then(a, b), s, true)
    ensures l <= |s| && Matches(a, s[..l], true) && Matches(b, s[l..], true)
  {
    l :| 0 <= l <= |s| && Matches(a, s[..l], true) && Matches(b, s[l..], true);
  }

  lemma JoinThen(a: Re, b: Re, s: Text, l: nat)
    requires l <= |s| && Matches(a, s[..l], true) && Matches(b, s[l..], true)
    ensures Matches(Then(a, b), s, true)
  {
  }

  ghost predicate Contains(s: Text, low: CodeUnit, high: CodeUnit) {
    exists i :: 0 <= i < |s| && low <= s[i] <= high
  }

  /** A value looks like a secret exactly if it has sixteen code units or more and is an API
      key, or a run of at least thirty-two url characters with an upper-case letter, a
      lower-case letter and a digit. */
  lemma SecretValuesMatchThePatterns(s: Text)
    ensures LooksLikeSecret(s) <==>
              && |s| >= 16
              && (|| Matches(ApiKeyPattern(), s, true)
                  || (&& Matches(AtLeast(32, Url), s, false)
                      && Contains(s, 0x41, 0x5A) && Contains(s, 0x61, 0x7A) && Contains(s, 0x30, 0x39)))
  {
    hide IsApiKey, ApiKeyPattern;
    ApiKeysMatchThePattern(s);
    if IsOpaqueBlob(s) {
      assert Contains(s, 0x41, 0x5A) && Contains(s, 0x61, 0x7A) && Contains(s, 0x30, 0x39);
    }
  }
}
