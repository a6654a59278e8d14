/**
 The audit metadata sanitizer: secret-named members and secret-looking strings
 are replaced at every level, and nesting is cut off below level sixteen.
 */
module Sanitizer {
  import opened JsValues

  const MAX_DEPTH := 16

  /** "[redacted:secret]" */
  const REDACTED: Text :=
    [0x5B, 0x72, 0x65, 0x64, 0x61, 0x63, 0x74, 0x65, 0x64, 0x3A, 0x73, 0x65, 0x63, 0x72, 0x65, 0x74, 0x5D]

  /** "[redacted:depth-limit]" */
  const TOO_DEEP: Text :=
    [0x5B, 0x72, 0x65, 0x64, 0x61, 0x63, 0x74, 0x65, 0x64, 0x3A, 0x64, 0x65, 0x70, 0x74, 0x68, 0x2D,
     0x6C, 0x69, 0x6D, 0x69, 0x74, 0x5D]

  /** secret, password, passwd, credential, token, apikey, api_key, accesstoken,
      authorization, privatekey, bearer */
  const SECRET_WORDS: seq<Text> := [
    [0x73, 0x65, 0x63, 0x72, 0x65, 0x74],
    [0x70, 0x61, 0x73, 0x73, 0x77, 0x6F, 0x72, 0x64],
    [0x70, 0x61, 0x73, 0x73, 0x77, 0x64],
    [0x63, 0x72, 0x65, 0x64, 0x65, 0x6E, 0x74, 0x69, 0x61, 0x6C],
    [0x74, 0x6F, 0x6B, 0x65, 0x6E],
    [0x61, 0x70, 0x69, 0x6B, 0x65, 0x79],
    [0x61, 0x70, 0x69, 0x5F, 0x6B, 0x65, 0x79],
    [0x61, 0x63, 0x63, 0x65, 0x73, 0x73, 0x74, 0x6F, 0x6B, 0x65, 0x6E],
    [0x61, 0x75, 0x74, 0x68, 0x6F, 0x72, 0x69, 0x7A, 0x61, 0x74, 0x69, 0x6F, 0x6E],
    [0x70, 0x72, 0x69, 0x76, 0x61, 0x74, 0x65, 0x6B, 0x65, 0x79],
    [0x62, 0x65, 0x61, 0x72, 0x65, 0x72]]

  // ------------------------------------------------------------------
  // What looks like a secret
  // ------------------------------------------------------------------

  predicate Upper(c: CodeUnit) { 0x41 <= c <= 0x5A }
  predicate Lower(c: CodeUnit) { 0x61 <= c <= 0x7A }
  predicate Digit(c: CodeUnit) { 0x30 <= c <= 0x39 }
  predicate UrlChar(c: CodeUnit) { Upper(c) || Lower(c) || Digit(c) || c == 0x5F || c == 0x2D }
  predicate LineTerminator(c: CodeUnit) { c == 0x0A || c == 0x0D || c == 0x2028 || c == 0x2029 }

  function LowerCase(c: CodeUnit): CodeUnit {
    if Upper(c) then c + 0x20 else c
  }

  /** The word stands at position k, letter case aside. */
  predicate WordAt(key: Text, word: Text, k: nat) {
    k + |word| <= |key| && forall i :: 0 <= i < |word| ==> LowerCase(key[k + i]) == word[i]
  }

  /** Whether one of the key patterns matches: the word anywhere, with no line
      terminator before or after it. */
  predicate IsSecretKey(key: Text) {
    exists w, k ::
      && 0 <= w < |SECRET_WORDS| && 0 <= k <= |key| && WordAt(key, SECRET_WORDS[w], k)
      && (forall i :: 0 <= i < k ==> !LineTerminator(key[i]))
      && (forall i :: k + |SECRET_WORDS[w]| <= i < |key| ==> !LineTerminator(key[i]))
  }

  /** vc_<letters>_<twenty or more url characters> */
  predicate IsApiKey(s: Text) {
    && |s| >= 3 && LowerCase(s[0]) == 0x76 && LowerCase(s[1]) == 0x63 && s[2] == 0x5F
    && exists k :: 4 <= k && k + 21 <= |s| && s[k] == 0x5F
         && (forall i :: 3 <= i < k ==> Lower(LowerCase(s[i])))
         && (forall i :: k < i < |s| ==> UrlChar(s[i]))
  }

  /** A long run of url characters mixing cases and digits. */
  predicate IsOpaqueBlob(s: Text) {
    && |s| >= 32
    && (forall i :: 0 <= i < |s| ==> UrlChar(s[i]))
    && (exists i :: 0 <= i < |s| && Upper(s[i]))
    && (exists i :: 0 <= i < |s| && Lower(s[i]))
    && (exists i :: 0 <= i < |s| && Digit(s[i]))
  }

  predicate LooksLikeSecret(s: Text) {
    |s| >= 16 && (IsApiKey(s) || IsOpaqueBlob(s))
  }

  // ------------------------------------------------------------------
  // Sanitizing
  // ------------------------------------------------------------------

  function SanitizeValue(v: Value, depth: nat): Value
    decreases v, 1
  {
    if depth > MAX_DEPTH then Str(TOO_DEEP)
    else
      match v
      case Str(s) => if LooksLikeSecret(s) then Str(REDACTED) else v
      case Arr(items) => Arr(SanitizeItems(items, depth + 1))
      case Obj(ms) => Obj(SanitizeMembers(ms, depth + 1))
      case _ => v
  }

  function SanitizeItems(items: seq<Value>, depth: nat): seq<Value>
    decreases items, 0
  {
    seq(|items|, i requires 0 <= i < |items| => SanitizeValue(items[i], depth))
  }

  function SanitizeMember(m: Keyed<Value>, depth: nat): Keyed<Value>
    decreases m, 0
  {
    Keyed(m.key, if IsSecretKey(m.key) then Str(REDACTED) else SanitizeValue(m.val, depth))
  }

  function SanitizeMembers(ms: seq<Keyed<Value>>, depth: nat): seq<Keyed<Value>>
    decreases ms, 0
  {
    seq(|ms|, i requires 0 <= i < |ms| => SanitizeMember(ms[i], depth))
  }

  lemma MembersAt(ms: seq<Keyed<Value>>, depth: nat)
    ensures |SanitizeMembers(ms, depth)| == |ms|
    ensures forall i :: 0 <= i < |ms| ==>
              SanitizeMembers(ms, depth)[i] ==
              Keyed(ms[i].key, if IsSecretKey(ms[i].key) then Str(REDACTED) else SanitizeValue(ms[i].val, depth))
  {
    hide IsSecretKey, LooksLikeSecret;
    forall i | 0 <= i < |ms|
      ensures SanitizeMembers(ms, depth)[i] == SanitizeMember(ms[i], depth)
    {
    }
  }

  /** The recursive procedure, which fills a fresh array or object. */
  method Sanitize(v: Value, depth: nat) returns (r: Value)
    ensures r == SanitizeValue(v, depth)
    decreases v
  {
    if depth > MAX_DEPTH {
      return Str(TOO_DEEP);
    }
    match v
    case Str(s) =>
      return if LooksLikeSecret(s) then Str(REDACTED) else v;
    case Arr(items) =>
      var out: seq<Value> := [];
      for i := 0 to |items|
        invariant out == SanitizeItems(items, depth + 1)[..i]
      {
        var item := Sanitize(items[i], depth + 1);
        out := out + [item];
      }
      return Arr(out);
    case Obj(ms) =>
      var out: seq<Keyed<Value>> := [];
      for i := 0 to |ms|
        invariant out == SanitizeMembers(ms, depth + 1)[..i]
      {
        if IsSecretKey(ms[i].key) {
          out := out + [Keyed(ms[i].key, Str(REDACTED))];
        } else {
          var val := Sanitize(ms[i].val, depth + 1);
          out := out + [Keyed(ms[i].key, val)];
        }
      }
      return Obj(out);
    case _ =>
      return v;
  }

  // ------------------------------------------------------------------
  // What sanitized values are like
  // ------------------------------------------------------------------

  /** No secret-looking string and no named secret, at any level. */
  ghost predicate Clean(v: Value) {
    match v
    case Str(s) => !LooksLikeSecret(s)
    case Arr(items) => forall i :: 0 <= i < |items| ==> Clean(items[i])
    case Obj(ms) => forall i :: 0 <= i < |ms| ==>
        Clean(ms[i].val) && (IsSecretKey(ms[i].key) ==> ms[i].val == Str(REDACTED))
    case _ => true
  }

  ghost predicate NestedAtMost(v: Value, n: nat) {
    match v
    case Arr(items) => n > 0 && forall i :: 0 <= i < |items| ==> NestedAtMost(items[i], n - 1)
    case Obj(ms) => n > 0 && forall i :: 0 <= i < |ms| ==> NestedAtMost(ms[i].val, n - 1)
    case _ => true
  }

  lemma PlaceholdersSpelledOut()
    ensures Spelled(REDACTED, "[redacted:secret]") && Spelled(TOO_DEEP, "[redacted:depth-limit]")
  {
  }

  lemma PlaceholdersAreClean()
    ensures !LooksLikeSecret(REDACTED) && !LooksLikeSecret(TOO_DEEP)
  {
    assert !UrlChar(REDACTED[0]) && !UrlChar(TOO_DEEP[0]);
  }

  /** Whatever goes in, what comes out holds no secret and is nested at most
      seventeen deep. */
  lemma {:induction false} SanitizedIsClean(v: Value, depth: nat)
    requires depth <= MAX_DEPTH + 1
    ensures Clean(SanitizeValue(v, depth))
    ensures NestedAtMost(SanitizeValue(v, depth), MAX_DEPTH + 1 - depth)
    decreases v
  {
    hide IsSecretKey, LooksLikeSecret;
    PlaceholdersAreClean();
    if depth <= MAX_DEPTH {
      match v
      case Arr(items) =>
        forall i | 0 <= i < |items|
          ensures Clean(SanitizeValue(items[i], depth + 1))
          ensures NestedAtMost(SanitizeValue(items[i], depth + 1), MAX_DEPTH - depth)
        {
          SanitizedIsClean(items[i], depth + 1);
        }
      case Obj(ms) =>
        MembersAt(ms, depth + 1);
        forall i | 0 <= i < |ms|
          ensures Clean(SanitizeValue(ms[i].val, depth + 1))
          ensures NestedAtMost(SanitizeValue(ms[i].val, depth + 1), MAX_DEPTH - depth)
        {
          SanitizedIsClean(ms[i].val, depth + 1);
        }
      case _ =>
    }
  }

  /** Sanitizing a second time changes nothing. */
  lemma {:induction false} SanitizeIsIdempotent(v: Value, depth: nat)
    ensures SanitizeValue(SanitizeValue(v, depth), depth) == SanitizeValue(v, depth)
    decreases v
  {
    hide IsSecretKey, LooksLikeSecret;
    PlaceholdersAreClean();
    if depth <= MAX_DEPTH {
      match v
      case Arr(items) =>
        forall i | 0 <= i < |items|
          ensures SanitizeValue(SanitizeValue(items[i], depth + 1), depth + 1) == SanitizeValue(items[i], depth + 1)
        {
          SanitizeIsIdempotent(items[i], depth + 1);
        }
        var once := SanitizeItems(items, depth + 1);
        assert SanitizeItems(once, depth + 1) == once;
      case Obj(ms) =>
        forall i | 0 <= i < |ms|
          ensures SanitizeValue(SanitizeValue(ms[i].val, depth + 1), depth + 1) == SanitizeValue(ms[i].val, depth + 1)
        {
          SanitizeIsIdempotent(ms[i].val, depth + 1);
        }
        var once := SanitizeMembers(ms, depth + 1);
        MembersAt(ms, depth + 1);
        MembersAt(once, depth + 1);
        assert SanitizeMembers(once, depth + 1) == once;
      case _ =>
    }
  }

  // ------------------------------------------------------------------
  // What sanitizing keeps
  // ------------------------------------------------------------------

  /** A value with nothing to hide and not nested too deeply passes unchanged. */
  lemma {:induction false} CleanIsUnchanged(v: Value, depth: nat)
    requires depth <= MAX_DEPTH && Clean(v) && NestedAtMost(v, MAX_DEPTH - depth)
    ensures SanitizeValue(v, depth) == v
    decreases v
  {
    hide IsSecretKey, LooksLikeSecret;
    match v
    case Arr(items) =>
      forall i | 0 <= i < |items|
        ensures SanitizeValue(items[i], depth + 1) == items[i]
      {
        CleanIsUnchanged(items[i], depth + 1);
      }
      assert SanitizeItems(items, depth + 1) == items;
    case Obj(ms) =>
      MembersAt(ms, depth + 1);
      forall i | 0 <= i < |ms|
        ensures SanitizeMembers(ms, depth + 1)[i] == ms[i]
      {
        CleanIsUnchanged(ms[i].val, depth + 1);
      }
      assert SanitizeMembers(ms, depth + 1) == ms;
    case _ =>
  }

  /** The part of a value reached by a path of child positions, if there is one and
      no secret-named member is on the way. */
  datatype Reached = Nowhere | At(value: Value)

  ghost function Follow(v: Value, path: seq<nat>): Reached
    decreases |path|
  {
    if path == [] then At(v)
    else if v.Arr? && path[0] < |v.items| then Follow(v.items[path[0]], path[1..])
    else if v.Obj? && path[0] < |v.members| && !IsSecretKey(v.members[path[0]].key) then
      Follow(v.members[path[0]].val, path[1..])
    else Nowhere
  }

  /** Down to the depth limit, every part that is not under a secret name is still
      there, itself sanitized as if it stood alone at its depth. */
  lemma {:induction false} PartsAreKept(v: Value, depth: nat, path: seq<nat>)
    requires depth + |path| <= MAX_DEPTH + 1
    ensures Follow(SanitizeValue(v, depth), path) ==
            match Follow(v, path)
            case Nowhere => Nowhere
            case At(part) => At(SanitizeValue(part, depth + |path|))
    decreases |path|
  {
    hide IsSecretKey, LooksLikeSecret;
    if path != [] {
      if v.Obj? && depth <= MAX_DEPTH {
        MembersAt(v.members, depth + 1);
      }
      if v.Arr? && path[0] < |v.items| {
        PartsAreKept(v.items[path[0]], depth + 1, path[1..]);
      } else if v.Obj? && path[0] < |v.members| && !IsSecretKey(v.members[path[0]].key) {
        PartsAreKept(v.members[path[0]].val, depth + 1, path[1..]);
      }
    }
  }

  /** What stands in the place of what was hidden: the redaction mark for a secret-looking
      string and under every secret name, and the depth mark for whatever is nested below
      level sixteen. */
  lemma HiddenPartsAreMarked(v: Value, depth: nat, path: seq<nat>)
    requires depth + |path| <= 17 && Follow(v, path).At?
    ensures var part := Follow(v, path).value;
            var kept := Follow(SanitizeValue(v, depth), path);
            && (depth + |path| == 17 ==> kept == At(Str(TOO_DEEP)))
            && (depth + |path| <= 16 && part.Str? && LooksLikeSecret(part.s) ==> kept == At(Str(REDACTED)))
            && (depth + |path| <= 16 && part.Obj? ==>
                  && kept.At? && kept.value.Obj? && |kept.value.members| == |part.members|
                  && forall i :: 0 <= i < |part.members| ==>
                       && kept.value.members[i].key == part.members[i].key
                       && (IsSecretKey(part.members[i].key) ==> kept.value.members[i].val == Str(REDACTED)))
  {
    hide IsSecretKey, LooksLikeSecret, Follow;
    PartsAreKept(v, depth, path);
    var part := Follow(v, path).value;
    if part.Obj? {
      MembersAt(part.members, depth + |path| + 1);
    }
  }
}
