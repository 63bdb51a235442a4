/** Scope strings (scopes.go) and the scope comparisons of the handlers. */
module Scopes {
  import opened Entities

  // unicode.IsSpace
  predicate IsSpace(c: char) {
    var u := c as int;
    || 0x09 <= u <= 0x0d || u == 0x20 || u == 0x85 || u == 0xa0 || u == 0x1680
    || 0x2000 <= u <= 0x200a || u == 0x2028 || u == 0x2029 || u == 0x202f || u == 0x205f || u == 0x3000
  }

  // strings.Fields, scanning with the word read so far
  function FieldsFrom(s: string, word: string): seq<string> {
    var flushed := if word == "" then [] else [word];
    if s == "" then flushed
    else if IsSpace(s[0]) then flushed + FieldsFrom(s[1..], "")
    else FieldsFrom(s[1..], word + [s[0]])
  }

  function Fields(s: string): seq<string> {
    FieldsFrom(s, "")
  }

  // strings.TrimSpace
  function TrimSpace(s: string): string {
    if s == "" then ""
    else if IsSpace(s[0]) then TrimSpace(s[1..])
    else if IsSpace(s[|s| - 1]) then TrimSpace(s[..|s| - 1])
    else s
  }

  // strings.Join with a single space
  function Join(words: seq<string>): string {
    if |words| == 0 then "" else if |words| == 1 then words[0] else words[0] + " " + Join(words[1..])
  }

  ghost predicate IsWord(w: string) {
    w != "" && forall i :: 0 <= i < |w| ==> !IsSpace(w[i])
  }

  lemma {:induction false} FieldsFromWord(w: string, word: string, rest: string)
    requires forall i :: 0 <= i < |w| ==> !IsSpace(w[i])
    ensures FieldsFrom(w + rest, word) == FieldsFrom(rest, word + w)
    decreases |w|
  {
    if w == "" {
      assert w + rest == rest && word + w == word;
    } else {
      assert (w + rest)[1..] == w[1..] + rest;
      assert word + [w[0]] + w[1..] == word + w;
      FieldsFromWord(w[1..], word + [w[0]], rest);
    }
  }

  /** Splitting undoes joining: what the broker persists is read back token by token. */
  lemma {:induction false} FieldsOfJoin(words: seq<string>)
    requires forall w :: w in words ==> IsWord(w)
    ensures Fields(Join(words)) == words
  {
    if |words| == 0 {
      return;
    }
    assert IsWord(words[0]);
    if |words| == 1 {
      FieldsFromWord(words[0], "", "");
      assert words[0] + "" == words[0] && "" + words[0] == words[0];
    } else {
      var tail := " " + Join(words[1..]);
      assert words[0] + " " + Join(words[1..]) == words[0] + tail;
      FieldsFromWord(words[0], "", tail);
      assert "" + words[0] == words[0] && tail[1..] == Join(words[1..]);
      FieldsOfJoin(words[1..]);
    }
  }

  function Tokens(scope: string): set<string> {
    set w | w in Fields(scope)
  }

  lemma {:induction false} FieldsOfPadded(s: string, word: string, c: char)
    requires IsSpace(c)
    ensures FieldsFrom(s + [c], word) == FieldsFrom(s, word)
    decreases |s|
  {
    if s == "" {
      assert (s + [c])[1..] == "";
      assert FieldsFrom("", "") == [];
    } else {
      assert (s + [c])[0] == s[0] && (s + [c])[1..] == s[1..] + [c];
      if IsSpace(s[0]) {
        FieldsOfPadded(s[1..], "", c);
      } else {
        FieldsOfPadded(s[1..], word + [s[0]], c);
      }
    }
  }

  lemma {:induction false} FieldsOfTrimmed(s: string)
    ensures Fields(TrimSpace(s)) == Fields(s)
    decreases |s|
  {
    if s != "" {
      if IsSpace(s[0]) {
        FieldsOfTrimmed(s[1..]);
      } else if IsSpace(s[|s| - 1]) {
        FieldsOfTrimmed(s[..|s| - 1]);
        assert s == s[..|s| - 1] + [s[|s| - 1]];
        FieldsOfPadded(s[..|s| - 1], "", s[|s| - 1]);
      }
    }
  }

  /** strings.TrimSpace takes away white space at both ends, and nothing else. */
  lemma {:induction false} TrimIsTight(s: string) returns (i: nat)
    ensures var t := TrimSpace(s);
      && i + |t| <= |s| && s[i..i + |t|] == t && (t != "" ==> !IsSpace(t[0]) && !IsSpace(t[|t| - 1]))
      && (forall k :: 0 <= k < i ==> IsSpace(s[k])) && (forall k :: i + |t| <= k < |s| ==> IsSpace(s[k]))
    decreases |s|
  {
    if s == "" {
      i := 0;
    } else if IsSpace(s[0]) {
      var j := TrimIsTight(s[1..]);
      i := j + 1;
      assert forall k :: 1 <= k < |s| ==> s[k] == s[1..][k - 1];
    } else if IsSpace(s[|s| - 1]) {
      i := TrimIsTight(s[..|s| - 1]);
    } else {
      i := 0;
    }
  }

  lemma {:induction false} NoFieldsNoWords(s: string, word: string)
    ensures FieldsFrom(s, word) == [] <==> word == "" && forall i :: 0 <= i < |s| ==> IsSpace(s[i])
    decreases |s|
  {
    if s != "" {
      NoFieldsNoWords(s[1..], if IsSpace(s[0]) then "" else word + [s[0]]);
      if word == "" && IsSpace(s[0]) && FieldsFrom(s, word) == [] {
        assert forall i :: 1 <= i < |s| ==> s[i] == s[1..][i - 1];
      }
    }
  }

  lemma {:induction false} BlankTrims(s: string)
    ensures TrimSpace(s) == "" <==> forall i :: 0 <= i < |s| ==> IsSpace(s[i])
    decreases |s|
  {
    if s != "" && IsSpace(s[0]) {
      BlankTrims(s[1..]);
      assert forall i :: 1 <= i < |s| ==> s[i] == s[1..][i - 1];
    } else if s != "" && IsSpace(s[|s| - 1]) {
      BlankTrims(s[..|s| - 1]);
    }
  }

  /** Trimming loses no word, and leaves nothing exactly when there was none. */
  lemma TrimKeepsTokens(s: string)
    ensures Tokens(TrimSpace(s)) == Tokens(s)
    ensures TrimSpace(s) == "" <==> Tokens(s) == {}
  {
    hide TrimSpace;
    FieldsOfTrimmed(s);
    BlankTrims(s);
    NoFieldsNoWords(s, "");
    assert Fields(s) != [] ==> Fields(s)[0] in Tokens(s);
  }

  predicate ValidScopeToken(scope: string) {
    scope != "" && forall i :: 0 <= i < |scope| ==>
      var c := scope[i] as int;
      c == 0x21 || 0x23 <= c <= 0x5b || 0x5d <= c <= 0x7e
  }

  const OPENID := "openid"
  const OFFLINE_ACCESS := "offline_access"
  const SUPPORTED: seq<string> := ["openid", "profile", "email", "groups", "offline_access"]
  const DEFAULT_ALLOWED: seq<string> := ["openid", "profile", "email", "groups"]

  datatype ScopeError =
    | Invalid(scope: string) | Unsupported(scope: string) | NotAllowed(scope: string) | OfflineMismatch

  // The words of a list of scope strings, in order
  function Words(values: seq<string>): seq<string> {
    if values == [] then [] else Fields(values[0]) + Words(values[1..])
  }

  // First occurrences only, given what was already kept
  function Dedup(words: seq<string>, kept: seq<string>): seq<string> {
    if words == [] then kept
    else if words[0] in kept then Dedup(words[1..], kept)
    else Dedup(words[1..], kept + [words[0]])
  }

  ghost predicate Distinct(s: seq<string>) {
    forall i, j :: 0 <= i < j < |s| ==> s[i] != s[j]
  }

  lemma {:induction false} DedupKeeps(words: seq<string>, kept: seq<string>)
    requires Distinct(kept)
    ensures Distinct(Dedup(words, kept))
    ensures forall w :: w in Dedup(words, kept) <==> w in words || w in kept
    decreases |words|
  {
    if words != [] {
      assert words == [words[0]] + words[1..];
      DedupKeeps(words[1..], if words[0] in kept then kept else kept + [words[0]]);
    }
  }

  // The first word that is not a scope token, if any
  function FirstInvalid(words: seq<string>): Option<string> {
    if words == [] then None else if !ValidScopeToken(words[0]) then Some(words[0]) else FirstInvalid(words[1..])
  }

  lemma {:induction false} FirstInvalidNone(words: seq<string>)
    ensures FirstInvalid(words).None? <==> forall w :: w in words ==> ValidScopeToken(w)
  {
    if words != [] {
      assert words == [words[0]] + words[1..];
      FirstInvalidNone(words[1..]);
    }
  }

  function Normalized(values: seq<string>): Result<seq<string>, ScopeError> {
    match FirstInvalid(Words(values))
    case Some(w) => Err(Invalid(w))
    case None => Ok(Dedup(Words(values), []))
  }

  /** normalizeScopeTokens: an error names the first bad word; a success lists each word once. */
  method NormalizeScopeTokens(values: seq<string>) returns (r: Result<seq<string>, ScopeError>)
    ensures r == Normalized(values)
    ensures r.Ok? ==> Distinct(r.value) && forall w :: w in r.value <==> w in Words(values)
  {
    var out: seq<string> := [];
    var seen: set<string> := {};
    for i := 0 to |values|
      invariant seen == set w | w in out
      invariant Normalized(values) == match FirstInvalid(Words(values[i..]))
                                      case Some(w) => Err(Invalid(w))
                                      case None => Ok(Dedup(Words(values[i..]), out))
    {
      var words := Fields(values[i]);
      ghost var later := Words(values[i + 1..]);
      assert values[i..][1..] == values[i + 1..];
      for j := 0 to |words|
        invariant seen == set w | w in out
        invariant Normalized(values) == match FirstInvalid(words[j..] + later)
                                        case Some(w) => Err(Invalid(w))
                                        case None => Ok(Dedup(words[j..] + later, out))
      {
        ghost var left := words[j..] + later;
        assert left[0] == words[j] && left[1..] == words[j + 1..] + later;
        if !ValidScopeToken(words[j]) {
          return Err(Invalid(words[j]));
        }
        if words[j] !in seen {
          seen := seen + {words[j]};
          out := out + [words[j]];
        }
      }
      assert words[|words|..] + later == later;
    }
    r := Ok(out);
    DedupKeeps(Words(values), []);
  }

  // The first word outside the protocol vocabulary, if any
  function FirstUnsupported(words: seq<string>): Option<string> {
    if words == [] then None else if words[0] !in SUPPORTED then Some(words[0]) else FirstUnsupported(words[1..])
  }

  // normalizeClientAllowedScopes
  function AllowedScopes(configured: seq<string>, allowOffline: bool): Result<seq<string>, ScopeError> {
    match Normalized(if configured == [] then DEFAULT_ALLOWED else configured)
    case Err(e) => Err(e)
    case Ok(normalized) =>
      match FirstUnsupported(normalized)
      case Some(w) => Err(Unsupported(w))
      case None =>
        if OFFLINE_ACCESS in normalized && !allowOffline then Err(OfflineMismatch)
        else if allowOffline && OFFLINE_ACCESS !in normalized then Ok(normalized + [OFFLINE_ACCESS])
        else Ok(normalized)
  }

  // clientAllowedScopeSet
  function AllowedScopeSet(client: Client): set<string> {
    match AllowedScopes(client.allowedScopes, client.allowOffline)
    case Ok(allowed) => set w | w in allowed
    case Err(_) => {}
  }

  // ---- What a client may ask for ----

  // The scopes a client is configured with: its own words, or the four standard ones
  function Configured(client: Client): set<string> {
    if client.allowedScopes == [] then {"openid", "profile", "email", "groups"}
    else set w | w in Words(client.allowedScopes)
  }

  predicate Standard(w: string) {
    w == "openid" || w == "profile" || w == "email" || w == "groups" || w == "offline_access"
  }

  // Only standard scopes, and offline access only where it is enabled
  predicate Sound(client: Client) {
    forall w :: w in Configured(client) ==> Standard(w) && (w == "offline_access" ==> client.allowOffline)
  }

  lemma {:induction false} FirstUnsupportedNone(words: seq<string>)
    ensures FirstUnsupported(words).None? <==> forall w :: w in words ==> w in SUPPORTED
  {
    if words != [] {
      assert words == [words[0]] + words[1..];
      FirstUnsupportedNone(words[1..]);
    }
  }

  lemma DefaultWords()
    ensures Words(DEFAULT_ALLOWED) == DEFAULT_ALLOWED
  {
    hide IsSpace;
    DefaultWordsAreWords();
    WordsOfWords(DEFAULT_ALLOWED);
  }

  lemma DefaultWordsAreWords()
    ensures forall w :: w in DEFAULT_ALLOWED ==> IsWord(w)
  {
  }

  lemma {:induction false} WordsOfWords(words: seq<string>)
    requires forall w :: w in words ==> IsWord(w)
    ensures Words(words) == words
  {
    if words != [] {
      assert IsWord(words[0]);
      FieldsOfJoin([words[0]]);
      assert Fields(words[0]) == [words[0]];
      WordsOfWords(words[1..]);
    }
  }

  lemma SupportedIsStandard(w: string)
    ensures w in SUPPORTED <==> Standard(w)
  {
  }

  // The words a client is configured with, in order
  function ConfiguredWords(client: Client): seq<string> {
    Words(if client.allowedScopes == [] then DEFAULT_ALLOWED else client.allowedScopes)
  }

  lemma ConfiguredAre(client: Client, w: string)
    ensures w in ConfiguredWords(client) <==> w in Configured(client)
  {
    hide Fields;
    DefaultWords();
  }

  lemma AllowedAre(client: Client)
    ensures var words := ConfiguredWords(client);
      AllowedScopeSet(client) ==
      if (forall w :: w in words ==> w in SUPPORTED) && (OFFLINE_ACCESS in words ==> client.allowOffline) then
        (set w | w in words) + (if client.allowOffline then {OFFLINE_ACCESS} else {})
      else {}
  {
    hide Words, ValidScopeToken;
    var words := ConfiguredWords(client);
    FirstInvalidNone(words);
    DedupKeeps(words, []);
    var distinct := Dedup(words, []);
    hide Dedup, FirstInvalid, FirstUnsupported;
    FirstUnsupportedNone(distinct);
    if forall w :: w in words ==> w in SUPPORTED {
      SupportedAreTokens(words);
    }
  }

  /** A client may ask for what it is configured with, and for offline access where that is enabled, and for nothing if
      its configuration is not sound. */
  lemma AllowedExactly(client: Client, w: string)
    ensures w in AllowedScopeSet(client) <==>
              Sound(client) && (w in Configured(client) || (w == "offline_access" && client.allowOffline))
  {
    hide AllowedScopeSet, Configured, ConfiguredWords, Standard;
    AllowedAre(client);
    forall v
      ensures v in ConfiguredWords(client) <==> v in Configured(client)
      ensures v in SUPPORTED <==> Standard(v)
    {
      ConfiguredAre(client, v);
      SupportedIsStandard(v);
    }
  }

  predicate Permitted(client: Client, w: string) {
    w in SUPPORTED && (w == OFFLINE_ACCESS ==> client.allowOffline) && w in AllowedScopeSet(client)
  }

  function Refusal(client: Client, w: string): ScopeError {
    if w !in SUPPORTED then Unsupported(w)
    else if w == OFFLINE_ACCESS && !client.allowOffline then OfflineMismatch
    else NotAllowed(w)
  }

  function FirstRefused(client: Client, words: seq<string>): Option<ScopeError> {
    if words == [] then None
    else if !Permitted(client, words[0]) then Some(Refusal(client, words[0]))
    else FirstRefused(client, words[1..])
  }

  function AuthorizationScope(client: Client, raw: string): Result<string, ScopeError> {
    match Normalized([raw])
    case Err(e) => Err(e)
    case Ok(scopes) =>
      match FirstRefused(client, scopes)
      case Some(e) => Err(e)
      case None => Ok(Join(scopes))
  }

  lemma {:induction false} FirstRefusedNone(client: Client, words: seq<string>)
    ensures FirstRefused(client, words).None? <==> forall w :: w in words ==> Permitted(client, w)
  {
    if words != [] {
      assert words == [words[0]] + words[1..];
      FirstRefusedNone(client, words[1..]);
    }
  }

  lemma SupportedAreTokens(words: seq<string>)
    requires forall w :: w in words ==> w in SUPPORTED
    ensures forall w :: w in words ==> ValidScopeToken(w)
  {
    assert forall w :: w in SUPPORTED ==> ValidScopeToken(w);
  }

  lemma TokensAreWords(words: seq<string>)
    requires forall w :: w in words ==> ValidScopeToken(w)
    ensures forall w :: w in words ==> IsWord(w)
  {
  }

  // A word that the client may ask for
  predicate MayAsk(client: Client, w: string) {
    Sound(client) && (w in Configured(client) || (w == "offline_access" && client.allowOffline))
  }

  lemma PermittedIsAllowed(client: Client, w: string)
    requires Permitted(client, w)
    ensures w in SUPPORTED && w in AllowedScopeSet(client)
  {
  }

  lemma PermittedExactly(client: Client, w: string)
    ensures Permitted(client, w) <==> MayAsk(client, w)
  {
    hide AllowedScopeSet;
    AllowedExactly(client, w);
  }

  lemma {:induction false} FirstRefusedIsTrue(client: Client, words: seq<string>)
    requires FirstRefused(client, words).Some?
    ensures match FirstRefused(client, words).value
      case Unsupported(w) => w in words && !Standard(w)
      case NotAllowed(w) => w in words && !MayAsk(client, w)
      case OfflineMismatch => "offline_access" in words && !client.allowOffline
      case Invalid(_) => false
  {
    hide AllowedScopeSet, Configured;
    assert words == [words[0]] + words[1..];
    PermittedExactly(client, words[0]);
    if Permitted(client, words[0]) {
      FirstRefusedIsTrue(client, words[1..]);
    }
  }

  /** A refusal names a word of the request that is at fault. */
  lemma RefusalIsTrue(client: Client, raw: string)
    requires AuthorizationScope(client, raw).Err?
    ensures match AuthorizationScope(client, raw).error
      case Invalid(w) => w in Tokens(raw) && !ValidScopeToken(w)
      case Unsupported(w) => w in Tokens(raw) && !Standard(w)
      case NotAllowed(w) => w in Tokens(raw) && !MayAsk(client, w)
      case OfflineMismatch => "offline_access" in Tokens(raw) && !client.allowOffline
  {
    hide FirstRefused, MayAsk, Standard;
    var asked := Fields(raw);
    assert Words([raw]) == asked;
    DedupKeeps(asked, []);
    if FirstInvalid(asked).Some? {
      FirstInvalidIsTrue(asked);
    } else {
      FirstRefusedIsTrue(client, Dedup(asked, []));
    }
  }

  lemma {:induction false} FirstInvalidIsTrue(words: seq<string>)
    requires FirstInvalid(words).Some?
    ensures FirstInvalid(words).value in words && !ValidScopeToken(FirstInvalid(words).value)
  {
    assert words == [words[0]] + words[1..];
    if ValidScopeToken(words[0]) {
      FirstInvalidIsTrue(words[1..]);
    }
  }

  /** A requested scope is accepted exactly when the client may ask for every word of it; the stored string
      holds the same words, each once, so it never leaves the client's allowed set. */
  lemma AuthorizationScopeExact(client: Client, raw: string)
    ensures AuthorizationScope(client, raw).Ok? <==> forall w :: w in Tokens(raw) ==> MayAsk(client, w)
    ensures AuthorizationScope(client, raw).Ok? ==>
              var stored := AuthorizationScope(client, raw).value;
              && Tokens(stored) == Tokens(raw) <= AllowedScopeSet(client)
              && Distinct(Fields(stored))
  {
    hide MayAsk, Permitted, AllowedScopeSet;
    var asked := Fields(raw);
    assert Words([raw]) == asked;
    forall w
      ensures Permitted(client, w) <==> MayAsk(client, w)
      ensures Permitted(client, w) ==> w in SUPPORTED && w in AllowedScopeSet(client)
    {
      PermittedExactly(client, w);
      if Permitted(client, w) {
        PermittedIsAllowed(client, w);
      }
    }
    var words := Dedup(asked, []);
    DedupKeeps(asked, []);
    FirstInvalidNone(asked);
    FirstRefusedNone(client, words);
    if forall w :: w in asked ==> Permitted(client, w) {
      SupportedAreTokens(asked);
      TokensAreWords(words);
      FieldsOfJoin(words);
    }
  }

  /** validateAuthorizationScope */
  method ValidateAuthorizationScope(client: Client, raw: string) returns (r: Result<string, ScopeError>)
    ensures r == AuthorizationScope(client, raw)
  {
    var parsed := NormalizeScopeTokens([raw]);
    if parsed.Err? {
      return Err(parsed.error);
    }
    var allowed := AllowedScopeSet(client);
    var scopes := parsed.value;
    for i := 0 to |scopes|
      invariant FirstRefused(client, scopes) == FirstRefused(client, scopes[i..])
    {
      assert scopes[i..][1..] == scopes[i + 1..];
      if scopes[i] !in SUPPORTED {
        return Err(Unsupported(scopes[i]));
      }
      if scopes[i] == OFFLINE_ACCESS && !client.allowOffline {
        return Err(OfflineMismatch);
      }
      if scopes[i] !in allowed {
        return Err(NotAllowed(scopes[i]));
      }
    }
    r := Ok(Join(scopes));
  }

  /** scopeSubset: every requested word was granted. */
  method ScopeSubset(requested: string, granted: string) returns (within: bool)
    ensures within <==> Tokens(requested) <= Tokens(granted)
  {
    var grantedSet: set<string> := {};
    var words := Fields(granted);
    for i := 0 to |words|
      invariant grantedSet == set w | w in words[..i]
    {
      assert words[..i + 1] == words[..i] + [words[i]];
      grantedSet := grantedSet + {words[i]};
    }
    assert words[..|words|] == words;
    var asked := Fields(requested);
    for i := 0 to |asked|
      invariant forall j :: 0 <= j < i ==> asked[j] in grantedSet
    {
      if asked[i] !in grantedSet {
        assert asked[i] in Tokens(requested);
        return false;
      }
    }
    within := true;
  }
}
