/** Redaction of everything that telemetry persists: embedded credentials are
    cut out of strings, long strings are truncated, and dictionary entries under
    sensitive keys lose their value. */
module Sanitizer {
  import opened Texts

  const PREFIXES := ["ghp_", "github_pat_", "sk-", "nvapi-", "agy_live_"]
  const SECRET := "[REDACTED_SECRET]"
  const MARKER := "... [TRUNCATED]"
  const MAX_STRING_LENGTH: nat := 4000

  const SENSITIVE_FIELD_NAMES := {
    "token", "github_token", "gh_token", "api_key", "apikey", "secret", "password", "authorization",
    "bearer", "auth", "cookie", "credentials", "private_key", "openai_api_key", "nvidia_api_key" }

  const SENSITIVE_SUBSTRINGS :=
    ["token", "secret", "password", "auth", "bearer", "privkey", "credential", "api_key"]

  // ---------- Strings ----------

  predicate IsTokenChar(c: char) { IsAlphanumeric(c) || c == '_' || c == '-' }

  /** `s` starts with the prefix and at least one token character, as the pattern asks. */
  predicate StartsToken(p: string, s: string) {
    p <= s && |p| < |s| && IsTokenChar(s[|p|])
  }

  function TokenRun(s: string): (n: nat)
    ensures n <= |s|
  {
    if s != [] && IsTokenChar(s[0]) then 1 + TokenRun(s[1..]) else 0
  }

  /** What follows the longest match at the start of `s`. */
  function AfterToken(p: string, s: string): (rest: string)
    requires StartsToken(p, s)
    ensures |rest| < |s|
  {
    s[|p| + 1 + TokenRun(s[|p| + 1..])..]
  }

  /** Substitution of every leftmost longest match of one pattern. */
  function Redact(p: string, s: string): string
    decreases |s|
  {
    if s == [] then []
    else if StartsToken(p, s) then SECRET + Redact(p, AfterToken(p, s))
    else [s[0]] + Redact(p, s[1..])
  }

  function RedactAll(prefixes: seq<string>, s: string): string {
    if prefixes == [] then s
    else Redact(prefixes[|prefixes| - 1], RedactAll(prefixes[..|prefixes| - 1], s))
  }

  function Truncate(s: string): string {
    if |s| > MAX_STRING_LENGTH then s[..MAX_STRING_LENGTH] + MARKER else s
  }

  function SanitizeText(s: string): string { Truncate(RedactAll(PREFIXES, s)) }

  predicate Contains(s: string, w: string) {
    w <= s || (s != [] && Contains(s[1..], w))
  }

  method SanitizeStringValue(s: string) returns (r: string)
    ensures r == SanitizeText(s)
  {
    if s == [] {
      NothingToRedact(PREFIXES, s);
      return s;
    }
    r := s;
    for i := 0 to |PREFIXES|
      invariant r == RedactAll(PREFIXES[..i], s)
    {
      assert PREFIXES[..i + 1][..i] == PREFIXES[..i];
      if Contains(r, PREFIXES[i]) {
        r := Redact(PREFIXES[i], r);
      } else {
        NotContainedHasNoToken(PREFIXES[i], r);
        RedactKeepsClean(PREFIXES[i], r);
      }
    }
    assert PREFIXES[..|PREFIXES|] == PREFIXES;
    if |r| > MAX_STRING_LENGTH {
      r := r[..MAX_STRING_LENGTH] + MARKER;
    }
  }

  /** No position of `s` starts a match. */
  predicate NoToken(p: string, s: string) {
    s == [] || (!StartsToken(p, s) && NoToken(p, s[1..]))
  }

  /** The same, said with positions. */
  lemma {:induction false} NoTokenAnywhere(p: string, s: string)
    ensures NoToken(p, s) <==> forall i | 0 <= i <= |s| :: !StartsToken(p, s[i..])
  {
    if s != [] {
      NoTokenAnywhere(p, s[1..]);
      assert s[0..] == s;
      if forall i | 0 <= i <= |s| :: !StartsToken(p, s[i..]) {
        assert forall i | 0 <= i <= |s[1..]| :: s[1..][i..] == s[i + 1..];
      }
      if NoToken(p, s) {
        forall i | 0 <= i <= |s| ensures !StartsToken(p, s[i..]) {
          if i > 0 { assert s[i..] == s[1..][i - 1..]; }
        }
      }
    }
  }

  lemma {:induction false} NotContainedHasNoToken(p: string, s: string)
    requires !Contains(s, p)
    ensures NoToken(p, s)
  {
    if s != [] { NotContainedHasNoToken(p, s[1..]); }
  }

  lemma {:induction false} RedactKeepsClean(p: string, s: string)
    requires NoToken(p, s)
    ensures Redact(p, s) == s
  {
    if s != [] { RedactKeepsClean(p, s[1..]); }
  }

  /** What the five prefixes have in common and the proofs need: they start with
      a lower-case letter and hold neither '[' nor '.'. */
  predicate IsPrefix(p: string) {
    p != [] && IsLower(p[0]) && '[' !in p && '.' !in p
  }

  lemma PrefixesAreSound()
    ensures forall i | 0 <= i < |PREFIXES| :: IsPrefix(PREFIXES[i])
  {
  }

  /** Redaction never builds text out of pieces: whatever the output starts
      with, as long as no replacement is in it, the input started with. */
  lemma {:induction false} RawPrefix(p: string, s: string, w: string)
    requires '[' !in w && w <= Redact(p, s)
    ensures w <= s
    decreases |s|
  {
    if w != [] && s != [] {
      assert w[0] == Redact(p, s)[0];
      assert SECRET[0] == '[';
      if !StartsToken(p, s) {
        assert w[1..] <= Redact(p, s[1..]);
        RawPrefix(p, s[1..], w[1..]);
      }
    }
  }

  lemma MatchComesFromInput(p: string, q: string, s: string)
    requires IsPrefix(q) && StartsToken(q, Redact(p, s))
    ensures StartsToken(q, s)
  {
    var r := Redact(p, s);
    var w := q + [r[|q|]];
    assert w == r[..|q| + 1];
    RawPrefix(p, s, w);
    assert q <= s && s[|q|] == w[|q|];
  }

  lemma {:induction false} PlainTextStartsNoToken(q: string, a: string, t: string)
    requires IsPrefix(q) && NoToken(q, t)
    requires forall c :: c in a ==> !IsLower(c)
    ensures NoToken(q, a + t)
  {
    if a == [] {
      assert a + t == t;
    } else {
      PlainTextStartsNoToken(q, a[1..], t);
      assert (a + t)[1..] == a[1..] + t;
      assert (a + t)[0] == a[0];
    }
  }

  /** Redacting one pattern leaves none of its matches, and brings in none of another. */
  lemma {:induction false} RedactLeavesNone(p: string, q: string, s: string)
    requires IsPrefix(p) && IsPrefix(q)
    requires p == q || NoToken(q, s)
    ensures NoToken(q, Redact(p, s))
    decreases |s|
  {
    if s != [] {
      if StartsToken(p, s) {
        var rest := AfterToken(p, s);
        if p != q { NoTokenSuffix(q, s, |p| + 1 + TokenRun(s[|p| + 1..])); }
        RedactLeavesNone(p, q, rest);
        PlainTextStartsNoToken(q, SECRET, Redact(p, rest));
      } else {
        RedactLeavesNone(p, q, s[1..]);
        assert Redact(p, s)[1..] == Redact(p, s[1..]);
        if StartsToken(q, Redact(p, s)) { MatchComesFromInput(p, q, s); }
      }
    }
  }

  lemma {:induction false} NoTokenSuffix(q: string, s: string, n: nat)
    requires NoToken(q, s) && n <= |s|
    ensures NoToken(q, s[n..])
  {
    if n > 0 {
      NoTokenSuffix(q, s[1..], n - 1);
      assert s[n..] == s[1..][n - 1..];
    }
  }

  lemma {:induction false} RedactAllLeavesNone(prefixes: seq<string>, s: string)
    requires forall q :: q in prefixes ==> IsPrefix(q)
    ensures forall q :: q in prefixes ==> NoToken(q, RedactAll(prefixes, s))
  {
    if prefixes != [] {
      var before, p := prefixes[..|prefixes| - 1], prefixes[|prefixes| - 1];
      RedactAllLeavesNone(before, s);
      forall q | q in prefixes ensures NoToken(q, RedactAll(prefixes, s)) {
        assert q == p || q in before;
        RedactLeavesNone(p, q, RedactAll(before, s));
      }
    }
  }

  lemma {:induction false} NothingToRedact(prefixes: seq<string>, s: string)
    requires forall q :: q in prefixes ==> NoToken(q, s)
    ensures RedactAll(prefixes, s) == s
  {
    if prefixes != [] {
      NothingToRedact(prefixes[..|prefixes| - 1], s);
      RedactKeepsClean(prefixes[|prefixes| - 1], s);
    }
  }

  lemma MatchIsBeforeTheCut(q: string, s: string, n: nat)
    requires IsPrefix(q) && n <= |s| && StartsToken(q, s[..n] + MARKER)
    ensures StartsToken(q, s)
  {
    var r := s[..n] + MARKER;
    assert r[n] == '.';
    assert forall i | 0 <= i < |q| :: q[i] == r[i] && q[i] != '.';
    assert q <= s && s[|q|] == r[|q|];
  }

  /** Cutting a clean text short and marking it brings in no match either. */
  lemma {:induction false} CutKeepsClean(q: string, s: string, n: nat)
    requires IsPrefix(q) && NoToken(q, s) && n <= |s|
    ensures NoToken(q, s[..n] + MARKER)
  {
    if n == 0 {
      PlainTextStartsNoToken(q, MARKER, []);
      assert MARKER + [] == MARKER == s[..0] + MARKER;
    } else {
      var r := s[..n] + MARKER;
      CutKeepsClean(q, s[1..], n - 1);
      assert r[1..] == s[1..][..n - 1] + MARKER;
      if StartsToken(q, r) { MatchIsBeforeTheCut(q, s, n); }
    }
  }

  /** No stored string contains a credential. */
  lemma SanitizedTextHasNoToken(s: string)
    ensures forall p :: p in PREFIXES ==> NoToken(p, SanitizeText(s))
  {
    PrefixesAreSound();
    RedactAllLeavesNone(PREFIXES, s);
    var r := RedactAll(PREFIXES, s);
    if |r| > MAX_STRING_LENGTH {
      forall p | p in PREFIXES ensures NoToken(p, SanitizeText(s)) {
        CutKeepsClean(p, r, MAX_STRING_LENGTH);
      }
    }
  }

  /** Sanitising what was sanitised changes nothing, even when it was cut: a
      text past the limit is cut at the same place again. */
  lemma SanitizeTextTwice(s: string)
    ensures SanitizeText(SanitizeText(s)) == SanitizeText(s)
  {
    SanitizedTextHasNoToken(s);
    var t := SanitizeText(s);
    NothingToRedact(PREFIXES, t);
    if |t| > MAX_STRING_LENGTH {
      assert t[..MAX_STRING_LENGTH] == RedactAll(PREFIXES, s)[..MAX_STRING_LENGTH];
    }
  }

  /** The texts that sanitising leaves alone: those without a credential that
      are short enough or were cut before. */
  lemma UntouchedExactlyWhen(s: string)
    ensures SanitizeText(s) == s
            <==> (forall p :: p in PREFIXES ==> NoToken(p, s))
                 && (|s| <= MAX_STRING_LENGTH || s[MAX_STRING_LENGTH..] == MARKER)
  {
    SanitizedTextHasNoToken(s);
    if forall p :: p in PREFIXES ==> NoToken(p, s) {
      NothingToRedact(PREFIXES, s);
      if |s| > MAX_STRING_LENGTH {
        assert s == s[..MAX_STRING_LENGTH] + s[MAX_STRING_LENGTH..];
        assert SanitizeText(s)[MAX_STRING_LENGTH..] == MARKER;
      }
    }
    if SanitizeText(s) == s && |s| > MAX_STRING_LENGTH {
      var r := RedactAll(PREFIXES, s);
      if |r| > MAX_STRING_LENGTH {
        assert (r[..MAX_STRING_LENGTH] + MARKER)[MAX_STRING_LENGTH..] == MARKER;
      }
    }
  }

  /** The run is as long as token characters go on. */
  lemma {:induction false} TokenRunIsLongest(s: string)
    ensures forall i | 0 <= i < TokenRun(s) :: IsTokenChar(s[i])
    ensures TokenRun(s) < |s| ==> !IsTokenChar(s[TokenRun(s)])
  {
    if s != [] && IsTokenChar(s[0]) {
      TokenRunIsLongest(s[1..]);
      assert forall i | 0 < i < |s| :: s[i] == s[1..][i - 1];
    }
  }

  /** No match starts at the first `n` positions. */
  predicate QuietUntil(p: string, s: string, n: nat)
    requires n <= |s|
  {
    n == 0 || (!StartsToken(p, s) && QuietUntil(p, s[1..], n - 1))
  }

  lemma FrontGrows(s: string, n: nat, rest: string)
    requires 0 < n <= |s|
    ensures [s[0]] + (s[1..][..n - 1] + rest) == s[..n] + rest && s[1..][n - 1..] == s[n..]
  {
    assert s[..n] == [s[0]] + s[1..][..n - 1];
  }

  lemma {:induction false} QuietTextIsCopied(p: string, s: string, n: nat)
    requires n <= |s| && QuietUntil(p, s, n)
    ensures Redact(p, s) == s[..n] + Redact(p, s[n..])
  {
    if n == 0 {
      assert s[0..] == s;
    } else {
      QuietTextIsCopied(p, s[1..], n - 1);
      FrontGrows(s, n, Redact(p, s[n..]));
      hide StartsToken;
    }
  }

  /** The first credential in a text is cut out whole, up to the first character
      that cannot belong to it, and the text around it stays. */
  lemma TokenIsCutOut(p: string, s: string, n: nat)
    requires n <= |s| && QuietUntil(p, s, n) && StartsToken(p, s[n..])
    ensures Redact(p, s) == s[..n] + (SECRET + Redact(p, AfterToken(p, s[n..])))
  {
    QuietTextIsCopied(p, s, n);
    var m := s[n..];
    assert Redact(p, m) == SECRET + Redact(p, AfterToken(p, m));
  }

  // ---------- Nested values ----------

  /** A value handed to telemetry. `Opaque` stands for every other Python
      object, tuples and sets included, and for the values inside it. */
  datatype Payload =
    | Null
    | Text(text: string)
    | List(items: seq<Payload>)
    | Dict(entries: seq<Entry>)
    | Opaque(inside: seq<Payload>)

  datatype Entry = Entry(key: string, value: Payload)

  const REDACTED := Text("[REDACTED]")

  predicate IsSensitive(key: string) {
    var k := Strip(ToLower(key));
    k in SENSITIVE_FIELD_NAMES || exists i | 0 <= i < |SENSITIVE_SUBSTRINGS| :: Contains(k, SENSITIVE_SUBSTRINGS[i])
  }

  function Sanitize(v: Payload): Payload {
    match v
    case Null => v
    case Text(s) => Text(SanitizeText(s))
    case List(items) => List(seq(|items|, i requires 0 <= i < |items| => Sanitize(items[i])))
    case Dict(entries) => Dict(seq(|entries|, i requires 0 <= i < |entries| => SanitizeEntry(entries[i])))
    case Opaque(_) => v
  }

  function SanitizeEntry(e: Entry): Entry {
    Entry(e.key, if IsSensitive(e.key) then REDACTED else Sanitize(e.value))
  }

  predicate Holds(s: string, w: string, i: nat) { i + |w| <= |s| && s[i..i + |w|] == w }

  lemma {:induction false} ContainsExactlyWhen(s: string, w: string)
    ensures Contains(s, w) <==> exists i: nat :: Holds(s, w, i)
  {
    assert w <= s <==> Holds(s, w, 0);
    if s != [] {
      var t := s[1..];
      ContainsExactlyWhen(t, w);
      forall i: nat ensures Holds(t, w, i) <==> Holds(s, w, i + 1) {
        if i + |w| <= |t| { assert t[i..i + |w|] == s[i + 1..i + 1 + |w|]; }
      }
      forall i: nat | Holds(s, w, i) && i > 0 ensures Holds(t, w, i - 1) {
        assert i - 1 + 1 == i;
      }
    }
  }

  /** An entry keeps its key. It loses its value exactly when the key, in lower case and
      without the spaces around it, is one of the names or has one of the substrings in
      it; the value of any other entry is sanitised in its turn. */
  lemma ValueIsDroppedExactlyWhen(entries: seq<Entry>, n: nat)
    requires n < |entries|
    ensures var key, value, r := Strip(ToLower(entries[n].key)), entries[n].value, Sanitize(Dict(entries));
            && r.Dict? && |r.entries| == |entries| && r.entries[n].key == entries[n].key
            && r.entries[n].value ==
               if || (exists name | name in SENSITIVE_FIELD_NAMES :: key == name)
                  || (exists word, i: nat | word in SENSITIVE_SUBSTRINGS :: Holds(key, word, i))
               then Text("[REDACTED]")
               else Sanitize(value)
  {
    var key, r := Strip(ToLower(entries[n].key)), Sanitize(Dict(entries));
    assert r.entries[n] == SanitizeEntry(entries[n]);
    forall word | word in SENSITIVE_SUBSTRINGS
      ensures Contains(key, word) <==> exists i: nat :: Holds(key, word, i)
    {
      ContainsExactlyWhen(key, word);
    }
    if exists word, i: nat | word in SENSITIVE_SUBSTRINGS :: Holds(key, word, i) {
      var word, i: nat :| word in SENSITIVE_SUBSTRINGS && Holds(key, word, i);
      var j :| 0 <= j < |SENSITIVE_SUBSTRINGS| && SENSITIVE_SUBSTRINGS[j] == word;
      assert Contains(key, SENSITIVE_SUBSTRINGS[j]);
    }
  }

  /** No credential of any of the five kinds anywhere in the text. */
  predicate CleanText(s: string) { forall p :: p in PREFIXES ==> NoToken(p, s) }

  /** Nothing to redact in any string that the walk reaches, dictionary keys
      included, nor under any sensitive key. */
  predicate Clean(v: Payload) {
    match v
    case Null => true
    case Text(s) => CleanText(s)
    case List(items) => forall i | 0 <= i < |items| :: Clean(items[i])
    case Dict(entries) => forall i | 0 <= i < |entries| :: CleanEntry(entries[i])
    case Opaque(_) => true
  }

  predicate CleanEntry(e: Entry) {
    CleanText(e.key) && if IsSensitive(e.key) then e.value == REDACTED else Clean(e.value)
  }

  /** No key that the output keeps holds a credential; what is under a sensitive
      key is dropped with its keys. */
  predicate KeysClean(v: Payload) {
    match v
    case List(items) => forall i | 0 <= i < |items| :: KeysClean(items[i])
    case Dict(entries) => forall i | 0 <= i < |entries| :: KeysCleanEntry(entries[i])
    case _ => true
  }

  predicate KeysCleanEntry(e: Entry) { CleanText(e.key) && (IsSensitive(e.key) || KeysClean(e.value)) }

  /** Everything reached is redacted but the keys, so the output is clean exactly
      when the keys that it keeps were. */
  lemma {:induction false} SanitizedIsClean(v: Payload)
    ensures Clean(Sanitize(v)) <==> KeysClean(v)
  {
    match v
    case Null =>
    case Text(s) => SanitizedTextHasNoToken(s);
    case List(items) =>
      var r := Sanitize(v);
      forall i | 0 <= i < |items| ensures Clean(r.items[i]) <==> KeysClean(items[i]) { SanitizedIsClean(items[i]); }
    case Dict(entries) =>
      var r := Sanitize(v);
      forall i | 0 <= i < |entries| ensures CleanEntry(r.entries[i]) <==> KeysCleanEntry(entries[i]) {
        SanitizedIsClean(entries[i].value);
        assert r.entries[i] == SanitizeEntry(entries[i]);
      }
    case Opaque(_) =>
  }

  /** Sanitising is a normal form. */
  lemma {:induction false} SanitizeTwice(v: Payload)
    ensures Sanitize(Sanitize(v)) == Sanitize(v)
  {
    match v
    case Null =>
    case Text(s) => SanitizeTextTwice(s);
    case List(items) =>
      var r := Sanitize(v);
      forall i | 0 <= i < |items| ensures Sanitize(r.items[i]) == r.items[i] { SanitizeTwice(items[i]); }
      assert Sanitize(r).items == r.items;
    case Dict(entries) =>
      var r := Sanitize(v);
      forall i | 0 <= i < |entries| ensures SanitizeEntry(r.entries[i]) == r.entries[i] {
        SanitizeTwice(entries[i].value);
        assert r.entries[i] == SanitizeEntry(entries[i]);
      }
      assert Sanitize(r).entries == r.entries;
    case Opaque(_) =>
  }

  /** Nothing for the walk to change: no credential and no overlong text outside the
      sensitive entries, and nothing but the marker in those. */
  predicate Settled(v: Payload) {
    match v
    case Text(s) => CleanText(s) && (|s| <= MAX_STRING_LENGTH || s[MAX_STRING_LENGTH..] == MARKER)
    case List(items) => forall i | 0 <= i < |items| :: Settled(items[i])
    case Dict(entries) => forall i | 0 <= i < |entries| :: SettledEntry(entries[i])
    case _ => true
  }

  predicate SettledEntry(e: Entry) { if IsSensitive(e.key) then e.value == REDACTED else Settled(e.value) }

  /** Only what has to be redacted or cut is changed. */
  lemma {:induction false} ValueIsUntouchedExactlyWhen(v: Payload)
    ensures Sanitize(v) == v <==> Settled(v)
  {
    match v
    case Null =>
    case Text(s) => UntouchedExactlyWhen(s);
    case List(items) =>
      var r := Sanitize(v);
      forall i | 0 <= i < |items| ensures r.items[i] == items[i] <==> Settled(items[i]) {
        ValueIsUntouchedExactlyWhen(items[i]);
      }
      assert r.items == items <==> forall i | 0 <= i < |items| :: r.items[i] == items[i];
    case Dict(entries) =>
      var r := Sanitize(v);
      forall i | 0 <= i < |entries| ensures r.entries[i] == entries[i] <==> SettledEntry(entries[i]) {
        ValueIsUntouchedExactlyWhen(entries[i].value);
        assert r.entries[i] == SanitizeEntry(entries[i]);
      }
      assert r.entries == entries <==> forall i | 0 <= i < |entries| :: r.entries[i] == entries[i];
    case Opaque(_) =>
  }

  /** Clean in depth: also inside the objects that the walk passes through. */
  predicate CleanInside(v: Payload) {
    match v
    case Null => true
    case Text(s) => CleanText(s)
    case List(items) => forall i | 0 <= i < |items| :: CleanInside(items[i])
    case Dict(entries) => forall i | 0 <= i < |entries| :: CleanInsideEntry(entries[i])
    case Opaque(inside) => forall i | 0 <= i < |inside| :: CleanInside(inside[i])
  }

  predicate CleanInsideEntry(e: Entry) {
    CleanText(e.key) && if IsSensitive(e.key) then e.value == REDACTED else CleanInside(e.value)
  }

  /** What goes into the output as it is was clean to begin with: every key, and
      every object that is not a dict, list or string, unless it is dropped with
      its sensitive key. */
  predicate PassesOnlyClean(v: Payload) {
    match v
    case Null => true
    case Text(s) => true
    case List(items) => forall i | 0 <= i < |items| :: PassesOnlyClean(items[i])
    case Dict(entries) => forall i | 0 <= i < |entries| :: PassesOnlyCleanEntry(entries[i])
    case Opaque(_) => CleanInside(v)
  }

  predicate PassesOnlyCleanEntry(e: Entry) { CleanText(e.key) && (IsSensitive(e.key) || PassesOnlyClean(e.value)) }

  /** Keys, tuples and other objects are handed through untouched, so the output
      is clean in depth exactly when those were. */
  lemma {:induction false} CleanInDepthExactlyWhen(v: Payload)
    ensures CleanInside(Sanitize(v)) <==> PassesOnlyClean(v)
  {
    match v
    case Null =>
    case Text(s) => SanitizedTextHasNoToken(s);
    case List(items) =>
      var r := Sanitize(v);
      forall i | 0 <= i < |items| ensures CleanInside(r.items[i]) <==> PassesOnlyClean(items[i]) {
        CleanInDepthExactlyWhen(items[i]);
      }
    case Dict(entries) =>
      var r := Sanitize(v);
      forall i | 0 <= i < |entries| ensures CleanInsideEntry(r.entries[i]) <==> PassesOnlyCleanEntry(entries[i]) {
        CleanInDepthExactlyWhen(entries[i].value);
        assert r.entries[i] == SanitizeEntry(entries[i]);
      }
    case Opaque(_) =>
  }

  lemma TupleKeepsItsSecret()
    ensures var leak := Text("sk-1"); var v := List([Opaque([leak])]);
            Sanitize(v) == v && !CleanText(leak.text)
  {
    var v := List([Opaque([Text("sk-1")])]);
    assert Sanitize(v.items[0]) == v.items[0];
    assert Sanitize(v).items == v.items;
    assert StartsToken("sk-", "sk-1") && PREFIXES[2] == "sk-" && "sk-" in PREFIXES;
  }

  /** A credential used as a dictionary key is stored as it came. */
  lemma KeyKeepsItsSecret()
    ensures var v := Dict([Entry("sk-1", Null)]);
            Sanitize(v).Dict? && |Sanitize(v).entries| == 1
            && Sanitize(v).entries[0].key == "sk-1" && !CleanText("sk-1")
  {
    assert StartsToken("sk-", "sk-1") && PREFIXES[2] == "sk-" && "sk-" in PREFIXES;
  }
}
