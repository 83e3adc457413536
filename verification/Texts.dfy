/** The few string operations the modelled code relies on. */
module Texts {

  predicate IsLower(c: char) { 'a' <= c <= 'z' }
  predicate IsUpper(c: char) { 'A' <= c <= 'Z' }
  predicate IsDigit(c: char) { '0' <= c <= '9' }
  predicate IsAlphanumeric(c: char) { IsLower(c) || IsUpper(c) || IsDigit(c) }

  /** The characters str.strip() removes. */
  predicate IsSpace(c: char) {
    || '\U{9}' <= c <= '\U{d}' || '\U{1c}' <= c <= '\U{20}'
    || c == '\U{85}' || c == '\U{a0}' || c == '\U{1680}' || '\U{2000}' <= c <= '\U{200a}'
    || c == '\U{2028}' || c == '\U{2029}' || c == '\U{202f}' || c == '\U{205f}' || c == '\U{3000}'
  }

  function StripLeft(s: string): string {
    if s != "" && IsSpace(s[0]) then StripLeft(s[1..]) else s
  }

  function StripRight(s: string): string {
    if s != "" && IsSpace(s[|s| - 1]) then StripRight(s[..|s| - 1]) else s
  }

  function Strip(s: string): string { StripRight(StripLeft(s)) }

  lemma {:induction false} StripLeftCuts(s: string)
    ensures var r := StripLeft(s);
            && |r| <= |s| && r == s[|s| - |r|..]
            && (forall k | 0 <= k < |s| - |r| :: IsSpace(s[k]))
            && (r != "" ==> !IsSpace(r[0]))
  {
    if s != "" && IsSpace(s[0]) {
      StripLeftCuts(s[1..]);
      var n := |s| - |StripLeft(s)|;
      assert s[n..] == s[1..][n - 1..];
      forall k | 0 < k < n ensures IsSpace(s[k]) { assert s[k] == s[1..][k - 1]; }
    }
  }

  lemma {:induction false} StripRightCuts(s: string)
    ensures var r := StripRight(s);
            && |r| <= |s| && r == s[..|r|]
            && (forall k | |r| <= k < |s| :: IsSpace(s[k]))
            && (r != "" ==> !IsSpace(r[|r| - 1]))
  {
    if s != "" && IsSpace(s[|s| - 1]) {
      var front := s[..|s| - 1];
      StripRightCuts(front);
      forall k | |StripRight(s)| <= k < |s| - 1 ensures IsSpace(s[k]) { assert s[k] == front[k]; }
    }
  }

  /** Stripping cuts spaces off both ends and nothing else, and leaves none there. */
  lemma StripCuts(s: string)
    ensures var r, i := Strip(s), |s| - |StripLeft(s)|;
            && 0 <= i <= i + |r| <= |s| && r == s[i..i + |r|]
            && (forall k | 0 <= k < i || i + |r| <= k < |s| :: IsSpace(s[k]))
            && (r != "" ==> !IsSpace(r[0]) && !IsSpace(r[|r| - 1]))
  {
    StripLeftCuts(s);
    var t := StripLeft(s);
    StripRightCuts(t);
    var r, i := Strip(s), |s| - |t|;
    forall k | i + |r| <= k < |s| ensures IsSpace(s[k]) { assert s[k] == t[k - i]; }
    assert s[i..i + |r|] == t[..|r|];
    if r != "" { assert r[0] == t[0]; }
  }

  /** str.lower() on ASCII letters. */
  function ToLower(s: string): (r: string)
    ensures |r| == |s|
  {
    seq(|s|, i requires 0 <= i < |s| => if IsUpper(s[i]) then ((s[i] as int) + 32) as char else s[i])
  }
}
