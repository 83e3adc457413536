/** Applying one generated patch to the text of one file. */
module Patcher {
  import opened Options
  import opened Texts

  datatype FilePatch = FilePatch(path: string, original: string, updated: string)

  predicate IsPython(path: string) {
    var p := ToLower(path);
    |p| >= 3 && p[|p| - 3..] == ".py"
  }

  /** Position of the first occurrence. */
  function IndexOf(s: string, w: string): Option<nat> {
    if w <= s then Some(0)
    else if s == [] then None
    else match IndexOf(s[1..], w) case None => None case Some(i) => Some(i + 1)
  }

  /** str.replace(original, updated, 1) */
  function ReplaceFirst(s: string, w: string, by_: string): string {
    if w <= s then by_ + s[|w|..]
    else if s == [] then []
    else [s[0]] + ReplaceFirst(s[1..], w, by_)
  }

  predicate Occurs(s: string, w: string, i: nat) { i <= |s| && w <= s[i..] }

  lemma {:induction false} IndexOfIsFirst(s: string, w: string)
    ensures var r := IndexOf(s, w);
            if r.Some? then Occurs(s, w, r.value) && forall i: nat | i < r.value :: !Occurs(s, w, i)
            else forall i: nat :: !Occurs(s, w, i)
  {
    assert s[0..] == s;
    if !(w <= s) && s != [] {
      IndexOfIsFirst(s[1..], w);
      forall i: nat | 0 < i ensures Occurs(s, w, i) <==> Occurs(s[1..], w, i - 1) {
        if i <= |s| { assert s[i..] == s[1..][i - 1..]; }
      }
    }
  }

  /** `s` with the `n` characters at `i` replaced; the text before and after them stays. */
  function Splice(s: string, i: nat, n: nat, by_: string): string
    requires i + n <= |s|
  {
    s[..i] + (by_ + s[i + n..])
  }

  lemma SpliceAtStart(s: string, n: nat, by_: string)
    requires n <= |s|
    ensures Splice(s, 0, n, by_) == by_ + s[n..]
  {
    assert s[..0] == [];
  }

  lemma SpliceFurther(s: string, i: nat, n: nat, by_: string)
    requires s != [] && i + n <= |s[1..]|
    ensures [s[0]] + Splice(s[1..], i, n, by_) == Splice(s, i + 1, n, by_)
  {
    var t := s[1..];
    assert s[..i + 1] == [s[0]] + t[..i];
    assert s[i + 1 + n..] == t[i + n..];
  }

  /** Only the first occurrence is replaced. */
  lemma {:induction false} ReplaceFirstAt(s: string, w: string, by_: string)
    ensures match IndexOf(s, w)
            case Some(i) => i + |w| <= |s| && ReplaceFirst(s, w, by_) == Splice(s, i, |w|, by_)
            case None => ReplaceFirst(s, w, by_) == s
  {
    hide Splice;
    if w <= s {
      SpliceAtStart(s, |w|, by_);
    } else if s != [] {
      ReplaceFirstAt(s[1..], w, by_);
      var r := IndexOf(s[1..], w);
      if r.Some? { SpliceFurther(s, r.value, |w|, by_); }
    }
  }

  /** `SafePatcher.apply_patch`: the new text, or None when the patch is invalid.
      An empty original snippet means that the updated one is the whole file. */
  function ApplyPatch(parses: string -> bool, source: string, p: FilePatch): Option<string> {
    if p.original != "" && IndexOf(source, p.original).None? then None
    else
      var applied := if p.original == "" then p.updated else ReplaceFirst(source, p.original, p.updated);
      if IsPython(p.path) && !parses(applied) then None else Some(applied)
  }

  /** A whole-file patch does not look at the text it replaces. */
  lemma WholeFileIgnoresSource(parses: string -> bool, a: string, b: string, p: FilePatch)
    requires p.original == ""
    ensures ApplyPatch(parses, a, p) == ApplyPatch(parses, b, p)
    ensures ApplyPatch(parses, a, p).Some? ==> ApplyPatch(parses, a, p).value == p.updated
  {
  }

  /** What a valid patch does, and exactly when it is refused. */
  lemma PatchMeaning(parses: string -> bool, source: string, p: FilePatch)
    ensures var r := ApplyPatch(parses, source, p);
            if p.original == "" then
              (r == None <==> IsPython(p.path) && !parses(p.updated)) && (r.Some? ==> r.value == p.updated)
            else if forall i: nat :: !Occurs(source, p.original, i) then r == None
            else exists i: nat | Occurs(source, p.original, i) && i + |p.original| <= |source| ::
                   && (forall j: nat | j < i :: !Occurs(source, p.original, j))
                   && var applied := Splice(source, i, |p.original|, p.updated);
                   r == if IsPython(p.path) && !parses(applied) then None else Some(applied)
  {
    if p.original != "" {
      IndexOfIsFirst(source, p.original);
      ReplaceFirstAt(source, p.original, p.updated);
    }
  }

  ghost predicate FirstAt(source: string, w: string, i: nat) {
    Occurs(source, w, i) && i + |w| <= |source| && forall j: nat | j < i :: !Occurs(source, w, j)
  }

  /** The text that a patch makes of a source, whether or not it may be used. */
  ghost predicate Yields(source: string, p: FilePatch, text: string) {
    if p.original == "" then text == p.updated
    else exists i: nat | FirstAt(source, p.original, i) :: text == Splice(source, i, |p.original|, p.updated)
  }

  lemma YieldsOneText(source: string, p: FilePatch)
    ensures forall a, b :: Yields(source, p, a) && Yields(source, p, b) ==> a == b
  {
    forall a, b | Yields(source, p, a) && Yields(source, p, b) ensures a == b {
      if p.original != "" {
        var i: nat :| FirstAt(source, p.original, i) && a == Splice(source, i, |p.original|, p.updated);
        var j: nat :| FirstAt(source, p.original, j) && b == Splice(source, j, |p.original|, p.updated);
        assert !(i < j) && !(j < i);
      }
    }
  }

  /** A snippet that is nowhere, or Python that does not parse. */
  ghost predicate Invalid(parses: string -> bool, source: string, p: FilePatch) {
    || (p.original != "" && forall i: nat :: !Occurs(source, p.original, i))
    || (IsPython(p.path) && exists text :: Yields(source, p, text) && !parses(text))
  }

  /** A patch is refused exactly when it is invalid, and otherwise has the one text it makes. */
  lemma RefusedExactlyWhenInvalid(parses: string -> bool, source: string, p: FilePatch)
    ensures ApplyPatch(parses, source, p) == None <==> Invalid(parses, source, p)
    ensures ApplyPatch(parses, source, p).Some? ==> Yields(source, p, ApplyPatch(parses, source, p).value)
  {
    PatchMeaning(parses, source, p);
    YieldsOneText(source, p);
    if p.original == "" {
      assert Yields(source, p, p.updated);
    } else if i: nat :| FirstAt(source, p.original, i) {
      assert Yields(source, p, Splice(source, i, |p.original|, p.updated));
    }
  }

  lemma WholeTextReplaced(parses: string -> bool, a: string, p: FilePatch)
    requires a != "" && p.original == a && |p.path| < 3
    ensures ApplyPatch(parses, a, p) == Some(p.updated)
  {
    assert a[|a|..] == "" && p.updated + "" == p.updated;
  }
}
