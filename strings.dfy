/** The parts of Python's `str` that marc2iiif relies on: `isspace`, `strip`,
    `" ".join`, the `in` operator, `startswith`, `endswith` and `split`. */
module PyStrings {
  import opened Wrappers

  /** The characters Python's `str.isspace` accepts, which `str.strip()` removes. */
  predicate IsSpace(c: char) {
    || c == ' '
    || ('\t' <= c <= '\r')
    || ('\U{1C}' <= c <= '\U{1F}')
    || c == '\U{85}' || c == '\U{A0}' || c == '\U{1680}'
    || ('\U{2000}' <= c <= '\U{200A}')
    || c == '\U{2028}' || c == '\U{2029}' || c == '\U{202F}' || c == '\U{205F}' || c == '\U{3000}'
  }

  /** `s.lstrip()` */
  function StripLeft(s: string): (r: string)
    ensures |r| <= |s| && r == s[|s| - |r|..]
    ensures forall i :: 0 <= i < |s| - |r| ==> IsSpace(s[i])
    ensures r == [] || !IsSpace(r[0])
  {
    if s != [] && IsSpace(s[0]) then StripLeft(s[1..]) else s
  }

  /** `s.rstrip()` */
  function StripRight(s: string): (r: string)
    ensures |r| <= |s| && r == s[..|r|]
    ensures forall i :: |r| <= i < |s| ==> IsSpace(s[i])
    ensures r == [] || !IsSpace(r[|r| - 1])
  {
    if s != [] && IsSpace(s[|s| - 1]) then StripRight(s[..|s| - 1]) else s
  }

  /** `s.strip()`: what is left of `s` once the whitespace at both ends is gone;
      it neither starts nor ends with whitespace. */
  function Strip(s: string): (r: string)
    ensures r == [] || (!IsSpace(r[0]) && !IsSpace(r[|r| - 1]))
    ensures |r| <= |s|
  {
    StripRight(StripLeft(s))
  }

  /** `" ".join(xs)` */
  function Join(xs: seq<string>): string
  {
    if |xs| == 0 then ""
    else if |xs| == 1 then xs[0]
    else Join(xs[..|xs| - 1]) + " " + xs[|xs| - 1]
  }

  /** The string a loop `acc += " " + x` builds from `acc = ""`, one `x` of `xs` at a time. */
  function SpacePrefixed(xs: seq<string>): string
  {
    if xs == [] then "" else SpacePrefixed(xs[..|xs| - 1]) + " " + xs[|xs| - 1]
  }

  /** One more turn of the loop appends a space and the next piece. */
  lemma SpacePrefixedStep(xs: seq<string>, j: nat)
    requires j < |xs|
    ensures SpacePrefixed(xs[..j + 1]) == SpacePrefixed(xs[..j]) + " " + xs[j]
  {
    assert xs[..j + 1][..j] == xs[..j];
  }

  /** Prefixing every piece with a space is joining them with spaces, after one leading space. */
  lemma {:induction false} SpacePrefixedIsJoin(xs: seq<string>)
    ensures SpacePrefixed(xs) == if xs == [] then "" else " " + Join(xs)
  {
    if |xs| > 1 {
      var init := xs[..|xs| - 1];
      SpacePrefixedIsJoin(init);
      assert init[..|init| - 1] == xs[..|xs| - 2];
    } else if |xs| == 1 {
      assert xs[..0] == [];
    }
  }

  /** A space before a string does not change what `strip` returns. */
  lemma {:induction false} StripIgnoresLeadingSpace(s: string)
    ensures Strip(" " + s) == Strip(s)
  {
    assert (" " + s)[1..] == s;
  }

  /** `lstrip` of a string that does not consist of whitespace only distributes over a suffix. */
  lemma {:induction false} StripLeftAppend(s: string, t: string)
    requires StripLeft(s) != []
    ensures StripLeft(s + t) == StripLeft(s) + t
  {
    assert (s + t)[0] == s[0];
    if IsSpace(s[0]) {
      assert StripLeft(s + t) == StripLeft(s[1..] + t) by {
        assert (s + t)[1..] == s[1..] + t;
      }
      StripLeftAppend(s[1..], t);
    }
  }

  /** `lstrip` of whitespace only yields the empty string. */
  lemma {:induction false} StripLeftAllSpace(s: string, t: string)
    requires StripLeft(s) == []
    ensures StripLeft(s + t) == StripLeft(t)
  {
    if s != [] {
      assert (s + t)[1..] == s[1..] + t;
      StripLeftAllSpace(s[1..], t);
    } else {
      assert s + t == t;
    }
  }

  /** A space after a string does not change what `strip` returns. */
  lemma StripIgnoresTrailingSpace(s: string)
    ensures Strip(s + " ") == Strip(s)
  {
    if StripLeft(s) == [] {
      StripLeftAllSpace(s, " ");
    } else {
      StripLeftAppend(s, " ");
      var l := StripLeft(s);
      assert (l + " ")[..|l + " "| - 1] == l;
    }
  }

  /** `p` occurs in `s` starting at index `i`. */
  predicate OccursAt(s: string, p: string, i: nat) {
    i + |p| <= |s| && s[i..i + |p|] == p
  }

  /** Python's `p in s`. */
  predicate Contains(s: string, p: string) {
    exists i: nat | i <= |s| :: OccursAt(s, p, i)
  }

  /** `s.startswith(p)` */
  predicate StartsWith(s: string, p: string) {
    |p| <= |s| && s[..|p|] == p
  }

  /** `s.endswith(p)` */
  predicate EndsWith(s: string, p: string) {
    |p| <= |s| && s[|s| - |p|..] == p
  }

  /** The first index at or after `from` where `p` occurs in `s`, as `s.find(p, from)` finds it. */
  function FindFrom(s: string, p: string, from: nat): (r: Option<nat>)
    decreases |s| - from
    ensures r.Some? ==> from <= r.value && OccursAt(s, p, r.value)
    ensures r.Some? ==> forall j :: from <= j < r.value ==> !OccursAt(s, p, j)
    ensures r.None? ==> forall j :: from <= j ==> !OccursAt(s, p, j)
  {
    if from + |p| > |s| then None
    else if s[from..from + |p|] == p then Some(from)
    else FindFrom(s, p, from + 1)
  }

  /** `s.find(p)`, with None for -1: the first occurrence, and none exists exactly when `p` is not in `s`. */
  function Find(s: string, p: string): (r: Option<nat>)
    ensures r.None? <==> !Contains(s, p)
    ensures r.Some? ==> OccursAt(s, p, r.value) && forall j :: 0 <= j < r.value ==> !OccursAt(s, p, j)
  {
    FindFrom(s, p, 0)
  }

  /** `s.split(p)` for a non-empty separator: the pieces between non-overlapping occurrences, scanned left to right. */
  function Split(s: string, p: string): (r: seq<string>)
    requires |p| > 0
    decreases |s|
    ensures |r| >= 1
    ensures !Contains(s, p) <==> r == [s]
    ensures Contains(s, p) ==> |r| >= 2
  {
    match Find(s, p)
    case None => [s]
    case Some(i) => [s[..i]] + Split(s[i + |p|..], p)
  }

  /** A prefix of `s` that ends before the first occurrence of `p` does not contain `p`. */
  lemma {:induction false} BeforeFirstOccurrence(s: string, p: string, i: nat)
    requires |p| > 0 && i <= |s|
    requires forall j :: 0 <= j < i ==> !OccursAt(s, p, j)
    ensures !Contains(s[..i], p)
  {
    if Contains(s[..i], p) {
      var j: nat :| j <= i && OccursAt(s[..i], p, j);
      assert s[..i][j..j + |p|] == s[j..j + |p|];
      assert j < i && OccursAt(s, p, j);
    }
  }

  /** `s.split(p)` yields exactly two pieces exactly when `p` occurs in `s` and not again after its first
      occurrence. */
  lemma SplitInTwoIff(s: string, p: string)
    requires |p| > 0
    ensures |Split(s, p)| == 2 <==> Contains(s, p) && !Contains(s[Find(s, p).value + |p|..], p)
  {
    if Contains(s, p) {
      var rest := s[Find(s, p).value + |p|..];
      assert |Split(s, p)| == 1 + |Split(rest, p)|;
    }
  }

  /** When `s.split(p)` yields two pieces, `s` is the first piece, `p` and the second piece, and neither
      piece contains `p`. */
  lemma SplitInTwoParts(s: string, p: string)
    requires |p| > 0 && |Split(s, p)| == 2
    ensures s == Split(s, p)[0] + p + Split(s, p)[1]
    ensures !Contains(Split(s, p)[0], p) && !Contains(Split(s, p)[1], p)
  {
    SplitInTwoIff(s, p);
    var i := Find(s, p).value;
    var rest := s[i + |p|..];
    assert Split(s, p) == [s[..i], rest];
    assert s == s[..i] + p + rest by {
      assert s[i..i + |p|] == p;
    }
    BeforeFirstOccurrence(s, p, i);
  }
}
