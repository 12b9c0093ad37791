/**
 * The Python string built-ins the build scripts rely on: `str.split(" ")`,
 * `upper`, `capitalize`, `isdigit` and `strip`. Case mapping and digit
 * recognition are modelled for ASCII only; `strip` removes exactly the
 * characters Python's `str.isspace` accepts.
 */
module PyStr {

  // ---------------------------------------------------------------------------
  // Splitting on one separator character: Python's `s.split(c)`
  // ---------------------------------------------------------------------------

  /** `s.split(sep)` with an explicit one-character separator: every occurrence
      separates, so neighbouring separators give empty parts and the result is
      never empty (`"".split(" ") == [""]`). */
  function Split(s: string, sep: char): (parts: seq<string>)
    ensures |parts| >= 1
    decreases |s|
  {
    if s == [] then [""]
    else
      var rest := Split(s[1..], sep);
      if s[0] == sep then [""] + rest
      else [[s[0]] + rest[0]] + rest[1..]
  }

  /** No part of a split holds the separator. */
  lemma {:induction false} SplitPartsLackSep(s: string, sep: char)
    ensures forall k :: 0 <= k < |Split(s, sep)| ==> sep !in Split(s, sep)[k]
    decreases |s|
  {
    if s != [] {
      SplitPartsLackSep(s[1..], sep);
      var rest := Split(s[1..], sep);
      if s[0] != sep {
        assert sep !in [s[0]] + rest[0];
      }
    }
  }

  /** A character the string lacks is in none of its parts. */
  lemma {:induction false} SplitPartsLack(s: string, sep: char, c: char)
    requires c !in s
    ensures forall k :: 0 <= k < |Split(s, sep)| ==> c !in Split(s, sep)[k]
    decreases |s|
  {
    if s != [] {
      assert c !in s[1..];
      SplitPartsLack(s[1..], sep, c);
    }
  }

  /** `sep.join(parts)`: the inverse of `Split`. */
  function Join(parts: seq<string>, sep: char): (s: string)
    requires |parts| >= 1
    decreases |parts|
  {
    if |parts| == 1 then parts[0] else parts[0] + [sep] + Join(parts[1..], sep)
  }

  /** Joining the parts of a split gives the string back. */
  lemma {:induction false} JoinSplit(s: string, sep: char)
    ensures Join(Split(s, sep), sep) == s
    decreases |s|
  {
    if s != [] {
      JoinSplit(s[1..], sep);
      assert [s[0]] + s[1..] == s;
    }
  }

  /** Splitting a joined sequence gives the parts back, provided no part
      contains the separator: `Split` and `Join` are inverse bijections. */
  lemma {:induction false} SplitJoin(parts: seq<string>, sep: char)
    requires |parts| >= 1
    requires forall k :: 0 <= k < |parts| ==> sep !in parts[k]
    ensures Split(Join(parts, sep), sep) == parts
    decreases |parts|, |parts[0]|
  {
    var p := parts[0];
    if |parts| == 1 {
      SplitNoSep(p, sep);
    } else if p == [] {
      var tail := Join(parts[1..], sep);
      assert Join(parts, sep) == [sep] + tail;
      assert ([sep] + tail)[1..] == tail;
      SplitJoin(parts[1..], sep);
      assert parts == [""] + parts[1..];
    } else {
      var parts' := [p[1..]] + parts[1..];
      assert parts'[1..] == parts[1..];
      assert Join(parts, sep) == [p[0]] + Join(parts', sep);
      assert ([p[0]] + Join(parts', sep))[1..] == Join(parts', sep);
      SplitJoin(parts', sep);
      assert [p[0]] + p[1..] == p;
      assert parts == [p] + parts[1..];
    }
  }

  /** A string without the separator is one part. */
  lemma {:induction false} SplitNoSep(s: string, sep: char)
    requires sep !in s
    ensures Split(s, sep) == [s]
    decreases |s|
  {
    if s != [] {
      assert sep !in s[1..];
      SplitNoSep(s[1..], sep);
      assert [s[0]] + s[1..] == s;
    }
  }

  /** One split step: the first part ends at the first separator. */
  lemma {:induction false} SplitAtFirst(a: string, b: string, sep: char)
    requires sep !in a
    ensures Split(a + [sep] + b, sep) == [a] + Split(b, sep)
    decreases |a|
  {
    if a == [] {
      assert a + [sep] + b == [sep] + b;
      assert ([sep] + b)[1..] == b;
    } else {
      assert (a + [sep] + b)[1..] == a[1..] + [sep] + b;
      assert sep !in a[1..];
      SplitAtFirst(a[1..], b, sep);
      assert [a[0]] + a[1..] == a;
    }
  }

  // ---------------------------------------------------------------------------
  // ASCII case mapping and digits
  // ---------------------------------------------------------------------------

  predicate IsAsciiLower(c: char) { 'a' <= c <= 'z' }
  predicate IsAsciiUpper(c: char) { 'A' <= c <= 'Z' }

  function UpperChar(c: char): char {
    if IsAsciiLower(c) then (c as int - 32) as char else c
  }

  function LowerChar(c: char): char {
    if IsAsciiUpper(c) then (c as int + 32) as char else c
  }

  /** `s.upper()`: every letter becomes upper case, nothing else changes. */
  function Upper(s: string): (r: string)
    ensures |r| == |s|
    ensures forall k :: 0 <= k < |s| ==> r[k] == UpperChar(s[k])
    ensures forall k :: 0 <= k < |s| ==> !IsAsciiLower(r[k])
  {
    if s == [] then [] else [UpperChar(s[0])] + Upper(s[1..])
  }

  /** `s.capitalize()`: the first character upper case, all others lower case. */
  function Capitalize(s: string): (r: string)
    ensures |r| == |s|
    ensures |s| > 0 ==> r[0] == UpperChar(s[0])
    ensures forall k :: 0 < k < |s| ==> r[k] == LowerChar(s[k])
  {
    if s == [] then [] else [UpperChar(s[0])] + Lower(s[1..])
  }

  /** `s.lower()`. */
  function Lower(s: string): (r: string)
    ensures |r| == |s|
    ensures forall k :: 0 <= k < |s| ==> r[k] == LowerChar(s[k])
  {
    if s == [] then [] else [LowerChar(s[0])] + Lower(s[1..])
  }

  /** `capitalize` changes the case of letters only: upper-cased, the result
      reads as the input upper-cased. */
  lemma CapitalizeRecases(s: string)
    ensures Upper(Capitalize(s)) == Upper(s)
  {
    var a, b := Upper(Capitalize(s)), Upper(s);
    forall k | 0 <= k < |s| ensures a[k] == b[k] {
      if k > 0 {
        assert a[k] == UpperChar(LowerChar(s[k]));
      }
    }
  }

  /** `capitalize` does not depend on the case its input had, so it agrees on
      a token and on the token upper-cased. */
  lemma CapitalizeIgnoresCase(s: string)
    ensures Capitalize(Upper(s)) == Capitalize(s)
  {
    var a, b := Capitalize(Upper(s)), Capitalize(s);
    forall k | 0 <= k < |s| ensures a[k] == b[k] {
      if k > 0 {
        assert a[k] == LowerChar(UpperChar(s[k]));
      }
    }
  }

  predicate IsAsciiDigit(c: char) { '0' <= c <= '9' }

  /** `s.isdigit()`: true exactly for a non-empty run of digits. */
  predicate IsDigits(s: string) {
    |s| > 0 && forall k :: 0 <= k < |s| ==> IsAsciiDigit(s[k])
  }

  // ---------------------------------------------------------------------------
  // Whitespace and strip
  // ---------------------------------------------------------------------------

  /** `c.isspace()`: the characters `str.strip()` removes. */
  predicate IsSpace(c: char) {
    || c == ' ' || '\t' <= c <= '\r'                // \t \n \v \f \r
    || '\U{1c}' <= c <= '\U{1f}'                    // file/group/record/unit separators
    || c == '\U{85}' || c == '\U{a0}' || c == '\U{1680}'
    || '\U{2000}' <= c <= '\U{200a}'
    || c == '\U{2028}' || c == '\U{2029}' || c == '\U{202f}' || c == '\U{205f}' || c == '\U{3000}'
  }

  predicate IsBlank(s: string) {
    forall k {:trigger IsSpace(s[k])} :: 0 <= k < |s| ==> IsSpace(s[k])
  }

  /** Neither end of `s` is whitespace: what `strip` leaves behind. */
  predicate IsTrimmed(s: string) {
    s == [] || (!IsSpace(s[0]) && !IsSpace(s[|s| - 1]))
  }

  /** `s.lstrip()`: a suffix of `s` that does not start with whitespace. */
  function LStrip(s: string): (r: string)
    ensures |r| <= |s| && r == s[|s| - |r|..]
    ensures r == [] || !IsSpace(r[0])
    decreases |s|
  {
    if s != [] && IsSpace(s[0]) then LStrip(s[1..]) else s
  }

  /** `s.rstrip()`: a prefix of `s` that does not end with whitespace. */
  function RStrip(s: string): (r: string)
    ensures |r| <= |s| && r == s[..|r|]
    ensures r == [] || !IsSpace(r[|r| - 1])
    decreases |s|
  {
    if s != [] && IsSpace(s[|s| - 1]) then RStrip(s[..|s| - 1]) else s
  }

  /** `lstrip` removes whitespace only. */
  lemma {:induction false} LStripCutsBlank(s: string)
    ensures IsBlank(s[..|s| - |LStrip(s)|])
    decreases |s|
  {
    if s != [] && IsSpace(s[0]) {
      LStripCutsBlank(s[1..]);
      var n := |s| - |LStrip(s)|;
      assert forall k :: 1 <= k < n ==> s[..n][k] == s[1..][..n - 1][k - 1];
    }
  }

  /** `rstrip` removes whitespace only. */
  lemma {:induction false} RStripCutsBlank(s: string)
    ensures IsBlank(s[|RStrip(s)|..])
    decreases |s|
  {
    if s != [] && IsSpace(s[|s| - 1]) {
      var init := s[..|s| - 1];
      RStripCutsBlank(init);
      var n := |RStrip(s)|;
      assert forall k :: n <= k < |s| - 1 ==> s[k] == init[k];
    }
  }

  /** `s.strip()`: drops the whitespace at both ends and keeps the middle. */
  function Strip(s: string): (r: string)
    ensures |r| <= |s| && IsTrimmed(r)
  {
    RStrip(LStrip(s))
  }

  /** Where `strip` starts cutting: the length of the leading whitespace. */
  function StripStart(s: string): (i: nat)
    ensures i <= |s|
  {
    |s| - |LStrip(s)|
  }

  /** What `strip` returns: a trimmed infix of its input, with only whitespace
      cut off on either side. */
  lemma StripShape(s: string)
    ensures StripStart(s) + |Strip(s)| <= |s|
    ensures Strip(s) == s[StripStart(s)..StripStart(s) + |Strip(s)|]
    ensures IsBlank(s[..StripStart(s)]) && IsBlank(s[StripStart(s) + |Strip(s)|..])
    ensures IsTrimmed(Strip(s))
  {
    var l := LStrip(s);
    var r := Strip(s);
    var i := StripStart(s);
    LStripCutsBlank(s);
    RStripCutsBlank(l);
    assert l == s[i..];
    assert r == l[..|r|];
    assert s[i + |r|..] == l[|r|..];
    if r != [] {
      assert r[0] == l[0];
    }
  }

  /** The reference characterisation of `strip`: whitespace around a trimmed
      core is removed and the core is kept whole. */
  lemma {:induction false} StripAround(w1: string, core: string, w2: string)
    requires IsBlank(w1) && IsBlank(w2) && IsTrimmed(core)
    ensures Strip(w1 + core + w2) == core
  {
    var rest := core + w2;
    assert w1 + core + w2 == w1 + rest;
    LStripBlankPrefix(w1, rest);
    if core == [] {
      StripBlankOnly(w2);
    } else {
      LStripKeeps(rest);
      RStripBlankSuffix(core, w2);
    }
  }

  lemma StripBlankOnly(w: string)
    requires IsBlank(w)
    ensures RStrip(LStrip(w)) == []
  {
    assert w == w + [];
    LStripBlankPrefix(w, []);
  }

  lemma LStripKeeps(s: string)
    requires s != [] && !IsSpace(s[0])
    ensures LStrip(s) == s
  {
  }

  lemma {:induction false} LStripBlankPrefix(w: string, t: string)
    requires IsBlank(w)
    ensures LStrip(w + t) == LStrip(t)
    decreases |w|
  {
    if w != [] {
      assert (w + t)[1..] == w[1..] + t;
      LStripBlankPrefix(w[1..], t);
    } else {
      assert w + t == t;
    }
  }

  lemma {:induction false} RStripBlankSuffix(core: string, w: string)
    requires core != [] && !IsSpace(core[|core| - 1]) && IsBlank(w)
    ensures RStrip(core + w) == core
    decreases |w|
  {
    if w == [] {
      assert core + w == core;
    } else {
      assert (core + w)[..|core + w| - 1] == core + w[..|w| - 1];
      RStripBlankSuffix(core, w[..|w| - 1]);
    }
  }

  /** `strip` is idempotent. */
  lemma StripIdempotent(s: string)
    ensures Strip(Strip(s)) == Strip(s)
  {
    StripShape(s);
    var r := Strip(s);
    StripAround([], r, []);
    assert [] + r + [] == r;
  }

  /** A line strips to nothing exactly when it is all whitespace. */
  lemma StripEmptyIffBlank(s: string)
    ensures Strip(s) == [] <==> IsBlank(s)
  {
    if IsBlank(s) {
      StripAround(s, [], []);
      assert s + [] + [] == s;
    }
    if Strip(s) == [] {
      StripEmptyMeansBlank(s);
    }
  }

  lemma StripEmptyMeansBlank(s: string)
    requires Strip(s) == []
    ensures IsBlank(s)
  {
    var l := LStrip(s);
    LStripCutsBlank(s);
    RStripCutsBlank(l);
    assert IsBlank(l[0..]);
    assert l[0..] == l;
    assert s[..|s| - |l|] == s;
  }
}
