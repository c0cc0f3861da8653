/** String operations with the semantics of the Python built-ins the
    clinic backend uses: `str.strip()`, `str.replace(old, new)` and the
    substring test `p in s`. */
module Text {

  /** Python's `str.isspace()` for one character: exactly the characters
      `str.strip()` removes. */
  predicate IsSpace(c: char) {
    || c == ' '
    || ('\t' <= c <= '\r')
    || ('\U{1C}' <= c <= '\U{1F}')
    || c == '\U{85}' || c == '\U{A0}' || c == '\U{1680}'
    || ('\U{2000}' <= c <= '\U{200A}')
    || c == '\U{2028}' || c == '\U{2029}' || c == '\U{202F}'
    || c == '\U{205F}' || c == '\U{3000}'
  }

  predicate AllSpace(s: string) {
    forall k :: 0 <= k < |s| ==> IsSpace(s[k])
  }

  /** Index of the first character that is not whitespace. */
  function TextStart(s: string): (i: nat)
    ensures i <= |s|
    ensures AllSpace(s[..i])
    ensures i < |s| ==> !IsSpace(s[i])
  {
    if s != [] && IsSpace(s[0]) then
      var i := 1 + TextStart(s[1..]);
      assert s[..i] == [s[0]] + s[1..][..i - 1];
      i
    else 0
  }

  /** Index just after the last character that is not whitespace. */
  function TextEnd(s: string): (j: nat)
    ensures j <= |s|
    ensures AllSpace(s[j..])
    ensures j > 0 ==> !IsSpace(s[j - 1])
  {
    if s != [] && IsSpace(s[|s| - 1]) then
      var j := TextEnd(s[..|s| - 1]);
      assert s[j..] == s[..|s| - 1][j..] + [s[|s| - 1]];
      j
    else |s|
  }

  /** `r` is the part of `s` from index `i` on, with only whitespace
      before and after it. */
  predicate Trimmed(s: string, i: nat, r: string) {
    && i + |r| <= |s| && r == s[i..i + |r|]
    && AllSpace(s[..i]) && AllSpace(s[i + |r|..])
  }

  /** Python's `s.strip()`: the contiguous middle of `s` left once the
      leading and trailing whitespace is cut off. */
  function Strip(s: string): (r: string)
    ensures exists i: nat :: Trimmed(s, i, r)
    ensures r != [] ==> !IsSpace(r[0]) && !IsSpace(r[|r| - 1])
  {
    var i := TextStart(s);
    var t := s[i..];
    var j := TextEnd(t);
    var r := t[..j];
    assert r == s[i..i + j];
    assert s[i + j..] == t[j..];
    assert r != [] ==> r[0] == s[i] && r[|r| - 1] == t[j - 1];
    assert Trimmed(s, i, r);
    r
  }

  /** Python's `p in s`, computed position by position. The empty
      pattern occurs in every string. */
  predicate Contains(s: string, p: string)
    decreases |s|
  {
    p <= s || (s != [] && Contains(s[1..], p))
  }

  /** Python's `s.replace(pat, rep)`: every leftmost, non-overlapping
      occurrence of `pat`, scanning left to right, is replaced; the text
      spliced in is not scanned again. */
  function ReplaceAll(s: string, pat: string, rep: string): (r: string)
    requires pat != []
    decreases |s|
  {
    if s == [] then []
    else if pat <= s then rep + ReplaceAll(s[|pat|..], pat, rep)
    else [s[0]] + ReplaceAll(s[1..], pat, rep)
  }

  /** A text in which the pattern does not occur is left unchanged. */
  lemma {:induction false} ReplaceAllAbsent(s: string, pat: string, rep: string)
    requires pat != [] && !Contains(s, pat)
    ensures ReplaceAll(s, pat, rep) == s
    decreases |s|
  {
    if s != [] {
      ReplaceAllAbsent(s[1..], pat, rep);
      assert s == [s[0]] + s[1..];
    }
  }

  /** Replacing the pattern by itself changes nothing. */
  lemma {:induction false} ReplaceAllSame(s: string, pat: string)
    requires pat != []
    ensures ReplaceAll(s, pat, pat) == s
    decreases |s|
  {
    if s == [] {
    } else if pat <= s {
      ReplaceAllSame(s[|pat|..], pat);
      assert s == pat + s[|pat|..];
    } else {
      ReplaceAllSame(s[1..], pat);
      assert s == [s[0]] + s[1..];
    }
  }

  /** `p` occurs in `s` starting at index `i`. */
  predicate OccursAt(s: string, p: string, i: nat) {
    i + |p| <= |s| && s[i..i + |p|] == p
  }

  /** A slice of the tail is the slice of the whole one position on. */
  lemma TailSlice(s: string, i: nat, n: nat)
    requires s != [] && i + n <= |s| - 1
    ensures s[1..][i..i + n] == s[i + 1..i + 1 + n]
  {
    var t := s[1..][i..i + n];
    assert forall j :: 0 <= j < n ==> t[j] == s[i + 1 + j];
  }

  /** `Contains` agrees with the positional definition of a substring. */
  lemma {:induction false} ContainsIff(s: string, p: string)
    ensures Contains(s, p) <==> exists i: nat :: OccursAt(s, p, i)
    decreases |s|
  {
    if p <= s {
      assert OccursAt(s, p, 0);
    } else if s == [] {
    } else {
      ContainsIff(s[1..], p);
      if Contains(s[1..], p) {
        var i: nat :| OccursAt(s[1..], p, i);
        TailSlice(s, i, |p|);
        assert OccursAt(s, p, i + 1);
      } else {
        forall i: nat | OccursAt(s, p, i) ensures false {
          if i != 0 {
            TailSlice(s, i - 1, |p|);
            assert OccursAt(s[1..], p, i - 1);
          }
        }
      }
    }
  }

  /** An occurrence at the very start is replaced, and the scan resumes
      right after it. */
  lemma ReplaceAllHead(pat: string, b: string, rep: string)
    requires pat != []
    ensures ReplaceAll(pat + b, pat, rep) == rep + ReplaceAll(b, pat, rep)
  {
    assert pat <= pat + b;
    assert (pat + b)[|pat|..] == b;
  }

  /** A character that cannot start the pattern is copied, and the scan
      moves on by one. */
  lemma ReplaceAllCons(c: char, t: string, pat: string, rep: string)
    requires pat != [] && c != pat[0]
    ensures ReplaceAll([c] + t, pat, rep) == [c] + ReplaceAll(t, pat, rep)
  {
    assert ([c] + t)[0] == c;
    assert ([c] + t)[1..] == t;
  }

  lemma SplitHead(a: string, x: string, y: string)
    requires a != []
    ensures a + x + y == [a[0]] + (a[1..] + x + y)
  {
    assert a == [a[0]] + a[1..];
  }

  /** An occurrence must begin with the pattern's first character, so a
      prefix free of that character is copied unchanged and the first
      occurrence right after it is replaced. */
  lemma {:induction false} ReplaceAllSplice(a: string, b: string, pat: string, rep: string)
    requires pat != []
    requires forall k :: 0 <= k < |a| ==> a[k] != pat[0]
    ensures ReplaceAll(a + pat + b, pat, rep) == a + rep + ReplaceAll(b, pat, rep)
    decreases |a|
  {
    if a == [] {
      assert a + pat + b == pat + b;
      ReplaceAllHead(pat, b, rep);
    } else {
      var t := a[1..] + pat + b;
      assert a + pat + b == [a[0]] + t;
      ReplaceAllCons(a[0], t, pat, rep);
      ReplaceAllSplice(a[1..], b, pat, rep);
      SplitHead(a, rep, ReplaceAll(b, pat, rep));
    }
  }

  /** A string without the pattern's first character holds no occurrence. */
  lemma {:induction false} NoLeadCharNoMatch(s: string, pat: string)
    requires pat != []
    requires forall k :: 0 <= k < |s| ==> s[k] != pat[0]
    ensures !Contains(s, pat)
    decreases |s|
  {
    if s != [] {
      assert !(pat <= s) by { assert s[0] != pat[0]; }
      NoLeadCharNoMatch(s[1..], pat);
    }
  }

  /** So such a string is left unchanged by the replacement. */
  lemma NoLeadCharKeeps(s: string, pat: string, rep: string)
    requires pat != []
    requires forall k :: 0 <= k < |s| ==> s[k] != pat[0]
    ensures ReplaceAll(s, pat, rep) == s
  {
    NoLeadCharNoMatch(s, pat);
    ReplaceAllAbsent(s, pat, rep);
  }

  /** A prefix free of the pattern's first character holds no start of an
      occurrence, so it does not change whether the pattern occurs. */
  lemma {:induction false} ContainsSkipPrefix(a: string, s: string, p: string)
    requires p != []
    requires forall k :: 0 <= k < |a| ==> a[k] != p[0]
    ensures Contains(a + s, p) == Contains(s, p)
    decreases |a|
  {
    if a != [] {
      assert (a + s)[0] == a[0];
      assert !(p <= a + s);
      assert (a + s)[1..] == a[1..] + s;
      ContainsSkipPrefix(a[1..], s, p);
    } else {
      assert a + s == s;
    }
  }

  /** Every character of the result comes from the input or the
      replacement text. */
  lemma {:induction false} ReplaceAllChars(s: string, pat: string, rep: string, c: char)
    requires pat != []
    requires c !in s && c !in rep
    ensures c !in ReplaceAll(s, pat, rep)
    decreases |s|
  {
    if s == [] {
    } else if pat <= s {
      ReplaceAllChars(s[|pat|..], pat, rep, c);
    } else {
      ReplaceAllChars(s[1..], pat, rep, c);
    }
  }

  /** Deleting a one-character pattern leaves none of that character. */
  lemma {:induction false} DeleteCharRemovesAll(s: string, c: char)
    ensures c !in ReplaceAll(s, [c], [])
    decreases |s|
  {
    if s == [] {
    } else if [c] <= s {
      DeleteCharRemovesAll(s[1..], c);
    } else {
      assert s[0] != c;
      DeleteCharRemovesAll(s[1..], c);
    }
  }

  /** Stripping a string that neither starts nor ends with whitespace is
      the identity, and stripping twice is stripping once. */
  lemma StripIdentity(s: string)
    requires s == [] || (!IsSpace(s[0]) && !IsSpace(s[|s| - 1]))
    ensures Strip(s) == s
  {
    assert TextStart(s) == 0;
    assert s[0..] == s;
    assert TextEnd(s) == |s|;
  }

  /** Stripping only removes characters. */
  lemma StripKeepsAbsent(s: string, c: char)
    requires c !in s
    ensures c !in Strip(s)
  {
    var i := TextStart(s);
    var t := s[i..];
    var r := t[..TextEnd(t)];
    assert Strip(s) == r;
    assert forall k :: 0 <= k < |r| ==> r[k] == s[i + k];
  }

  lemma StripIdempotent(s: string)
    ensures Strip(Strip(s)) == Strip(s)
  {
    StripIdentity(Strip(s));
  }
}
