/** The few Python string operations the network parsers are built from:
    `str.split(sep)`, the `in` test on strings and `str.strip()`. */
module Text {

  /** Python's `str.isspace` for one character: the ASCII whitespace and
      separator controls and the Unicode space separators. */
  predicate IsSpace(c: char)
  {
    || c == ' '
    || ('\t' <= c <= '\r')
    || ('\U{1c}' <= c <= '\U{1f}')
    || c == '\U{85}' || c == '\U{a0}' || c == '\U{1680}'
    || ('\U{2000}' <= c <= '\U{200a}')
    || c == '\U{2028}' || c == '\U{2029}' || c == '\U{202f}' || c == '\U{205f}' || c == '\U{3000}'
  }

  predicate AllSpace(s: string)
  {
    forall k :: 0 <= k < |s| ==> IsSpace(s[k])
  }

  // ---------------------------------------------------------------------
  // str.split(sep)

  /** `s.split(sep)` for a one-character separator: the pieces between
      separators, always at least one (`"".split(":") == [""]`). */
  function Split(s: string, sep: char): (r: seq<string>)
    ensures |r| >= 1
  {
    if s == [] then [""]
    else
      var rest := Split(s[1..], sep);
      if s[0] == sep then [""] + rest
      else [[s[0]] + rest[0]] + rest[1..]
  }

  /** `sep.join(parts)`, the inverse of `Split`. */
  function Join(parts: seq<string>, sep: char): string
  {
    if |parts| == 0 then ""
    else if |parts| == 1 then parts[0]
    else parts[0] + [sep] + Join(parts[1..], sep)
  }

  /** Joining the pieces back with the separator gives the original string. */
  lemma {:induction false} JoinSplit(s: string, sep: char)
    ensures Join(Split(s, sep), sep) == s
  {
    if s != [] {
      var rest := Split(s[1..], sep);
      JoinSplit(s[1..], sep);
      if s[0] == sep {
        assert Split(s, sep) == [""] + rest;
        assert ([""] + rest)[1..] == rest;
      } else {
        var r := Split(s, sep);
        assert r == [[s[0]] + rest[0]] + rest[1..];
        if |rest| == 1 {
          assert r == [[s[0]] + rest[0]];
        } else {
          assert r[1..] == rest[1..];
          assert Join(rest, sep) == rest[0] + [sep] + Join(rest[1..], sep);
        }
      }
    }
  }

  /** No piece contains the separator. */
  lemma {:induction false} SplitPiecesFree(s: string, sep: char)
    ensures forall k :: 0 <= k < |Split(s, sep)| ==> sep !in Split(s, sep)[k]
  {
    if s != [] {
      SplitPiecesFree(s[1..], sep);
      var rest := Split(s[1..], sep);
      if s[0] != sep {
        assert sep !in rest[0];
        assert sep !in [s[0]] + rest[0];
      }
    }
  }

  /** A string without the separator is a single piece. */
  lemma {:induction false} SplitNoSep(a: string, sep: char)
    requires sep !in a
    ensures Split(a, sep) == [a]
  {
    if a != [] {
      assert sep !in a[1..];
      SplitNoSep(a[1..], sep);
      assert [a[0]] + a[1..] == a;
    }
  }

  /** Splitting at the first separator: the first piece is everything before
      it, the rest is the split of everything after it. */
  lemma {:induction false} SplitAtFirst(a: string, b: string, sep: char)
    requires sep !in a
    ensures Split(a + [sep] + b, sep) == [a] + Split(b, sep)
  {
    if a == [] {
      assert a + [sep] + b == [sep] + b;
      assert ([sep] + b)[1..] == b;
    } else {
      var s := a + [sep] + b;
      assert s[1..] == a[1..] + [sep] + b;
      assert sep !in a[1..];
      SplitAtFirst(a[1..], b, sep);
      assert [a[0]] + a[1..] == a;
    }
  }

  /** Index 1 of the split exists exactly when the separator occurs. */
  lemma {:induction false} SplitHasSecond(s: string, sep: char)
    ensures |Split(s, sep)| >= 2 <==> sep in s
  {
    if sep in s {
      var i :| 0 <= i < |s| && s[i] == sep;
      var j := FirstIndex(s, sep, i);
      assert s == s[..j] + [sep] + s[j + 1..];
      SplitAtFirst(s[..j], s[j + 1..], sep);
    } else {
      SplitNoSep(s, sep);
    }
  }

  /** The first position of `c` in `s`, given that position `i` holds one. */
  function FirstIndex(s: string, c: char, i: nat): (j: nat)
    requires i < |s| && s[i] == c
    ensures j <= i && s[j] == c && c !in s[..j]
  {
    if c in s[..i] then
      var i' :| 0 <= i' < i && s[i'] == c;
      FirstIndex(s, c, i')
    else i
  }

  // ---------------------------------------------------------------------
  // the `in` test on strings

  predicate OccursAt(s: string, needle: string, i: int)
  {
    0 <= i && i + |needle| <= |s| && s[i..i + |needle|] == needle
  }

  /** Python's `needle in s`. */
  predicate Contains(s: string, needle: string)
  {
    needle <= s || (s != [] && Contains(s[1..], needle))
  }

  /** Where `needle in s` finds the needle. */
  lemma {:induction false} ContainsAt(s: string, needle: string) returns (i: nat)
    requires Contains(s, needle)
    ensures OccursAt(s, needle, i)
  {
    if needle <= s {
      i := 0;
    } else {
      var j := ContainsAt(s[1..], needle);
      assert s[1..][j..j + |needle|] == s[j + 1..j + 1 + |needle|];
      i := j + 1;
    }
  }

  /** An occurrence anywhere makes `needle in s` true. */
  lemma {:induction false} OccursContains(s: string, needle: string, i: nat)
    requires OccursAt(s, needle, i)
    ensures Contains(s, needle)
  {
    if i > 0 {
      assert s[1..][i - 1..i - 1 + |needle|] == s[i..i + |needle|];
      OccursContains(s[1..], needle, i - 1);
    }
  }

  /** `needle in s` holds exactly when the needle occurs at some position. */
  lemma {:induction false} ContainsIff(s: string, needle: string)
    ensures Contains(s, needle) <==> exists i :: OccursAt(s, needle, i)
  {
    if Contains(s, needle) {
      var i := ContainsAt(s, needle);
    }
    if exists i :: OccursAt(s, needle, i) {
      var i :| OccursAt(s, needle, i);
      OccursContains(s, needle, i);
    }
  }

  /** A string that has the needle in the middle contains it. */
  lemma {:induction false} ContainsInfix(a: string, needle: string, b: string)
    ensures Contains(a + needle + b, needle)
  {
    var s := a + needle + b;
    assert s[|a|..|a| + |needle|] == needle;
    OccursContains(s, needle, |a|);
  }

  // ---------------------------------------------------------------------
  // str.strip()

  /** Where `s.lstrip()` starts: the first non-whitespace position at or
      after `i`, or the end. */
  function StartFrom(s: string, i: nat): (a: nat)
    requires i <= |s|
    ensures i <= a <= |s|
    ensures forall k :: i <= k < a ==> IsSpace(s[k])
    ensures a == |s| || !IsSpace(s[a])
    decreases |s| - i
  {
    if i < |s| && IsSpace(s[i]) then StartFrom(s, i + 1) else i
  }

  /** Where `rstrip()` ends on `s[lo..j]`: the position after the last
      non-whitespace character, or `lo`. */
  function EndFrom(s: string, lo: nat, j: nat): (b: nat)
    requires lo <= j <= |s|
    ensures lo <= b <= j
    ensures forall k :: b <= k < j ==> IsSpace(s[k])
    ensures b == lo || !IsSpace(s[b - 1])
    decreases j
  {
    if j > lo && IsSpace(s[j - 1]) then EndFrom(s, lo, j - 1) else j
  }

  function Start(s: string): nat
  {
    StartFrom(s, 0)
  }

  function End(s: string): nat
  {
    EndFrom(s, Start(s), |s|)
  }

  /** `s.strip()`: the text between the leading and the trailing whitespace. */
  function Strip(s: string): string
  {
    s[Start(s)..End(s)]
  }

  /** What `strip` returns: a slice of the input with only whitespace cut off
      on either side and no whitespace left at either end. */
  lemma {:induction false} StripShape(s: string)
    ensures Start(s) <= End(s) <= |s| && Strip(s) == s[Start(s)..End(s)]
    ensures forall k :: 0 <= k < Start(s) ==> IsSpace(s[k])
    ensures forall k :: End(s) <= k < |s| ==> IsSpace(s[k])
    ensures Strip(s) == [] || (!IsSpace(Strip(s)[0]) && !IsSpace(Strip(s)[|Strip(s)| - 1]))
  {
    var a, b := Start(s), End(s);
    if a < b {
      assert Strip(s)[0] == s[a];
      assert Strip(s)[|Strip(s)| - 1] == s[b - 1];
    }
  }

  /** `strip` gives the empty string exactly when the input is all whitespace. */
  lemma {:induction false} StripEmptyIff(s: string)
    ensures Strip(s) == [] <==> AllSpace(s)
  {
    StripShape(s);
    var a, b := Start(s), End(s);
    if Strip(s) == [] {
      assert a == b;
    } else {
      assert !IsSpace(s[a]);
    }
  }

  /** A string with no whitespace at either end is its own `strip`. */
  lemma {:induction false} StripUnchanged(s: string)
    requires s == [] || (!IsSpace(s[0]) && !IsSpace(s[|s| - 1]))
    ensures Strip(s) == s
  {
    assert Start(s) == 0;
    assert End(s) == |s|;
  }

  /** Stripping twice is stripping once. */
  lemma {:induction false} StripIdempotent(s: string)
    ensures Strip(Strip(s)) == Strip(s)
  {
    StripShape(s);
    StripUnchanged(Strip(s));
  }

  /** A trailing whitespace character after a non-empty stripped word is cut. */
  lemma {:induction false} StripDropsTrailing(w: string, c: char)
    requires w != [] && !IsSpace(w[0]) && !IsSpace(w[|w| - 1]) && IsSpace(c)
    ensures Strip(w + [c]) == w
  {
    var s := w + [c];
    assert s[0] == w[0];
    assert Start(s) == 0;
    assert s[|s| - 1] == c && s[|s| - 2] == w[|w| - 1];
    assert EndFrom(s, 0, |s|) == EndFrom(s, 0, |s| - 1) == |w|;
    assert s[..|w|] == w;
  }
}
