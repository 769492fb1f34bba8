/**
 * The few Python `str` operations the client relies on, each written out
 * so that its edge cases are those of CPython: `count` and `replace` with a
 * one-character needle, `in` on strings, `strip()` with no argument,
 * `split` on one character, `join`, and the truthiness of `str | None`.
 */
module Text {
  import opened Wrappers

  /** Python truthiness of an optional string: both `None` and `""` are falsy. */
  predicate Truthy(o: Option<string>)
  {
    o.Some? && o.value != ""
  }

  predicate IsSuffix(r: string, s: string)
  {
    |r| <= |s| && s[|s| - |r|..] == r
  }

  // ---------------------------------------------------------------------
  // s.count(c) and s.replace(c, "")

  /** `s.count(c)` for a one-character needle. */
  function Count(s: string, c: char): nat
  {
    if s == [] then 0 else (if s[0] == c then 1 else 0) + Count(s[1..], c)
  }

  /** The count is the multiplicity of `c` in `s`. */
  lemma {:induction false} CountIsMultiplicity(s: string, c: char)
    ensures Count(s, c) == multiset(s)[c]
  {
    if s != [] {
      CountIsMultiplicity(s[1..], c);
      assert s == [s[0]] + s[1..];
      assert multiset(s) == multiset([s[0]]) + multiset(s[1..]);
    }
  }

  /** `s.replace(c, "")`: the string with every occurrence of `c` removed. */
  function RemoveAll(s: string, c: char): (r: string)
    ensures c !in r
    ensures |r| == |s| - Count(s, c)
  {
    if s == [] then [] else (if s[0] == c then [] else [s[0]]) + RemoveAll(s[1..], c)
  }

  /** Removing distributes over concatenation, so the order of the kept characters is that of `s`. */
  lemma {:induction false} RemoveAllConcat(a: string, b: string, c: char)
    ensures RemoveAll(a + b, c) == RemoveAll(a, c) + RemoveAll(b, c)
  {
    if a != [] {
      assert (a + b)[1..] == a[1..] + b;
      RemoveAllConcat(a[1..], b, c);
    } else {
      assert a + b == b;
    }
  }

  /** Exactly the occurrences of `c` go: every other character keeps its multiplicity. */
  lemma {:induction false} RemoveAllContents(s: string, c: char)
    ensures multiset(RemoveAll(s, c)) == multiset(s)[c := 0]
  {
    if s != [] {
      RemoveAllContents(s[1..], c);
      assert s == [s[0]] + s[1..];
      assert multiset(s) == multiset([s[0]]) + multiset(s[1..]);
    }
  }

  // ---------------------------------------------------------------------
  // sub in s

  /** Python's `sub in s` on strings. */
  predicate Contains(s: string, sub: string)
    decreases |s|
  {
    |sub| <= |s| && (s[..|sub|] == sub || (s != [] && Contains(s[1..], sub)))
  }

  /** `sub` occurs in `s` starting at index `i`. */
  predicate OccursAt(s: string, sub: string, i: int)
  {
    0 <= i && i + |sub| <= |s| && s[i..i + |sub|] == sub
  }

  /** `Contains` agrees with "`sub` occurs at some index of `s`". */
  lemma {:induction false} ContainsIffOccurs(s: string, sub: string)
    ensures Contains(s, sub) <==> exists i :: OccursAt(s, sub, i)
    decreases |s|
  {
    if |sub| <= |s| && s != [] {
      ContainsIffOccurs(s[1..], sub);
      if Contains(s[1..], sub) {
        var i :| OccursAt(s[1..], sub, i);
        assert s[i + 1..i + 1 + |sub|] == s[1..][i..i + |sub|];
        assert OccursAt(s, sub, i + 1);
      }
      if s[..|sub|] == sub {
        assert OccursAt(s, sub, 0);
      }
      if exists i :: OccursAt(s, sub, i) {
        var i :| OccursAt(s, sub, i);
        if i > 0 {
          assert s[1..][i - 1..i - 1 + |sub|] == s[i..i + |sub|];
          assert OccursAt(s[1..], sub, i - 1);
        }
      }
    } else if |sub| <= |s| {
      assert OccursAt(s, sub, 0);
    }
  }

  // ---------------------------------------------------------------------
  // s.strip()

  /** The characters CPython's `str.strip()` removes (those for which `str.isspace()` holds). */
  predicate IsSpace(c: char)
  {
    || ('\t' <= c <= '\r')
    || ('\U{1C}' <= c <= ' ')
    || c == '\U{85}' || c == '\U{A0}' || c == '\U{1680}'
    || ('\U{2000}' <= c <= '\U{200A}')
    || c == '\U{2028}' || c == '\U{2029}' || c == '\U{202F}' || c == '\U{205F}' || c == '\U{3000}'
  }

  /** `s.lstrip()`: a suffix of `s`, everything cut off is white space and it does not start with white space. */
  function TrimStart(s: string): (r: string)
    ensures IsSuffix(r, s)
    ensures forall i :: 0 <= i < |s| - |r| ==> IsSpace(s[i])
    ensures r == [] || !IsSpace(r[0])
  {
    if s != [] && IsSpace(s[0]) then
      var r := TrimStart(s[1..]);
      assert forall i :: 1 <= i < |s| - |r| ==> s[i] == s[1..][i - 1];
      r
    else s
  }

  /** `s.rstrip()`: a prefix of `s`, everything cut off is white space and it does not end with white space. */
  function TrimEnd(s: string): (r: string)
    ensures |r| <= |s| && s[..|r|] == r
    ensures forall i :: |r| <= i < |s| ==> IsSpace(s[i])
    ensures r == [] || !IsSpace(r[|r| - 1])
  {
    if s != [] && IsSpace(s[|s| - 1]) then TrimEnd(s[..|s| - 1]) else s
  }

  /** `s.strip()`. */
  function Strip(s: string): (r: string)
    ensures |r| <= |s|
    ensures var i := |s| - |TrimStart(s)|;
      && i + |r| <= |s| && s[i..i + |r|] == r
      && forall k :: (0 <= k < i || i + |r| <= k < |s|) ==> IsSpace(s[k])
    ensures r == [] || (!IsSpace(r[0]) && !IsSpace(r[|r| - 1]))
  {
    TrimEnd(TrimStart(s))
  }

  /** Stripping twice is stripping once. */
  lemma StripIdempotent(s: string)
    ensures Strip(Strip(s)) == Strip(s)
  {
    var r := Strip(s);
    assert TrimStart(r) == r;
    assert TrimEnd(r) == r;
  }

  // ---------------------------------------------------------------------
  // s.split(sep) and sep.join(parts)

  /** `s.split(sep)` for a one-character separator: there is always at least one piece, and no piece holds `sep`. */
  function Split(s: string, sep: char): (parts: seq<string>)
    ensures |parts| >= 1
    ensures forall i :: 0 <= i < |parts| ==> sep !in parts[i]
  {
    if s == [] then [[]]
    else
      var rest := Split(s[1..], sep);
      if s[0] == sep then [[]] + rest
      else [[s[0]] + rest[0]] + rest[1..]
  }

  /** `sep.join(parts)`: the pieces in order with `sep` between each two of them. */
  function Join(sep: string, parts: seq<string>): string
  {
    if |parts| == 0 then []
    else if |parts| == 1 then parts[0]
    else parts[0] + sep + Join(sep, parts[1..])
  }

  /** Joining a list that starts with four words: each word followed by the separator, then the rest joined. */
  lemma JoinFourWords(sep: string, w1: string, w2: string, w3: string, w4: string, ys: seq<string>)
    requires ys != []
    ensures Join(sep, [w1, w2, w3, w4] + ys) == w1 + sep + (w2 + sep + (w3 + sep + (w4 + sep + Join(sep, ys))))
  {
    var t4 := [w4] + ys;
    assert t4[1..] == ys;
    assert Join(sep, t4) == w4 + sep + Join(sep, ys);
    var t3 := [w3] + t4;
    assert t3[1..] == t4;
    assert Join(sep, t3) == w3 + sep + Join(sep, t4);
    var t2 := [w2] + t3;
    assert t2[1..] == t3;
    assert Join(sep, t2) == w2 + sep + Join(sep, t3);
    var t1 := [w1] + t2;
    assert t1[1..] == t2;
    assert t1 == [w1, w2, w3, w4] + ys;
  }

  /** Joining the pieces with the separator gives back the string. */
  lemma {:induction false} JoinSplit(s: string, sep: char)
    ensures Join([sep], Split(s, sep)) == s
  {
    if s != [] {
      var rest := Split(s[1..], sep);
      JoinSplit(s[1..], sep);
      if s[0] == sep {
        assert ([[]] + rest)[1..] == rest;
      } else if |rest| > 1 {
        var parts := [[s[0]] + rest[0]] + rest[1..];
        assert parts[1..] == rest[1..];
        assert Join([sep], rest) == rest[0] + [sep] + Join([sep], rest[1..]);
      }
    }
  }

  /** The last piece of a split is a suffix; it is the whole string exactly when there was no separator, and otherwise a separator stands right before it. */
  lemma {:induction false} SplitLast(s: string, sep: char)
    ensures var p := Split(s, sep); var last := p[|p| - 1];
      || (|p| == 1 && last == s)
      || (|p| > 1 && |last| < |s| && s[|s| - |last|..] == last && s[|s| - |last| - 1] == sep)
  {
    if s != [] {
      SplitLast(s[1..], sep);
      var rest := Split(s[1..], sep);
      var last := rest[|rest| - 1];
      if s[0] == sep {
        assert s[|s| - |last|..] == s[1..][|s| - 1 - |last|..];
        if |rest| > 1 {
          assert s[|s| - |last| - 1] == s[1..][|s| - 1 - |last| - 1];
        }
      } else if |rest| == 1 {
        assert s == [s[0]] + s[1..];
      } else {
        assert s[|s| - |last|..] == s[1..][|s| - 1 - |last|..];
        assert s[|s| - |last| - 1] == s[1..][|s| - 1 - |last| - 1];
      }
    }
  }

  /** `s.split("\n")[-1]`: the text after the last line break. */
  function LastLine(s: string): (r: string)
    ensures '\n' !in r
    ensures IsSuffix(r, s)
    ensures r == s || (|r| < |s| && s[|s| - |r| - 1] == '\n')
  {
    var parts := Split(s, '\n');
    SplitLast(s, '\n');
    parts[|parts| - 1]
  }

}
