/**
 * The Python `str` operations the pipeline relies on, stated over `seq<char>`:
 * `sub in s`, `s.startswith(p)`, `s.lower()`, `s.isspace()`, `s.split()`,
 * `s.split(sep)`, `" ".join(ws)`, `str(n)`, `int(s)` and the ordering `a <= b`.
 */
module Strings {
  import opened Common

  // ---------------------------------------------------------------------------
  // Character classes

  /** Python's `c.isspace()`; the same set is what the regular expression `\s` matches. */
  predicate IsSpace(c: char)
  {
    ('\U{9}' <= c <= '\U{D}') || ('\U{1C}' <= c <= '\U{1F}') || c == ' ' ||
    c == '\U{85}' || c == '\U{A0}' || c == '\U{1680}' || ('\U{2000}' <= c <= '\U{200A}') ||
    c == '\U{2028}' || c == '\U{2029}' || c == '\U{202F}' || c == '\U{205F}' || c == '\U{3000}'
  }

  predicate IsDigit(c: char)
  {
    '0' <= c <= '9'
  }

  lemma ConcatAssoc(a: string, b: string, c: string)
    ensures (a + b) + c == a + (b + c)
  {
  }

  // ---------------------------------------------------------------------------
  // Substrings

  predicate StartsWith(s: string, prefix: string)
  {
    |prefix| <= |s| && s[..|prefix|] == prefix
  }

  /** `sub` occurs in `s` starting at index `i`. */
  predicate OccursAt(s: string, sub: string, i: int)
  {
    0 <= i && i + |sub| <= |s| && s[i..i + |sub|] == sub
  }

  /** An occurrence at index 0 is a prefix. */
  lemma OccursAtStart(s: string, sub: string)
    ensures OccursAt(s, sub, 0) <==> StartsWith(s, sub)
  {
    if |sub| <= |s| {
      assert s[0..|sub|] == s[..|sub|];
    }
  }

  /** An occurrence after the first character is an occurrence in the rest of the string. */
  lemma OccursAtShift(s: string, sub: string, i: int)
    requires s != [] && i >= 0
    ensures OccursAt(s, sub, i + 1) <==> OccursAt(s[1..], sub, i)
  {
    if 0 <= i && i + 1 + |sub| <= |s| {
      var a, b := s[i + 1..i + 1 + |sub|], s[1..][i..i + |sub|];
      forall k | 0 <= k < |a|
        ensures a[k] == b[k]
      {
        assert a[k] == s[i + 1 + k];
        assert b[k] == s[1..][i + k];
      }
      assert a == b;
    }
  }

  /** Python's `sub in s`, searched left to right. */
  function Contains(s: string, sub: string): (b: bool)
    ensures b <==> exists i :: OccursAt(s, sub, i)
    decreases |s|
  {
    OccursAtStart(s, sub);
    if StartsWith(s, sub) then
      assert OccursAt(s, sub, 0);
      true
    else if |s| <= |sub| then
      assert forall i :: OccursAt(s, sub, i) ==> StartsWith(s, sub);
      false
    else
      var r := Contains(s[1..], sub);
      assert r <==> exists i :: OccursAt(s, sub, i) by {
        if r {
          var j :| OccursAt(s[1..], sub, j);
          OccursAtShift(s, sub, j);
        }
        if exists i :: OccursAt(s, sub, i) {
          var i :| OccursAt(s, sub, i);
          assert i != 0;
          OccursAtShift(s, sub, i - 1);
        }
      }
      r
  }

  /** What occurs in a prefix of `s` occurs in `s`. */
  lemma ContainsInPrefix(s: string, prefix: string, sub: string)
    requires StartsWith(s, prefix) && Contains(prefix, sub)
    ensures Contains(s, sub)
  {
    var i :| OccursAt(prefix, sub, i);
    assert s[i..i + |sub|] == prefix[i..i + |sub|];
    assert OccursAt(s, sub, i);
  }

  // ---------------------------------------------------------------------------
  // Case

  /** `c.lower()` for the ASCII letters; other characters are kept. */
  function LowerChar(c: char): (d: char)
  {
    if 'A' <= c <= 'Z' then (c as int + 32) as char else c
  }

  function Lower(s: string): (r: string)
    ensures |r| == |s|
    ensures forall i :: 0 <= i < |s| ==> r[i] == LowerChar(s[i])
  {
    seq(|s|, i requires 0 <= i < |s| => LowerChar(s[i]))
  }

  // ---------------------------------------------------------------------------
  // Whitespace splitting: `s.split()` and `" ".join(words)`

  /** A token of `s.split()`: non-empty and free of whitespace. */
  predicate IsWord(w: string)
  {
    |w| > 0 && forall i :: 0 <= i < |w| ==> !IsSpace(w[i])
  }

  /** Length of the run of non-whitespace characters that begins `s`. */
  function WordLen(s: string): (n: nat)
    ensures n <= |s|
    ensures forall i :: 0 <= i < n ==> !IsSpace(s[i])
    ensures n == |s| || IsSpace(s[n])
  {
    if s == [] || IsSpace(s[0]) then 0 else 1 + WordLen(s[1..])
  }

  /** Python's `s.split()` with no separator: the maximal runs of non-whitespace. */
  function Split(s: string): (words: seq<string>)
    ensures forall k :: 0 <= k < |words| ==> IsWord(words[k])
    decreases |s|
  {
    if s == [] then []
    else if IsSpace(s[0]) then Split(s[1..])
    else
      var n := WordLen(s);
      [s[..n]] + Split(s[n..])
  }

  /** Python's `" ".join(words)`. */
  function Join(words: seq<string>): (s: string)
  {
    if words == [] then ""
    else if |words| == 1 then words[0]
    else words[0] + " " + Join(words[1..])
  }

  /**
   * A string whose only whitespace is single `' '` characters strictly between
   * two other characters: no leading, trailing or doubled space.
   */
  predicate Tidy(s: string)
  {
    && (forall i :: 0 <= i < |s| && IsSpace(s[i]) ==> s[i] == ' ')
    && (|s| > 0 ==> s[0] != ' ' && s[|s| - 1] != ' ')
    && (forall i :: 0 <= i < |s| - 1 && s[i] == ' ' ==> s[i + 1] != ' ')
  }

  lemma {:induction false} WordLenOfWord(w: string, rest: string)
    requires IsWord(w)
    requires rest == [] || IsSpace(rest[0])
    ensures WordLen(w + rest) == |w|
    decreases |w|
  {
    var s := w + rest;
    assert s[0] == w[0] && !IsSpace(w[0]);
    if |w| > 1 {
      assert s[1..] == w[1..] + rest;
      assert IsWord(w[1..]) by { assert forall i :: 0 <= i < |w| - 1 ==> w[1..][i] == w[i + 1]; }
      WordLenOfWord(w[1..], rest);
    } else {
      assert s[1..] == rest;
    }
  }

  /** Joining words and splitting again gives the same words back. */
  lemma {:induction false} SplitJoin(words: seq<string>)
    requires forall k :: 0 <= k < |words| ==> IsWord(words[k])
    ensures Split(Join(words)) == words
  {
    if words == [] {
    } else if |words| == 1 {
      var w := words[0];
      WordLenOfWord(w, "");
      assert w + "" == w;
      assert w[|w|..] == [];
      assert w[..|w|] == w;
    } else {
      var w := words[0];
      var rest := Join(words[1..]);
      var s := w + " " + rest;
      assert s == w + (" " + rest);
      WordLenOfWord(w, " " + rest);
      assert s[..|w|] == w;
      assert s[|w|..] == " " + rest;
      assert (" " + rest)[1..] == rest;
      SplitJoin(words[1..]);
      assert words == [w] + words[1..];
    }
  }

  /** A join of words is tidy. */
  lemma {:induction false} JoinTidy(words: seq<string>)
    requires forall k :: 0 <= k < |words| ==> IsWord(words[k])
    ensures Tidy(Join(words))
    ensures |words| > 0 ==> |Join(words)| > 0
  {
    if |words| > 1 {
      JoinTidy(words[1..]);
      var w, rest := words[0], Join(words[1..]);
      var s := w + " " + rest;
      assert forall i :: 0 <= i < |w| ==> s[i] == w[i];
      assert s[|w|] == ' ';
      assert forall i :: 0 <= i < |rest| ==> s[|w| + 1 + i] == rest[i];
      forall i | 0 <= i < |s| && IsSpace(s[i]) ensures s[i] == ' ' {
        if i > |w| { assert s[i] == rest[i - |w| - 1]; }
      }
      forall i | 0 <= i < |s| - 1 && s[i] == ' ' ensures s[i + 1] != ' ' {
        if i > |w| { assert s[i + 1] == rest[i - |w|]; }
      }
    }
  }

  /** Splitting a tidy string and joining the words again changes nothing. */
  lemma {:induction false} JoinSplitTidy(s: string)
    requires Tidy(s)
    ensures Join(Split(s)) == s
    decreases |s|
  {
    if s != [] {
      var n := WordLen(s);
      assert n > 0 by { assert !IsSpace(s[0]); }
      if n == |s| {
        assert s[n..] == [];
        assert s[..n] == s;
      } else {
        var t := s[n + 1..];
        assert s[n] == ' ';
        assert t != [] && t[0] != ' ' by { assert s[|s| - 1] != ' '; }
        assert Tidy(t) by {
          forall i | 0 <= i < |t| - 1 && t[i] == ' ' ensures t[i + 1] != ' ' {
            assert t[i] == s[n + 1 + i];
          }
        }
        assert !IsSpace(t[0]);
        assert s[n..][1..] == t;
        JoinSplitTidy(t);
        assert Split(s[n..]) == Split(t);
        assert Split(t) != [];
        assert s == s[..n] + " " + t;
      }
    }
  }

  /** Joining a prefix of the words gives a prefix of the joined string. */
  lemma {:induction false} JoinAppend(words: seq<string>, w: string)
    requires words != []
    ensures Join(words + [w]) == Join(words) + " " + w
  {
    if |words| == 1 {
      assert words + [w] == [words[0], w];
    } else {
      assert (words + [w])[1..] == words[1..] + [w];
      JoinAppend(words[1..], w);
    }
  }

  /** A string made of whitespace only (possibly empty). */
  predicate AllSpace(s: string)
  {
    forall i :: 0 <= i < |s| ==> IsSpace(s[i])
  }

  /** Leading whitespace yields no word. */
  lemma {:induction false} SplitLeadingSpaces(p: string, m: string)
    requires AllSpace(p)
    ensures Split(p + m) == Split(m)
    decreases |p|
  {
    if p == [] {
      assert p + m == m;
    } else {
      assert (p + m)[0] == p[0];
      assert (p + m)[1..] == p[1..] + m;
      SplitLeadingSpaces(p[1..], m);
    }
  }

  lemma {:induction false} WordLenAppendSpace(m: string, c: char)
    requires IsSpace(c)
    ensures WordLen(m + [c]) == WordLen(m)
    decreases |m|
  {
    if m != [] && !IsSpace(m[0]) {
      assert (m + [c])[1..] == m[1..] + [c];
      WordLenAppendSpace(m[1..], c);
    }
  }

  /** One trailing whitespace character yields no word. */
  lemma {:induction false} SplitAppendSpace(m: string, c: char)
    requires IsSpace(c)
    ensures Split(m + [c]) == Split(m)
    decreases |m|
  {
    var s := m + [c];
    if m == [] {
      assert s[1..] == [];
    } else if IsSpace(m[0]) {
      assert s[1..] == m[1..] + [c];
      SplitAppendSpace(m[1..], c);
    } else {
      var n := WordLen(m);
      WordLenAppendSpace(m, c);
      assert s[..n] == m[..n];
      assert s[n..] == m[n..] + [c];
      SplitAppendSpace(m[n..], c);
    }
  }

  /** Trailing whitespace yields no word. */
  lemma {:induction false} SplitTrailingSpaces(m: string, t: string)
    requires AllSpace(t)
    ensures Split(m + t) == Split(m)
    decreases |t|
  {
    if t == [] {
      assert m + t == m;
    } else {
      var init := t[..|t| - 1];
      assert m + t == (m + init) + [t[|t| - 1]];
      SplitAppendSpace(m + init, t[|t| - 1]);
      SplitTrailingSpaces(m, init);
    }
  }

  /** How a leading non-whitespace character joins or starts the first word. */
  lemma SplitCons(c: char, t: string)
    requires !IsSpace(c)
    ensures t == [] || IsSpace(t[0]) ==> Split([c] + t) == [[c]] + Split(t)
    ensures t != [] && !IsSpace(t[0]) ==>
      |Split(t)| > 0 && Split([c] + t) == [[c] + Split(t)[0]] + Split(t)[1..]
  {
    var s := [c] + t;
    assert s[1..] == t;
    if t == [] || IsSpace(t[0]) {
      assert WordLen(s) == 1;
      assert s[..1] == [c];
    } else {
      var m := WordLen(t);
      assert WordLen(s) == 1 + m;
      assert s[..1 + m] == [c] + t[..m];
      assert s[1 + m..] == t[m..];
    }
  }

  // ---------------------------------------------------------------------------
  // Splitting on one separator: `s.split(sep)`

  /** Python's `s.split(sep)` for a one-character separator: keeps empty parts. */
  function SplitOn(s: string, sep: char): (parts: seq<string>)
    ensures |parts| >= 1
    ensures forall k :: 0 <= k < |parts| ==> sep !in parts[k]
  {
    if s == [] then [""]
    else
      var rest := SplitOn(s[1..], sep);
      if s[0] == sep then [""] + rest
      else [[s[0]] + rest[0]] + rest[1..]
  }

  /** `sep.join(parts)`. */
  function JoinOn(parts: seq<string>, sep: char): string
    requires |parts| >= 1
  {
    if |parts| == 1 then parts[0] else parts[0] + [sep] + JoinOn(parts[1..], sep)
  }

  /** Splitting on a separator loses nothing: joining the parts back gives `s`. */
  lemma {:induction false} JoinSplitOn(s: string, sep: char)
    ensures JoinOn(SplitOn(s, sep), sep) == s
  {
    if s != [] {
      JoinSplitOn(s[1..], sep);
      var rest := SplitOn(s[1..], sep);
      if s[0] != sep {
        var parts := SplitOn(s, sep);
        assert parts[1..] == rest[1..];
        if |rest| == 1 {
          assert JoinOn(parts, sep) == [s[0]] + rest[0];
        } else {
          assert JoinOn(rest, sep) == rest[0] + [sep] + JoinOn(rest[1..], sep);
        }
      }
    }
  }

  /** A string without the separator splits into itself alone. */
  lemma {:induction false} SplitOnAbsent(s: string, sep: char)
    requires sep !in s
    ensures SplitOn(s, sep) == [s]
  {
    if s != [] {
      SplitOnAbsent(s[1..], sep);
      assert [s[0]] + s[1..] == s;
    }
  }

  /** `(a + sep + b).split(sep) == [a, b]` when neither part holds the separator. */
  lemma {:induction false} SplitOnTwo(a: string, b: string, sep: char)
    requires sep !in a && sep !in b
    ensures SplitOn(a + [sep] + b, sep) == [a, b]
    decreases |a|
  {
    var s := a + [sep] + b;
    if a == [] {
      assert s[1..] == b;
      SplitOnAbsent(b, sep);
    } else {
      assert s[1..] == a[1..] + [sep] + b;
      SplitOnTwo(a[1..], b, sep);
      assert [a[0]] + a[1..] == a;
    }
  }

  // ---------------------------------------------------------------------------
  // Numbers: `str(n)` and `int(s)`

  function DigitChar(d: nat): (c: char)
    requires d < 10
    ensures IsDigit(c)
  {
    ('0' as int + d) as char
  }

  /** Python's `str(n)` for a natural number: decimal digits, no leading zero. */
  function NatToString(n: nat): (s: string)
    ensures |s| >= 1 && AllDigits(s)
    ensures |s| > 1 ==> s[0] != '0'
  {
    if n < 10 then [DigitChar(n)] else NatToString(n / 10) + [DigitChar(n % 10)]
  }

  /** Python's `str(i)` (and the `{i}` of an f-string) for an integer. */
  function IntToString(i: int): (s: string)
  {
    if i < 0 then "-" + NatToString(-i) else NatToString(i)
  }

  predicate AllDigits(s: string)
  {
    forall i :: 0 <= i < |s| ==> IsDigit(s[i])
  }

  function DigitValue(c: char): (d: nat)
    requires IsDigit(c)
    ensures d < 10
  {
    c as int - '0' as int
  }

  /** The value of a string of decimal digits (leading zeros allowed, as `int()` allows them). */
  function DigitsValue(s: string): nat
    requires AllDigits(s)
  {
    if s == [] then 0
    else DigitsValue(s[..|s| - 1]) * 10 + DigitValue(s[|s| - 1])
  }

  /** Reading back the digits of `str(n)` gives `n`. */
  lemma {:induction false} NatToStringValue(n: nat)
    ensures DigitsValue(NatToString(n)) == n
  {
    if n >= 10 {
      var s := NatToString(n);
      assert s[..|s| - 1] == NatToString(n / 10);
      NatToStringValue(n / 10);
    }
  }

  /** Different numbers print differently. */
  lemma NatToStringInjective(m: nat, n: nat)
    requires NatToString(m) == NatToString(n)
    ensures m == n
  {
    NatToStringValue(m);
    NatToStringValue(n);
  }

  /** The number of whitespace characters that begin `s`. */
  function LeadingSpaces(s: string): (n: nat)
    ensures n <= |s|
    ensures forall i :: 0 <= i < n ==> IsSpace(s[i])
    ensures n == |s| || !IsSpace(s[n])
  {
    if s == [] || !IsSpace(s[0]) then 0 else 1 + LeadingSpaces(s[1..])
  }

  /** The number of whitespace characters that end `s`. */
  function TrailingSpaces(s: string): (n: nat)
    ensures n <= |s|
    ensures forall i :: |s| - n <= i < |s| ==> IsSpace(s[i])
    ensures n == |s| || !IsSpace(s[|s| - n - 1])
  {
    if s == [] || !IsSpace(s[|s| - 1]) then 0 else 1 + TrailingSpaces(s[..|s| - 1])
  }

  /** Python's `s.lstrip()`. */
  function TrimLeft(s: string): string
  {
    s[LeadingSpaces(s)..]
  }

  /** Python's `s.rstrip()`. */
  function TrimRight(s: string): string
  {
    s[..|s| - TrailingSpaces(s)]
  }

  /** Python's `s.strip()`: removes leading and trailing whitespace. */
  function Strip(s: string): (r: string)
  {
    TrimRight(TrimLeft(s))
  }

  /**
   * Python's `int(s)` for a base-10 literal: surrounding whitespace, an optional
   * sign, then one or more ASCII digits; anything else raises `ValueError`.
   */
  function ParseInt(s: string): Option<int>
  {
    ParseSigned(Strip(s))
  }

  /** `int()` once the surrounding whitespace is gone: an optional sign, then one or more ASCII digits. */
  function ParseSigned(t: string): Option<int>
  {
    if t == [] then None
    else
      var neg := t[0] == '-';
      var digits := if t[0] == '-' || t[0] == '+' then t[1..] else t;
      if digits == [] || !AllDigits(digits) then None
      else
        var v: int := DigitsValue(digits);
        Some(if neg then -v else v)
  }

  lemma StripNoSpace(s: string)
    requires s != [] && !IsSpace(s[0]) && !IsSpace(s[|s| - 1])
    ensures Strip(s) == s
  {
  }

  /** `int()` reads a run of digits. */
  lemma ParseIntDigits(digits: string)
    requires digits != [] && AllDigits(digits)
    requires !IsSpace(digits[0]) && !IsSpace(digits[|digits| - 1])
    ensures ParseInt(digits) == Some(DigitsValue(digits))
  {
    StripNoSpace(digits);
  }

  /** A signed run of digits reads as the signed value of the digits. */
  lemma ParseSignedNegative(digits: string)
    requires digits != [] && AllDigits(digits)
    ensures ParseSigned("-" + digits) == Some(-(DigitsValue(digits) as int))
  {
    var s := "-" + digits;
    assert s[0] == '-' && s[1..] == digits;
  }

  /** `int()` reads a run of digits after a minus sign. */
  lemma ParseIntNegative(digits: string)
    requires digits != [] && AllDigits(digits)
    requires !IsSpace(digits[|digits| - 1])
    ensures ParseInt("-" + digits) == Some(-(DigitsValue(digits) as int))
  {
    var s := "-" + digits;
    assert s[|s| - 1] == digits[|digits| - 1];
    StripNoSpace(s);
    ParseSignedNegative(digits);
  }

  /** `int(str(i)) == i` for every integer. */
  lemma ParseIntToString(i: int)
    ensures ParseInt(IntToString(i)) == Some(i)
  {
    var n: nat := if i < 0 then -i else i;
    var digits := NatToString(n);
    NatToStringValue(n);
    assert IsDigit(digits[0]) && IsDigit(digits[|digits| - 1]);
    if i < 0 {
      ParseIntNegative(digits);
    } else {
      ParseIntDigits(digits);
    }
  }

  // ---------------------------------------------------------------------------
  // Python's ordering of strings: lexicographic by code point

  /** Python's `a <= b` on `str`. */
  predicate LexLe(a: string, b: string)
  {
    a == [] || (b != [] && (a[0] < b[0] || (a[0] == b[0] && LexLe(a[1..], b[1..]))))
  }

  lemma {:induction false} LexLeReflexive(a: string)
    ensures LexLe(a, a)
  {
    if a != [] { LexLeReflexive(a[1..]); }
  }

  lemma {:induction false} LexLeTotal(a: string, b: string)
    ensures LexLe(a, b) || LexLe(b, a)
  {
    if a != [] && b != [] && a[0] == b[0] { LexLeTotal(a[1..], b[1..]); }
  }

  lemma {:induction false} LexLeAntisymmetric(a: string, b: string)
    requires LexLe(a, b) && LexLe(b, a)
    ensures a == b
  {
    if a != [] && b != [] {
      LexLeAntisymmetric(a[1..], b[1..]);
      assert a == [a[0]] + a[1..] && b == [b[0]] + b[1..];
    }
  }

  lemma {:induction false} LexLeTransitive(a: string, b: string, c: string)
    requires LexLe(a, b) && LexLe(b, c)
    ensures LexLe(a, c)
  {
    if a != [] && b != [] && c != [] && a[0] == b[0] && b[0] == c[0] {
      LexLeTransitive(a[1..], b[1..], c[1..]);
    }
  }
}
