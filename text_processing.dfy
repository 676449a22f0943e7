/**
 * The text clean-up of the Open WebUI search tool (`TextProcessor`): Unicode
 * normalisation, whitespace collapsing, trimming, removal of "Symbol, other"
 * characters, and truncation to a number of words. The Unicode tables
 * (NFKC normalisation and the general category "So") are given, not modelled.
 */
module TextProcessing {
  import opened Common
  import opened Strings

  /**
   * The two Unicode tables the processor consults: `unicodedata.normalize("NFKC", _)`
   * and "the general category of `c` is So".
   */
  datatype UnicodeTables = UnicodeTables(nfkc: string -> string, isSymbolOther: char -> bool)

  /** The only whitespace is `' '`, and no `' '` is followed by another. */
  predicate SingleSpaced(s: string)
  {
    && (forall i :: 0 <= i < |s| && IsSpace(s[i]) ==> s[i] == ' ')
    && (forall i :: 0 <= i < |s| - 1 && s[i] == ' ' ==> s[i + 1] != ' ')
  }

  /** `re.sub(r"\s+", " ", s)`: every maximal run of whitespace becomes one space. */
  function CollapseSpaces(s: string): (r: string)
    ensures SingleSpaced(r)
    ensures |r| <= |s| && (r == [] <==> s == [])
    ensures s != [] ==> (r[0] == ' ' <==> IsSpace(s[0]))
    decreases |s|
  {
    if s == [] then []
    else if IsSpace(s[0]) then
      var rest := CollapseSpaces(TrimLeft(s));
      assert forall i :: 0 <= i < |rest| ==> (" " + rest)[i + 1] == rest[i];
      " " + rest
    else
      var rest := CollapseSpaces(s[1..]);
      assert forall i :: 0 <= i < |rest| ==> ([s[0]] + rest)[i + 1] == rest[i];
      [s[0]] + rest
  }

  /** Collapsing whitespace runs keeps the words, in order. */
  lemma {:induction false} CollapseKeepsWords(s: string)
    ensures Split(CollapseSpaces(s)) == Split(s)
    decreases |s|
  {
    if s != [] {
      if IsSpace(s[0]) {
        var t := TrimLeft(s);
        CollapseKeepsWords(t);
        var c := CollapseSpaces(t);
        assert CollapseSpaces(s) == " " + c;
        assert (" " + c)[1..] == c;
        assert Split(" " + c) == Split(c);
        TrimLeftKeepsWords(s);
      } else {
        var rest := s[1..];
        CollapseKeepsWords(rest);
        assert s == [s[0]] + rest;
        SplitCons(s[0], rest);
        SplitCons(s[0], CollapseSpaces(rest));
      }
    }
  }

  /** A single-spaced string with no whitespace at either end is tidy. */
  lemma SingleSpacedTidy(y: string)
    requires SingleSpaced(y)
    requires y == [] || (!IsSpace(y[0]) && !IsSpace(y[|y| - 1]))
    ensures Tidy(y)
  {
  }

  /** Leading whitespace removed by `lstrip()` held no word. */
  lemma TrimLeftKeepsWords(x: string)
    ensures Split(TrimLeft(x)) == Split(x)
  {
    var l := TrimLeft(x);
    var a := |x| - |l|;
    assert x == x[..a] + l;
    assert AllSpace(x[..a]) by {
      forall i | 0 <= i < a
        ensures IsSpace(x[..a][i])
      {
        assert x[..a][i] == x[i];
      }
    }
    SplitLeadingSpaces(x[..a], l);
  }

  /** Trailing whitespace removed by `rstrip()` held no word. */
  lemma TrimRightKeepsWords(x: string)
    ensures Split(TrimRight(x)) == Split(x)
  {
    var y := TrimRight(x);
    var tail := x[|y|..];
    assert x == y + tail;
    SplitTrailingSpaces(y, tail);
  }

  /** `strip()` removes no word. */
  lemma StripKeepsWords(x: string)
    ensures Split(Strip(x)) == Split(x)
  {
    TrimLeftKeepsWords(x);
    TrimRightKeepsWords(TrimLeft(x));
  }

  /** Trimming a single-spaced string leaves a tidy string with the same words. */
  lemma StripSingleSpaced(x: string)
    requires SingleSpaced(x)
    ensures Tidy(Strip(x))
    ensures Split(Strip(x)) == Split(x)
  {
    var l := TrimLeft(x);
    var y := TrimRight(l);
    var a := |x| - |l|;
    assert y == x[a..a + |y|];
    assert SingleSpaced(y) by {
      assert forall i :: 0 <= i < |y| ==> y[i] == x[a + i];
    }
    SingleSpacedTidy(y);
    StripKeepsWords(x);
  }

  /**
   * Whitespace collapsing followed by `strip()` is `" ".join(s.split())`: the
   * words of `s`, in order, separated by single spaces.
   */
  lemma CollapseThenStrip(s: string)
    ensures Strip(CollapseSpaces(s)) == Join(Split(s))
  {
    var y := Strip(CollapseSpaces(s));
    StripSingleSpaced(CollapseSpaces(s));
    CollapseKeepsWords(s);
    JoinSplitTidy(y);
  }

  /** `remove_emojis`: the characters outside category So, in their original order. */
  function RemoveSymbols(t: UnicodeTables, s: string): (r: string)
    ensures |r| <= |s|
    ensures forall i :: 0 <= i < |r| ==> !t.isSymbolOther(r[i])
  {
    if s == [] then []
    else
      var c := s[|s| - 1];
      RemoveSymbols(t, s[..|s| - 1]) + (if t.isSymbolOther(c) then [] else [c])
  }

  /** Every character outside So is kept as often as it occurs; none in So is. */
  lemma {:induction false} RemoveSymbolsCounts(t: UnicodeTables, s: string)
    ensures forall c :: multiset(RemoveSymbols(t, s))[c] == if t.isSymbolOther(c) then 0 else multiset(s)[c]
  {
    if s != [] {
      var init := s[..|s| - 1];
      assert s == init + [s[|s| - 1]];
      RemoveSymbolsCounts(t, init);
    }
  }

  /** Removal works character by character: it distributes over concatenation. */
  lemma {:induction false} RemoveSymbolsAppend(t: UnicodeTables, a: string, b: string)
    ensures RemoveSymbols(t, a + b) == RemoveSymbols(t, a) + RemoveSymbols(t, b)
    decreases |b|
  {
    if b == [] {
      assert a + b == a;
    } else {
      var init := b[..|b| - 1];
      assert (a + b)[..|a + b| - 1] == a + init;
      assert (a + b)[|a + b| - 1] == b[|b| - 1];
      RemoveSymbolsAppend(t, a, init);
    }
  }

  /** Text without So characters is left alone. */
  lemma {:induction false} RemoveSymbolsClean(t: UnicodeTables, s: string)
    requires forall i :: 0 <= i < |s| ==> !t.isSymbolOther(s[i])
    ensures RemoveSymbols(t, s) == s
  {
    if s != [] {
      var init := s[..|s| - 1];
      RemoveSymbolsClean(t, init);
      assert s == init + [s[|s| - 1]];
    }
  }

  /** `format_text`: NFKC, collapse whitespace, strip, then drop So characters. */
  function FormatText(t: UnicodeTables, original: string): string
  {
    RemoveSymbols(t, Strip(CollapseSpaces(t.nfkc(original))))
  }

  /**
   * Formatted text has no So character, and it is the words of the NFKC form
   * joined by single spaces, with the So characters then removed.
   */
  lemma FormatTextMeaning(t: UnicodeTables, original: string)
    ensures forall i :: 0 <= i < |FormatText(t, original)| ==> !t.isSymbolOther(FormatText(t, original)[i])
    ensures FormatText(t, original) == RemoveSymbols(t, Join(Split(t.nfkc(original))))
  {
    CollapseThenStrip(t.nfkc(original));
  }

  /** Every character of `s` is outside category So. */
  predicate NoSymbols(t: UnicodeTables, s: string)
  {
    forall i :: 0 <= i < |s| ==> !t.isSymbolOther(s[i])
  }

  /** Removing So characters from a one-character string. */
  lemma RemoveSymbolsSingle(t: UnicodeTables, c: char)
    ensures RemoveSymbols(t, [c]) == if t.isSymbolOther(c) then [] else [c]
  {
    assert [c][..0] == [];
  }

  /** A lone So character between two parts without any is removed, and nothing else is. */
  lemma RemoveLoneSymbol(t: UnicodeTables, left: string, e: char, right: string)
    requires NoSymbols(t, left) && NoSymbols(t, right) && t.isSymbolOther(e)
    ensures RemoveSymbols(t, left + [e] + right) == left + right
  {
    assert left + [e] + right == left + ([e] + right);
    RemoveSymbolsAppend(t, left, [e] + right);
    RemoveSymbolsAppend(t, [e], right);
    RemoveSymbolsSingle(t, e);
    RemoveSymbolsClean(t, left);
    RemoveSymbolsClean(t, right);
  }

  /** Words joined by single spaces, left alone by NFKC, are only stripped of their So characters. */
  lemma FormatJoinedWords(t: UnicodeTables, words: seq<string>)
    requires forall k :: 0 <= k < |words| ==> IsWord(words[k])
    requires t.nfkc(Join(words)) == Join(words)
    ensures FormatText(t, Join(words)) == RemoveSymbols(t, Join(words))
  {
    SplitJoin(words);
    FormatTextMeaning(t, Join(words));
  }

  /**
   * Symbols are dropped after the whitespace has been normalised, so the spaces
   * around them stay: a So character standing alone between two words leaves a
   * double space.
   */
  lemma SymbolBetweenWordsLeavesDoubleSpace(t: UnicodeTables, a: string, e: char, b: string)
    requires IsWord(a) && IsWord(b) && !IsSpace(e)
    requires NoSymbols(t, a) && NoSymbols(t, b) && !t.isSymbolOther(' ') && t.isSymbolOther(e)
    requires t.nfkc(a + " " + [e] + " " + b) == a + " " + [e] + " " + b
    ensures FormatText(t, a + " " + [e] + " " + b) == a + "  " + b
  {
    var words := [a, [e], b];
    assert Join(words[2..]) == b;
    assert Join(words[1..]) == [e] + " " + b;
    assert Join(words) == a + " " + [e] + " " + b;
    FormatJoinedWords(t, words);
    var left, right := a + " ", " " + b;
    assert NoSymbols(t, left) by { assert forall i :: 0 <= i < |a| ==> left[i] == a[i]; }
    assert NoSymbols(t, right) by { assert forall i :: 1 <= i < |right| ==> right[i] == b[i - 1]; }
    RemoveLoneSymbol(t, left, e, right);
    assert left + [e] + right == a + " " + [e] + " " + b;
    assert left + right == a + "  " + b;
  }

  /** A So character standing alone before the first word leaves a leading space. */
  lemma LeadingSymbolLeavesSpace(t: UnicodeTables, e: char, b: string)
    requires IsWord(b) && !IsSpace(e)
    requires NoSymbols(t, b) && !t.isSymbolOther(' ') && t.isSymbolOther(e)
    requires t.nfkc([e] + " " + b) == [e] + " " + b
    ensures FormatText(t, [e] + " " + b) == " " + b
  {
    var words := [[e], b];
    assert Join(words[1..]) == b;
    assert Join(words) == [e] + " " + b;
    FormatJoinedWords(t, words);
    var right := " " + b;
    assert NoSymbols(t, right) by { assert forall i :: 1 <= i < |right| ==> right[i] == b[i - 1]; }
    RemoveLoneSymbol(t, [], e, right);
    assert [] + [e] + right == [e] + " " + b;
  }

  /**
   * `truncate_to_n_words`: split on whitespace, keep `tokens[:limit]` (a
   * negative limit drops words from the end, as a Python slice does) and join
   * with single spaces. The result is tidy and its words are exactly the kept ones.
   */
  function TruncateToNWords(text: string, limit: int): string
  {
    Join(PyPrefix(Split(text), limit))
  }

  /** The truncated text is tidy and its words are exactly the kept ones. */
  lemma TruncateToNWordsMeaning(text: string, limit: int)
    ensures Tidy(TruncateToNWords(text, limit))
    ensures Split(TruncateToNWords(text, limit)) == PyPrefix(Split(text), limit)
  {
    var words := PyPrefix(Split(text), limit);
    JoinTidy(words);
    SplitJoin(words);
  }

  /** For a non-negative limit, the first min(limit, word count) words survive. */
  lemma TruncateKeepsLeadingWords(text: string, limit: int)
    requires limit >= 0
    ensures var words := Split(TruncateToNWords(text, limit));
      |words| == (if limit < |Split(text)| then limit else |Split(text)|) &&
      words == Split(text)[..|words|]
  {
    TruncateToNWordsMeaning(text, limit);
  }

  /**
   * Text with at most `limit` words keeps every word in order; only its
   * whitespace is normalised, so tidy text comes back unchanged.
   */
  lemma TruncateShortText(text: string, limit: int)
    requires |Split(text)| <= limit
    ensures Split(TruncateToNWords(text, limit)) == Split(text)
    ensures Tidy(text) ==> TruncateToNWords(text, limit) == text
  {
    TruncateToNWordsMeaning(text, limit);
    if Tidy(text) {
      JoinSplitTidy(text);
    }
  }

  /**
   * `process_search_result`: the `content` entry is formatted and cut to
   * `limit` words; a result without `content` raises `KeyError('content')`,
   * whose message is `'content'`. What the new dictionary holds is stated by
   * `ProcessedKeys` and `ProcessedContent`.
   */
  function ProcessSearchResult(result: map<string, string>, limit: int, t: UnicodeTables): (r: Result<map<string, string>>)
    ensures r.Success? <==> "content" in result
    ensures r.Failure? ==> r.error == "'content'"
  {
    if "content" !in result then Failure("'content'")
    else Success(result["content" := TruncateToNWords(FormatText(t, result["content"]), limit)])
  }

  /** Processing keeps the keys, and changes no entry but `content`. */
  lemma ProcessedKeys(result: map<string, string>, limit: int, t: UnicodeTables)
    requires "content" in result
    ensures ProcessSearchResult(result, limit, t).value.Keys == result.Keys
    ensures forall k :: k in result && k != "content" ==> ProcessSearchResult(result, limit, t).value[k] == result[k]
  {
  }

  /**
   * The processed content is tidy, its words are the first `limit` words of
   * the formatted text, and there are at most `limit` of them.
   */
  lemma ProcessedContent(result: map<string, string>, limit: int, t: UnicodeTables)
    requires "content" in result
    ensures var content := ProcessSearchResult(result, limit, t).value["content"];
      && Tidy(content)
      && Split(content) == PyPrefix(Split(FormatText(t, result["content"])), limit)
      && (limit >= 0 ==> |Split(content)| <= limit)
  {
    var formatted := FormatText(t, result["content"]);
    var content := TruncateToNWords(formatted, limit);
    assert ProcessSearchResult(result, limit, t).value["content"] == content;
    TruncateToNWordsMeaning(formatted, limit);
    assert |PyPrefix(Split(formatted), limit)| == SliceEnd(|Split(formatted)|, limit);
  }
}
