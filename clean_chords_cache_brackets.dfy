/** The bracket-stripping rewrite of clean_chords_cache_brackets.py: the
    same loop as clean_chords_cache.py, with `re.sub(r'\[[^\]]*\]', '', ...)`
    as the cleaner. */
module CleanChordsCacheBrackets {
  import opened Strings
  import opened Cache
  import opened Regex
  import opened CleanChordsCache

  /** `re.sub(r'\[[^\]]*\]', '', chords)`: afterwards no `[` has a `]`
      anywhere after it, and only deletions were made. */
  function StripBrackets(s: string): (r: string)
    ensures NoBracketPair(r)
    ensures IsSubsequence(r, s)
  {
    BracketedRemoved(s, true);
    SubIsSubsequence(Bracketed, s, true);
    Substitute(Bracketed, s)
  }

  /** The bracket pattern has no `^`: where a line starts does not matter. */
  lemma {:induction false} BracketedIgnoresLineStart(s: string, b1: bool, b2: bool)
    ensures Sub(Bracketed, s, b1) == Sub(Bracketed, s, b2)
    decreases |s|
  {
    if s != [] {
      var k := MatchLen(Bracketed, s, b1);
      assert MatchLen(Bracketed, s, b2) == k;
      if k > 0 {
        BracketedIgnoresLineStart(s[k..], s[k - 1] == '\n', s[k - 1] == '\n');
      } else {
        BracketedIgnoresLineStart(s[1..], s[0] == '\n', s[0] == '\n');
      }
    }
  }

  /** A `[` with a later `]` goes, together with the text up to the first
      such `]`. */
  lemma StripBracketsPair(x: string, rest: string)
    requires ']' !in x
    ensures StripBrackets("[" + x + "]" + rest) == StripBrackets(rest)
  {
    var s := "[" + x + "]" + rest;
    assert s[0] == '[' && s[1..] == x + "]" + rest;
    assert IndexOf(s[1..], ']') == Some(|x|) by {
      var w := x + "]" + rest;
      assert w[|x|] == ']' && w[..|x|] == x;
    }
    assert MatchLen(Bracketed, s, true) == |x| + 2;
    assert s[|x| + 2..] == rest;
    BracketedIgnoresLineStart(rest, false, true);
  }

  /** A `[` with no `]` anywhere after it is kept. */
  lemma StripBracketsUnclosed(rest: string)
    requires ']' !in rest
    ensures StripBrackets("[" + rest) == "[" + StripBrackets(rest)
  {
    var s := "[" + rest;
    assert s[1..] == rest;
    assert MatchLen(Bracketed, s, true) == 0;
    BracketedIgnoresLineStart(rest, false, true);
  }

  /** Any character other than `[` is kept. */
  lemma StripBracketsKeeps(c: char, rest: string)
    requires c != '['
    ensures StripBrackets([c] + rest) == [c] + StripBrackets(rest)
  {
    var s := [c] + rest;
    assert s[0] == c && s[1..] == rest;
    assert MatchLen(Bracketed, s, true) == 0;
    BracketedIgnoresLineStart(rest, c == '\n', true);
  }

  /** Text with no `[` followed by a `]` is unchanged. */
  lemma StripBracketsIdentity(s: string)
    requires NoBracketPair(s)
    ensures StripBrackets(s) == s
  {
    BracketedIdentity(s, true);
  }

  /** Stripping twice is stripping once. */
  lemma StripBracketsIdempotent(s: string)
    ensures StripBrackets(StripBrackets(s)) == StripBrackets(s)
  {
    StripBracketsIdentity(StripBrackets(s));
  }

  /** `clean_chords_cache_brackets`. */
  method CleanChordsCacheBrackets(cache: JsonlCache)
    requires cache.Valid()
    modifies cache
    ensures cache.Valid() && cache.present == old(cache.present)
    ensures !old(cache.present) ==> cache.lines == old(cache.lines)
    ensures old(cache.present) ==> cache.lines == MapChords(old(cache.lines), StripBrackets)
  {
    RewriteChords(cache, StripBrackets);
  }

  /** Running the script a second time leaves the file as the first run left
      it. */
  lemma BracketRewriteIdempotent(lines: seq<Line>)
    ensures MapChords(MapChords(lines, StripBrackets), StripBrackets) == MapChords(lines, StripBrackets)
  {
    forall x ensures StripBrackets(StripBrackets(x)) == StripBrackets(x) {
      StripBracketsIdempotent(x);
    }
    MapChordsIdempotent(lines, StripBrackets);
  }

  /** After the rewrite every record's chords hold no `[` followed by a `]`. */
  lemma BracketRewriteClean(lines: seq<Line>, i: nat)
    requires i < |Records(lines)|
    ensures var w := MapChords(lines, StripBrackets);
      i < |w| && w[i].Parsed? && "chords" in w[i].entry && NoBracketPair(w[i].entry["chords"])
  {
    MapChordsRecords(lines, StripBrackets);
  }
}
