/** The lyric and chord cleaners: fixed chains of regular-expression
    substitutions (app/text_cleaning.py). */
module TextCleaning {
  import opened Strings
  import opened Regex

  const Contributors: string := "Contributors"

  /** The last index below `n` at which `p` occurs in `s`. */
  function LastOccurrenceBelow(s: string, p: string, n: int): (r: Option<nat>)
    ensures r.Some? ==> r.value < n && OccursAt(s, p, r.value)
    decreases n
  {
    if n <= 0 then None
    else if OccursAt(s, p, n - 1) then Some(n - 1)
    else LastOccurrenceBelow(s, p, n - 1)
  }

  /** Nothing later than the index found is an occurrence; when none is
      found there is no occurrence below `n` at all. */
  lemma {:induction false} LastOccurrenceIsLast(s: string, p: string, n: int, j: int)
    requires j < n
    ensures var r := LastOccurrenceBelow(s, p, n);
      (r.Some? && r.value < j) || r.None? ==> !OccursAt(s, p, j)
    decreases n
  {
    if n > 0 && !OccursAt(s, p, n - 1) && j < n - 1 {
      LastOccurrenceIsLast(s, p, n - 1, j);
    }
  }

  /** `re.sub(r'^.*Contributors', '', s, flags=re.DOTALL)`.  Without
      re.MULTILINE `^` only matches at the start of the text, and the greedy
      `.*` crosses newlines, so everything up to and including the LAST
      occurrence goes; with no occurrence the text is left alone. */
  function DropContributors(s: string): (r: string)
    ensures |r| <= |s| && r == s[|s| - |r|..]
  {
    match LastOccurrenceBelow(s, Contributors, |s| + 1)
    case None => s
    case Some(i) => s[i + |Contributors|..]
  }

  /** What `DropContributors` removes: nothing when the word does not occur,
      else the text up to and including an occurrence after which the word
      does not occur again. */
  lemma DropContributorsSpec(s: string)
    ensures var r := DropContributors(s);
      && (!Contains(s, Contributors) ==> r == s)
      && (Contains(s, Contributors) ==>
            OccursAt(s, Contributors, |s| - |r| - |Contributors|) && !Contains(r, Contributors))
  {
    var c := Contributors;
    match LastOccurrenceBelow(s, c, |s| + 1)
    case None =>
      if Contains(s, c) {
        var k :| 0 <= k <= |s| - |c| && OccursAt(s, c, k);
        LastOccurrenceIsLast(s, c, |s| + 1, k);
      }
    case Some(i) =>
      var r := s[i + |c|..];
      forall j | 0 <= j <= |r| - |c|
        ensures !OccursAt(r, c, j)
      {
        assert r[j..j + |c|] == s[i + |c| + j..i + |c| + j + |c|];
        LastOccurrenceIsLast(s, c, |s| + 1, i + |c| + j);
      }
  }

  /** `remove_contributors_and_embeds`. */
  function RemoveContributorsAndEmbeds(s: string): (r: string)
    ensures IsSubsequence(r, s)
  {
    var d := DropContributors(s);
    SubIsSubsequence(Embed, d, true);
    SubsequenceReflexive(d);
    SubsequenceOfSuffix(d, s, |s| - |d|);
    SubsequenceTransitive(Substitute(Embed, d), d, s);
    Substitute(Embed, d)
  }

  /** `remove_unwanted_phrases`: the three patterns, in order. */
  function RemoveUnwantedPhrases(s: string): (r: string)
    ensures IsSubsequence(r, s)
  {
    var a := Substitute(YouMightAlsoLike, s);
    var b := Substitute(TicketAdvert, a);
    var c := Substitute(LyricsTitle, b);
    SubIsSubsequence(YouMightAlsoLike, s, true);
    SubIsSubsequence(TicketAdvert, a, true);
    SubIsSubsequence(LyricsTitle, b, true);
    SubsequenceTransitive(b, a, s);
    SubsequenceTransitive(c, b, s);
    c
  }

  /** `clean_lyrics`: cleaning only ever deletes text, so the cleaned lyrics
      are never longer than the raw ones. */
  function CleanLyrics(s: string): (r: string)
    ensures IsSubsequence(r, s) && |r| <= |s|
  {
    var a := RemoveContributorsAndEmbeds(s);
    var r := RemoveUnwantedPhrases(a);
    SubsequenceTransitive(r, a, s);
    SubsequenceLength(r, s);
    r
  }

  /** The eight substitutions of `clean_chords`, in order. */
  const ChordPatterns: seq<Pattern> := [
    TitleDirective, SubtitleDirective, MailHeader, ToLine, EmailLine,
    MarkupTag, BlankLines, SpaceBeforeNewline
  ]

  /** Apply the substitutions of `ps` one after the other. */
  function SubstituteAll(ps: seq<Pattern>, s: string): (r: string)
    ensures IsSubsequence(r, s)
  {
    if ps == [] then
      SubsequenceReflexive(s);
      s
    else
      var a := Substitute(ps[0], s);
      var r := SubstituteAll(ps[1..], a);
      SubIsSubsequence(ps[0], s, true);
      SubsequenceTransitive(r, a, s);
      r
  }

  /** `clean_chords`: deletes directives, mail headers, `To:`/`Email:` lines
      and markup tags, then normalises whitespace so that no whitespace
      (blank lines included) is left in front of a newline. */
  function CleanChords(s: string): (r: string)
    ensures IsSubsequence(r, s) && |r| <= |s|
    ensures NoSpaceBeforeNewline(r)
  {
    var before := SubstituteAll(ChordPatterns[..7], s);
    var r := Substitute(SpaceBeforeNewline, before);
    SpaceBeforeNewlineRemoved(before, true);
    SubIsSubsequence(SpaceBeforeNewline, before, true);
    SubsequenceTransitive(r, before, s);
    SubsequenceLength(r, s);
    assert r == SubstituteAll(ChordPatterns, s) by {
      SubstituteAllSnoc(ChordPatterns[..7], SpaceBeforeNewline, s);
      assert ChordPatterns[..7] + [SpaceBeforeNewline] == ChordPatterns;
    }
    r
  }

  lemma {:induction false} SubstituteAllSnoc(ps: seq<Pattern>, p: Pattern, s: string)
    ensures SubstituteAll(ps + [p], s) == Substitute(p, SubstituteAll(ps, s))
  {
    if ps != [] {
      assert (ps + [p])[1..] == ps[1..] + [p];
      SubstituteAllSnoc(ps[1..], p, Substitute(ps[0], s));
    }
  }

  /** `Embed` followed by whitespace up to the end of the text disappears. */
  lemma EmbedAtEndRemoved(w: string, bol: bool)
    requires AllSpace(w)
    ensures Sub(Embed, "Embed" + w, bol) == []
  {
    var s := "Embed" + w;
    assert s[5..] == w && w[..|w|] == w;
    assert SpaceRunEndsAt(w, |w|, true);
    assert s[|s|..] == [];
  }

  /** `Embed\s*$` on `Embed`, blanks, a newline and then a line of text:
      `\s*` cannot reach a later line end, so the match stops before the
      newline. */
  lemma EmbedLineMatch(w: string, rest: string, bol: bool)
    requires AllSpace(w) && rest != [] && !IsSpace(rest[0])
    ensures MatchLen(Embed, "Embed" + w + "\n" + rest, bol) == 5 + |w|
  {
    var s := "Embed" + w + "\n" + rest;
    var v := s[5..];
    assert v == w + "\n" + rest;
    assert v[..|w|] == w;
    forall k | |w| < k <= |v| ensures !SpaceRunEndsAt(v, k, true) {
      if k > |w| + 1 {
        assert v[..k][|w| + 1] == rest[0];
      } else {
        assert v[k] == rest[0];
      }
    }
    SpaceRunIs(v, |w|, true);
  }

  /** `Embed` followed by whitespace and then a newline that starts a line of
      text loses the word and the whitespace but keeps that newline. */
  lemma EmbedLineRemoved(w: string, rest: string, bol: bool)
    requires AllSpace(w) && rest != [] && !IsSpace(rest[0])
    ensures Sub(Embed, "Embed" + w + "\n" + rest, bol) == "\n" + Sub(Embed, rest, true)
  {
    var s := "Embed" + w + "\n" + rest;
    EmbedLineMatch(w, rest, bol);
    var t := s[5 + |w|..];
    assert t == "\n" + rest && t[1..] == rest;
    assert MatchLen(Embed, t, s[4 + |w|] == '\n') == 0;
  }

  /** The lazy `.*?` after `You might also like` matches the empty string, so
      only the phrase itself is removed and the rest of the line stays. */
  lemma MightAlsoLikeRemoved(rest: string, bol: bool)
    ensures Sub(YouMightAlsoLike, "You might also like" + rest, bol)
         == Sub(YouMightAlsoLike, rest, false)
  {
    var s := "You might also like" + rest;
    assert s[19..] == rest;
    assert StartsWith(s, "You might also like");
    assert TailMatch(Literal(""), rest).Some?;
    assert LazyStop(rest, Literal(""), 0);
  }

  /** The fixed text of the ticket advertisement between the artist and the
      price. */
  const TicketText: string := " LiveGet tickets as low as $"

  /** `lit`'s only `$` is its last character. */
  predicate DollarLast(lit: string) {
    lit != [] && lit[|lit| - 1] == '$' && forall i :: 0 <= i < |lit| - 1 ==> lit[i] != '$'
  }

  lemma TicketTextDollar()
    ensures DollarLast(TicketText)
  {
  }

  /** Cutting a concatenation at the join gives its parts back. */
  lemma CutAtJoin<T>(a: seq<T>, b: seq<T>)
    ensures (a + b)[..|a|] == a && (a + b)[|a|..] == b
  {
  }

  /** The tail matches the fixed text and then the whole run of digits. */
  lemma TicketTail(lit: string, digits: string, rest: string)
    requires digits != [] && forall i :: 0 <= i < |digits| ==> IsAsciiDigit(digits[i])
    requires rest == [] || !IsAsciiDigit(rest[0])
    ensures TailMatch(LiteralDigits(lit), lit + (digits + rest)) == Some(|lit| + |digits|)
  {
    CutAtJoin(lit, digits + rest);
    assert forall i :: 0 <= i < |digits| ==> (digits + rest)[i] == digits[i];
    assert rest != [] ==> (digits + rest)[|digits|] == rest[0];
  }

  /** The tail cannot match inside the artist: it would need a `$` there or
      before the advertisement's own. */
  lemma TicketNoEarlierStop(lit: string, artist: string, w: string, m: nat)
    requires DollarLast(lit) && '$' !in artist && StartsWith(w, artist + lit) && m < |artist|
    ensures !StartsWith(w[m..], lit)
  {
    var d := |lit| - 1;
    assert w[m + d] == (artist + lit)[m + d];
    if m + d < |artist| {
      assert (artist + lit)[m + d] == artist[m + d];
    } else {
      assert (artist + lit)[m + d] == lit[m + d - |artist|];
    }
    assert w[m..][..|lit|][d] == w[m + d];
  }

  /** `.*?` may stop right after the artist. */
  lemma TicketStop(lit: string, artist: string, digits: string, rest: string)
    requires NoNewline(artist)
    requires digits != [] && forall i :: 0 <= i < |digits| ==> IsAsciiDigit(digits[i])
    requires rest == [] || !IsAsciiDigit(rest[0])
    ensures LazyStop(artist + (lit + (digits + rest)), LiteralDigits(lit), |artist|)
  {
    CutAtJoin(artist, lit + (digits + rest));
    TicketTail(lit, digits, rest);
  }

  /** After `See {artist}`, the lazy `.*?` stops right after the artist. */
  lemma TicketMiddle(lit: string, artist: string, digits: string, rest: string)
    requires DollarLast(lit)
    requires NoNewline(artist) && '$' !in artist
    requires digits != [] && forall i :: 0 <= i < |digits| ==> IsAsciiDigit(digits[i])
    requires rest == [] || !IsAsciiDigit(rest[0])
    ensures LazyMiddle(artist + (lit + (digits + rest)), LiteralDigits(lit)) == Some(|artist|)
  {
    var t := LiteralDigits(lit);
    var w := artist + (lit + (digits + rest));
    TicketStop(lit, artist, digits, rest);
    assert StartsWith(w, artist + lit) by {
      AppendAssoc(artist, lit, digits + rest);
      CutAtJoin(artist + lit, digits + rest);
    }
    forall m | 0 <= m < |artist|
      ensures !LazyStop(w, t, m)
    {
      TicketNoEarlierStop(lit, artist, w, m);
    }
  }

  /** `{prefix}{artist}{lit}{digits}` is matched as a whole by the prefix,
      the lazy `.*?` and the tail. */
  lemma TicketLazyAfter(prefix: string, lit: string, artist: string, digits: string, rest: string)
    requires DollarLast(lit)
    requires NoNewline(artist) && '$' !in artist
    requires digits != [] && forall i :: 0 <= i < |digits| ==> IsAsciiDigit(digits[i])
    requires rest == [] || !IsAsciiDigit(rest[0])
    ensures LazyAfter(prefix + (artist + (lit + (digits + rest))), prefix, LiteralDigits(lit))
         == |prefix| + |artist| + |lit| + |digits|
  {
    var w := artist + (lit + (digits + rest));
    CutAtJoin(prefix, w);
    CutAtJoin(artist, lit + (digits + rest));
    TicketMiddle(lit, artist, digits, rest);
    TicketTail(lit, digits, rest);
    assert (prefix + w)[|prefix| + |artist|..] == lit + (digits + rest);
  }

  /** Regrouping a five-part concatenation to the right. */
  lemma RegroupRight<T>(a: seq<T>, b: seq<T>, c: seq<T>, d: seq<T>, e: seq<T>)
    ensures a + b + c + d + e == a + (b + (c + (d + e)))
  {
  }

  /** `See {artist} LiveGet tickets as low as ${digits}` goes as a whole, and
      the text after the price stays. */
  lemma TicketAdvertRemoved(artist: string, digits: string, rest: string, bol: bool)
    requires NoNewline(artist) && '$' !in artist
    requires digits != [] && forall i :: 0 <= i < |digits| ==> IsAsciiDigit(digits[i])
    requires rest == [] || !IsAsciiDigit(rest[0])
    ensures Sub(TicketAdvert, "See " + artist + TicketText + digits + rest, bol)
         == Sub(TicketAdvert, rest, false)
  {
    var s := "See " + (artist + (TicketText + (digits + rest)));
    RegroupRight("See ", artist, TicketText, digits, rest);
    TicketTextDollar();
    TicketLazyAfter("See ", TicketText, artist, digits, rest);
    var k := 4 + |artist| + |TicketText| + |digits|;
    assert MatchLen(TicketAdvert, s, bol) == k;
    CutAtJoin("See " + artist + TicketText + digits, rest);
    assert s[k - 1] == digits[|digits| - 1];
    SubAfterDeletion(TicketAdvert, s, bol, k);
  }

  /** Where a deleting pattern matches, `re.sub` goes on after the match. */
  lemma SubAfterDeletion(p: Pattern, s: string, bol: bool, k: nat)
    requires Replacement(p) == [] && s != [] && 0 < k == MatchLen(p, s, bol)
    ensures Sub(p, s, bol) == Sub(p, s[k..], s[k - 1] == '\n')
  {
  }

  /** `.*? Lyrics` stops at the first ` Lyrics`. */
  lemma LyricsTitleMiddle(title: string, rest: string)
    requires NoNewline(title)
    requires forall m :: 0 <= m < |title| ==> !OccursAt(title + " Lyrics", " Lyrics", m)
    ensures LazyMiddle(title + " Lyrics" + rest, Literal(" Lyrics")) == Some(|title|)
  {
    var t := Literal(" Lyrics");
    var w := title + " Lyrics" + rest;
    assert w[|title|..][..7] == " Lyrics";
    assert w[..|title|] == title;
    assert LazyStop(w, t, |title|);
    forall m | 0 <= m < |title|
      ensures !LazyStop(w, t, m)
    {
      if StartsWith(w[m..], " Lyrics") {
        assert w[m..m + 7] == (title + " Lyrics")[m..m + 7];
        assert OccursAt(title + " Lyrics", " Lyrics", m);
      }
    }
  }

  /** A title line `{title} Lyrics` goes as a whole when ` Lyrics` first
      occurs at its end, and the text after it stays. */
  lemma LyricsTitleRemoved(title: string, rest: string, bol: bool)
    requires NoNewline(title)
    requires forall m :: 0 <= m < |title| ==> !OccursAt(title + " Lyrics", " Lyrics", m)
    ensures Sub(LyricsTitle, title + " Lyrics" + rest, bol) == Sub(LyricsTitle, rest, false)
  {
    var s := title + " Lyrics" + rest;
    LyricsTitleMiddle(title, rest);
    assert StartsWith(s, "") && s[0..] == s;
    assert s[|title|..][..7] == " Lyrics";
    var k := |title| + 7;
    assert MatchLen(LyricsTitle, s, bol) == k;
    assert s[k..] == rest;
    assert s[k - 1] == 's';
  }
}
