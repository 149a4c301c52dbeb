/** The regular-expression substitutions the songbook code performs.

    Rather than a general regular-expression engine, each pattern the source
    uses is given a matcher, `MatchLen`, that returns the length of the match
    Python's backtracking engine finds at the start of a string (0 when there
    is none: no pattern here can match the empty string).  `Sub` then scans
    left to right exactly as `re.sub` does: at each position it either replaces
    a match and resumes after it, or keeps one character and moves on.  The
    flag `bol` records whether the current position is the beginning of a line,
    which is all `^` needs under `re.MULTILINE`; `$` only looks ahead. */
module Regex {
  import opened Strings

  /** The patterns, named after what they remove. */
  datatype Pattern =
    | Embed               // r'Embed\s*$' with re.MULTILINE
    | YouMightAlsoLike    // r'You might also like.*?'
    | TicketAdvert        // r'See .*? LiveGet tickets as low as \$\d+'
    | LyricsTitle         // r'.*? Lyrics'
    | TitleDirective      // r'{t:.*?}\n'
    | SubtitleDirective   // r'{st:.*?}\n'
    | MailHeader          // r'^(Received|From|...|Content-.*):.*\n' with re.MULTILINE
    | ToLine              // r'^.*To:.*$' with re.MULTILINE
    | EmailLine           // r'^.*Email:.*$' with re.MULTILINE
    | MarkupTag           // r'\[(ch|/ch|tab|...)\]' with re.IGNORECASE
    | BlankLines          // r'\n\s*\n', replaced by '\n'
    | SpaceBeforeNewline  // r'\s+\n', replaced by '\n'
    | Bracketed           // r'\[[^\]]*\]'

  function Replacement(p: Pattern): string {
    if p == BlankLines || p == SpaceBeforeNewline then "\n" else ""
  }

  /** The tags `clean_chords` strips when they appear in square brackets. */
  const MarkupTags: seq<string> := [
    "ch", "/ch", "tab", "/tab", "verse", "/verse", "intro", "/intro",
    "outro", "/outro", "pre-chorus", "/pre-chorus", "chorus", "/chorus",
    "bridge", "/bridge", "solo", "/solo", "instrumental", "/instrumental",
    "repeat", "/repeat", "end", "/end", "coda", "/coda", "refrain", "/refrain"
  ]

  /** The mail-header names of the `clean_chords` header pattern that need no
      further text before the colon. */
  const HeaderNames: seq<string> :=
    ["Received", "From", "Message-Id", "To", "Date", "Subject", "MIME-Version"]

  /** What may follow a lazy `.*?`: a literal, or a literal and then `\d+`. */
  datatype Tail = Literal(lit: string) | LiteralDigits(lit: string)

  /** The greedy `\d+` (ASCII digits): the length of the leading digit run. */
  function DigitRun(w: string): (n: nat)
    ensures n <= |w|
    ensures forall i :: 0 <= i < n ==> IsAsciiDigit(w[i])
    ensures n == |w| || !IsAsciiDigit(w[n])
  {
    if w != [] && IsAsciiDigit(w[0]) then 1 + DigitRun(w[1..]) else 0
  }

  /** Length of the match of the tail at the start of `w`, if it matches. */
  function TailMatch(t: Tail, w: string): (r: Option<nat>)
    ensures r.Some? ==> r.value <= |w|
  {
    match t
    case Literal(lit) => if StartsWith(w, lit) then Some(|lit|) else None
    case LiteralDigits(lit) =>
      if StartsWith(w, lit) && |lit| < |w| && IsAsciiDigit(w[|lit|])
      then Some(|lit| + DigitRun(w[|lit|..]))
      else None
  }

  /** `.*?` may stop after `m` characters of `w` and let the tail match there. */
  predicate LazyStop(w: string, t: Tail, m: int) {
    0 <= m <= |w| && NoNewline(w[..m]) && TailMatch(t, w[m..]).Some?
  }

  lemma LazyStopShift(w: string, t: Tail, m: int)
    requires w != [] && w[0] != '\n' && 1 <= m <= |w|
    ensures LazyStop(w, t, m) <==> LazyStop(w[1..], t, m - 1)
  {
    assert w[1..][m - 1..] == w[m..];
    assert w[..m] == [w[0]] + w[1..][..m - 1];
  }

  /** `.*?` followed by `t`: the shortest newline-free stretch after which the
      tail matches (the lazy quantifier tries the lengths in increasing order,
      and `.` does not match a newline). */
  function LazyMiddle(w: string, t: Tail): (r: Option<nat>)
    ensures r.Some? ==> LazyStop(w, t, r.value)
    ensures r.Some? ==> forall m :: 0 <= m < r.value ==> !LazyStop(w, t, m)
    ensures r.None? ==> forall m :: !LazyStop(w, t, m)
  {
    if TailMatch(t, w).Some? then
      assert w[0..] == w;
      Some(0)
    else if w == [] || w[0] == '\n' then
      assert forall m :: 1 <= m <= |w| ==> w[..m][0] == '\n';
      assert w[0..] == w;
      None
    else
      var rest := LazyMiddle(w[1..], t);
      assert w[0..] == w;
      forall m | 1 <= m <= |w| ensures LazyStop(w, t, m) <==> LazyStop(w[1..], t, m - 1) {
        LazyStopShift(w, t, m);
      }
      match rest
      case Some(m) => Some(m + 1)
      case None => None
  }

  /** `prefix`, then `.*?`, then the tail: the total length matched, or 0. */
  function LazyAfter(s: string, prefix: string, t: Tail): (k: nat)
    ensures k <= |s|
  {
    if StartsWith(s, prefix) then
      match LazyMiddle(s[|prefix|..], t)
      case Some(m) => |prefix| + m + TailMatch(t, s[|prefix| + m..]).value
      case None => 0
    else 0
  }

  /** `\s*` ending at `k`, followed by a newline or, when `allowEnd`, by the end
      of the text: the places where `\s*$` (multi-line) or `\s*\n` can stop. */
  predicate SpaceRunEndsAt(w: string, k: int, allowEnd: bool) {
    0 <= k <= |w| && AllSpace(w[..k]) && ((k == |w| && allowEnd) || (k < |w| && w[k] == '\n'))
  }

  /** The greedy choice: the largest such `k`, if any. */
  function SpaceRun(w: string, allowEnd: bool): (r: Option<nat>)
    ensures r.Some? ==> SpaceRunEndsAt(w, r.value, allowEnd)
    ensures r.Some? ==> forall k :: r.value < k <= |w| ==> !SpaceRunEndsAt(w, k, allowEnd)
    ensures r.None? ==> forall k :: 0 <= k <= |w| ==> !SpaceRunEndsAt(w, k, allowEnd)
  {
    if w == [] then (if allowEnd then Some(0) else None)
    else if !IsSpace(w[0]) then None
    else
      var rest := SpaceRun(w[1..], allowEnd);
      forall k | 1 <= k <= |w|
        ensures SpaceRunEndsAt(w, k, allowEnd) <==> SpaceRunEndsAt(w[1..], k - 1, allowEnd)
      {
        assert w[..k] == [w[0]] + w[1..][..k - 1];
      }
      match rest
      case Some(k) => Some(k + 1)
      case None => if w[0] == '\n' then Some(0) else None
  }

  /** The greedy run is the largest place where `\s*` may stop. */
  lemma SpaceRunIs(w: string, n: nat, allowEnd: bool)
    requires SpaceRunEndsAt(w, n, allowEnd)
    requires forall k :: n < k <= |w| ==> !SpaceRunEndsAt(w, k, allowEnd)
    ensures SpaceRun(w, allowEnd) == Some(n)
  {
  }

  /** Index of the first newline, or the length when there is none. */
  function LineEnd(s: string): (n: nat)
    ensures n <= |s| && NoNewline(s[..n]) && (n < |s| ==> s[n] == '\n')
  {
    if s == [] || s[0] == '\n' then 0
    else
      var n := 1 + LineEnd(s[1..]);
      assert s[..n] == [s[0]] + s[1..][..n - 1];
      n
  }

  /** Index of the first occurrence of `c`, if any. */
  function IndexOf(s: string, c: char): (r: Option<nat>)
    ensures r.Some? ==> r.value < |s| && s[r.value] == c && c !in s[..r.value]
    ensures r.None? ==> c !in s
  {
    if s == [] then None
    else if s[0] == c then Some(0)
    else
      match IndexOf(s[1..], c)
      case Some(n) =>
        assert s[..n + 1] == [s[0]] + s[1..][..n];
        Some(n + 1)
      case None => None
  }

  /** A line the header pattern accepts: one of the plain names and a colon,
      or `X-` / `Content-` followed, somewhere later, by a colon. */
  predicate IsHeaderLine(line: string) {
    (exists i :: 0 <= i < |HeaderNames| && StartsWith(line, HeaderNames[i] + ":"))
    || (StartsWith(line, "X-") && ':' in line[2..])
    || (StartsWith(line, "Content-") && ':' in line[8..])
  }

  /** The alternation of bracketed tags, tried in the order listed: the first
      tag that `w` starts with, case-insensitively, directly followed by `]`. */
  function TagMatch(w: string, tags: seq<string>): (r: Option<nat>)
    ensures r.Some? ==> r.value < |w| && w[r.value] == ']'
    ensures r.Some? ==> exists i :: 0 <= i < |tags| && |tags[i]| == r.value && Lower(w[..r.value]) == tags[i]
    ensures r.None? ==> forall i :: 0 <= i < |tags| && |tags[i]| < |w| && w[|tags[i]|] == ']'
                          ==> Lower(w[..|tags[i]|]) != tags[i]
  {
    if tags == [] then None
    else
      var t := tags[0];
      if |t| < |w| && Lower(w[..|t|]) == t && w[|t|] == ']' then Some(|t|)
      else
        var rest := TagMatch(w, tags[1..]);
        assert forall i :: 1 <= i < |tags| ==> tags[i] == tags[1..][i - 1];
        rest
  }

  /** Length of the match of `p` at the start of `s` (0: no match there). */
  function MatchLen(p: Pattern, s: string, bol: bool): (k: nat)
    ensures k <= |s|
    ensures k > 0 && Replacement(p) != [] ==> s[k - 1] == '\n'
  {
    match p
    case Embed =>
      if StartsWith(s, "Embed") then
        match SpaceRun(s[5..], true)
        case Some(n) => 5 + n
        case None => 0
      else 0
    case YouMightAlsoLike => LazyAfter(s, "You might also like", Literal(""))
    case TicketAdvert => LazyAfter(s, "See ", LiteralDigits(" LiveGet tickets as low as $"))
    case LyricsTitle => LazyAfter(s, "", Literal(" Lyrics"))
    case TitleDirective => LazyAfter(s, "{t:", Literal("}\n"))
    case SubtitleDirective => LazyAfter(s, "{st:", Literal("}\n"))
    case MailHeader =>
      var n := LineEnd(s);
      if bol && n < |s| && IsHeaderLine(s[..n]) then n + 1 else 0
    case ToLine =>
      var n := LineEnd(s);
      if bol && Contains(s[..n], "To:") then n else 0
    case EmailLine =>
      var n := LineEnd(s);
      if bol && Contains(s[..n], "Email:") then n else 0
    case MarkupTag =>
      if s != [] && s[0] == '[' then
        match TagMatch(s[1..], MarkupTags)
        case Some(n) => n + 2
        case None => 0
      else 0
    case BlankLines =>
      if s != [] && s[0] == '\n' then
        match SpaceRun(s[1..], false)
        case Some(n) => n + 2
        case None => 0
      else 0
    case SpaceBeforeNewline =>
      if s != [] && IsSpace(s[0]) then
        match SpaceRun(s[1..], false)
        case Some(n) => n + 2
        case None => 0
      else 0
    case Bracketed =>
      if s != [] && s[0] == '[' then
        match IndexOf(s[1..], ']')
        case Some(n) => n + 2
        case None => 0
      else 0
  }

  /** `re.sub` from a position whose beginning-of-line status is `bol`. */
  function Sub(p: Pattern, s: string, bol: bool): string
    decreases |s|
  {
    if s == [] then []
    else
      var k := MatchLen(p, s, bol);
      if k > 0 then Replacement(p) + Sub(p, s[k..], s[k - 1] == '\n')
      else [s[0]] + Sub(p, s[1..], s[0] == '\n')
  }

  /** `re.sub(p, replacement, s)`. */
  function Substitute(p: Pattern, s: string): string {
    Sub(p, s, true)
  }

  /** Every substitution the source performs only deletes text: a replacement
      `\n` stands for the newline that ends the text it replaces.  So the
      result is a subsequence of the input. */
  lemma {:induction false} SubIsSubsequence(p: Pattern, s: string, bol: bool)
    ensures IsSubsequence(Sub(p, s, bol), s)
    decreases |s|
  {
    if s != [] {
      var k := MatchLen(p, s, bol);
      if k > 0 {
        SubIsSubsequence(p, s[k..], s[k - 1] == '\n');
        ReplacedIsSubsequence(p, s, bol, k);
      } else {
        SubIsSubsequence(p, s[1..], s[0] == '\n');
        KeptIsSubsequence(p, s, bol);
      }
    }
  }

  /** The step of `SubIsSubsequence` where a match of length `k` is replaced. */
  lemma ReplacedIsSubsequence(p: Pattern, s: string, bol: bool, k: nat)
    requires s != [] && k == MatchLen(p, s, bol) && k > 0
    requires IsSubsequence(Sub(p, s[k..], s[k - 1] == '\n'), s[k..])
    ensures IsSubsequence(Sub(p, s, bol), s)
  {
    var rest := Sub(p, s[k..], s[k - 1] == '\n');
    if Replacement(p) == [] {
      assert Sub(p, s, bol) == rest;
      SubsequenceOfSuffix(rest, s, k);
    } else {
      assert Sub(p, s, bol) == [s[k - 1]] + rest;
      assert s[k - 1..][1..] == s[k..];
      SubsequenceOfSuffix(Sub(p, s, bol), s, k - 1);
    }
  }

  /** The step of `SubIsSubsequence` where one character is kept. */
  lemma KeptIsSubsequence(p: Pattern, s: string, bol: bool)
    requires s != [] && MatchLen(p, s, bol) == 0
    requires IsSubsequence(Sub(p, s[1..], s[0] == '\n'), s[1..])
    ensures IsSubsequence(Sub(p, s, bol), s)
  {
    assert Sub(p, s, bol)[1..] == Sub(p, s[1..], s[0] == '\n');
  }


  /** No whitespace character (a newline included) directly before a newline. */
  predicate NoSpaceBeforeNewline(r: string) {
    forall i :: 0 <= i && i + 1 < |r| && IsSpace(r[i]) ==> r[i + 1] != '\n'
  }

  /** Where no whitespace run reaches a newline, the substitution of
      `\s+\n` does not produce a newline first. */
  lemma SpaceBeforeNewlineHead(w: string, bol: bool)
    requires SpaceRun(w, false).None?
    ensures var r := Sub(SpaceBeforeNewline, w, bol); r == [] || r[0] != '\n'
  {
    if w != [] {
      assert !SpaceRunEndsAt(w, 0, false);
      if MatchLen(SpaceBeforeNewline, w, bol) > 0 {
        assert false;
      }
    }
  }

  /** The greedy run cannot be extended past the newline it stops at. */
  lemma SpaceRunMaximal(w: string, n: nat)
    requires SpaceRun(w, false) == Some(n)
    ensures SpaceRun(w[n + 1..], false).None?
  {
    var rest := w[n + 1..];
    if SpaceRun(rest, false).Some? {
      var m := SpaceRun(rest, false).value;
      assert w[..n + 1 + m] == w[..n] + [w[n]] + rest[..m];
      assert SpaceRunEndsAt(w, n + 1 + m, false);
    }
  }

  /** After `re.sub(r'\s+\n', '\n', s)` no whitespace precedes a newline:
      trailing blanks are gone and runs of blank lines are one newline. */
  lemma {:induction false} SpaceBeforeNewlineRemoved(s: string, bol: bool)
    ensures NoSpaceBeforeNewline(Sub(SpaceBeforeNewline, s, bol))
    decreases |s|
  {
    if s != [] {
      var k := MatchLen(SpaceBeforeNewline, s, bol);
      if k > 0 {
        var n := SpaceRun(s[1..], false).value;
        SpaceRunMaximal(s[1..], n);
        assert s[1..][n + 1..] == s[k..];
        SpaceBeforeNewlineRemoved(s[k..], s[k - 1] == '\n');
        SpaceBeforeNewlineHead(s[k..], s[k - 1] == '\n');
      } else {
        SpaceBeforeNewlineRemoved(s[1..], s[0] == '\n');
        if IsSpace(s[0]) {
          SpaceBeforeNewlineHead(s[1..], s[0] == '\n');
        }
      }
    }
  }

  /** No `[` is followed, anywhere later, by a `]`. */
  predicate NoBracketPair(r: string) {
    forall i, j :: 0 <= i < j < |r| && r[i] == '[' ==> r[j] != ']'
  }

  /** After `re.sub(r'\[[^\]]*\]', '', s)` no `[` has a `]` after it: a `[`
      survives only when no `]` follows it in the input. */
  lemma {:induction false} BracketedRemoved(s: string, bol: bool)
    ensures NoBracketPair(Sub(Bracketed, s, bol))
    decreases |s|
  {
    if s != [] {
      var k := MatchLen(Bracketed, s, bol);
      if k > 0 {
        BracketedRemoved(s[k..], s[k - 1] == '\n');
      } else {
        var rest := Sub(Bracketed, s[1..], s[0] == '\n');
        BracketedRemoved(s[1..], s[0] == '\n');
        if s[0] == '[' {
          SubIsSubsequence(Bracketed, s[1..], s[0] == '\n');
          SubsequenceMembers(rest, s[1..], ']');
        }
        var r := Sub(Bracketed, s, bol);
        assert r == [s[0]] + rest;
        forall i, j | 0 <= i < j < |r| && r[i] == '['
          ensures r[j] != ']'
        {
          if i > 0 {
            assert r[i] == rest[i - 1] && r[j] == rest[j - 1];
          } else {
            assert r[j] == rest[j - 1];
          }
        }
      }
    }
  }

  /** Text in which no `[` is followed by a `]` is left as it is. */
  lemma {:induction false} BracketedIdentity(s: string, bol: bool)
    requires NoBracketPair(s)
    ensures Sub(Bracketed, s, bol) == s
    decreases |s|
  {
    if s != [] {
      if MatchLen(Bracketed, s, bol) > 0 {
        assert false;
      }
      assert NoBracketPair(s[1..]) by {
        forall i, j | 0 <= i < j < |s[1..]| && s[1..][i] == '['
          ensures s[1..][j] != ']'
        {
          assert s[i + 1] == '[';
        }
      }
      BracketedIdentity(s[1..], s[0] == '\n');
    }
  }

  /** Removing bracketed text twice is the same as removing it once. */
  lemma BracketedIdempotent(s: string, bol: bool)
    ensures Sub(Bracketed, Sub(Bracketed, s, bol), bol) == Sub(Bracketed, s, bol)
  {
    BracketedRemoved(s, bol);
    BracketedIdentity(Sub(Bracketed, s, bol), bol);
  }

  /** No markup tag contains a closing bracket. */
  lemma TagsHaveNoBracket()
    ensures forall t :: t in MarkupTags ==> ']' !in t
  {
  }

  /** Lower-casing keeps a closing bracket where it is. */
  lemma LowerKeepsBracket(x: string, k: int)
    requires 0 <= k < |x| && x[k] == ']'
    ensures ']' in Lower(x)
  {
    assert Lower(x)[k] == ']';
  }

  /** On `x]...`, the tag alternation matches exactly when `x` is a tag. */
  lemma {:induction false} TagMatchBracketed(x: string, rest: string, tags: seq<string>)
    requires ']' !in x
    requires forall t :: t in tags ==> ']' !in t
    ensures TagMatch(x + "]" + rest, tags) == if Lower(x) in tags then Some(|x|) else None
  {
    var w := x + "]" + rest;
    if tags != [] {
      var t := tags[0];
      assert t in tags;
      if |t| < |w| && Lower(w[..|t|]) == t && w[|t|] == ']' {
        if |t| < |x| {
          assert false;
        } else if |t| > |x| {
          LowerKeepsBracket(w[..|t|], |x|);
          assert false;
        } else {
          assert w[..|t|] == x;
        }
      } else {
        TagMatchBracketed(x, rest, tags[1..]);
        assert Lower(x) in tags <==> Lower(x) == t || Lower(x) in tags[1..];
      }
    }
  }

  /** A text that lower-cases to a listed tag holds no closing bracket. */
  lemma TagHasNoBracket(x: string)
    requires Lower(x) in MarkupTags
    ensures ']' !in x
  {
    TagsHaveNoBracket();
    if ']' in x {
      var k :| 0 <= k < |x| && x[k] == ']';
      LowerKeepsBracket(x, k);
    }
  }

  /** The markup-tag matcher on text that opens with `[`. */
  lemma MarkupTagLen(s: string, bol: bool)
    requires s != [] && s[0] == '['
    ensures MatchLen(MarkupTag, s, bol) == match TagMatch(s[1..], MarkupTags) case Some(n) => n + 2 case None => 0
  {
  }

  /** `[tag]`, in any ASCII capitalisation of a listed tag, is matched as a
      whole. */
  lemma MarkupTagMatched(x: string, rest: string, bol: bool)
    requires Lower(x) in MarkupTags
    ensures MatchLen(MarkupTag, "[" + x + "]" + rest, bol) == |x| + 2
  {
    TagHasNoBracket(x);
    TagsHaveNoBracket();
    var s := "[" + x + "]" + rest;
    assert s[0] == '[' && s[1..] == x + "]" + rest;
    TagMatchBracketed(x, rest, MarkupTags);
    MarkupTagLen(s, bol);
  }

  /** Bracketed text that is not a listed tag, such as the chord `[G]`, is
      not matched. */
  lemma OtherBracketKept(x: string, rest: string, bol: bool)
    requires ']' !in x && Lower(x) !in MarkupTags
    ensures MatchLen(MarkupTag, "[" + x + "]" + rest, bol) == 0
  {
    TagsHaveNoBracket();
    var s := "[" + x + "]" + rest;
    assert s[0] == '[' && s[1..] == x + "]" + rest;
    TagMatchBracketed(x, rest, MarkupTags);
    MarkupTagLen(s, bol);
  }
}
