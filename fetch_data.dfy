/** The multi-source resolver of app/fetch_data.py: query normalisers, the
    Yousician URL slug, and the search over query variants and providers.

    Providers are opaque: each is a function from (title, artist) to a reply
    that either raised or returned a string or None.  What a provider does
    inside (HTTP, scraping, its own cache writes) is not part of this model. */
module FetchData {
  import opened Strings

  /** `\w` of a `str` pattern (`str.isalnum()` or `_`), for the code points
      below U+0250: ASCII letters, digits and `_`, the Latin-1 letters and
      numerals, and Latin Extended-A and -B. */
  predicate IsWordChar(c: char) {
    var n := c as int;
    IsAsciiAlnum(c) || c == '_'
    || n == 0xAA || n == 0xB2 || n == 0xB3 || n == 0xB5 || n == 0xB9 || n == 0xBA
    || (0xBC <= n <= 0xBE) || (0xC0 <= n <= 0xD6) || (0xD8 <= n <= 0xF6)
    || (0xF8 <= n < 0x250)
  }

  /** The text starts with `the`, in any ASCII capitalisation, and then
      whitespace: what `^the\s+` with re.IGNORECASE needs. */
  predicate HasArticle(s: string) {
    |s| >= 4 && LowerChar(s[0]) == 't' && LowerChar(s[1]) == 'h' && LowerChar(s[2]) == 'e'
    && IsSpace(s[3])
  }

  /** `strip_the`: remove a leading article and the whitespace after it, then
      strip both ends.  The result is a trimmed piece of the input. */
  function StripThe(s: string): (r: string)
    ensures Trimmed(r) && |r| <= |s|
  {
    Strip(if HasArticle(s) then TrimStart(s[3..]) else s)
  }

  lemma StripTrimStart(s: string)
    ensures Strip(TrimStart(s)) == Strip(s)
  {
    assert TrimStart(TrimStart(s)) == TrimStart(s) by {
      var t := TrimStart(s);
      assert t == [] || !IsSpace(t[0]);
    }
  }

  /** A leading article is removed with the whitespace that follows it. */
  lemma StripTheArticle(s: string)
    requires HasArticle(s)
    ensures StripThe(s) == Strip(s[3..])
  {
    StripTrimStart(s[3..]);
  }

  /** Without a leading article the text is only stripped; in particular a
      word that merely starts with `the` is kept. */
  lemma StripTheNoArticle(s: string)
    requires !HasArticle(s)
    ensures StripThe(s) == Strip(s)
  {
  }

  predicate KeptByStripPunct(c: char) {
    IsWordChar(c) || IsSpace(c)
  }

  /** `strip_punct`: `re.sub(r'[^\w\s]', '', s)` keeps exactly the word and
      whitespace characters. */
  function StripPunct(s: string): (r: string)
    ensures IsSubsequence(r, s)
    ensures forall i :: 0 <= i < |r| ==> KeptByStripPunct(r[i])
  {
    FilterSubsequence(s, KeptByStripPunct);
    FilterOnlyKept(s, KeptByStripPunct);
    Filter(s, KeptByStripPunct)
  }

  /** Filtering text that already passes the filter changes nothing. */
  lemma {:induction false} FilterKeepsAll(s: string, keep: char -> bool)
    requires forall i :: 0 <= i < |s| ==> keep(s[i])
    ensures Filter(s, keep) == s
  {
    if s != [] {
      FilterKeepsAll(s[1..], keep);
    }
  }

  /** `strip_punct` is idempotent. */
  lemma StripPunctIdempotent(s: string)
    ensures StripPunct(StripPunct(s)) == StripPunct(s)
  {
    FilterKeepsAll(StripPunct(s), KeptByStripPunct);
  }

  /** A character `format_for_url` keeps: `[a-z0-9]`. */
  predicate IsSlugChar(c: char) {
    IsAsciiLower(c) || IsAsciiDigit(c)
  }

  /** No two dashes next to each other. */
  ghost predicate NoDoubleDash(s: string) {
    forall i, j :: 0 <= i < j < |s| && j == i + 1 ==> !(s[i] == '-' && s[j] == '-')
  }

  /** Index of the first character of `[a-z0-9]` at or after `i` (or `|s|`):
      the end of a run of characters outside the class. */
  function SkipNonSlug(s: string, i: nat): (k: nat)
    requires i <= |s|
    ensures i <= k <= |s| && forall j :: i <= j < k ==> !IsSlugChar(s[j])
    ensures k == |s| || IsSlugChar(s[k])
    decreases |s| - i
  {
    if i < |s| && !IsSlugChar(s[i]) then SkipNonSlug(s, i + 1) else i
  }

  /** `re.sub(r'[^a-z0-9]+', '-', s)`: each maximal run outside `[a-z0-9]`
      becomes one dash. */
  function Dashed(s: string): (r: string)
    ensures forall i :: 0 <= i < |r| ==> IsSlugChar(r[i]) || r[i] == '-'
    ensures NoDoubleDash(r)
    ensures s != [] && IsSlugChar(s[0]) ==> r != [] && r[0] == s[0]
    ensures s == [] <==> r == []
    decreases |s|
  {
    if s == [] then []
    else if IsSlugChar(s[0]) then [s[0]] + Dashed(s[1..])
    else "-" + Dashed(s[SkipNonSlug(s, 1)..])
  }

  /** What a slug may look like inside: only `[a-z0-9-]` and no two dashes
      in a row. */
  ghost predicate SlugShape(s: string) {
    (forall i :: 0 <= i < |s| ==> IsSlugChar(s[i]) || s[i] == '-') && NoDoubleDash(s)
  }

  /** Index of the first character at or after `i` that is not a dash. */
  function FirstNonDash(s: string, i: nat): (k: nat)
    requires i <= |s|
    ensures i <= k <= |s| && forall j :: i <= j < k ==> s[j] == '-'
    ensures k == |s| || s[k] != '-'
    decreases |s| - i
  {
    if i < |s| && s[i] == '-' then FirstNonDash(s, i + 1) else i
  }

  /** One past the last character before `n` that is not a dash, but no
      lower than `lo`. */
  function EndNonDash(s: string, lo: nat, n: nat): (k: nat)
    requires lo <= n <= |s|
    ensures lo <= k <= n && forall j :: k <= j < n ==> s[j] == '-'
    ensures k == lo || s[k - 1] != '-'
  {
    if n > lo && s[n - 1] == '-' then EndNonDash(s, lo, n - 1) else n
  }

  /** Any piece of a string of slug shape has slug shape. */
  lemma SliceSlugShape(s: string, a: nat, b: nat)
    requires a <= b <= |s|
    ensures SlugShape(s) ==> SlugShape(s[a..b])
  {
    var r := s[a..b];
    assert forall k :: 0 <= k < |r| ==> r[k] == s[a + k];
  }

  /** `str.strip('-')`: the text between the leading and the trailing run of
      dashes.  It starts and ends with something other than a dash, and
      keeps the slug shape. */
  function StripDashes(s: string): (r: string)
    ensures r == [] || (r[0] != '-' && r[|r| - 1] != '-')
    ensures SlugShape(s) ==> SlugShape(r)
  {
    var a := FirstNonDash(s, 0);
    var b := EndNonDash(s, a, |s|);
    SliceSlugShape(s, a, b);
    s[a..b]
  }

  /** `format_for_url` (nested in `get_chords_from_yousician`): lower-case,
      replace each run outside `[a-z0-9]` by a dash, strip dashes.  The slug
      holds only `[a-z0-9-]`, never two dashes in a row, and no dash at
      either end. */
  function FormatForUrl(s: string): (r: string)
    ensures forall i :: 0 <= i < |r| ==> IsSlugChar(r[i]) || r[i] == '-'
    ensures NoDoubleDash(r)
    ensures r == [] || (r[0] != '-' && r[|r| - 1] != '-')
  {
    StripDashes(Dashed(Lower(s)))
  }

  /** `Filter` distributes over concatenation. */
  lemma {:induction false} FilterAppend(a: string, b: string, keep: char -> bool)
    ensures Filter(a + b, keep) == Filter(a, keep) + Filter(b, keep)
  {
    if a != [] {
      assert (a + b)[0] == a[0] && (a + b)[1..] == a[1..] + b;
      FilterAppend(a[1..], b, keep);
    } else {
      assert a + b == b;
    }
  }

  /** Text whose characters all fail the filter filters to nothing. */
  lemma {:induction false} FilterNone(s: string, keep: char -> bool)
    requires forall i :: 0 <= i < |s| ==> !keep(s[i])
    ensures Filter(s, keep) == []
  {
    if s != [] {
      FilterNone(s[1..], keep);
    }
  }

  /** Dashing neither loses nor adds a letter or digit. */
  lemma {:induction false} DashedKeepsSlugChars(s: string)
    ensures Filter(Dashed(s), IsSlugChar) == Filter(s, IsSlugChar)
    decreases |s|
  {
    if s != [] {
      if IsSlugChar(s[0]) {
        DashedKeepsSlugChars(s[1..]);
        assert ([s[0]] + Dashed(s[1..]))[1..] == Dashed(s[1..]);
      } else {
        var k := SkipNonSlug(s, 1);
        DashedKeepsSlugChars(s[k..]);
        assert ("-" + Dashed(s[k..]))[1..] == Dashed(s[k..]);
        FilterLeadingNone(s, k);
      }
    }
  }

  /** The slug keeps every letter and digit of the lower-cased text, in
      order: only the separators change. */
  lemma FormatForUrlKeepsSlugChars(s: string)
    ensures Filter(FormatForUrl(s), IsSlugChar) == Filter(Lower(s), IsSlugChar)
  {
    DashedKeepsSlugChars(Lower(s));
    StripDashesKeepsSlugChars(Dashed(Lower(s)));
  }

  /** Filtering a string is filtering its two pieces. */
  lemma FilterSplit(s: string, k: nat, keep: char -> bool)
    requires k <= |s|
    ensures Filter(s, keep) == Filter(s[..k], keep) + Filter(s[k..], keep)
  {
    assert s == s[..k] + s[k..];
    FilterAppend(s[..k], s[k..], keep);
  }

  /** A leading run outside `[a-z0-9]` holds no letter or digit. */
  lemma FilterLeadingNone(d: string, a: nat)
    requires a <= |d| && forall j :: 0 <= j < a ==> !IsSlugChar(d[j])
    ensures Filter(d[a..], IsSlugChar) == Filter(d, IsSlugChar)
  {
    FilterSplit(d, a, IsSlugChar);
    FilterNone(d[..a], IsSlugChar);
  }

  /** A trailing run outside `[a-z0-9]` holds no letter or digit. */
  lemma FilterTrailingNone(e: string, m: nat)
    requires m <= |e| && forall j :: m <= j < |e| ==> !IsSlugChar(e[j])
    ensures Filter(e[..m], IsSlugChar) == Filter(e, IsSlugChar)
  {
    FilterSplit(e, m, IsSlugChar);
    FilterNone(e[m..], IsSlugChar);
  }

  /** Stripping dashes from both ends keeps every letter and digit. */
  lemma StripDashesKeepsSlugChars(d: string)
    ensures Filter(StripDashes(d), IsSlugChar) == Filter(d, IsSlugChar)
  {
    var a := FirstNonDash(d, 0);
    var b := EndNonDash(d, a, |d|);
    var e := d[a..];
    FilterLeadingNone(d, a);
    FilterTrailingNone(e, b - a);
    assert e[..b - a] == d[a..b];
  }

  /** `artist.split(',')[0]`: the main artist, the text before the first comma. */
  function MainArtist(artist: string): (r: string)
    ensures StartsWith(artist, r) && ',' !in r
    ensures |r| == |artist| || artist[|r|] == ','
  {
    SplitFirst(artist, ',');
    Split(artist, ',')[0]
  }

  datatype Kind = Lyrics | Chords

  /** The sentinel a search returns when nothing was found. */
  function NotFound(kind: Kind): string {
    match kind
    case Lyrics => "Lyrics not found."
    case Chords => "Chords not found."
  }

  /** The lower-case forms the resolver compares against. */
  function NotFoundLower(kind: Kind): (r: string)
    ensures r == Lower(NotFound(kind))
  {
    match kind
    case Lyrics => "lyrics not found."
    case Chords => "chords not found."
  }

  datatype Query = Query(artist: string, title: string)

  /** What a provider call did: it raised, or it returned a string or None. */
  datatype Reply = Raised | Returned(value: Option<string>)

  /** A named provider, called as `fetch(title, artist)`. */
  datatype Source = Source(name: string, fetch: (string, string) -> Reply)

  /** One line of the attempt log. */
  datatype Attempt = Attempt(source: string, artist: string, title: string)

  /** The log line as the source formats it: `"{source} ({artist} – {title})"`. */
  function LogLine(a: Attempt): string {
    a.source + " (" + a.artist + " – " + a.title + ")"
  }

  /** `(text, source_name, tried_log)`. */
  datatype Resolution = Resolution(text: string, source: Option<string>, log: seq<Attempt>)

  /** The query variants, in the order they are tried: four for lyrics, and for
      chords a fifth with only the main artist. */
  function Queries(kind: Kind, artist: string, title: string): (r: seq<Query>)
    ensures |r| == if kind == Lyrics then 4 else 5
    ensures r[0] == Query(artist, title)
    ensures kind == Chords ==> r[4] == Query(MainArtist(artist), title)
  {
    [Query(artist, title),
     Query(StripThe(artist), title),
     Query(artist, StripPunct(title)),
     Query(StripThe(artist), StripPunct(title))]
    + (if kind == Chords then [Query(MainArtist(artist), title)] else [])
  }

  /** A reply the search stops at: a non-empty string whose lower-case form is
      not the sentinel. */
  predicate Acceptable(kind: Kind, reply: Reply) {
    reply.Returned? && reply.value.Some? && reply.value.value != []
    && Lower(reply.value.value) != NotFoundLower(kind)
  }

  /** One provider call of the search. */
  datatype Call = Call(query: Query, source: Source)

  function ReplyOf(c: Call): Reply {
    c.source.fetch(c.query.title, c.query.artist)
  }

  function AttemptOf(c: Call): Attempt {
    Attempt(c.source.name, c.query.artist, c.query.title)
  }

  /** The calls for one query variant: every provider, in order. */
  function Row(q: Query, ss: seq<Source>): (r: seq<Call>)
    ensures |r| == |ss|
  {
    if ss == [] then [] else [Call(q, ss[0])] + Row(q, ss[1..])
  }

  /** All calls of a search, variant-major. */
  function Calls(qs: seq<Query>, ss: seq<Source>): seq<Call> {
    if qs == [] then [] else Row(qs[0], ss) + Calls(qs[1..], ss)
  }

  /** The attempt log of a sequence of calls: one entry per call that did not
      raise. */
  function Trace(cs: seq<Call>): seq<Attempt> {
    if cs == [] then []
    else
      Trace(cs[..|cs| - 1])
      + (if ReplyOf(cs[|cs| - 1]).Raised? then [] else [AttemptOf(cs[|cs| - 1])])
  }

  predicate Accepted(kind: Kind, c: Call) {
    Acceptable(kind, ReplyOf(c))
  }

  predicate NoneAccepted(kind: Kind, cs: seq<Call>) {
    forall k :: 0 <= k < |cs| ==> !Accepted(kind, cs[k])
  }

  /** Index of the first call whose reply is accepted. */
  function FirstAccepted(kind: Kind, cs: seq<Call>): (r: Option<nat>)
    ensures r.Some? ==> r.value < |cs| && Accepted(kind, cs[r.value])
    ensures r.Some? ==> forall k :: 0 <= k < r.value ==> !Accepted(kind, cs[k])
    ensures r.None? ==> NoneAccepted(kind, cs)
  {
    if cs == [] then None
    else if Accepted(kind, cs[0]) then Some(0)
    else
      match FirstAccepted(kind, cs[1..])
      case None => None
      case Some(i) => Some(i + 1)
  }

  /** The outcome of a search over `cs`: the first accepted reply with its
      provider's name and the log up to and including it; or the sentinel, no
      provider, and the log of every call. */
  function Outcome(kind: Kind, cs: seq<Call>): Resolution {
    match FirstAccepted(kind, cs)
    case Some(i) => Resolution(ReplyOf(cs[i]).value.value, Some(cs[i].source.name), Trace(cs[..i + 1]))
    case None => Resolution(NotFound(kind), None, Trace(cs))
  }

  lemma TraceSnoc(cs: seq<Call>, c: Call)
    ensures Trace(cs + [c]) == Trace(cs) + (if ReplyOf(c).Raised? then [] else [AttemptOf(c)])
  {
    assert (cs + [c])[..|cs|] == cs;
  }

  lemma NoneAcceptedSnoc(kind: Kind, cs: seq<Call>, c: Call)
    requires NoneAccepted(kind, cs) && !Accepted(kind, c)
    ensures NoneAccepted(kind, cs + [c])
  {
    assert forall k :: 0 <= k < |cs| ==> (cs + [c])[k] == cs[k];
  }

  /** The first call at which the search can stop. */
  lemma FirstAcceptedAt(kind: Kind, done: seq<Call>, c: Call, rest: seq<Call>)
    requires NoneAccepted(kind, done) && Accepted(kind, c)
    ensures FirstAccepted(kind, done + [c] + rest) == Some(|done|)
  {
    var cs := done + [c] + rest;
    assert cs[|done|] == c;
    assert forall k :: 0 <= k < |done| ==> cs[k] == done[k];
  }

  /** The step that ends a search: no earlier call was accepted and `c` is. */
  lemma OutcomeFound(kind: Kind, done: seq<Call>, c: Call, rest: seq<Call>)
    requires NoneAccepted(kind, done) && Accepted(kind, c)
    ensures Outcome(kind, done + [c] + rest)
         == Resolution(ReplyOf(c).value.value, Some(c.source.name), Trace(done) + [AttemptOf(c)])
  {
    var cs := done + [c] + rest;
    FirstAcceptedAt(kind, done, c, rest);
    assert cs[|done|] == c;
    assert cs[..|done| + 1] == done + [c];
    TraceSnoc(done, c);
  }

  lemma CallsStep(qs: seq<Query>, ss: seq<Source>, i: nat)
    requires i < |qs|
    ensures Calls(qs[i..], ss) == Row(qs[i], ss) + Calls(qs[i + 1..], ss)
  {
    assert qs[i..][1..] == qs[i + 1..];
  }

  lemma RowStep(q: Query, ss: seq<Source>, j: nat)
    requires j < |ss|
    ensures Row(q, ss[j..]) == [Call(q, ss[j])] + Row(q, ss[j + 1..])
  {
    assert ss[j..][1..] == ss[j + 1..];
  }

  /** The search's calls, split at provider `j` of variant `i`. */
  ghost predicate SplitAt(qs: seq<Query>, ss: seq<Source>, i: nat, j: nat, done: seq<Call>)
    requires i < |qs| && j <= |ss|
  {
    Calls(qs, ss) == done + (Row(qs[i], ss[j..]) + Calls(qs[i + 1..], ss))
  }

  /** Moving past one provider call. */
  lemma NextCall(qs: seq<Query>, ss: seq<Source>, i: nat, j: nat, done: seq<Call>)
    requires i < |qs| && j < |ss| && SplitAt(qs, ss, i, j, done)
    ensures SplitAt(qs, ss, i, j + 1, done + [Call(qs[i], ss[j])])
  {
    var c := Call(qs[i], ss[j]);
    var row := Row(qs[i], ss[j + 1..]);
    var later := Calls(qs[i + 1..], ss);
    RowStep(qs[i], ss, j);
    AppendAssoc([c], row, later);
    AppendAssoc(done, [c], row + later);
  }

  /** The call at which the search stops decides its outcome. */
  lemma StopAt(kind: Kind, qs: seq<Query>, ss: seq<Source>, i: nat, j: nat, done: seq<Call>)
    requires i < |qs| && j < |ss| && SplitAt(qs, ss, i, j, done)
    requires NoneAccepted(kind, done) && Accepted(kind, Call(qs[i], ss[j]))
    ensures Outcome(kind, Calls(qs, ss))
         == Resolution(ReplyOf(Call(qs[i], ss[j])).value.value, Some(ss[j].name),
                       Trace(done) + [AttemptOf(Call(qs[i], ss[j]))])
  {
    var c := Call(qs[i], ss[j]);
    NextCall(qs, ss, i, j, done);
    var rest := Row(qs[i], ss[j + 1..]) + Calls(qs[i + 1..], ss);
    assert Calls(qs, ss) == done + [c] + rest;
    OutcomeFound(kind, done, c, rest);
  }

  /** Moving past a variant whose providers are all tried. */
  lemma NextVariant(qs: seq<Query>, ss: seq<Source>, i: nat, done: seq<Call>)
    requires i < |qs| && SplitAt(qs, ss, i, |ss|, done)
    ensures Calls(qs, ss) == done + Calls(qs[i + 1..], ss)
  {
    var later := Calls(qs[i + 1..], ss);
    assert ss[|ss|..] == [];
    assert Row(qs[i], ss[|ss|..]) + later == later;
  }

  /** The search's inner loop: every provider on variant `i`, in order.
      It stops at the first accepted reply, whose outcome is the whole
      search's; otherwise it hands back the log with every call of the
      variant that did not raise. */
  method TryVariant(kind: Kind, qs: seq<Query>, ss: seq<Source>, i: nat, log: seq<Attempt>, ghost done: seq<Call>)
    returns (found: Option<Resolution>, log': seq<Attempt>, ghost done': seq<Call>)
    requires i < |qs| && Calls(qs, ss) == done + Calls(qs[i..], ss)
    requires log == Trace(done) && NoneAccepted(kind, done)
    ensures found.Some? ==> found.value == Outcome(kind, Calls(qs, ss))
    ensures found.None? ==> Calls(qs, ss) == done' + Calls(qs[i + 1..], ss)
    ensures found.None? ==> log' == Trace(done') && NoneAccepted(kind, done')
  {
    var q := qs[i];
    CallsStep(qs, ss, i);
    assert ss[0..] == ss;
    log', done' := log, done;
    var j := 0;
    while j < |ss|
      invariant 0 <= j <= |ss|
      invariant SplitAt(qs, ss, i, j, done')
      invariant log' == Trace(done') && NoneAccepted(kind, done')
    {
      var src := ss[j];
      ghost var c := Call(q, src);
      TraceSnoc(done', c);
      var reply := src.fetch(q.title, q.artist);
      if reply.Returned? {
        log' := log' + [Attempt(src.name, q.artist, q.title)];
        if Acceptable(kind, reply) {
          StopAt(kind, qs, ss, i, j, done');
          return Some(Resolution(reply.value.value, Some(src.name), log')), log', done';
        }
      }
      NextCall(qs, ss, i, j, done');
      NoneAcceptedSnoc(kind, done', c);
      done' := done' + [c];
      j := j + 1;
    }
    NextVariant(qs, ss, i, done');
    found := None;
  }

  /** The search loop: variants outer, providers inner, stopping at the first
      accepted reply.  A provider that raises adds nothing to the log. */
  method Resolve(kind: Kind, qs: seq<Query>, ss: seq<Source>) returns (r: Resolution)
    ensures r == Outcome(kind, Calls(qs, ss))
  {
    var log: seq<Attempt> := [];
    ghost var done: seq<Call> := [];
    var i := 0;
    assert qs[0..] == qs;
    while i < |qs|
      invariant 0 <= i <= |qs|
      invariant Calls(qs, ss) == done + Calls(qs[i..], ss)
      invariant log == Trace(done) && NoneAccepted(kind, done)
    {
      var found;
      found, log, done := TryVariant(kind, qs, ss, i, log, done);
      if found.Some? {
        return found.value;
      }
      i := i + 1;
    }
    assert qs[i..] == [] && Calls(qs[i..], ss) == [];
    assert done == Calls(qs, ss);
    return Resolution(NotFound(kind), None, log);
  }

  /** The providers of one variant are tried in the order given. */
  lemma {:induction false} RowAt(q: Query, ss: seq<Source>, j: nat)
    requires j < |ss|
    ensures Row(q, ss)[j] == Call(q, ss[j])
  {
    if j > 0 {
      RowAt(q, ss[1..], j - 1);
    }
  }

  /** A search makes one call per variant and provider. */
  lemma {:induction false} CallsLength(qs: seq<Query>, ss: seq<Source>)
    ensures |Calls(qs, ss)| == |qs| * |ss|
  {
    if qs != [] {
      CallsLength(qs[1..], ss);
      assert |qs| * |ss| == |ss| + (|qs| - 1) * |ss|;
    }
  }

  lemma MulStep(a: int, b: int)
    ensures (a - 1) * b + b == a * b
  {
  }

  /** Variants outer, providers inner: call number `i * |ss| + j` is provider
      `j` on variant `i`. */
  lemma {:induction false} CallsAt(qs: seq<Query>, ss: seq<Source>, i: nat, j: nat)
    requires i < |qs| && j < |ss|
    ensures i * |ss| + j < |Calls(qs, ss)|
    ensures Calls(qs, ss)[i * |ss| + j] == Call(qs[i], ss[j])
  {
    var row := Row(qs[0], ss);
    var rest := Calls(qs[1..], ss);
    assert Calls(qs, ss) == row + rest;
    if i == 0 {
      RowAt(qs[0], ss, j);
    } else {
      CallsAt(qs[1..], ss, i - 1, j);
      var k := (i - 1) * |ss| + j;
      MulStep(i, |ss|);
      assert i * |ss| + j == |ss| + k;
      assert qs[1..][i - 1] == qs[i];
      assert (row + rest)[|ss| + k] == rest[k];
    }
  }

  /** The log has at most one line per call. */
  lemma {:induction false} TraceLength(cs: seq<Call>)
    ensures |Trace(cs)| <= |cs|
  {
    if cs != [] {
      TraceLength(cs[..|cs| - 1]);
    }
  }

  predicate AllRaised(cs: seq<Call>) {
    forall k :: 0 <= k < |cs| ==> ReplyOf(cs[k]).Raised?
  }

  predicate NoneRaised(cs: seq<Call>) {
    forall k :: 0 <= k < |cs| ==> !ReplyOf(cs[k]).Raised?
  }

  /** A call that raises is not logged: if every call raises the log is empty. */
  lemma {:induction false} TraceAllRaised(cs: seq<Call>)
    requires AllRaised(cs)
    ensures Trace(cs) == []
  {
    if cs != [] {
      TraceAllRaised(cs[..|cs| - 1]);
    }
  }

  /** If no call raises, every call is logged, in order. */
  lemma {:induction false} TraceNoneRaised(cs: seq<Call>)
    requires NoneRaised(cs)
    ensures |Trace(cs)| == |cs|
    ensures forall k :: 0 <= k < |cs| ==> Trace(cs)[k] == AttemptOf(cs[k])
  {
    if cs != [] {
      var init := cs[..|cs| - 1];
      assert NoneRaised(init) by {
        assert forall k :: 0 <= k < |init| ==> init[k] == cs[k];
      }
      TraceNoneRaised(init);
    }
  }

  /** The search finds something exactly when some call's reply is
      acceptable. */
  lemma OutcomeFoundIff(kind: Kind, cs: seq<Call>)
    ensures Outcome(kind, cs).source.Some? <==> !NoneAccepted(kind, cs)
  {
    match FirstAccepted(kind, cs)
    case None =>
    case Some(i) =>
  }

  /** A found text is non-empty and not the sentinel in any capitalisation;
      it is the reply of the first acceptable call, and the log stops at
      that call. */
  lemma OutcomeFoundSpec(kind: Kind, cs: seq<Call>)
    requires Outcome(kind, cs).source.Some?
    ensures var t := Outcome(kind, cs).text; t != [] && Lower(t) != NotFoundLower(kind)
    ensures exists i ::
              && 0 <= i < |cs| && Accepted(kind, cs[i]) && NoneAccepted(kind, cs[..i])
              && Outcome(kind, cs) == Resolution(ReplyOf(cs[i]).value.value, Some(cs[i].source.name), Trace(cs[..i + 1]))
  {
    var i := FirstAccepted(kind, cs).value;
    assert NoneAccepted(kind, cs[..i]) by {
      assert forall k :: 0 <= k < i ==> cs[..i][k] == cs[k];
    }
  }

  /** When nothing is found the sentinel comes back, with no provider name,
      and every non-raising call logged. */
  lemma OutcomeNotFoundSpec(kind: Kind, cs: seq<Call>)
    requires Outcome(kind, cs).source.None?
    ensures Outcome(kind, cs) == Resolution(NotFound(kind), None, Trace(cs))
  {
    match FirstAccepted(kind, cs)
    case None =>
    case Some(i) =>
  }

  /** The log never has more lines than there were calls. */
  lemma OutcomeLogBound(kind: Kind, cs: seq<Call>)
    ensures |Outcome(kind, cs).log| <= |cs|
  {
    match FirstAccepted(kind, cs)
    case None =>
      TraceLength(cs);
    case Some(i) =>
      TraceLength(cs[..i + 1]);
  }

  /** The lyrics providers, in the order they are tried. */
  function LyricsSources(genius: (string, string) -> Reply, lyricsOvh: (string, string) -> Reply,
                         azLyrics: (string, string) -> Reply, manual: (string, string) -> Reply): seq<Source> {
    [Source("Genius", genius), Source("Lyrics.ovh", lyricsOvh), Source("AZLyrics", azLyrics),
     Source("Manual", manual)]
  }

  /** The chord providers, in the order they are tried. */
  function ChordsSources(chordie: (string, string) -> Reply, ultimateGuitar: (string, string) -> Reply,
                         eChords: (string, string) -> Reply, songsterr: (string, string) -> Reply,
                         yousician: (string, string) -> Reply): seq<Source> {
    [Source("Chordie", chordie), Source("Ultimate Guitar", ultimateGuitar),
     Source("E‑Chords", eChords), Source("Songsterr", songsterr), Source("Yousician", yousician)]
  }

  /** `get_lyrics_from_sources`. */
  method GetLyricsFromSources(title: string, artist: string,
                              genius: (string, string) -> Reply, lyricsOvh: (string, string) -> Reply,
                              azLyrics: (string, string) -> Reply, manual: (string, string) -> Reply)
    returns (r: Resolution)
    ensures r == Outcome(Lyrics, Calls(Queries(Lyrics, artist, title),
                                       LyricsSources(genius, lyricsOvh, azLyrics, manual)))
  {
    r := Resolve(Lyrics, Queries(Lyrics, artist, title), LyricsSources(genius, lyricsOvh, azLyrics, manual));
  }

  /** `get_chords_from_sources`. */
  method GetChordsFromSources(title: string, artist: string,
                              chordie: (string, string) -> Reply, ultimateGuitar: (string, string) -> Reply,
                              eChords: (string, string) -> Reply, songsterr: (string, string) -> Reply,
                              yousician: (string, string) -> Reply)
    returns (r: Resolution)
    ensures r == Outcome(Chords, Calls(Queries(Chords, artist, title),
                                       ChordsSources(chordie, ultimateGuitar, eChords, songsterr, yousician)))
  {
    r := Resolve(Chords, Queries(Chords, artist, title),
                 ChordsSources(chordie, ultimateGuitar, eChords, songsterr, yousician));
  }

  /** The lyrics search makes at most 16 provider calls (4 variants, 4
      providers), so its log has at most 16 lines. */
  lemma LyricsSearchSize(title: string, artist: string,
                         genius: (string, string) -> Reply, lyricsOvh: (string, string) -> Reply,
                         azLyrics: (string, string) -> Reply, manual: (string, string) -> Reply)
    ensures |Calls(Queries(Lyrics, artist, title), LyricsSources(genius, lyricsOvh, azLyrics, manual))| == 16
  {
    CallsLength(Queries(Lyrics, artist, title), LyricsSources(genius, lyricsOvh, azLyrics, manual));
  }

  /** The chords search makes at most 25 provider calls (5 variants, 5
      providers). */
  lemma ChordsSearchSize(title: string, artist: string,
                         chordie: (string, string) -> Reply, ultimateGuitar: (string, string) -> Reply,
                         eChords: (string, string) -> Reply, songsterr: (string, string) -> Reply,
                         yousician: (string, string) -> Reply)
    ensures |Calls(Queries(Chords, artist, title),
                   ChordsSources(chordie, ultimateGuitar, eChords, songsterr, yousician))| == 25
  {
    var qs := Queries(Chords, artist, title);
    var ss := ChordsSources(chordie, ultimateGuitar, eChords, songsterr, yousician);
    assert |qs| == 5 && |ss| == 5;
    CallsLength(qs, ss);
  }
}
