/** The batch drivers of app/document_generation.py: `cache_lyrics` and
    `cache_chords` walk the sorted song list and fill the JSON-Lines cache.

    For each song: a usable cached value (non-empty and not the sentinel)
    settles it; otherwise the resolver runs, and the driver writes either the
    fetched text or the sentinel under the song's own artist and title.  The
    songs not found are collected with the log of what was tried.  The
    summary the source prints is returned as its lines. */
module DocumentGeneration {
  import opened Strings
  import opened Cache
  import opened TextCleaning
  import opened DocumentFormatting
  import opened FetchData

  /** Cleaned lyrics longer than this are taken for an error page. */
  const MaxLyricsLength: nat := 5000

  /** The cache field a search fills. */
  function Field(kind: Kind): (f: string)
    ensures f != "artist" && f != "title"
  {
    match kind
    case Lyrics => "lyrics"
    case Chords => "chords"
  }

  /** `cached and cached != sentinel`: a cached value that settles the song. */
  predicate Usable(kind: Kind, cached: Option<string>) {
    cached.Some? && cached.value != [] && cached.value != NotFound(kind)
  }

  /** The driver's test of a fetched text before caching it: non-empty, not
      the sentinel, and for lyrics at most 5000 characters once cleaned by
      `clean`.  Chords have no ceiling. */
  predicate Accept(kind: Kind, text: string, clean: string -> string) {
    text != [] && text != NotFound(kind)
    && (kind == Lyrics ==> |clean(text)| <= MaxLyricsLength)
  }

  /** The test with the model's `clean_lyrics`. */
  predicate Keep(kind: Kind, text: string) {
    Accept(kind, text, CleanLyrics)
  }

  /** A song that was not found, with the attempts made for it. */
  datatype Missing = Missing(artist: string, title: string, log: seq<Attempt>)

  /** The state of a batch: the cache file's lines, the songs missing so far,
      and whether the file has been written. */
  datatype Run = Run(lines: seq<Line>, missing: seq<Missing>, wrote: bool)

  /** The resolver's answer for a song. */
  function Search(kind: Kind, song: Song, ss: seq<Source>): Resolution {
    Outcome(kind, Calls(Queries(kind, song.artist, song.title), ss))
  }

  /** One iteration of the driver's loop. */
  function Step(kind: Kind, r: Run, song: Song, ss: seq<Source>, clean: string -> string): Run {
    if Usable(kind, LoadEntryOf(r.lines, song.artist, song.title, Field(kind))) then r
    else
      var res := Search(kind, song, ss);
      if Accept(kind, res.text, clean) then
        Run(Saved(r.lines, song.artist, song.title, res.text, Field(kind)), r.missing, true)
      else
        Run(Saved(r.lines, song.artist, song.title, NotFound(kind), Field(kind)),
            r.missing + [Missing(song.artist, song.title, res.log)], true)
  }

  /** The driver's loop over `songs`, from a file holding `lines`. */
  function RunOf(kind: Kind, songs: seq<Song>, lines: seq<Line>, ss: seq<Source>, clean: string -> string): Run {
    if songs == [] then Run(lines, [], false)
    else Step(kind, RunOf(kind, songs[..|songs| - 1], lines, ss, clean), songs[|songs| - 1], ss, clean)
  }

  /** The body of the driver's loop for one song: load the cached value; if
      it is not usable, resolve, then save the fetched text or the sentinel
      and record a miss.  `saved` tells whether the file was written. */
  method CacheSong(kind: Kind, song: Song, cache: JsonlCache, ss: seq<Source>, clean: string -> string,
                   missing: seq<Missing>, ghost wrote: bool)
    returns (missing': seq<Missing>, saved: bool)
    requires cache.Valid()
    modifies cache
    ensures cache.Valid()
    ensures Run(cache.lines, missing', wrote || saved)
         == Step(kind, Run(old(cache.lines), missing, wrote), song, ss, clean)
    ensures cache.present == (old(cache.present) || saved)
  {
    missing' := missing;
    saved := false;
    var cached := cache.LoadEntry(song.artist, song.title, Field(kind));
    if !(cached.Some? && cached.value != [] && cached.value != NotFound(kind)) {
      var res := Resolve(kind, Queries(kind, song.artist, song.title), ss);
      var keep := res.text != [] && res.text != NotFound(kind);
      if kind == Lyrics {
        keep := keep && |clean(res.text)| <= MaxLyricsLength;
      }
      if keep {
        cache.SaveEntry(song.artist, song.title, res.text, Field(kind));
      } else {
        cache.SaveEntry(song.artist, song.title, NotFound(kind), Field(kind));
        missing' := missing + [Missing(song.artist, song.title, res.log)];
      }
      saved := true;
    }
  }

  /** The run over one more song is one more step. */
  lemma RunOfNext(kind: Kind, songs: seq<Song>, i: nat, lines: seq<Line>, ss: seq<Source>, clean: string -> string)
    requires i < |songs|
    ensures RunOf(kind, songs[..i + 1], lines, ss, clean)
         == Step(kind, RunOf(kind, songs[..i], lines, ss, clean), songs[i], ss, clean)
  {
    assert songs[..i + 1][..i] == songs[..i];
  }

  /** The per-song loop shared by `cache_lyrics` and `cache_chords`, for a
      given cleaner. */
  method CacheAll(kind: Kind, songs: seq<Song>, cache: JsonlCache, ss: seq<Source>, clean: string -> string)
    returns (missing: seq<Missing>)
    requires cache.Valid()
    modifies cache
    ensures cache.Valid()
    ensures var run := RunOf(kind, SortSongs(songs), old(cache.lines), ss, clean);
      cache.lines == run.lines && missing == run.missing && cache.present == (old(cache.present) || run.wrote)
  {
    var sorted := SortSongs(songs);
    missing := [];
    ghost var wrote := false;
    ghost var lines0 := cache.lines;
    var i := 0;
    while i < |sorted|
      invariant 0 <= i <= |sorted|
      invariant cache.Valid()
      invariant Run(cache.lines, missing, wrote) == RunOf(kind, sorted[..i], lines0, ss, clean)
      invariant cache.present == (old(cache.present) || wrote)
    {
      var saved;
      missing, saved := CacheSong(kind, sorted[i], cache, ss, clean, missing, wrote);
      assert Run(cache.lines, missing, wrote || saved) == RunOf(kind, sorted[..i + 1], lines0, ss, clean) by {
        RunOfNext(kind, sorted, i, lines0, ss, clean);
      }
      wrote := wrote || saved;
      i := i + 1;
    }
    assert sorted[..i] == sorted;
  }

  /** The word the summary uses for a kind, in lower case and capitalised. */
  function KindNoun(kind: Kind): string {
    match kind
    case Lyrics => "lyrics"
    case Chords => "chords"
  }

  function KindTitle(kind: Kind): string {
    match kind
    case Lyrics => "Lyrics"
    case Chords => "Chords"
  }

  /** The lines of the printed summary. */
  function Summary(kind: Kind, missing: seq<Missing>): seq<string> {
    if missing == [] then ["\nAll " + KindNoun(kind) + " found!"]
    else
      ["\nSummary: Missing " + KindTitle(kind)] + MissingLines(missing)
      + ["\nDetails of sources/queries tried for missing " + KindNoun(kind) + ":"] + DetailLines(missing)
  }

  /** `- {artist} – {title}` per missing song, in order. */
  function MissingLines(missing: seq<Missing>): (r: seq<string>)
    ensures |r| == |missing|
    ensures forall i :: 0 <= i < |missing| ==> r[i] == "- " + missing[i].artist + " – " + missing[i].title
  {
    if missing == [] then []
    else ["- " + missing[0].artist + " – " + missing[0].title] + MissingLines(missing[1..])
  }

  /** Per missing song, a header line and one `Tried:` line per attempt. */
  function DetailLines(missing: seq<Missing>): (r: seq<string>)
    ensures |r| >= |missing|
    ensures forall m :: m in missing ==> m.artist + " – " + m.title + ":" in r
    ensures forall m, a :: m in missing && a in m.log ==> "  Tried: " + LogLine(a) in r
  {
    if missing == [] then []
    else
      var m := missing[0];
      var r := [m.artist + " – " + m.title + ":"] + TriedLines(m.log) + DetailLines(missing[1..]);
      assert forall x :: x in missing ==> x == m || x in missing[1..];
      r
  }

  function TriedLines(log: seq<Attempt>): (r: seq<string>)
    ensures |r| == |log|
    ensures forall i :: 0 <= i < |log| ==> r[i] == "  Tried: " + LogLine(log[i])
  {
    if log == [] then [] else ["  Tried: " + LogLine(log[0])] + TriedLines(log[1..])
  }

  /** "All … found!" is reported, as the only line, exactly when no song is
      missing. */
  lemma SummaryAllFound(kind: Kind, missing: seq<Missing>)
    ensures |Summary(kind, missing)| == 1 <==> missing == []
    ensures missing == [] ==> Summary(kind, missing) == ["\nAll " + KindNoun(kind) + " found!"]
  {
  }

  /** Otherwise the summary opens with its heading, names every missing song
      in order, and then introduces the details. */
  lemma SummaryNamesMissing(kind: Kind, missing: seq<Missing>)
    requires missing != []
    ensures Summary(kind, missing)[0] == "\nSummary: Missing " + KindTitle(kind)
    ensures forall i :: 0 <= i < |missing| ==>
      Summary(kind, missing)[1 + i] == "- " + missing[i].artist + " – " + missing[i].title
    ensures Summary(kind, missing)[|missing| + 1]
      == "\nDetails of sources/queries tried for missing " + KindNoun(kind) + ":"
  {
    var ml := MissingLines(missing);
    var head := ["\nSummary: Missing " + KindTitle(kind)] + ml
      + ["\nDetails of sources/queries tried for missing " + KindNoun(kind) + ":"];
    var s := Summary(kind, missing);
    assert s == head + DetailLines(missing);
    forall i | 0 <= i < |missing|
      ensures s[1 + i] == "- " + missing[i].artist + " – " + missing[i].title
    {
      assert s[1 + i] == head[1 + i] == ml[i];
    }
    assert s[|missing| + 1] == head[|missing| + 1];
  }

  /** Each missing song's header line and every attempt tried for it appear
      in the summary. */
  lemma SummaryDetails(kind: Kind, missing: seq<Missing>)
    ensures forall m :: m in missing ==> m.artist + " – " + m.title + ":" in Summary(kind, missing)
    ensures forall m, a :: m in missing && a in m.log ==> "  Tried: " + LogLine(a) in Summary(kind, missing)
  {
    if missing != [] {
      var head := ["\nSummary: Missing " + KindTitle(kind)] + MissingLines(missing)
        + ["\nDetails of sources/queries tried for missing " + KindNoun(kind) + ":"];
      assert Summary(kind, missing) == head + DetailLines(missing);
      InSuffix(head, DetailLines(missing));
    }
  }

  /** What is in the tail of a sequence is in the whole. */
  lemma InSuffix<T>(a: seq<T>, b: seq<T>)
    ensures forall x :: x in b ==> x in a + b
  {
    forall x | x in b
      ensures x in a + b
    {
      var k :| 0 <= k < |b| && b[k] == x;
      assert (a + b)[|a| + k] == x;
    }
  }

  /** `cache_lyrics`: the summary and the missing songs; the cache holds what
      the loop wrote. */
  method CacheLyrics(songs: seq<Song>, cache: JsonlCache,
                     genius: (string, string) -> Reply, lyricsOvh: (string, string) -> Reply,
                     azLyrics: (string, string) -> Reply, manual: (string, string) -> Reply)
    returns (missing: seq<Missing>, summary: seq<string>)
    requires cache.Valid()
    modifies cache
    ensures cache.Valid()
    ensures var run := RunOf(Lyrics, SortSongs(songs), old(cache.lines), LyricsSources(genius, lyricsOvh, azLyrics, manual),
                             CleanLyrics);
      cache.lines == run.lines && missing == run.missing && cache.present == (old(cache.present) || run.wrote)
    ensures summary == Summary(Lyrics, missing)
  {
    missing := CacheAll(Lyrics, songs, cache, LyricsSources(genius, lyricsOvh, azLyrics, manual), CleanLyrics);
    summary := Summary(Lyrics, missing);
  }

  /** `cache_chords`. */
  method CacheChords(songs: seq<Song>, cache: JsonlCache,
                     chordie: (string, string) -> Reply, ultimateGuitar: (string, string) -> Reply,
                     eChords: (string, string) -> Reply, songsterr: (string, string) -> Reply,
                     yousician: (string, string) -> Reply)
    returns (missing: seq<Missing>, summary: seq<string>)
    requires cache.Valid()
    modifies cache
    ensures cache.Valid()
    // The cleaner argument is consulted only for lyrics (see `Accept`);
    // `cache_chords` stores the fetched chords as they are.
    ensures var run := RunOf(Chords, SortSongs(songs), old(cache.lines),
                             ChordsSources(chordie, ultimateGuitar, eChords, songsterr, yousician), CleanLyrics);
      cache.lines == run.lines && missing == run.missing && cache.present == (old(cache.present) || run.wrote)
    ensures summary == Summary(Chords, missing)
  {
    missing := CacheAll(Chords, songs, cache, ChordsSources(chordie, ultimateGuitar, eChords, songsterr, yousician),
                        CleanLyrics);
    summary := Summary(Chords, missing);
  }

  /** After a song's step the cache holds, for that song, the usable value it
      already had, or else what the driver wrote: the fetched text when it
      was kept and the sentinel otherwise.  The song is reported missing
      exactly when the cache is left without a usable value for it. */
  lemma StepOutcome(kind: Kind, r: Run, song: Song, ss: seq<Source>, clean: string -> string)
    ensures var cached := LoadEntryOf(r.lines, song.artist, song.title, Field(kind));
      var after := Step(kind, r, song, ss, clean);
      var res := Search(kind, song, ss);
      LoadEntryOf(after.lines, song.artist, song.title, Field(kind))
        == (if Usable(kind, cached) then cached
            else Some(if Accept(kind, res.text, clean) then res.text else NotFound(kind)))
    ensures var after := Step(kind, r, song, ss, clean);
      (after.missing != r.missing <==> !Usable(kind, LoadEntryOf(after.lines, song.artist, song.title, Field(kind))))
  {
    var cached := LoadEntryOf(r.lines, song.artist, song.title, Field(kind));
    if !Usable(kind, cached) {
      var res := Search(kind, song, ss);
      if Accept(kind, res.text, clean) {
        SaveThenLoad(r.lines, song.artist, song.title, res.text, Field(kind));
      } else {
        SaveThenLoad(r.lines, song.artist, song.title, NotFound(kind), Field(kind));
        assert |r.missing + [Missing(song.artist, song.title, res.log)]| == |r.missing| + 1;
      }
    }
  }

  /** A step adds at most the song itself, with its search log, to the
      missing list. */
  lemma StepMissing(kind: Kind, r: Run, song: Song, ss: seq<Source>, clean: string -> string)
    ensures var after := Step(kind, r, song, ss, clean);
      after.missing == r.missing
        || after.missing == r.missing + [Missing(song.artist, song.title, Search(kind, song, ss).log)]
  {
  }

  /** A step changes no other song's cache entry. */
  lemma StepKeepsOthers(kind: Kind, r: Run, song: Song, ss: seq<Source>, clean: string -> string,
                        artist: string, title: string, field: string)
    requires song.artist != artist || song.title != title
    ensures LoadEntryOf(Step(kind, r, song, ss, clean).lines, artist, title, field) == LoadEntryOf(r.lines, artist, title, field)
  {
    var cached := LoadEntryOf(r.lines, song.artist, song.title, Field(kind));
    if !Usable(kind, cached) {
      var res := Search(kind, song, ss);
      var v := if Accept(kind, res.text, clean) then res.text else NotFound(kind);
      SaveKeepsOthers(r.lines, song.artist, song.title, v, Field(kind), artist, title, field);
    }
  }

  /** The number of provider calls one search makes. */
  function SearchSize(kind: Kind, ss: seq<Source>): nat {
    (if kind == Lyrics then 4 else 5) * |ss|
  }

  /** A search's log has at most one line per provider call. */
  lemma SearchLogBound(kind: Kind, song: Song, ss: seq<Source>)
    ensures |Search(kind, song, ss).log| <= SearchSize(kind, ss)
  {
    var qs := Queries(kind, song.artist, song.title);
    OutcomeLogBound(kind, Calls(qs, ss));
    CallsLength(qs, ss);
  }

  /** At most one missing entry per song, and each missing song's log has at
      most one line per provider call of its search. */
  lemma {:induction false} RunMissing(kind: Kind, songs: seq<Song>, lines: seq<Line>, ss: seq<Source>,
                                      clean: string -> string)
    ensures var run := RunOf(kind, songs, lines, ss, clean);
      |run.missing| <= |songs|
      && forall m :: m in run.missing ==> |m.log| <= SearchSize(kind, ss)
  {
    if songs != [] {
      var init := songs[..|songs| - 1];
      var song := songs[|songs| - 1];
      var r := RunOf(kind, init, lines, ss, clean);
      var after := Step(kind, r, song, ss, clean);
      assert after == RunOf(kind, songs, lines, ss, clean);
      RunMissing(kind, init, lines, ss, clean);
      StepMissing(kind, r, song, ss, clean);
      SearchLogBound(kind, song, ss);
    }
  }
}
