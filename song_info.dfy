/** `get_song_lyrics_info` (app/song_info.py): the title and cleaned-lyrics
    length of every song, in sorted order.  The report itself only reads the
    cache; a song without usable cached lyrics is looked up with the Genius
    provider, whose answer is kept under the same test the lyrics driver
    applies.  The provider's own writes to the lyrics cache
    (app/fetch_data.py:107, 111, 115) are not part of this model. */
module SongInfo {
  import opened Strings
  import opened Cache
  import opened TextCleaning
  import opened DocumentFormatting
  import opened FetchData
  import opened DocumentGeneration

  /** The test the report applies to the provider's answer: non-empty, not
      the sentinel, and at most 5000 characters once cleaned with `clean`. */
  predicate PassesCheck(text: string, clean: string -> string) {
    text != [] && text != NotFound(Lyrics) && |clean(text)| <= MaxLyricsLength
  }

  /** With the model's `clean_lyrics` it is the lyrics driver's own test. */
  lemma PassesCheckIsKeep(text: string)
    ensures PassesCheck(text, CleanLyrics) <==> Keep(Lyrics, text)
  {
  }

  /** The lyrics the report measures for one song.  `cache` is what
      `jsonl_load_all` returned for the lyrics file; `genius` stands for
      `get_lyrics_from_genius(title, artist, client)`, which always returns a
      string; `clean` is the cleaner. */
  function FinalLyrics(cache: map<string, Option<string>>, song: Song, genius: (string, string) -> string,
                       clean: string -> string): string {
    var key := SongKey(song.artist, song.title);
    if key in cache && Usable(Lyrics, cache[key]) then cache[key].value
    else
      var fetched := genius(song.title, song.artist);
      if PassesCheck(fetched, clean) then fetched else NotFound(Lyrics)
  }

  /** One `(title, character count)` pair of the report. */
  function InfoOf(cache: map<string, Option<string>>, song: Song, genius: (string, string) -> string,
                  clean: string -> string): (string, nat) {
    (song.title, |clean(FinalLyrics(cache, song, genius, clean))|)
  }

  /** The report for `songs`, in their order. */
  function Report(cache: map<string, Option<string>>, songs: seq<Song>, genius: (string, string) -> string,
                  clean: string -> string): (r: seq<(string, nat)>)
    ensures |r| == |songs|
  {
    if songs == [] then []
    else Report(cache, songs[..|songs| - 1], genius, clean) + [InfoOf(cache, songs[|songs| - 1], genius, clean)]
  }

  /** Entry `i` of the report belongs to song `i`. */
  lemma {:induction false} ReportAt(cache: map<string, Option<string>>, songs: seq<Song>,
                                    genius: (string, string) -> string, clean: string -> string, i: nat)
    requires i < |songs|
    ensures Report(cache, songs, genius, clean)[i] == InfoOf(cache, songs[i], genius, clean)
  {
    if i < |songs| - 1 {
      ReportAt(cache, songs[..|songs| - 1], genius, clean, i);
    }
  }

  /** The body of the report's loop for one song: the cached lyrics when
      usable, else the provider's answer if it passes the check, else the
      sentinel; then the title and the cleaned length. */
  method SongEntry(lyricsCache: map<string, Option<string>>, song: Song, genius: (string, string) -> string,
                   clean: string -> string)
    returns (entry: (string, nat))
    ensures entry == InfoOf(lyricsCache, song, genius, clean)
  {
    var key := SongKey(song.artist, song.title);
    var lyrics: string;
    if key in lyricsCache && lyricsCache[key].Some? && lyricsCache[key].value != []
       && lyricsCache[key].value != NotFound(Lyrics) {
      lyrics := lyricsCache[key].value;
    } else {
      lyrics := genius(song.title, song.artist);
      var numCharacters := |clean(lyrics)|;
      if !(lyrics != [] && lyrics != NotFound(Lyrics) && numCharacters <= MaxLyricsLength) {
        lyrics := NotFound(Lyrics);
      }
    }
    entry := (song.title, |clean(lyrics)|);
  }

  /** The report's loop over the sorted songs. */
  method ReportLoop(lyricsCache: map<string, Option<string>>, sorted: seq<Song>, genius: (string, string) -> string,
                    clean: string -> string)
    returns (info: seq<(string, nat)>)
    ensures info == Report(lyricsCache, sorted, genius, clean)
  {
    info := [];
    var i := 0;
    while i < |sorted|
      invariant 0 <= i <= |sorted|
      invariant info == Report(lyricsCache, sorted[..i], genius, clean)
    {
      var entry := SongEntry(lyricsCache, sorted[i], genius, clean);
      assert info + [entry] == Report(lyricsCache, sorted[..i + 1], genius, clean) by {
        assert sorted[..i + 1][..i] == sorted[..i];
      }
      info := info + [entry];
      i := i + 1;
    }
    assert sorted[..i] == sorted;
  }

  /** `get_song_lyrics_info`: one pair per song, in `sort_songs` order, with
      the lyrics cleaned by `clean_lyrics`.  The report does not write to the
      cache; the Genius provider's own cache writes are left out. */
  method GetSongLyricsInfo(songs: seq<Song>, cache: JsonlCache, genius: (string, string) -> string)
    returns (info: seq<(string, nat)>)
    requires cache.Valid()
    ensures |info| == |songs|
    ensures info == Report(LoadAllOf(cache.lines, Field(Lyrics)), SortSongs(songs), genius, CleanLyrics)
  {
    var lyricsCache := cache.LoadAll(Field(Lyrics));
    var sorted := SortSongs(songs);
    info := ReportLoop(lyricsCache, sorted, genius, CleanLyrics);
  }

  /** Usable cached lyrics are reported as they are: the provider's answer
      makes no difference, so it is not needed. */
  lemma CachedLyricsUsed(cache: map<string, Option<string>>, song: Song, g1: (string, string) -> string,
                         g2: (string, string) -> string, clean: string -> string)
    requires SongKey(song.artist, song.title) in cache && Usable(Lyrics, cache[SongKey(song.artist, song.title)])
    ensures FinalLyrics(cache, song, g1, clean) == FinalLyrics(cache, song, g2, clean)
         == cache[SongKey(song.artist, song.title)].value
  {
  }

  /** A song looked up with the provider is counted at no more than 5000
      characters: either its lyrics passed the ceiling, or the sentinel
      replaced them.  The lyrics kept are those the lyrics driver would
      cache. */
  lemma FetchedCountBounded(cache: map<string, Option<string>>, song: Song, genius: (string, string) -> string)
    requires !(SongKey(song.artist, song.title) in cache && Usable(Lyrics, cache[SongKey(song.artist, song.title)]))
    ensures InfoOf(cache, song, genius, CleanLyrics).1 <= MaxLyricsLength
    ensures var fetched := genius(song.title, song.artist);
      FinalLyrics(cache, song, genius, CleanLyrics) == if Keep(Lyrics, fetched) then fetched else NotFound(Lyrics)
  {
    var f := FinalLyrics(cache, song, genius, CleanLyrics);
    assert |CleanLyrics(f)| <= |f|;
    assert |NotFound(Lyrics)| == 17;
  }
}
