# CampfireSongbookBuilder — a verified model of its core

CampfireSongbookBuilder turns a song list into printable songbooks. For each
song it finds lyrics and chords by trying several online providers under
several spellings of the artist and title. It keeps what it finds in
JSON-Lines cache files, cleans the text with fixed chains of regular
expressions, and writes a lyrics document and a chords document, one
heading and one paragraph per song.

This project models that core in Dafny and proves its properties:

- `Strings` (strings.dfy): the string operations the Python code relies on.
  These are `str.strip`, `str.split`, `str.join`, ASCII lower-casing, the
  `\s` class and filtering.
- `Cache` (cache.dfy): app/cache.py. A cache file is a class `JsonlCache`
  whose fields say whether the file exists and which lines it holds. A line
  failed to parse, or is a JSON object of strings.
  - `LoadEntry` scans for the first matching record.
  - `SaveEntry` rewrites the file with every matching record updated, or
    appends a new record.
  - `LoadAll` builds the `"artist - title"` dictionary.
- `Regex` (regex.dfy): the regular expressions of app/text_cleaning.py and
  clean_chords_cache_brackets.py.
  - `MatchLen` is the length of a pattern's match at a position.
  - `Sub` is `re.sub`, scanning left to right.
- `TextCleaning` (text_cleaning.dfy): `clean_lyrics` and `clean_chords`.
- `DocumentFormatting` (document_formatting.dfy): `sort_songs`, a stable
  insertion sort on the title's letters and digits, lower-cased.
- `FetchData` (fetch_data.dfy): app/fetch_data.py.
  - The query normalisers `strip_the` and `strip_punct`, the main-artist
    variant, and Yousician's `format_for_url`.
  - The resolver `get_lyrics_from_sources` / `get_chords_from_sources`. It
    loops over query variants (outer) and providers (inner) and stops at the
    first acceptable reply. It keeps a log of the attempts.
- `DocumentGeneration` (document_generation.dfy): the batch drivers
  `cache_lyrics` and `cache_chords`.
  - A usable cached value settles a song.
  - Otherwise the resolver runs, and the fetched text or the "not found"
    sentinel is saved.
  - Missing songs are collected and summarised.
- `SongInfo` (song_info.dfy): `get_song_lyrics_info`.
- `DocumentCreation` (document_creation.dfy): `create_document_from_cache`.
  A Word document is a class whose block list is only ever appended to.
- `MigrateCache` (migrate_cache.dfy): migrate_cache_to_jsonl.py, from the
  legacy `{"artist - title": value}` object to JSON Lines.
- `CleanChordsCache` and `CleanChordsCacheBrackets` (clean_chords_cache.dfy,
  clean_chords_cache_brackets.dfy): the two scripts that rewrite the chords
  cache in place.

Providers, the Genius client and the cleaner are passed in as function
values. The top-level methods pass the model's `CleanLyrics` / `CleanChords`.

The model follows the code on these points:

- An attempt is logged only when the provider call returns. A call that
  raises adds nothing to the log.
- The resolver accepts any non-empty reply that is not the sentinel in any
  capitalisation. The 5000-character lyrics ceiling is applied afterwards,
  by `cache_lyrics`, to the cleaned text.
- A cached sentinel does not settle a song: `cached and cached != sentinel`
  sends it to the providers again on every run.
- `strip_the` removes `^the\s+` (case-insensitive) and then strips both
  ends.

## Model

| member | source | states |
|---|---|---|
| `Strings.Strip` | app/fetch_data.py:32 | `str.strip()`: the result has no leading or trailing whitespace and is no longer than the input |
| `Strings.StripRemovesOnlySpace` | app/fetch_data.py:32 | the stripped text is a contiguous piece of the input, and only whitespace lies around it |
| `Strings.Split` | app/document_creation.py:76 | `str.split(sep)` gives at least one piece, and no piece holds the separator |
| `Strings.JoinSplit` | app/document_creation.py:76 | joining the pieces of a split with the separator gives the text back |
| `Strings.SplitFirst` | app/fetch_data.py:417 | the first piece of a split is a prefix of the text, ended by the separator or by the end of the text |
| `Cache.FirstMatch` | app/cache.py:37-45 | the index found is a record matching artist and title, and no earlier line matches; with no result, no line matches |
| `Cache.JsonlCache.LoadEntry` | app/cache.py:17-45 | `jsonl_load_entry` returns the field of the first matching record; it returns None when the file is missing or nothing matches |
| `Cache.JsonlCache.SaveEntry` | app/cache.py:51-85 | the file now exists; its lines are the well-formed records with every match updated, plus a new record when none matched |
| `Cache.JsonlCache.LoadAll` | app/cache.py:87-112 | `jsonl_load_all` maps each record's `"artist - title"` key to its field, the later record winning; a missing file gives `{}` |
| `Cache.RewrittenRecords` | app/cache.py:68-79 | the rewrite keeps every well-formed record, in order, each run through the upsert |
| `Cache.AnyMatchRecords` | app/cache.py:73-80 | `found` is set exactly when some well-formed record matches |
| `Cache.SaveRecords` | app/cache.py:65-85 | after a save: malformed lines are gone, all matching records (not only the first) carry the value, others are unchanged, and the new record is appended exactly when none matched |
| `Cache.SavedMatchesCarryValue` | app/cache.py:73-81 | after a save some record matches the song, and every matching record holds the saved value |
| `Cache.SaveThenLoad` | tests/test_cache.py:28-31 | loading right after saving returns the saved value, whatever the file held |
| `Cache.SaveTwiceOneLine` | tests/test_cache.py:33-39 | save then update from an empty file leaves one line, which holds the updated value |
| `Cache.LoadEntryAppend` | app/cache.py:37-41 | lines after the first match never change what a lookup returns |
| `Cache.RewrittenKeepsOthers` | app/cache.py:70-79 | the upsert loop leaves every other song's lookup as it was |
| `Cache.SaveKeepsOthers` | app/cache.py:51-85 | a save changes no other song's lookup |
| `Cache.LoadAllKeys` | app/cache.py:103-108 | a key is in the loaded dictionary exactly when some well-formed record has that key |
| `Cache.LoadAllLastWins` | app/cache.py:104-108 | the last record with a key decides that key's value |
| `Cache.LoadAllOfTwoSaves` | tests/test_cache.py:48-54 | two saves into an empty file load back as the two-entry dictionary of the test |
| `Regex.LazyMiddle` | app/text_cleaning.py:19-21 | lazy `.*?` stops at the shortest newline-free stretch after which the rest of the pattern matches; with no result, no stretch works |
| `Regex.SpaceRun` | app/text_cleaning.py:53 | greedy `\s*` before a newline takes the longest whitespace run that can end there; with no result, none can |
| `Regex.TagMatch` | app/text_cleaning.py:51-52 | the tag alternation matches a listed tag (any ASCII case) followed by `]`; with no result, no listed tag is followed by `]` |
| `Regex.MatchLen` | app/text_cleaning.py:46-54 | a match never runs past the text, and a match replaced by `\n` ends with a newline |
| `Regex.SubIsSubsequence` | app/text_cleaning.py:10-55 | every substitution the code performs only deletes characters |
| `Regex.SpaceBeforeNewlineRemoved` | app/text_cleaning.py:54 | after `re.sub(r'\s+\n', '\n', s)` no whitespace character precedes a newline |
| `Regex.BracketedRemoved` | clean_chords_cache_brackets.py:34 | after `re.sub(r'\[[^\]]*\]', '', s)` no `[` has a `]` anywhere after it |
| `Regex.BracketedIdentity` | clean_chords_cache_brackets.py:34 | text with no `[` followed by a `]` is unchanged |
| `Regex.BracketedIdempotent` | clean_chords_cache_brackets.py:34 | removing bracketed text twice equals removing it once |
| `Regex.TagsHaveNoBracket` | app/text_cleaning.py:33-38 | no markup tag contains `]` |
| `Regex.TagMatchBracketed` | app/text_cleaning.py:51-52 | on `x]…` the alternation matches exactly when `x` lower-cases to a listed tag |
| `Regex.MarkupTagMatched` | app/text_cleaning.py:51-52 | `[tag]` in any ASCII case of a listed tag is matched as a whole |
| `Regex.OtherBracketKept` | app/text_cleaning.py:43-52 | bracketed text that is not a listed tag (a chord such as `[G]`) is not matched |
| `TextCleaning.DropContributors` | app/text_cleaning.py:12 | the result is a suffix of the input |
| `TextCleaning.DropContributorsSpec` | app/text_cleaning.py:12 | with no `Contributors` the text is unchanged; otherwise everything up to an occurrence goes, and `Contributors` does not occur in what remains |
| `TextCleaning.RemoveContributorsAndEmbeds` | app/text_cleaning.py:10-14 | the result is a subsequence of the input |
| `TextCleaning.RemoveUnwantedPhrases` | app/text_cleaning.py:16-25 | the three phrase removals, in order, give a subsequence of the input |
| `TextCleaning.CleanLyrics` | app/text_cleaning.py:27-31 | cleaned lyrics are a subsequence of the raw lyrics and no longer |
| `TextCleaning.CleanChords` | app/text_cleaning.py:40-55 | cleaned chords are a subsequence of the input, no longer, with no whitespace directly before a newline |
| `TextCleaning.EmbedAtEndRemoved` | app/text_cleaning.py:13 | `Embed` followed by whitespace up to the end of the text is removed |
| `TextCleaning.EmbedLineMatch` | app/text_cleaning.py:13 | on `Embed`, blanks, newline, text: the match covers the word and the blanks and stops before the newline |
| `TextCleaning.EmbedLineRemoved` | app/text_cleaning.py:13 | in that case the newline and the following line are kept |
| `TextCleaning.MightAlsoLikeRemoved` | app/text_cleaning.py:19 | the lazy `.*?` matches nothing, so only the phrase `You might also like` goes and the rest of the line stays |
| `TextCleaning.TicketAdvertRemoved` | app/text_cleaning.py:20 | `See {artist} LiveGet tickets as low as ${digits}` goes as a whole, the whole digit run included, and the text after the price stays (for an artist with no `$` and no newline) |
| `TextCleaning.LyricsTitleRemoved` | app/text_cleaning.py:21 | a `{title} Lyrics` line goes as a whole, from its start up to the first ` Lyrics`, and the text after it stays |
| `DocumentFormatting.SortKeyIsLowerFilter` | app/document_formatting.py:89 | the sort key is the title's ASCII letters and digits, in order, lower-cased |
| `DocumentFormatting.SortedPairwise` | app/document_formatting.py:89 | in a sorted list every earlier song's key is at most every later one's |
| `DocumentFormatting.SortSongs` | app/document_formatting.py:80-89 | the sorted list has as many songs as the input |
| `DocumentFormatting.SortSongsSorted` | app/document_formatting.py:89 | the result is in key order |
| `DocumentFormatting.SortSongsPermutes` | app/document_formatting.py:89 | the result holds exactly the input's songs (as a multiset) |
| `DocumentFormatting.SortSongsStable` | app/document_formatting.py:89 | songs with equal keys keep their input order (Python's sort is stable) |
| `FetchData.StripThe` | app/fetch_data.py:31-32 | the result is trimmed and no longer than the input |
| `FetchData.StripTheArticle` | app/fetch_data.py:31-32 | a leading `the` plus whitespace, in any case, is removed, then the rest is stripped |
| `FetchData.StripTheNoArticle` | app/fetch_data.py:31-32 | without a leading article the text is only stripped |
| `FetchData.StripPunct` | app/fetch_data.py:35-36 | the result is a subsequence holding only word and whitespace characters |
| `FetchData.StripPunctIdempotent` | app/fetch_data.py:35-36 | stripping punctuation twice is stripping it once |
| `FetchData.Dashed` | app/fetch_data.py:376 | after `re.sub('[^a-z0-9]+', '-', …)`: only `[a-z0-9-]`, no two dashes in a row, empty exactly when the input is, and a leading slug character is kept |
| `FetchData.DashedKeepsSlugChars` | app/fetch_data.py:376 | dashing keeps every letter and digit, in order |
| `FetchData.StripDashes` | app/fetch_data.py:376 | `.strip('-')` leaves no dash at either end and keeps the slug shape |
| `FetchData.StripDashesKeepsSlugChars` | app/fetch_data.py:376 | stripping dashes keeps every letter and digit |
| `FetchData.FormatForUrl` | app/fetch_data.py:375-376 | the slug holds only `[a-z0-9-]`, has no double dash, and has no dash at either end |
| `FetchData.FormatForUrlKeepsSlugChars` | app/fetch_data.py:375-376 | the slug keeps exactly the letters and digits of the lower-cased text, in order |
| `FetchData.MainArtist` | app/fetch_data.py:417 | `artist.split(',')[0]` is the prefix before the first comma |
| `FetchData.NotFoundLower` | app/fetch_data.py:168 | the compared string is the lower-cased sentinel |
| `FetchData.Queries` | app/fetch_data.py:412-418 | four variants for lyrics and five for chords; the first is the artist and title as given, and the fifth is the main artist |
| `FetchData.FirstAccepted` | app/fetch_data.py:163-170 | the index found is an accepted call and no earlier call is; with no result, no call is accepted |
| `FetchData.TryVariant` | app/fetch_data.py:164-172 | the inner loop either returns the whole search's outcome, or has logged every non-raising call of the variant and accepted none |
| `FetchData.Resolve` | app/fetch_data.py:163-174 | the search loop's result is the outcome of the call sequence, variant-major |
| `FetchData.RowAt` | app/fetch_data.py:164 | the providers are tried in the order listed |
| `FetchData.CallsLength` | app/fetch_data.py:163-164 | a full search makes one call per variant and provider |
| `FetchData.CallsAt` | app/fetch_data.py:163-164 | call number `i·|providers| + j` is provider `j` on variant `i` |
| `FetchData.TraceAllRaised` | app/fetch_data.py:165-172 | a raising call is not logged, so if all calls raise the log is empty |
| `FetchData.TraceNoneRaised` | app/fetch_data.py:166-167 | if no call raises, every call is logged, in order |
| `FetchData.OutcomeFoundIff` | app/fetch_data.py:163-174 | a provider name comes back exactly when some call's reply is acceptable |
| `FetchData.OutcomeFoundSpec` | app/fetch_data.py:168-170 | a found text is non-empty and not the sentinel in any case; it is the first acceptable reply, and the log ends at that call |
| `FetchData.OutcomeNotFoundSpec` | app/fetch_data.py:173-174 | otherwise the sentinel, no provider and the log of every non-raising call |
| `FetchData.OutcomeLogBound` | app/fetch_data.py:167 | the log has at most one line per call |
| `FetchData.GetLyricsFromSources` | app/fetch_data.py:144-174 | the lyrics search is the resolver over the four variants and Genius, Lyrics.ovh, AZLyrics, Manual |
| `FetchData.GetChordsFromSources` | app/fetch_data.py:405-437 | the chords search is the resolver over five variants and Chordie, Ultimate Guitar, E‑Chords, Songsterr, Yousician |
| `FetchData.LyricsSearchSize` | app/fetch_data.py:151-164 | a lyrics search makes at most 16 calls |
| `FetchData.ChordsSearchSize` | app/fetch_data.py:412-427 | a chords search makes at most 25 calls |
| `DocumentGeneration.CacheSong` | app/document_generation.py:42-61 | one iteration: the new file and missing list are one step of the driver |
| `DocumentGeneration.CacheAll` | app/document_generation.py:41-61 | the loop over `sort_songs` order leaves the file and the missing list of the step-by-step run |
| `DocumentGeneration.CacheLyrics` | app/document_generation.py:21-73 | `cache_lyrics`: the run with the lyrics providers and `clean_lyrics`, and its summary |
| `DocumentGeneration.CacheChords` | app/document_generation.py:75-117 | `cache_chords`: the run with the chord providers, and its summary |
| `DocumentGeneration.SummaryAllFound` | app/document_generation.py:63-73 | "All lyrics found!" / "All chords found!" is printed, as the only line, exactly when nothing is missing |
| `DocumentGeneration.SummaryNamesMissing` | app/document_generation.py:64-68 | otherwise the summary opens with "Summary: Missing …", then has a `- {artist} – {title}` line for each missing song in order, then the "Details of sources/queries tried" line |
| `DocumentGeneration.SummaryDetails` | app/document_generation.py:69-72 | each missing song's `{artist} – {title}:` line and a `  Tried: …` line for every attempt logged for it appear in the summary |
| `DocumentGeneration.StepOutcome` | app/document_generation.py:44-58 | after a song's step the cache holds its usable value, or the fetched text if kept, else the sentinel; the song is missing exactly when no usable value is left |
| `DocumentGeneration.StepMissing` | app/document_generation.py:59-61 | a step adds at most the song itself, with its search log, to the missing list |
| `DocumentGeneration.StepKeepsOthers` | app/document_generation.py:53-57 | the driver's own save for a song changes no other song's cache entry |
| `DocumentGeneration.SearchLogBound` | app/document_generation.py:49 | a search's log has at most one line per provider call |
| `DocumentGeneration.RunMissing` | app/document_generation.py:41-61 | at most one missing entry per song, each with a bounded log |
| `SongInfo.PassesCheckIsKeep` | app/song_info.py:38 | the report's check on a fetched text is the lyrics driver's check |
| `SongInfo.ReportAt` | app/song_info.py:25-45 | entry `i` of the report belongs to song `i` |
| `SongInfo.SongEntry` | app/song_info.py:28-45 | one song's `(title, cleaned length)` pair |
| `SongInfo.ReportLoop` | app/song_info.py:27-45 | the loop builds the report song by song |
| `SongInfo.GetSongLyricsInfo` | app/song_info.py:11-46 | one pair per song, in `sort_songs` order, from the loaded lyrics cache |
| `SongInfo.CachedLyricsUsed` | app/song_info.py:31-33 | usable cached lyrics are reported as they are, whatever Genius would say |
| `SongInfo.FetchedCountBounded` | app/song_info.py:34-44 | a looked-up song counts at most 5000 characters; its lyrics are the fetched text if the driver's check keeps it, else the sentinel |
| `DocumentCreation.Document.constructor` | app/document_creation.py:50 | a new document has no blocks |
| `DocumentCreation.Document.AddHeading` | app/document_creation.py:73 | appends one heading block |
| `DocumentCreation.Document.AddParagraph` | app/document_creation.py:75 | appends one empty paragraph |
| `DocumentCreation.Document.AddRun` | app/document_creation.py:79-80 | appends one run to the last paragraph and changes nothing else |
| `DocumentCreation.RunsOfShape` | app/document_creation.py:76-80 | `n` lines give `n` text runs and `n − 1` breaks, alternating, starting with the first line |
| `DocumentCreation.RunsOfText` | app/document_creation.py:76-80 | the paragraph reads as the lines joined with newlines |
| `DocumentCreation.RunsOfSplit` | app/document_creation.py:76-80 | splitting a text at newlines and laying it out as runs keeps the text |
| `DocumentCreation.SongBlocksSpec` | app/document_creation.py:67-97 | a song gets a section exactly when its cached value is present and truthy and, for lyrics, at most 5000 characters once cleaned; the section is a level-1 `"{title} by {artist}"` heading and a paragraph reading as the cleaned value |
| `DocumentCreation.DocBlocksAppend` | app/document_creation.py:61-97 | the document is built song by song, in list order |
| `DocumentCreation.LyricsParagraphsBounded` | app/document_creation.py:67-83 | every paragraph of the lyrics document reads as at most 5000 characters |
| `DocumentCreation.ChordsIncluded` | app/document_creation.py:85-97 | every listed song with truthy cached chords has its heading in the chords document |
| `DocumentCreation.AddSection` | app/document_creation.py:73-80 | appends the heading and the paragraph of runs for the text's lines |
| `DocumentCreation.AddSong` | app/document_creation.py:67-97 | appends exactly the song's section, if it gets one |
| `DocumentCreation.SavedDocs` | app/document_creation.py:99-104 | a document is saved exactly when its output path is given (non-empty) |
| `DocumentCreation.FillDocuments` | app/document_creation.py:61-97 | the song loop leaves each existing document holding the sections of the songs, in order |
| `DocumentCreation.CreateDocumentFromCache` | app/document_creation.py:22-104 | the saved documents are the lyrics document (if given) then the chords document (if given), each over `sort_songs` order |
| `MigrateCache.SplitKeySpec` | migrate_cache_to_jsonl.py:34-38 | a key unpacks exactly when it holds `" - "`; the artist then holds none, and artist, separator and title give the key back |
| `MigrateCache.SplitKeyJoin` | migrate_cache_to_jsonl.py:35 | a key built from an artist with no separator (and not ending in `" -"`) splits back into that artist and title |
| `MigrateCache.ValueField` | migrate_cache_to_jsonl.py:41-44 | the value goes to `lyrics` exactly when the base name contains `lyrics`, otherwise to `chords` |
| `MigrateCache.MigrateCacheToJsonl` | migrate_cache_to_jsonl.py:23-45 | with no legacy file nothing changes; otherwise the output file exists and holds one record per key that splits, in order |
| `MigrateCache.MigrateRoundTrip` | migrate_cache_to_jsonl.py:33-45 | loading the migrated file gives back the legacy dictionary, restricted to the keys that split |
| `MigrateCache.MigratedAppend` | migrate_cache_to_jsonl.py:33-45 | the migration works pair by pair, keeping the legacy order |
| `MigrateCache.MigratedOne` | migrate_cache_to_jsonl.py:34-45 | one pair yields a record exactly when its key splits; the record has the key's artist and title and the value under the field |
| `CleanChordsCache.CleanedEntry` | clean_chords_cache.py:31-32 | the `chords` field is set to the cleaned old value (`''` if absent); every other field is unchanged |
| `CleanChordsCache.RewriteChords` | clean_chords_cache.py:19-36 | a missing file is left alone; otherwise malformed lines are dropped and each record's chords are cleaned |
| `CleanChordsCache.CleanChordsCache` | clean_chords_cache.py:19-36 | the rewrite with `clean_chords` |
| `CleanChordsCache.MapChordsRecords` | clean_chords_cache.py:26-33 | the rewritten file holds exactly the well-formed records, in order, each with cleaned chords |
| `CleanChordsCache.MapChordsIdempotent` | clean_chords_cache.py:31-32 | with an idempotent cleaner, a second rewrite changes nothing |
| `CleanChordsCache.MapChordsAppend` | clean_chords_cache.py:26-33 | the rewrite works line by line |
| `CleanChordsCache.CleanedChordsNormalised` | clean_chords_cache.py:31-32 | after the rewrite each record's chords have no whitespace before a newline and are a subsequence of the old chords |
| `CleanChordsCacheBrackets.StripBrackets` | clean_chords_cache_brackets.py:33-34 | afterwards no `[` has a `]` after it, and only deletions were made |
| `CleanChordsCacheBrackets.BracketedIgnoresLineStart` | clean_chords_cache_brackets.py:34 | the pattern has no `^`, so where a line starts does not matter |
| `CleanChordsCacheBrackets.StripBracketsPair` | clean_chords_cache_brackets.py:34 | `[` up to the first `]` is removed |
| `CleanChordsCacheBrackets.StripBracketsUnclosed` | clean_chords_cache_brackets.py:34 | a `[` with no later `]` is kept |
| `CleanChordsCacheBrackets.StripBracketsKeeps` | clean_chords_cache_brackets.py:34 | any character other than `[` is kept |
| `CleanChordsCacheBrackets.StripBracketsIdentity` | clean_chords_cache_brackets.py:34 | text with no bracket pair is unchanged |
| `CleanChordsCacheBrackets.StripBracketsIdempotent` | clean_chords_cache_brackets.py:34 | stripping twice is stripping once |
| `CleanChordsCacheBrackets.CleanChordsCacheBrackets` | clean_chords_cache_brackets.py:20-39 | the rewrite with the bracket remover |
| `CleanChordsCacheBrackets.BracketRewriteIdempotent` | clean_chords_cache_brackets.py:26-39 | running the script twice leaves the file as one run left it |
| `CleanChordsCacheBrackets.BracketRewriteClean` | clean_chords_cache_brackets.py:32-36 | after the rewrite no record's chords hold a `[` followed by a `]` |

## Left out

- Network access, HTML scraping and the provider-side cache reads and writes inside each provider are not modelled. Each provider is a function from `(title, artist)` to "raised" or "returned a string or None".
- DocumentGeneration.StepKeepsOthers: covers only the driver's own save. During a search the providers also save to the same cache file under the query-variant keys (app/fetch_data.py:68, 107, 141, 272, 320). Those writes can change the entry of another listed song (looking up "The Beatles – Help" writes "Beatles – Help"), and the model does not include them.
- `get_manual_lyrics`, `get_genius_client` and the individual provider functions are outside this model, for the same reason.
- File I/O is modelled as the lines of a `JsonlCache`: a missing file is `present == false`. Errors while opening a file, and the removal of the legacy JSON file, are not modelled.
- JSON values other than strings, and lines that parse to something other than an object, are not modelled. A record is a map from field name to string.
- Case-insensitive matching, `str.lower()` and `\w` cover ASCII letters only. `\w` also covers the Latin letters below U+0250. Other Unicode case mappings and word characters are not modelled.
- `\d` covers the ASCII digits only. Python's `\d` on a `str` also matches other Unicode decimal digits (for example U+0663), so the model keeps a ticket advert with such a price, while the program removes it.
- Logging is not modelled. The summaries of `cache_lyrics` / `cache_chords` are returned as their printed lines, and the other prints of the scripts are dropped.
- python-docx layout is not modelled: margins, the two-column section, headers, footers, fonts and the file format. A saved document is its output path with its list of blocks. A paragraph's runs are added to the document's last block, which is the paragraph just added.
- `get_lyrics_from_genius` in `get_song_lyrics_info` is a function parameter that always returns a string. Its own writes to the lyrics cache (app/fetch_data.py:107, 111, 115) and its fallback to Lyrics.ovh are inside that function and are not modelled.
- The command-line entry points (`main.py`, the `__main__` blocks) and `fix_mojibake_in_cache.py` are not part of this model.
- The concrete examples of tests/test_text_cleaning.py and tests/test_document_formatting.py are not stated as lemmas. The general properties they rely on are proved instead: deletion only, tag removal, and sorting on the lower-cased alphanumeric key.
- MigrateCache.SplitKeyJoin: requires that the artist does not end in `" -"`. For such an artist (for example `"a -"`) the legacy key `"a - - b"` splits at the first separator, inside the artist. The legacy format cannot tell these apart, and the script does the same.
- TextCleaning.CleanLyrics: states only that cleaning deletes characters. What each pattern removes is stated separately: `DropContributorsSpec`, `EmbedAtEndRemoved`, `EmbedLineRemoved`, `MightAlsoLikeRemoved`, `TicketAdvertRemoved` and `LyricsTitleRemoved`.
- TextCleaning.RemoveUnwantedPhrases: its own contract states only that the three removals delete characters. The lemmas `MightAlsoLikeRemoved`, `TicketAdvertRemoved` and `LyricsTitleRemoved` state what each pattern removes. The ticket-advert lemma covers only artists with no `$` and no newline. With a `$` inside the artist, the lazy `.*?` could stop earlier, and that case is not characterised.
- TextCleaning.CleanChords: states deletion and the final whitespace normalisation. No lemma states what the directive, mail-header, `To:` and `Email:` line patterns remove.
