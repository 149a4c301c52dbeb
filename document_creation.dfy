/** `create_document_from_cache` (app/document_creation.py): the lyrics and
    chords songbooks built from the caches.

    A Word document is modelled as the list of its blocks, each a level-1
    heading or a paragraph made of text runs and line breaks.  Margins, the
    two-column section, headers, footers and fonts change only the layout and
    are not modelled; saving a document is modelled as returning its path
    with its blocks. */
module DocumentCreation {
  import opened Strings
  import opened Cache
  import opened TextCleaning
  import opened DocumentFormatting
  import opened FetchData
  import opened DocumentGeneration

  /** A run of a paragraph: some text, or a line break. */
  datatype Run = Text(text: string) | Break

  datatype Block = Heading(text: string, level: nat) | Paragraph(runs: seq<Run>)

  /** A document under construction; blocks are only ever appended, and runs
      are only ever added to the last paragraph. */
  class Document {
    var blocks: seq<Block>

    constructor()
      ensures blocks == []
    {
      blocks := [];
    }

    /** `document.add_heading(text, level)`. */
    method AddHeading(text: string, level: nat)
      modifies this
      ensures blocks == old(blocks) + [Heading(text, level)]
    {
      blocks := blocks + [Heading(text, level)];
    }

    /** `document.add_paragraph()`: a new, empty paragraph. */
    method AddParagraph()
      modifies this
      ensures blocks == old(blocks) + [Paragraph([])]
    {
      blocks := blocks + [Paragraph([])];
    }

    /** `paragraph.add_run(...)` on the paragraph added last. */
    method AddRun(run: Run)
      requires blocks != [] && blocks[|blocks| - 1].Paragraph?
      modifies this
      ensures blocks == old(blocks)[..|old(blocks)| - 1] + [Paragraph(old(blocks)[|old(blocks)| - 1].runs + [run])]
    {
      var last := |blocks| - 1;
      blocks := blocks[..last] + [Paragraph(blocks[last].runs + [run])];
    }
  }

  /** The runs of a paragraph holding `lines`: each line as text, with a
      break in front of every line but the first. */
  function RunsOf(lines: seq<string>): seq<Run> {
    if lines == [] then []
    else
      var init := lines[..|lines| - 1];
      RunsOf(init) + (if init == [] then [] else [Break]) + [Text(lines[|lines| - 1])]
  }

  /** The text a reader sees in a paragraph: the runs' text, a newline for
      every break. */
  function TextOf(runs: seq<Run>): string {
    if runs == [] then []
    else
      TextOf(runs[..|runs| - 1])
      + (match runs[|runs| - 1] case Text(t) => t case Break => "\n")
  }

  /** `n` lines give `n` text runs and `n - 1` breaks, alternating, starting
      with the first line. */
  lemma {:induction false} RunsOfShape(lines: seq<string>)
    requires lines != []
    ensures |RunsOf(lines)| == 2 * |lines| - 1
    ensures forall i :: 0 <= i < |lines| ==> RunsOf(lines)[2 * i] == Text(lines[i])
    ensures forall i :: 0 <= i < |lines| - 1 ==> RunsOf(lines)[2 * i + 1] == Break
  {
    var init := lines[..|lines| - 1];
    if init != [] {
      RunsOfShape(init);
      var r := RunsOf(lines);
      assert r == RunsOf(init) + [Break] + [Text(lines[|lines| - 1])];
      forall i | 0 <= i < |lines|
        ensures r[2 * i] == Text(lines[i])
      {
        if i < |init| {
          assert r[2 * i] == RunsOf(init)[2 * i];
        }
      }
      forall i | 0 <= i < |lines| - 1
        ensures r[2 * i + 1] == Break
      {
        if i < |init| - 1 {
          assert r[2 * i + 1] == RunsOf(init)[2 * i + 1];
        }
      }
    }
  }

  /** Joining with a separator works piece by piece from the back. */
  lemma {:induction false} JoinSnoc(parts: seq<string>, x: string, sep: char)
    requires parts != []
    ensures Join(parts + [x], sep) == Join(parts, sep) + [sep] + x
    decreases |parts|
  {
    var w := parts + [x];
    assert w[0] == parts[0];
    if |parts| > 1 {
      assert w[1..] == parts[1..] + [x];
      JoinSnoc(parts[1..], x, sep);
      assert Join(w, sep) == parts[0] + [sep] + (Join(parts[1..], sep) + [sep] + x);
    } else {
      assert w[1..] == [x];
    }
  }

  /** The paragraph reads as the lines joined with newlines. */
  lemma {:induction false} RunsOfText(lines: seq<string>)
    requires lines != []
    ensures TextOf(RunsOf(lines)) == Join(lines, '\n')
  {
    var init := lines[..|lines| - 1];
    var last := lines[|lines| - 1];
    if init == [] {
      assert lines == [last];
      assert RunsOf(lines) == [Text(last)];
      assert [Text(last)][..0] == [];
    } else {
      RunsOfText(init);
      var w := RunsOf(init) + [Break];
      assert RunsOf(lines) == w + [Text(last)];
      assert (w + [Text(last)])[..|w|] == w;
      assert w[..|w| - 1] == RunsOf(init);
      assert TextOf(w) == Join(init, '\n') + "\n";
      assert lines == init + [last];
      JoinSnoc(init, last, '\n');
    }
  }

  /** Splitting a text at its newlines and laying the lines out as runs
      keeps the text. */
  lemma RunsOfSplit(text: string)
    ensures TextOf(RunsOf(Split(text, '\n'))) == text
  {
    RunsOfText(Split(text, '\n'));
    JoinSplit(text, '\n');
  }

  /** The heading of a song's section. */
  function HeadingText(song: Song): string {
    song.title + " by " + song.artist
  }

  /** The text of a song's section, if the song gets one: the cached value
      must be present and truthy, and lyrics must be at most 5000 characters
      once cleaned.  `clean` is the cleaner for the kind. */
  function SectionText(kind: Kind, cache: map<string, Option<string>>, song: Song,
                       clean: string -> string): Option<string> {
    var key := SongKey(song.artist, song.title);
    if key in cache && cache[key].Some? && cache[key].value != [] then
      var text := clean(cache[key].value);
      if kind == Lyrics && |text| > MaxLyricsLength then None else Some(text)
    else None
  }

  /** The blocks one song adds: a level-1 heading and the paragraph. */
  function SongBlocks(kind: Kind, cache: map<string, Option<string>>, song: Song,
                      clean: string -> string): seq<Block> {
    match SectionText(kind, cache, song, clean)
    case None => []
    case Some(text) => [Heading(HeadingText(song), 1), Paragraph(RunsOf(Split(text, '\n')))]
  }

  /** The blocks of a document for `songs`, in their order. */
  function DocBlocks(kind: Kind, cache: map<string, Option<string>>, songs: seq<Song>,
                     clean: string -> string): seq<Block> {
    if songs == [] then []
    else DocBlocks(kind, cache, songs[..|songs| - 1], clean) + SongBlocks(kind, cache, songs[|songs| - 1], clean)
  }

  /** The document for one more song is the document so far and that
      song's section. */
  lemma DocBlocksNext(kind: Kind, cache: map<string, Option<string>>, songs: seq<Song>, i: nat,
                      clean: string -> string)
    requires i < |songs|
    ensures DocBlocks(kind, cache, songs[..i + 1], clean)
            == DocBlocks(kind, cache, songs[..i], clean) + SongBlocks(kind, cache, songs[i], clean)
  {
    assert songs[..i + 1][..i] == songs[..i];
  }

  /** A song gets a section exactly when its cached value is present and
      truthy and, for lyrics, at most 5000 characters once cleaned; the
      section is headed `"{title} by {artist}"` at level 1 and its paragraph
      reads as the cleaned value. */
  lemma SongBlocksSpec(kind: Kind, cache: map<string, Option<string>>, song: Song, clean: string -> string)
    ensures var key := SongKey(song.artist, song.title);
      SongBlocks(kind, cache, song, clean) != [] <==>
        key in cache && cache[key].Some? && cache[key].value != []
        && (kind == Chords || |clean(cache[key].value)| <= MaxLyricsLength)
    ensures var b := SongBlocks(kind, cache, song, clean);
      b != [] ==>
        var key := SongKey(song.artist, song.title);
        |b| == 2 && b[0] == Heading(song.title + " by " + song.artist, 1)
        && b[1].Paragraph? && TextOf(b[1].runs) == clean(cache[key].value)
  {
    match SectionText(kind, cache, song, clean)
    case None =>
    case Some(text) =>
      RunsOfSplit(text);
  }

  /** The document is built song by song. */
  lemma {:induction false} DocBlocksAppend(kind: Kind, cache: map<string, Option<string>>, a: seq<Song>,
                                           b: seq<Song>, clean: string -> string)
    ensures DocBlocks(kind, cache, a + b, clean) == DocBlocks(kind, cache, a, clean) + DocBlocks(kind, cache, b, clean)
    decreases |b|
  {
    if b == [] {
      assert a + b == a;
    } else {
      var b' := b[..|b| - 1];
      assert (a + b)[..|a + b| - 1] == a + b';
      assert (a + b)[|a + b| - 1] == b[|b| - 1];
      DocBlocksAppend(kind, cache, a, b', clean);
      AppendAssoc(DocBlocks(kind, cache, a, clean), DocBlocks(kind, cache, b', clean),
                  SongBlocks(kind, cache, b[|b| - 1], clean));
    }
  }

  /** Every paragraph of a lyrics document reads as at most 5000
      characters. */
  lemma {:induction false} LyricsParagraphsBounded(cache: map<string, Option<string>>, songs: seq<Song>,
                                                   clean: string -> string)
    ensures forall i :: 0 <= i < |DocBlocks(Lyrics, cache, songs, clean)| && DocBlocks(Lyrics, cache, songs, clean)[i].Paragraph?
                    ==> |TextOf(DocBlocks(Lyrics, cache, songs, clean)[i].runs)| <= MaxLyricsLength
  {
    if songs != [] {
      var init := songs[..|songs| - 1];
      var song := songs[|songs| - 1];
      LyricsParagraphsBounded(cache, init, clean);
      SongBlocksSpec(Lyrics, cache, song, clean);
      var d0 := DocBlocks(Lyrics, cache, init, clean);
      var b := SongBlocks(Lyrics, cache, song, clean);
      var d := DocBlocks(Lyrics, cache, songs, clean);
      assert d == d0 + b;
      forall i | 0 <= i < |d| && d[i].Paragraph?
        ensures |TextOf(d[i].runs)| <= MaxLyricsLength
      {
        if i < |d0| {
          assert d[i] == d0[i];
          assert |TextOf(d0[i].runs)| <= MaxLyricsLength;
        } else {
          assert d[i] == b[i - |d0|];
          assert b != [] && i - |d0| == 1;
          var key := SongKey(song.artist, song.title);
          assert TextOf(b[1].runs) == clean(cache[key].value);
          assert |clean(cache[key].value)| <= MaxLyricsLength;
        }
      }
    }
  }

  /** Every song of the list with truthy cached chords is in the chords
      document: chords have no length limit. */
  lemma {:induction false} ChordsIncluded(cache: map<string, Option<string>>, songs: seq<Song>, j: nat,
                                          clean: string -> string)
    requires j < |songs|
    requires var key := SongKey(songs[j].artist, songs[j].title);
      key in cache && cache[key].Some? && cache[key].value != []
    ensures Heading(HeadingText(songs[j]), 1) in DocBlocks(Chords, cache, songs, clean)
  {
    var init := songs[..|songs| - 1];
    var d0 := DocBlocks(Chords, cache, init, clean);
    var b := SongBlocks(Chords, cache, songs[|songs| - 1], clean);
    var h := Heading(HeadingText(songs[j]), 1);
    assert DocBlocks(Chords, cache, songs, clean) == d0 + b;
    if j < |init| {
      assert init[j] == songs[j];
      ChordsIncluded(cache, init, j, clean);
      assert h in d0;
    } else {
      assert SectionText(Chords, cache, songs[j], clean).Some?;
      assert b[0] == h;
    }
  }

  /** Lines 67-97 of the song loop for one document: the heading, an empty
      paragraph, then one run per line with a break before all but the
      first. */
  method AddSection(doc: Document, heading: string, text: string)
    modifies doc
    ensures doc.blocks == old(doc.blocks) + [Heading(heading, 1), Paragraph(RunsOf(Split(text, '\n')))]
  {
    doc.AddHeading(heading, 1);
    doc.AddParagraph();
    ghost var before := doc.blocks[..|doc.blocks| - 1];
    var lines := Split(text, '\n');
    var i := 0;
    while i < |lines|
      invariant 0 <= i <= |lines|
      invariant doc.blocks == before + [Paragraph(RunsOf(lines[..i]))]
    {
      ghost var runs := RunsOf(lines[..i]);
      assert RunsOf(lines[..i + 1]) == runs + (if i == 0 then [] else [Break]) + [Text(lines[i])] by {
        assert lines[..i + 1][..i] == lines[..i];
      }
      if i > 0 {
        doc.AddRun(Break);
        assert doc.blocks == before + [Paragraph(runs + [Break])];
      }
      doc.AddRun(Text(lines[i]));
      i := i + 1;
    }
    assert lines[..i] == lines;
  }

  /** One song's section of one document, if it gets one. */
  method AddSong(kind: Kind, doc: Document, cache: map<string, Option<string>>, song: Song,
                 clean: string -> string)
    modifies doc
    ensures doc.blocks == old(doc.blocks) + SongBlocks(kind, cache, song, clean)
  {
    var key := SongKey(song.artist, song.title);
    if key in cache && cache[key].Some? && cache[key].value != [] {
      var text := clean(cache[key].value);
      if kind == Chords || |text| <= MaxLyricsLength {
        AddSection(doc, song.title + " by " + song.artist, text);
      }
    }
  }

  /** An output path counts when it is given and non-empty. */
  predicate Given(output: Option<string>) {
    output.Some? && output.value != []
  }

  /** The saved document for an output path, if the path is given. */
  function SavedDocs(output: Option<string>, blocks: seq<Block>): (r: seq<(string, seq<Block>)>)
    ensures |r| <= 1
    ensures r != [] <==> Given(output)
    ensures r != [] ==> r[0] == (output.value, blocks)
  {
    if Given(output) then [(output.value, blocks)] else []
  }

  /** The song loop of `create_document_from_cache`: each song's lyrics
      section goes to the lyrics document and its chords section to the
      chords document, for whichever of the two exists. */
  method FillDocuments(sorted: seq<Song>, lyricsDocument: Document?, chordsDocument: Document?,
                       lyricsCache: map<string, Option<string>>, chordsCache: map<string, Option<string>>,
                       cleanLyrics: string -> string, cleanChords: string -> string)
    requires lyricsDocument != null && chordsDocument != null ==> lyricsDocument != chordsDocument
    requires lyricsDocument != null ==> lyricsDocument.blocks == []
    requires chordsDocument != null ==> chordsDocument.blocks == []
    modifies lyricsDocument, chordsDocument
    ensures lyricsDocument != null ==> lyricsDocument.blocks == DocBlocks(Lyrics, lyricsCache, sorted, cleanLyrics)
    ensures chordsDocument != null ==> chordsDocument.blocks == DocBlocks(Chords, chordsCache, sorted, cleanChords)
  {
    var i := 0;
    while i < |sorted|
      invariant 0 <= i <= |sorted|
      invariant lyricsDocument != null ==>
                  lyricsDocument.blocks == DocBlocks(Lyrics, lyricsCache, sorted[..i], cleanLyrics)
      invariant chordsDocument != null ==>
                  chordsDocument.blocks == DocBlocks(Chords, chordsCache, sorted[..i], cleanChords)
    {
      if lyricsDocument != null {
        AddSong(Lyrics, lyricsDocument, lyricsCache, sorted[i], cleanLyrics);
        assert lyricsDocument.blocks == DocBlocks(Lyrics, lyricsCache, sorted[..i + 1], cleanLyrics) by {
          DocBlocksNext(Lyrics, lyricsCache, sorted, i, cleanLyrics);
        }
      }
      if chordsDocument != null {
        AddSong(Chords, chordsDocument, chordsCache, sorted[i], cleanChords);
        assert chordsDocument.blocks == DocBlocks(Chords, chordsCache, sorted[..i + 1], cleanChords) by {
          DocBlocksNext(Chords, chordsCache, sorted, i, cleanChords);
        }
      }
      i := i + 1;
    }
    assert sorted[..i] == sorted;
  }

  /** `create_document_from_cache`: a document is made for each given output
      path and filled, song by song in `sort_songs` order, with the sections
      of the songs whose cached values qualify; the lyrics document comes
      first among the saved ones. */
  method CreateDocumentFromCache(songs: seq<Song>, lyricsCache: map<string, Option<string>>,
                                 chordsCache: map<string, Option<string>>,
                                 lyricsOutput: Option<string>, chordsOutput: Option<string>)
    returns (saved: seq<(string, seq<Block>)>)
    ensures saved == SavedDocs(lyricsOutput, DocBlocks(Lyrics, lyricsCache, SortSongs(songs), CleanLyrics))
                   + SavedDocs(chordsOutput, DocBlocks(Chords, chordsCache, SortSongs(songs), CleanChords))
  {
    var lyricsDocument: Document? := null;
    var chordsDocument: Document? := null;
    if Given(lyricsOutput) {
      lyricsDocument := new Document();
    }
    if Given(chordsOutput) {
      chordsDocument := new Document();
    }
    var sorted := SortSongs(songs);
    FillDocuments(sorted, lyricsDocument, chordsDocument, lyricsCache, chordsCache, CleanLyrics, CleanChords);
    saved := [];
    if lyricsDocument != null {
      saved := saved + [(lyricsOutput.value, lyricsDocument.blocks)];
    }
    if chordsDocument != null {
      saved := saved + [(chordsOutput.value, chordsDocument.blocks)];
    }
  }
}
