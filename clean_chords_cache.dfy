/** The chords-cache rewrite of clean_chords_cache.py.

    The script reads every line of the chords cache, skips the lines that do
    not parse, replaces each record's `chords` field (an absent one counts as
    `''`) by its cleaned form, and writes the records back.  The rewrite loop
    is shared with clean_chords_cache_brackets.py, which differs only in the
    cleaner, so it is written once here over a cleaner `f`. */
module CleanChordsCache {
  import opened Strings
  import opened Cache
  import opened Regex
  import opened TextCleaning

  /** `entry['chords'] = f(entry.get('chords', ''))`: the field is set, every
      other field is left as it was. */
  function CleanedEntry(e: Entry, f: string -> string): (r: Entry)
    ensures "chords" in r && r["chords"] == f(GetOr(e, "chords", ""))
    ensures forall k :: k != "chords" ==> (k in r <==> k in e)
    ensures forall k :: k in e && k != "chords" ==> r[k] == e[k]
  {
    e["chords" := f(GetOr(e, "chords", ""))]
  }

  /** The lines the rewrite writes back: one per well-formed line, in order. */
  function MapChords(lines: seq<Line>, f: string -> string): seq<Line> {
    if lines == [] then []
    else
      MapChords(lines[..|lines| - 1], f)
      + (match lines[|lines| - 1] case Malformed => [] case Parsed(e) => [Parsed(CleanedEntry(e, f))])
  }

  /** The loop of both rewrite scripts: a missing file is left alone;
      otherwise malformed lines are dropped, every record gets its `chords`
      field through `f`, and the file is written back with the records. */
  method RewriteChords(cache: JsonlCache, f: string -> string)
    requires cache.Valid()
    modifies cache
    ensures cache.Valid() && cache.present == old(cache.present)
    ensures !old(cache.present) ==> cache.lines == old(cache.lines)
    ensures old(cache.present) ==> cache.lines == MapChords(old(cache.lines), f)
  {
    if !cache.present {
      return;
    }
    var lines := cache.lines;
    var newEntries: seq<Line> := [];
    var i := 0;
    while i < |lines|
      invariant 0 <= i <= |lines|
      invariant newEntries == MapChords(lines[..i], f)
    {
      assert lines[..i + 1][..i] == lines[..i];
      match lines[i] {
        case Malformed =>
        case Parsed(entry) =>
          var chords := GetOr(entry, "chords", "");
          newEntries := newEntries + [Parsed(entry["chords" := f(chords)])];
      }
      i := i + 1;
    }
    assert lines[..i] == lines;
    cache.lines := newEntries;
  }

  /** `clean_chords_cache`. */
  method CleanChordsCache(cache: JsonlCache)
    requires cache.Valid()
    modifies cache
    ensures cache.Valid() && cache.present == old(cache.present)
    ensures !old(cache.present) ==> cache.lines == old(cache.lines)
    ensures old(cache.present) ==> cache.lines == MapChords(old(cache.lines), CleanChords)
  {
    RewriteChords(cache, CleanChords);
  }

  /** The rewritten file holds exactly the well-formed records, in order,
      each with its `chords` field run through `f`. */
  lemma {:induction false} MapChordsRecords(lines: seq<Line>, f: string -> string)
    ensures var w := MapChords(lines, f);
      |w| == |Records(lines)| &&
      forall i :: 0 <= i < |w| ==> w[i] == Parsed(CleanedEntry(Records(lines)[i], f))
  {
    if lines != [] {
      MapChordsRecords(lines[..|lines| - 1], f);
    }
  }

  /** With an idempotent cleaner, rewriting a second time changes nothing. */
  lemma {:induction false} MapChordsIdempotent(lines: seq<Line>, f: string -> string)
    requires forall x :: f(f(x)) == f(x)
    ensures MapChords(MapChords(lines, f), f) == MapChords(lines, f)
  {
    if lines != [] {
      var init := lines[..|lines| - 1];
      var w := MapChords(init, f);
      MapChordsIdempotent(init, f);
      var tail := match lines[|lines| - 1] case Malformed => [] case Parsed(e) => [Parsed(CleanedEntry(e, f))];
      assert MapChords(lines, f) == w + tail;
      assert MapChords(w + tail, f) == MapChords(w, f) + MapChords(tail, f) by {
        MapChordsAppend(w, tail, f);
      }
      match lines[|lines| - 1]
      case Malformed =>
      case Parsed(e) =>
        var c := CleanedEntry(e, f);
        assert CleanedEntry(c, f) == c;
        assert [Parsed(c)][..0] == [];
    }
  }

  /** The rewrite works line by line. */
  lemma {:induction false} MapChordsAppend(a: seq<Line>, b: seq<Line>, f: string -> string)
    ensures MapChords(a + b, f) == MapChords(a, f) + MapChords(b, f)
    decreases |b|
  {
    if b == [] {
      assert a + b == a;
    } else {
      var b' := b[..|b| - 1];
      assert (a + b)[..|a + b| - 1] == a + b';
      assert (a + b)[|a + b| - 1] == b[|b| - 1];
      MapChordsAppend(a, b', f);
      AppendAssoc(MapChords(a, f), MapChords(b', f),
                  match b[|b| - 1] case Malformed => [] case Parsed(e) => [Parsed(CleanedEntry(e, f))]);
    }
  }

  /** After `clean_chords_cache` every record's chords hold no whitespace in
      front of a newline, and are what is left of the old chords after
      deletions only. */
  lemma CleanedChordsNormalised(lines: seq<Line>, i: nat)
    requires i < |Records(lines)|
    ensures var w := MapChords(lines, CleanChords);
      i < |w| && w[i].Parsed? && "chords" in w[i].entry
      && NoSpaceBeforeNewline(w[i].entry["chords"])
      && IsSubsequence(w[i].entry["chords"], GetOr(Records(lines)[i], "chords", ""))
  {
    MapChordsRecords(lines, CleanChords);
  }
}
