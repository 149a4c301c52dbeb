/** The JSON-Lines content cache (app/cache.py).

    A cache file is a sequence of lines.  Each line either failed to parse
    (`Malformed`: the source skips it) or is a JSON object, modelled as a map
    from field name to string.  A record is keyed by its `artist` and `title`
    fields only, so one record may carry a `lyrics` and a `chords` field side
    by side. */
module Cache {
  import opened Strings

  type Entry = map<string, string>

  datatype Line = Malformed | Parsed(entry: Entry)

  /** `entry.get(k)`. */
  function Get(e: Entry, k: string): Option<string> {
    if k in e then Some(e[k]) else None
  }

  /** `entry.get(k, d)`. */
  function GetOr(e: Entry, k: string, d: string): string {
    if k in e then e[k] else d
  }

  /** `entry.get('artist') == artist and entry.get('title') == title`. */
  predicate Matches(e: Entry, artist: string, title: string) {
    Get(e, "artist") == Some(artist) && Get(e, "title") == Some(title)
  }

  predicate IsMatch(l: Line, artist: string, title: string) {
    l.Parsed? && Matches(l.entry, artist, title)
  }

  /** The `"artist - title"` key of `jsonl_load_all`, with `''` for a missing
      artist or title. */
  function KeyOf(e: Entry): string {
    GetOr(e, "artist", "") + " - " + GetOr(e, "title", "")
  }

  /** The key the rest of the program builds for a song. */
  function SongKey(artist: string, title: string): string {
    artist + " - " + title
  }

  /** Index of the first record matching the song. */
  function FirstMatch(lines: seq<Line>, artist: string, title: string): (r: Option<nat>)
    ensures r.Some? ==> r.value < |lines| && IsMatch(lines[r.value], artist, title)
    ensures r.Some? ==> forall j :: 0 <= j < r.value ==> !IsMatch(lines[j], artist, title)
    ensures r.None? ==> forall j :: 0 <= j < |lines| ==> !IsMatch(lines[j], artist, title)
  {
    if lines == [] then None
    else if IsMatch(lines[0], artist, title) then Some(0)
    else
      match FirstMatch(lines[1..], artist, title)
      case None => None
      case Some(i) => Some(i + 1)
  }

  /** What `jsonl_load_entry` returns for a file holding `lines`: the field of
      the first matching record (absent field: None), or None. */
  function LoadEntryOf(lines: seq<Line>, artist: string, title: string, field: string): Option<string> {
    match FirstMatch(lines, artist, title)
    case None => None
    case Some(i) => Get(lines[i].entry, field)
  }

  /** The well-formed records, in file order. */
  function Records(lines: seq<Line>): seq<Entry> {
    if lines == [] then []
    else
      Records(lines[..|lines| - 1])
      + (match lines[|lines| - 1] case Malformed => [] case Parsed(e) => [e])
  }

  predicate AnyMatch(lines: seq<Line>, artist: string, title: string) {
    exists i :: 0 <= i < |lines| && IsMatch(lines[i], artist, title)
  }

  /** `entry[value_field] = value` on a matching record. */
  function Upsert(e: Entry, artist: string, title: string, value: string, field: string): Entry {
    if Matches(e, artist, title) then e[field := value] else e
  }

  /** The records `jsonl_save_entry` keeps, each matching one updated. */
  function Rewritten(lines: seq<Line>, artist: string, title: string, value: string, field: string): seq<Line> {
    if lines == [] then []
    else
      Rewritten(lines[..|lines| - 1], artist, title, value, field)
      + (match lines[|lines| - 1]
         case Malformed => []
         case Parsed(e) => [Parsed(Upsert(e, artist, title, value, field))])
  }

  /** `{'artist': artist, 'title': title, value_field: value}`. */
  function NewEntry(artist: string, title: string, value: string, field: string): Entry {
    map["artist" := artist, "title" := title][field := value]
  }

  /** The file `jsonl_save_entry` writes back. */
  function Saved(lines: seq<Line>, artist: string, title: string, value: string, field: string): seq<Line> {
    Rewritten(lines, artist, title, value, field)
    + (if AnyMatch(lines, artist, title) then [] else [Parsed(NewEntry(artist, title, value, field))])
  }

  /** What `jsonl_load_all` returns: every record, in order, assigned under its
      key, so a later record overrides an earlier one. */
  function LoadAllOf(lines: seq<Line>, field: string): map<string, Option<string>> {
    if lines == [] then map[]
    else
      var m := LoadAllOf(lines[..|lines| - 1], field);
      match lines[|lines| - 1]
      case Malformed => m
      case Parsed(e) => m[KeyOf(e) := Get(e, field)]
  }

  /** A cache file: whether it exists, and its lines. */
  class JsonlCache {
    var present: bool
    var lines: seq<Line>

    /** A missing file has no lines. */
    predicate Valid()
      reads this
    {
      !present ==> lines == []
    }

    constructor (present: bool, lines: seq<Line>)
      requires !present ==> lines == []
      ensures Valid() && this.present == present && this.lines == lines
    {
      this.present := present;
      this.lines := lines;
    }

    /** `jsonl_load_entry`: scan for the first matching record. */
    method LoadEntry(artist: string, title: string, field: string) returns (r: Option<string>)
      requires Valid()
      ensures r == LoadEntryOf(lines, artist, title, field)
    {
      if !present {
        return None;
      }
      var i := 0;
      while i < |lines|
        invariant 0 <= i <= |lines|
        invariant forall j :: 0 <= j < i ==> !IsMatch(lines[j], artist, title)
      {
        match lines[i] {
          case Malformed =>
          case Parsed(e) =>
            if Matches(e, artist, title) {
              return Get(e, field);
            }
        }
        i := i + 1;
      }
      return None;
    }

    /** `jsonl_save_entry`: rewrite the file with every matching record
        updated, or with the new record appended when none matched. */
    method SaveEntry(artist: string, title: string, value: string, field: string)
      requires Valid()
      modifies this
      ensures Valid() && present
      ensures lines == Saved(old(lines), artist, title, value, field)
    {
      var entries: seq<Line> := [];
      var found := false;
      if present {
        var i := 0;
        while i < |lines|
          invariant 0 <= i <= |lines|
          invariant entries == Rewritten(lines[..i], artist, title, value, field)
          invariant found == AnyMatch(lines[..i], artist, title)
        {
          assert lines[..i + 1][..i] == lines[..i];
          match lines[i] {
            case Malformed =>
            case Parsed(e) =>
              if Matches(e, artist, title) {
                entries := entries + [Parsed(e[field := value])];
                found := true;
              } else {
                entries := entries + [Parsed(e)];
              }
          }
          i := i + 1;
        }
        assert lines[..i] == lines;
      }
      if !found {
        entries := entries + [Parsed(NewEntry(artist, title, value, field))];
      }
      present := true;
      lines := entries;
    }

    /** `jsonl_load_all`. */
    method LoadAll(field: string) returns (m: map<string, Option<string>>)
      requires Valid()
      ensures m == LoadAllOf(lines, field)
    {
      m := map[];
      if !present {
        return;
      }
      var i := 0;
      while i < |lines|
        invariant 0 <= i <= |lines|
        invariant m == LoadAllOf(lines[..i], field)
      {
        assert lines[..i + 1][..i] == lines[..i];
        match lines[i] {
          case Malformed =>
          case Parsed(e) =>
            m := m[KeyOf(e) := Get(e, field)];
        }
        i := i + 1;
      }
      assert lines[..i] == lines;
    }
  }

  /** The rewritten file holds the well-formed records in order, each run
      through `Upsert`. */
  lemma {:induction false} RewrittenRecords(lines: seq<Line>, artist: string, title: string, value: string, field: string)
    ensures var w := Rewritten(lines, artist, title, value, field);
      |w| == |Records(lines)| &&
      forall i :: 0 <= i < |w| ==> w[i] == Parsed(Upsert(Records(lines)[i], artist, title, value, field))
  {
    if lines != [] {
      RewrittenRecords(lines[..|lines| - 1], artist, title, value, field);
    }
  }

  /** A line matches exactly when a well-formed record matches. */
  lemma {:induction false} AnyMatchRecords(lines: seq<Line>, artist: string, title: string)
    ensures AnyMatch(lines, artist, title) <==>
      exists j :: 0 <= j < |Records(lines)| && Matches(Records(lines)[j], artist, title)
  {
    if lines != [] {
      var init := lines[..|lines| - 1];
      AnyMatchRecords(init, artist, title);
      assert Records(lines) == Records(init)
        + (match lines[|lines| - 1] case Malformed => [] case Parsed(e) => [e]);
      assert forall i :: 0 <= i < |init| ==> init[i] == lines[i];
      if AnyMatch(lines, artist, title) {
        var i :| 0 <= i < |lines| && IsMatch(lines[i], artist, title);
        if i < |init| {
          assert IsMatch(init[i], artist, title);
          var j :| 0 <= j < |Records(init)| && Matches(Records(init)[j], artist, title);
          assert Records(lines)[j] == Records(init)[j];
        } else {
          assert Records(lines)[|Records(lines)| - 1] == lines[i].entry;
        }
      }
      if exists j :: 0 <= j < |Records(lines)| && Matches(Records(lines)[j], artist, title) {
        var j :| 0 <= j < |Records(lines)| && Matches(Records(lines)[j], artist, title);
        if j < |Records(init)| {
          assert Records(init)[j] == Records(lines)[j];
          var i :| 0 <= i < |init| && IsMatch(init[i], artist, title);
          assert IsMatch(lines[i], artist, title);
        } else {
          assert lines[|lines| - 1].Parsed? && Records(lines)[j] == lines[|lines| - 1].entry;
          assert IsMatch(lines[|lines| - 1], artist, title);
        }
        assert AnyMatch(lines, artist, title);
      }
    }
  }

  /** What a save does to the file: the malformed lines are dropped, every
      record keeps its place, the matching records (all of them, not just the
      first) get the new value and the others are unchanged; the new record
      is appended at the end exactly when none matched. */
  lemma SaveRecords(lines: seq<Line>, artist: string, title: string, value: string, field: string)
    ensures var s := Saved(lines, artist, title, value, field);
      var rs := Records(lines);
      |s| == |rs| + (if AnyMatch(lines, artist, title) then 0 else 1)
      && (forall i :: 0 <= i < |rs| && Matches(rs[i], artist, title) ==>
            s[i] == Parsed(rs[i][field := value]))
      && (forall i :: 0 <= i < |rs| && !Matches(rs[i], artist, title) ==> s[i] == Parsed(rs[i]))
      && (!AnyMatch(lines, artist, title) ==> s[|rs|] == Parsed(NewEntry(artist, title, value, field)))
  {
    RewrittenRecords(lines, artist, title, value, field);
  }

  /** After a save, every record matching the song carries the saved value,
      and there is at least one such record. */
  lemma SavedMatchesCarryValue(lines: seq<Line>, artist: string, title: string, value: string, field: string)
    requires field != "artist" && field != "title"
    ensures var s := Saved(lines, artist, title, value, field);
      AnyMatch(s, artist, title)
      && forall i :: 0 <= i < |s| && IsMatch(s[i], artist, title) ==> Get(s[i].entry, field) == Some(value)
  {
    var s := Saved(lines, artist, title, value, field);
    var rs := Records(lines);
    SaveRecords(lines, artist, title, value, field);
    AnyMatchRecords(lines, artist, title);
    if AnyMatch(lines, artist, title) {
      var j :| 0 <= j < |rs| && Matches(rs[j], artist, title);
      assert IsMatch(s[j], artist, title);
    } else {
      assert IsMatch(s[|rs|], artist, title);
    }
  }

  /** Saving a value and loading it back returns that value
      (the round trip of the cache helpers). */
  lemma SaveThenLoad(lines: seq<Line>, artist: string, title: string, value: string, field: string)
    requires field != "artist" && field != "title"
    ensures LoadEntryOf(Saved(lines, artist, title, value, field), artist, title, field) == Some(value)
  {
    SavedMatchesCarryValue(lines, artist, title, value, field);
  }

  /** Saving an existing song again rewrites its record in place: starting
      from an empty file, a save and an update leave exactly one line, which
      holds the updated value. */
  lemma SaveTwiceOneLine(artist: string, title: string, v1: string, v2: string, field: string)
    requires field != "artist" && field != "title"
    ensures var s := Saved(Saved([], artist, title, v1, field), artist, title, v2, field);
      |s| == 1 && LoadEntryOf(s, artist, title, field) == Some(v2)
  {
    var s1 := Saved([], artist, title, v1, field);
    SavedMatchesCarryValue([], artist, title, v1, field);
    SaveRecords(s1, artist, title, v2, field);
    assert Records(s1) == [s1[0].entry] by {
      assert s1[..0] == [];
    }
    SaveThenLoad(s1, artist, title, v2, field);
  }

  lemma LoadEntryCons(l: Line, rest: seq<Line>, artist: string, title: string, field: string)
    ensures LoadEntryOf([l] + rest, artist, title, field)
         == if IsMatch(l, artist, title) then Get(l.entry, field) else LoadEntryOf(rest, artist, title, field)
  {
    assert ([l] + rest)[0] == l && ([l] + rest)[1..] == rest;
  }

  /** Lines after the first match do not affect a lookup. */
  lemma {:induction false} LoadEntryAppend(xs: seq<Line>, ys: seq<Line>, artist: string, title: string, field: string)
    requires forall j :: 0 <= j < |ys| ==> !IsMatch(ys[j], artist, title)
    ensures LoadEntryOf(xs + ys, artist, title, field) == LoadEntryOf(xs, artist, title, field)
  {
    if xs == [] {
      assert xs + ys == ys;
    } else {
      assert xs + ys == [xs[0]] + (xs[1..] + ys);
      assert xs == [xs[0]] + xs[1..];
      LoadEntryCons(xs[0], xs[1..] + ys, artist, title, field);
      LoadEntryCons(xs[0], xs[1..], artist, title, field);
      LoadEntryAppend(xs[1..], ys, artist, title, field);
    }
  }

  lemma {:induction false} RewrittenCons(l: Line, rest: seq<Line>, artist: string, title: string, value: string, field: string)
    ensures Rewritten([l] + rest, artist, title, value, field)
         == (match l case Malformed => [] case Parsed(e) => [Parsed(Upsert(e, artist, title, value, field))])
            + Rewritten(rest, artist, title, value, field)
    decreases |rest|
  {
    var ls := [l] + rest;
    if rest != [] {
      var init := rest[..|rest| - 1];
      assert ls[..|ls| - 1] == [l] + init;
      assert ls[|ls| - 1] == rest[|rest| - 1];
      RewrittenCons(l, init, artist, title, value, field);
    } else {
      assert ls[..0] == [];
    }
  }

  /** Rewriting the records of one song leaves every lookup of another song
      as it was. */
  lemma {:induction false} RewrittenKeepsOthers(lines: seq<Line>, artist: string, title: string, value: string, field: string,
                                                 artist2: string, title2: string, field2: string)
    requires field != "artist" && field != "title"
    requires artist != artist2 || title != title2
    ensures LoadEntryOf(Rewritten(lines, artist, title, value, field), artist2, title2, field2)
         == LoadEntryOf(lines, artist2, title2, field2)
  {
    if lines != [] {
      var l := lines[0];
      var rest := lines[1..];
      assert lines == [l] + rest;
      RewrittenCons(l, rest, artist, title, value, field);
      RewrittenKeepsOthers(rest, artist, title, value, field, artist2, title2, field2);
      LoadEntryCons(l, rest, artist2, title2, field2);
      match l {
        case Malformed =>
          assert [] + Rewritten(rest, artist, title, value, field) == Rewritten(rest, artist, title, value, field);
        case Parsed(e) =>
          var u := Parsed(Upsert(e, artist, title, value, field));
          LoadEntryCons(u, Rewritten(rest, artist, title, value, field), artist2, title2, field2);
      }
    }
  }

  /** A save touches only the song it saves: every other song's lookup
      returns what it returned before. */
  lemma SaveKeepsOthers(lines: seq<Line>, artist: string, title: string, value: string, field: string,
                        artist2: string, title2: string, field2: string)
    requires field != "artist" && field != "title"
    requires artist != artist2 || title != title2
    ensures LoadEntryOf(Saved(lines, artist, title, value, field), artist2, title2, field2)
         == LoadEntryOf(lines, artist2, title2, field2)
  {
    RewrittenKeepsOthers(lines, artist, title, value, field, artist2, title2, field2);
    var tail := if AnyMatch(lines, artist, title) then [] else [Parsed(NewEntry(artist, title, value, field))];
    LoadEntryAppend(Rewritten(lines, artist, title, value, field), tail, artist2, title2, field2);
  }

  /** The keys of `jsonl_load_all` are exactly the keys of the well-formed
      records. */
  lemma {:induction false} LoadAllKeys(lines: seq<Line>, field: string, k: string)
    ensures k in LoadAllOf(lines, field) <==>
      exists i :: 0 <= i < |lines| && lines[i].Parsed? && KeyOf(lines[i].entry) == k
  {
    if lines != [] {
      var init := lines[..|lines| - 1];
      LoadAllKeys(init, field, k);
      assert forall i :: 0 <= i < |init| ==> init[i] == lines[i];
      if exists i :: 0 <= i < |lines| && lines[i].Parsed? && KeyOf(lines[i].entry) == k {
        var i :| 0 <= i < |lines| && lines[i].Parsed? && KeyOf(lines[i].entry) == k;
        if i < |init| {
          assert init[i].Parsed? && KeyOf(init[i].entry) == k;
        }
      }
    }
  }

  /** The last record with a given key decides its value. */
  lemma {:induction false} LoadAllLastWins(lines: seq<Line>, field: string, i: nat)
    requires i < |lines| && lines[i].Parsed?
    requires forall j :: i < j < |lines| && lines[j].Parsed? ==> KeyOf(lines[j].entry) != KeyOf(lines[i].entry)
    ensures var m := LoadAllOf(lines, field);
      KeyOf(lines[i].entry) in m && m[KeyOf(lines[i].entry)] == Get(lines[i].entry, field)
  {
    var init := lines[..|lines| - 1];
    if i < |lines| - 1 {
      assert init[i] == lines[i];
      forall j | i < j < |init| && init[j].Parsed?
        ensures KeyOf(init[j].entry) != KeyOf(init[i].entry)
      {
        assert init[j] == lines[j];
      }
      LoadAllLastWins(init, field, i);
    }
  }

  /** The second scenario of tests/test_cache.py: two saves into an empty
      file, then `jsonl_load_all`. */
  lemma LoadAllOfTwoSaves()
    ensures var s := Saved(Saved([], "Artist1", "Title1", "Lyrics1", "lyrics"),
                           "Artist2", "Title2", "Lyrics2", "lyrics");
      LoadAllOf(s, "lyrics") == map["Artist1 - Title1" := Some("Lyrics1"), "Artist2 - Title2" := Some("Lyrics2")]
  {
    var e1 := NewEntry("Artist1", "Title1", "Lyrics1", "lyrics");
    var s1 := Saved([], "Artist1", "Title1", "Lyrics1", "lyrics");
    assert s1 == [Parsed(e1)];
    assert !Matches(e1, "Artist2", "Title2");
    assert !AnyMatch(s1, "Artist2", "Title2");
    var e2 := NewEntry("Artist2", "Title2", "Lyrics2", "lyrics");
    var s := Saved(s1, "Artist2", "Title2", "Lyrics2", "lyrics");
    assert s1[..0] == [];
    assert Rewritten(s1, "Artist2", "Title2", "Lyrics2", "lyrics") == [Parsed(e1)];
    assert s == [Parsed(e1), Parsed(e2)];
    assert s[..1] == [Parsed(e1)] && s[..1][..0] == [];
    assert KeyOf(e1) == "Artist1 - Title1" && KeyOf(e2) == "Artist2 - Title2";
  }
}
