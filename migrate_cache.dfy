/** The legacy-cache migration of migrate_cache_to_jsonl.py.

    A legacy cache is one JSON object mapping `"artist - title"` to a value.
    It is modelled as the list of its (key, value) pairs in iteration order;
    `None` stands for a missing legacy file.  Each key is split at its first
    `" - "`; keys without one are skipped, the others become one record each
    in the JSON-Lines file. */
module MigrateCache {
  import opened Strings
  import opened Cache

  /** The separator between artist and title in a legacy key. */
  const Sep: string := " - "

  /** Index of the first occurrence of `p` in `s` at or after `i`. */
  function FirstOccurrence(s: string, p: string, i: nat): (r: Option<nat>)
    requires i <= |s|
    ensures r.Some? ==> i <= r.value && OccursAt(s, p, r.value)
    ensures r.Some? ==> forall j :: i <= j < r.value ==> !OccursAt(s, p, j)
    ensures r.None? ==> forall j :: i <= j ==> !OccursAt(s, p, j)
    decreases |s| - i
  {
    if i + |p| > |s| then None
    else if OccursAt(s, p, i) then Some(i)
    else if i == |s| then None
    else FirstOccurrence(s, p, i + 1)
  }

  /** `key.split(' - ', 1)` unpacked into artist and title; None where
      unpacking raises ValueError because there is no separator. */
  function SplitKey(key: string): Option<(string, string)> {
    match FirstOccurrence(key, Sep, 0)
    case None => None
    case Some(i) => Some((key[..i], key[i + |Sep|..]))
  }

  /** A key splits exactly when it holds the separator; then the artist holds
      none, and artist, separator and title give the key back. */
  lemma SplitKeySpec(key: string)
    ensures SplitKey(key).None? <==> !Contains(key, Sep)
    ensures SplitKey(key).Some? ==>
              var (artist, title) := SplitKey(key).value;
              artist + Sep + title == key && !Contains(artist, Sep)
  {
    match FirstOccurrence(key, Sep, 0)
    case None =>
    case Some(i) =>
      var artist := key[..i];
      assert Contains(key, Sep);
      assert artist + Sep + key[i + |Sep|..] == key by {
        assert key[i..i + |Sep|] == Sep;
      }
      forall j | 0 <= j <= |artist| - |Sep|
        ensures !OccursAt(artist, Sep, j)
      {
        assert artist[j..j + |Sep|] == key[j..j + |Sep|];
        assert !OccursAt(key, Sep, j);
      }
  }

  /** An artist name with no separator in it and not ending in `" -"` is
      recovered from the key, and so is the title.  (For an artist such as
      `"a -"` the first separator of `"a - - b"` starts inside the artist.) */
  lemma SplitKeyJoin(artist: string, title: string)
    requires !Contains(artist, Sep)
    requires !(|artist| >= 2 && artist[|artist| - 2] == ' ' && artist[|artist| - 1] == '-')
    ensures SplitKey(artist + Sep + title) == Some((artist, title))
  {
    var key := artist + Sep + title;
    var n := |artist|;
    assert key[n..n + |Sep|] == Sep;
    assert key[n] == ' ' && key[n + 1] == '-' && key[n + 2] == ' ';
    forall j | 0 <= j < n
      ensures !OccursAt(key, Sep, j)
    {
      if j + |Sep| <= n {
        assert key[j..j + |Sep|] == artist[j..j + |Sep|];
        assert !OccursAt(artist, Sep, j);
      } else if j == n - 1 {
        assert key[j + 1] == ' ';
      } else {
        assert key[j] == artist[n - 2] && key[j + 1] == artist[n - 1];
      }
    }
    assert OccursAt(key, Sep, n);
    assert FirstOccurrence(key, Sep, 0) == Some(n);
    assert key[..n] == artist && key[n + |Sep|..] == title;
  }

  /** The field the values go to: `lyrics` when the base name mentions
      lyrics, `chords` otherwise. */
  function ValueField(basename: string): (f: string)
    ensures f == "lyrics" <==> Contains(basename, "lyrics")
    ensures f == "lyrics" || f == "chords"
  {
    if Contains(basename, "lyrics") then "lyrics" else "chords"
  }

  /** The line written for one legacy pair, if any. */
  function MigratedLine(kv: (string, string), field: string): seq<Line> {
    match SplitKey(kv.0)
    case None => []
    case Some(at) => [Parsed(NewEntry(at.0, at.1, kv.1, field))]
  }

  /** The JSON-Lines file written for the legacy pairs, in order. */
  function Migrated(data: seq<(string, string)>, field: string): seq<Line> {
    if data == [] then []
    else Migrated(data[..|data| - 1], field) + MigratedLine(data[|data| - 1], field)
  }

  /** `migrate_cache_to_jsonl`: with no legacy file nothing is written;
      otherwise the output file is created (or truncated) and one line is
      written per key that splits.  Removing the legacy file is not
      modelled. */
  method MigrateCacheToJsonl(basename: string, legacy: Option<seq<(string, string)>>, out: JsonlCache)
    requires out.Valid()
    modifies out
    ensures out.Valid()
    ensures legacy.None? ==> out.present == old(out.present) && out.lines == old(out.lines)
    ensures legacy.Some? ==> out.present && out.lines == Migrated(legacy.value, ValueField(basename))
  {
    if legacy.None? {
      return;
    }
    var data := legacy.value;
    var field := ValueField(basename);
    out.present := true;
    out.lines := [];
    var i := 0;
    while i < |data|
      invariant 0 <= i <= |data|
      invariant out.present && out.lines == Migrated(data[..i], field)
    {
      assert data[..i + 1][..i] == data[..i];
      var (key, value) := data[i];
      var parts := SplitKey(key);
      if parts.Some? {
        var (artist, title) := parts.value;
        out.lines := out.lines + [Parsed(NewEntry(artist, title, value, field))];
      }
      i := i + 1;
    }
    assert data[..i] == data;
  }

  /** The legacy object as a dictionary: a later pair overrides an earlier
      one with the same key (a JSON object has one pair per key). */
  function Dict(data: seq<(string, string)>): map<string, string> {
    if data == [] then map[] else Dict(data[..|data| - 1])[data[|data| - 1].0 := data[|data| - 1].1]
  }

  /** The part of a dictionary `jsonl_load_all` can give back: the keys with
      a separator. */
  function Retained(d: map<string, string>): map<string, Option<string>> {
    map k | k in d && Contains(k, Sep) :: Some(d[k])
  }

  lemma RetainedUpdate(d: map<string, string>, k: string, v: string)
    ensures Retained(d[k := v]) == if Contains(k, Sep) then Retained(d)[k := Some(v)] else Retained(d)
  {
  }

  /** Loading the migrated file with its field gives back the legacy
      dictionary restricted to the keys that split. */
  lemma {:induction false} MigrateRoundTrip(data: seq<(string, string)>, field: string)
    requires field != "artist" && field != "title"
    ensures LoadAllOf(Migrated(data, field), field) == Retained(Dict(data))
  {
    if data != [] {
      var init := data[..|data| - 1];
      var (k, v) := data[|data| - 1];
      var w := Migrated(init, field);
      MigrateRoundTrip(init, field);
      RetainedUpdate(Dict(init), k, v);
      SplitKeySpec(k);
      match SplitKey(k)
      case None =>
        assert Migrated(data, field) == w;
      case Some(at) =>
        var e := NewEntry(at.0, at.1, v, field);
        var lines := w + [Parsed(e)];
        assert Migrated(data, field) == lines;
        assert lines[..|lines| - 1] == w;
        assert KeyOf(e) == k;
    }
  }

  /** The migration works pair by pair, keeping the legacy order. */
  lemma {:induction false} MigratedAppend(a: seq<(string, string)>, b: seq<(string, string)>, field: string)
    ensures Migrated(a + b, field) == Migrated(a, field) + Migrated(b, field)
    decreases |b|
  {
    if b == [] {
      assert a + b == a;
    } else {
      var b' := b[..|b| - 1];
      assert (a + b)[..|a + b| - 1] == a + b';
      assert (a + b)[|a + b| - 1] == b[|b| - 1];
      MigratedAppend(a, b', field);
      AppendAssoc(Migrated(a, field), Migrated(b', field), MigratedLine(b[|b| - 1], field));
    }
  }

  /** One pair yields one record exactly when its key splits, and that
      record holds the artist, the title and the value under the field. */
  lemma MigratedOne(key: string, value: string, field: string)
    requires field != "artist" && field != "title"
    ensures |Migrated([(key, value)], field)| == (if Contains(key, Sep) then 1 else 0)
    ensures Contains(key, Sep) ==>
              var e := Migrated([(key, value)], field)[0].entry;
              KeyOf(e) == key && e[field] == value && !Contains(e["artist"], Sep)
  {
    SplitKeySpec(key);
    assert [(key, value)][..0] == [];
  }
}
