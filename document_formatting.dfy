/** Song ordering (app/document_formatting.py, `sort_songs`).

    `sorted(song_list, key=...)` is Python's stable sort, keyed by the title
    with every character outside `[a-zA-Z0-9]` removed and the rest
    lower-cased.  Keys are compared as Python compares strings: by code point,
    lexicographically.  The model sorts by stable insertion, which yields the
    same list as any stable sort on the same key. */
module DocumentFormatting {
  import opened Strings

  /** A row of the song list: its `Artist` and `Title`. */
  datatype Song = Song(artist: string, title: string)

  /** `re.sub(r'[^a-zA-Z0-9]', '', title).lower()`, one character at a time. */
  function SortKey(title: string): string {
    if title == [] then []
    else (if IsAsciiAlnum(title[0]) then [LowerChar(title[0])] else []) + SortKey(title[1..])
  }

  /** The key is the title's ASCII letters and digits, in order and
      lower-cased: only lower-case letters and digits are left. */
  lemma {:induction false} SortKeyIsLowerFilter(title: string)
    ensures SortKey(title) == Lower(Filter(title, IsAsciiAlnum))
    ensures forall i :: 0 <= i < |SortKey(title)| ==> IsAsciiLower(SortKey(title)[i]) || IsAsciiDigit(SortKey(title)[i])
  {
    if title != [] {
      SortKeyIsLowerFilter(title[1..]);
      var f := Filter(title[1..], IsAsciiAlnum);
      if IsAsciiAlnum(title[0]) {
        assert Filter(title, IsAsciiAlnum) == [title[0]] + f;
        assert Lower([title[0]] + f) == [LowerChar(title[0])] + Lower(f);
      }
    }
  }

  function Key(s: Song): string {
    SortKey(s.title)
  }

  /** Python's `a <= b` on strings. */
  predicate Le(a: string, b: string) {
    a == [] || (b != [] && (a[0] < b[0] || (a[0] == b[0] && Le(a[1..], b[1..]))))
  }

  lemma {:induction false} LeRefl(a: string)
    ensures Le(a, a)
  {
    if a != [] {
      LeRefl(a[1..]);
    }
  }

  lemma {:induction false} LeTotal(a: string, b: string)
    ensures Le(a, b) || Le(b, a)
  {
    if a != [] && b != [] && a[0] == b[0] {
      LeTotal(a[1..], b[1..]);
    }
  }

  lemma {:induction false} LeTrans(a: string, b: string, c: string)
    requires Le(a, b) && Le(b, c)
    ensures Le(a, c)
  {
    if a != [] && a[0] == b[0] && b[0] == c[0] {
      LeTrans(a[1..], b[1..], c[1..]);
    }
  }

  lemma {:induction false} LeAntisym(a: string, b: string)
    requires Le(a, b) && Le(b, a)
    ensures a == b
  {
    if a != [] {
      LeAntisym(a[1..], b[1..]);
    }
  }

  /** Non-decreasing by key: each song's key is at most the next one's. */
  predicate Sorted(r: seq<Song>) {
    |r| <= 1 || (Le(Key(r[0]), Key(r[1])) && Sorted(r[1..]))
  }

  /** The first song of a sorted list has the least key. */
  lemma {:induction false} SortedHead(r: seq<Song>, j: nat)
    requires Sorted(r) && j < |r|
    ensures Le(Key(r[0]), Key(r[j]))
  {
    if j == 0 {
      LeRefl(Key(r[0]));
    } else {
      SortedHead(r[1..], j - 1);
      LeTrans(Key(r[0]), Key(r[1]), Key(r[j]));
    }
  }

  /** Sorted means every pair of songs is in key order. */
  lemma {:induction false} SortedPairwise(r: seq<Song>, i: nat, j: nat)
    requires Sorted(r) && i <= j < |r|
    ensures Le(Key(r[i]), Key(r[j]))
  {
    if i == 0 {
      SortedHead(r, j);
    } else {
      SortedPairwise(r[1..], i - 1, j - 1);
    }
  }

  /** Insert `x` after every song whose key is not greater than its own. */
  function Insert(x: Song, r: seq<Song>): (t: seq<Song>)
    ensures |t| == |r| + 1
    ensures t[0] == x || (r != [] && t[0] == r[0])
  {
    if r == [] then [x]
    else if !Le(Key(r[0]), Key(x)) then [x] + r
    else [r[0]] + Insert(x, r[1..])
  }

  /** Inserting adds exactly `x`. */
  lemma {:induction false} InsertPermutes(x: Song, r: seq<Song>)
    ensures multiset(Insert(x, r)) == multiset(r) + multiset{x}
  {
    if r != [] && Le(Key(r[0]), Key(x)) {
      InsertPermutes(x, r[1..]);
      assert r == [r[0]] + r[1..];
    }
  }

  lemma {:induction false} InsertSorted(x: Song, r: seq<Song>)
    requires Sorted(r)
    ensures Sorted(Insert(x, r))
  {
    if r == [] {
    } else if !Le(Key(r[0]), Key(x)) {
      LeTotal(Key(r[0]), Key(x));
      assert ([x] + r)[1..] == r;
    } else {
      var rest := Insert(x, r[1..]);
      InsertSorted(x, r[1..]);
      assert ([r[0]] + rest)[1..] == rest;
      if rest[0] != x {
        SortedHead(r, 1);
      }
    }
  }

  /** `sort_songs`: a new list of the same songs (the input itself is a value
      and stays as it was). */
  function SortSongs(s: seq<Song>): (r: seq<Song>)
    ensures |r| == |s|
  {
    if s == [] then [] else Insert(s[|s| - 1], SortSongs(s[..|s| - 1]))
  }

  /** The result of `sort_songs` is in key order. */
  lemma {:induction false} SortSongsSorted(s: seq<Song>)
    ensures Sorted(SortSongs(s))
  {
    if s != [] {
      SortSongsSorted(s[..|s| - 1]);
      InsertSorted(s[|s| - 1], SortSongs(s[..|s| - 1]));
    }
  }

  /** The result of `sort_songs` holds exactly the songs of the input. */
  lemma {:induction false} SortSongsPermutes(s: seq<Song>)
    ensures multiset(SortSongs(s)) == multiset(s)
  {
    if s != [] {
      SortSongsPermutes(s[..|s| - 1]);
      InsertPermutes(s[|s| - 1], SortSongs(s[..|s| - 1]));
      assert s == s[..|s| - 1] + [s[|s| - 1]];
    }
  }

  /** The songs of `s` whose key is `k`, in order. */
  function WithKey(s: seq<Song>, k: string): seq<Song> {
    if s == [] then []
    else (if Key(s[0]) == k then [s[0]] else []) + WithKey(s[1..], k)
  }

  lemma {:induction false} WithKeyAppend(a: seq<Song>, b: seq<Song>, k: string)
    ensures WithKey(a + b, k) == WithKey(a, k) + WithKey(b, k)
  {
    if a == [] {
      assert a + b == b;
    } else {
      var x := if Key(a[0]) == k then [a[0]] else [];
      assert (a + b)[0] == a[0] && (a + b)[1..] == a[1..] + b;
      WithKeyAppend(a[1..], b, k);
      AppendAssoc(x, WithKey(a[1..], k), WithKey(b, k));
    }
  }

  lemma {:induction false} WithKeyNone(s: seq<Song>, k: string)
    requires forall j :: 0 <= j < |s| ==> Key(s[j]) != k
    ensures WithKey(s, k) == []
  {
    if s != [] {
      WithKeyNone(s[1..], k);
    }
  }

  /** A sorted list whose first key is above `k` has no song with key `k`. */
  lemma WithKeyAbove(r: seq<Song>, k: string)
    requires Sorted(r) && r != [] && !Le(Key(r[0]), k)
    ensures WithKey(r, k) == []
  {
    forall j | 0 <= j < |r| ensures Key(r[j]) != k {
      SortedHead(r, j);
      if Key(r[j]) == k {
        LeRefl(k);
      }
    }
    WithKeyNone(r, k);
  }

  /** Inserting into a sorted list puts `x` after every song with its key. */
  lemma {:induction false} InsertWithKey(x: Song, r: seq<Song>, k: string)
    requires Sorted(r)
    ensures WithKey(Insert(x, r), k) == WithKey(r, k) + (if Key(x) == k then [x] else [])
  {
    var xs := if Key(x) == k then [x] else [];
    if r == [] {
      assert WithKey([x], k) == xs + WithKey([], k);
    } else if !Le(Key(r[0]), Key(x)) {
      var t := [x] + r;
      assert t[0] == x && t[1..] == r;
      assert WithKey(t, k) == xs + WithKey(r, k);
      if Key(x) == k {
        WithKeyAbove(r, k);
      }
    } else {
      var rest := Insert(x, r[1..]);
      var t := [r[0]] + rest;
      var y := if Key(r[0]) == k then [r[0]] else [];
      assert t[0] == r[0] && t[1..] == rest;
      InsertWithKey(x, r[1..], k);
      assert WithKey(t, k) == y + (WithKey(r[1..], k) + xs);
      AppendAssoc(y, WithKey(r[1..], k), xs);
    }
  }

  /** `sorted` is stable: the songs sharing a key come out in input order. */
  lemma {:induction false} SortSongsStable(s: seq<Song>, k: string)
    ensures WithKey(SortSongs(s), k) == WithKey(s, k)
  {
    if s != [] {
      var init := s[..|s| - 1];
      var x := s[|s| - 1];
      SortSongsStable(init, k);
      SortSongsSorted(init);
      InsertWithKey(x, SortSongs(init), k);
      assert s == init + [x];
      WithKeyAppend(init, [x], k);
      assert WithKey([x], k) == (if Key(x) == k then [x] else []) + WithKey([], k);
    }
  }
}
