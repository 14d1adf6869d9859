/** The song library list: the loaded songs, filtered by the search box and
    sorted on a fresh copy under one of six sort modes. Date parsing and
    locale collation are not modelled; they are parameters (`Env`). */
module SongLibrary {
  import opened Text
  import opened Seqs
  import Search

  /** A row of the `songs` table as the list loads it. */
  datatype SongRow = SongRow(
    id: string, title: string, originalKey: Option<string>, tempo: Option<string>, lyrics: string, createdAt: string)

  /** The sort-mode select; any other value reaching the comparator is
      `Unrecognised`. */
  datatype SortMode = Newest | Oldest | TitleAsc | TitleDesc | KeyAsc | KeyDesc | Unrecognised(raw: string)

  /** The runtime services the comparator uses: `new Date(s).getTime()`,
      and `localeCompare` under the `'mn'` and `'en'` locales. */
  datatype Env = Env(time: string -> int, collateMn: (string, string) -> int, collateEn: (string, string) -> int)

  /** The key a song sorts by: `original_key ?? ''`. */
  function SortKey(s: SongRow): (k: string)
    ensures s.originalKey.Some? ==> k == s.originalKey.value
    ensures s.originalKey.None? ==> k == ""
  {
    s.originalKey.OrElse("")
  }

  /** The comparator passed to `sort`. */
  function Compare(mode: SortMode, env: Env, a: SongRow, b: SongRow): (r: int)
    ensures mode == Newest ==> (r < 0 <==> env.time(a.createdAt) > env.time(b.createdAt))
    ensures mode == Oldest ==> (r < 0 <==> env.time(a.createdAt) < env.time(b.createdAt))
    ensures mode == Newest || mode == Oldest ==> (r == 0 <==> env.time(a.createdAt) == env.time(b.createdAt))
    ensures mode == TitleAsc ==> r == env.collateMn(a.title, b.title)
    ensures mode == TitleDesc ==> r == env.collateMn(b.title, a.title)
    ensures mode == KeyAsc ==> r == env.collateEn(SortKey(a), SortKey(b))
    ensures mode == KeyDesc ==> r == env.collateEn(SortKey(b), SortKey(a))
    ensures mode.Unrecognised? ==> r == 0
  {
    match mode
    case Newest => env.time(b.createdAt) - env.time(a.createdAt)
    case Oldest => env.time(a.createdAt) - env.time(b.createdAt)
    case TitleAsc => env.collateMn(a.title, b.title)
    case TitleDesc => env.collateMn(b.title, a.title)
    case KeyAsc => env.collateEn(SortKey(a), SortKey(b))
    case KeyDesc => env.collateEn(SortKey(b), SortKey(a))
    case Unrecognised(_) => 0
  }

  /** Each descending mode is its ascending partner with the arguments
      swapped, a missing key sorts as the empty key, and an unknown mode
      finds every pair equal. */
  lemma CompareMirrors(env: Env, a: SongRow, b: SongRow, raw: string)
    ensures Compare(TitleDesc, env, a, b) == Compare(TitleAsc, env, b, a)
    ensures Compare(KeyDesc, env, a, b) == Compare(KeyAsc, env, b, a)
    ensures Compare(Newest, env, a, b) == Compare(Oldest, env, b, a)
    ensures Compare(Unrecognised(raw), env, a, b) == 0
    ensures a.originalKey.None? ==> Compare(KeyAsc, env, a, b) == Compare(KeyAsc, env, a.(originalKey := Some("")), b)
  {
  }

  function Comparator(mode: SortMode, env: Env): (SongRow, SongRow) -> int
  {
    (a: SongRow, b: SongRow) => Compare(mode, env, a, b)
  }

  // ---------------------------------------------------------------------
  // Sorting
  // ---------------------------------------------------------------------

  /** `cmp` orders its type totally, up to ties. */
  ghost predicate TotalPreorder<T(!new)>(cmp: (T, T) -> int)
  {
    (forall a, b :: cmp(a, b) <= 0 || cmp(b, a) <= 0) &&
    (forall a, b, c :: cmp(a, b) <= 0 && cmp(b, c) <= 0 ==> cmp(a, c) <= 0)
  }

  ghost predicate SortedBy<T>(s: seq<T>, cmp: (T, T) -> int)
  {
    forall i, j :: 0 <= i < j < |s| ==> cmp(s[i], s[j]) <= 0
  }

  /** `x` placed before the first element it does not compare after. */
  function Insert<T>(x: T, ys: seq<T>, cmp: (T, T) -> int): (r: seq<T>)
    ensures |r| == |ys| + 1
    ensures multiset(r) == multiset(ys) + multiset{x}
  {
    if ys == [] then [x]
    else if cmp(x, ys[0]) <= 0 then [x] + ys
    else
      assert ys == [ys[0]] + ys[1..];
      [ys[0]] + Insert(x, ys[1..], cmp)
  }

  /** `array.sort(cmp)`, stable: an insertion sort. */
  function SortBy<T>(xs: seq<T>, cmp: (T, T) -> int): (r: seq<T>)
    ensures |r| == |xs|
    ensures multiset(r) == multiset(xs)
  {
    if xs == [] then []
    else
      assert xs == [xs[0]] + xs[1..];
      Insert(xs[0], SortBy(xs[1..], cmp), cmp)
  }

  /** A sorted list stays sorted under a new head that is below all of it. */
  lemma SortedCons<T>(h: T, rest: seq<T>, cmp: (T, T) -> int)
    requires SortedBy(rest, cmp)
    requires forall k :: 0 <= k < |rest| ==> cmp(h, rest[k]) <= 0
    ensures SortedBy([h] + rest, cmp)
  {
    var r := [h] + rest;
    forall i, j | 0 <= i < j < |r| ensures cmp(r[i], r[j]) <= 0 {
      assert r[j] == rest[j - 1];
      if i > 0 { assert r[i] == rest[i - 1]; }
    }
  }

  /** Whatever is below `x` and all of `ys` is below all of `Insert(x, ys)`. */
  lemma InsertBelow<T>(lo: T, x: T, ys: seq<T>, cmp: (T, T) -> int)
    requires cmp(lo, x) <= 0
    requires forall k :: 0 <= k < |ys| ==> cmp(lo, ys[k]) <= 0
    ensures forall k :: 0 <= k < |Insert(x, ys, cmp)| ==> cmp(lo, Insert(x, ys, cmp)[k]) <= 0
  {
    var r := Insert(x, ys, cmp);
    forall k | 0 <= k < |r| ensures cmp(lo, r[k]) <= 0 {
      assert r[k] in multiset(r);
      if r[k] != x {
        assert r[k] in multiset(ys);
        var m :| 0 <= m < |ys| && ys[m] == r[k];
      }
    }
  }

  lemma {:induction false} InsertSorted<T(!new)>(x: T, ys: seq<T>, cmp: (T, T) -> int)
    requires TotalPreorder(cmp) && SortedBy(ys, cmp)
    ensures SortedBy(Insert(x, ys, cmp), cmp)
  {
    if ys == [] {
    } else if cmp(x, ys[0]) <= 0 {
      forall k | 0 <= k < |ys| ensures cmp(x, ys[k]) <= 0 {
        if k > 0 { assert cmp(ys[0], ys[k]) <= 0; }
      }
      SortedCons(x, ys, cmp);
    } else {
      assert cmp(ys[0], x) <= 0;
      assert SortedBy(ys[1..], cmp) by {
        forall i, j | 0 <= i < j < |ys[1..]| ensures cmp(ys[1..][i], ys[1..][j]) <= 0 {
          assert ys[1..][i] == ys[i + 1] && ys[1..][j] == ys[j + 1];
        }
      }
      InsertSorted(x, ys[1..], cmp);
      forall k | 0 <= k < |ys[1..]| ensures cmp(ys[0], ys[1..][k]) <= 0 {
        assert ys[1..][k] == ys[k + 1];
      }
      InsertBelow(ys[0], x, ys[1..], cmp);
      SortedCons(ys[0], Insert(x, ys[1..], cmp), cmp);
    }
  }

  /** Under a total preorder the sort's result is ordered. */
  lemma {:induction false} SortSorted<T(!new)>(xs: seq<T>, cmp: (T, T) -> int)
    requires TotalPreorder(cmp)
    ensures SortedBy(SortBy(xs, cmp), cmp)
  {
    if xs != [] {
      SortSorted(xs[1..], cmp);
      InsertSorted(xs[0], SortBy(xs[1..], cmp), cmp);
    }
  }

  /** With a comparator that finds every pair equal the sort keeps the
      order it was given (`sort` is stable). */
  lemma {:induction false} SortAllEqual<T>(xs: seq<T>, cmp: (T, T) -> int)
    requires forall a, b :: cmp(a, b) == 0
    ensures SortBy(xs, cmp) == xs
  {
    if xs != [] {
      SortAllEqual(xs[1..], cmp);
      assert xs == [xs[0]] + xs[1..];
    }
  }

  /** `Filter` over a list with a head. */
  lemma FilterCons<T(!new)>(h: T, rest: seq<T>, p: T -> bool)
    ensures Filter([h] + rest, p) == (if p(h) then [h] + Filter(rest, p) else Filter(rest, p))
  {
    assert ([h] + rest)[1..] == rest;
  }

  /** Inserting `x` among elements that all tie with it under `cmp` (those
      satisfying `p`) puts `x` before every one of them. */
  lemma {:induction false} FilterInsert<T(!new)>(x: T, ys: seq<T>, cmp: (T, T) -> int, p: T -> bool)
    requires forall a, b :: p(a) && p(b) ==> cmp(a, b) <= 0
    ensures Filter(Insert(x, ys, cmp), p) == (if p(x) then [x] + Filter(ys, p) else Filter(ys, p))
  {
    if ys == [] {
      FilterCons(x, [], p);
    } else if cmp(x, ys[0]) <= 0 {
      FilterCons(x, ys, p);
    } else {
      assert ys == [ys[0]] + ys[1..];
      FilterInsert(x, ys[1..], cmp, p);
      FilterCons(ys[0], Insert(x, ys[1..], cmp), p);
      FilterCons(ys[0], ys[1..], p);
      assert !(p(x) && p(ys[0]));
    }
  }

  /** The sort is stable: elements that all tie with one another under
      `cmp` keep their relative order. */
  lemma {:induction false} SortStable<T(!new)>(xs: seq<T>, cmp: (T, T) -> int, p: T -> bool)
    requires forall a, b :: p(a) && p(b) ==> cmp(a, b) <= 0
    ensures Filter(SortBy(xs, cmp), p) == Filter(xs, p)
  {
    if xs != [] {
      SortStable(xs[1..], cmp, p);
      FilterInsert(xs[0], SortBy(xs[1..], cmp), cmp, p);
      assert xs == [xs[0]] + xs[1..];
      FilterCons(xs[0], xs[1..], p);
    }
  }

  /** Every mode's comparator is a total preorder when the two collations
      are. */
  lemma ComparatorPreorder(mode: SortMode, env: Env)
    requires TotalPreorder(env.collateMn) && TotalPreorder(env.collateEn)
    ensures TotalPreorder(Comparator(mode, env))
  {
    var cmp := Comparator(mode, env);
    forall a, b, c | cmp(a, b) <= 0 && cmp(b, c) <= 0 ensures cmp(a, c) <= 0 {
      match mode
      case TitleDesc => assert env.collateMn(c.title, b.title) <= 0 && env.collateMn(b.title, a.title) <= 0;
      case KeyDesc => assert env.collateEn(SortKey(c), SortKey(b)) <= 0 && env.collateEn(SortKey(b), SortKey(a)) <= 0;
      case _ =>
    }
  }

  // ---------------------------------------------------------------------
  // The list
  // ---------------------------------------------------------------------

  /** The filter step of `filteredAndSorted`. */
  function FilterRows(songs: seq<SongRow>, search: string): (r: seq<SongRow>)
    ensures AllSpace(search) ==> r == songs
    ensures IsSubsequence(r, songs)
    ensures !AllSpace(search) ==>
              forall s :: s in r <==> s in songs && Search.Matches(s.title, s.lyrics, Search.Query(search))
  {
    Search.FilterSongs(songs, (s: SongRow) => s.title, (s: SongRow) => s.lyrics, search)
  }

  /** `filteredAndSorted`: the matching songs, each exactly as often as in
      the filter's result, reordered by the chosen mode. */
  function FilteredAndSorted(songs: seq<SongRow>, search: string, mode: SortMode, env: Env): (r: seq<SongRow>)
    ensures multiset(r) == multiset(FilterRows(songs, search))
    ensures AllSpace(search) ==> multiset(r) == multiset(songs)
    ensures forall s :: s in r <==>
              s in songs && (AllSpace(search) || Search.Matches(s.title, s.lyrics, Search.Query(search)))
  {
    var list := FilterRows(songs, search);
    var sorted := SortBy(list, Comparator(mode, env));
    assert forall s :: s in sorted <==> s in list by {
      forall s ensures s in sorted <==> s in list {
        assert s in sorted <==> s in multiset(sorted);
        assert s in list <==> s in multiset(list);
      }
    }
    sorted
  }

  /** The list is ordered by the chosen mode whenever the collations are
      total preorders. */
  lemma FilteredAndSortedOrdered(songs: seq<SongRow>, search: string, mode: SortMode, env: Env)
    requires TotalPreorder(env.collateMn) && TotalPreorder(env.collateEn)
    ensures SortedBy(FilteredAndSorted(songs, search, mode, env), Comparator(mode, env))
  {
    ComparatorPreorder(mode, env);
    SortSorted(FilterRows(songs, search), Comparator(mode, env));
  }

  /** Songs that tie under the chosen mode are listed in loaded order. */
  lemma FilteredAndSortedStable(songs: seq<SongRow>, search: string, mode: SortMode, env: Env, p: SongRow -> bool)
    requires forall a, b :: p(a) && p(b) ==> Compare(mode, env, a, b) <= 0
    ensures Filter(FilteredAndSorted(songs, search, mode, env), p) == Filter(FilterRows(songs, search), p)
  {
    SortStable(FilterRows(songs, search), Comparator(mode, env), p);
  }

  /** Under either key order, the songs sharing one key are listed in loaded
      order, whenever the `'en'` collation finds that key equal to itself. */
  lemma SameKeyKeepsOrder(songs: seq<SongRow>, search: string, mode: SortMode, env: Env, key: string)
    requires mode == KeyAsc || mode == KeyDesc
    requires env.collateEn(key, key) == 0
    ensures Filter(FilteredAndSorted(songs, search, mode, env), (s: SongRow) => SortKey(s) == key) ==
            Filter(FilterRows(songs, search), (s: SongRow) => SortKey(s) == key)
  {
    FilteredAndSortedStable(songs, search, mode, env, (s: SongRow) => SortKey(s) == key);
  }

  /** An unrecognised mode leaves the filtered songs in loaded order. */
  lemma UnrecognisedKeepsOrder(songs: seq<SongRow>, search: string, raw: string, env: Env)
    ensures FilteredAndSorted(songs, search, Unrecognised(raw), env) == FilterRows(songs, search)
  {
    SortAllEqual(FilterRows(songs, search), Comparator(Unrecognised(raw), env));
  }
}
