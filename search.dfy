/** The free-text song search shared by the song library and the setlist
    builder: the query is the trimmed, lower-cased input, and a song matches
    when its lower-cased title or lyrics contain it. */
module Search {
  import opened Text
  import opened Seqs

  /** `search.trim().toLowerCase()` */
  function Query(search: string): (q: string)
    ensures |q| == |Trim(search)|
    ensures forall i :: 0 <= i < |q| ==> q[i] == LowerChar(Trim(search)[i])
    ensures q == [] <==> AllSpace(search)
  {
    ToLower(Trim(search))
  }

  predicate Matches(title: string, lyrics: string, q: string)
  {
    Contains(ToLower(title), q) || Contains(ToLower(lyrics), q)
  }

  /** Matching ignores the case of the song's title and lyrics: an
      upper-cased song matches exactly the queries the song itself matches. */
  lemma MatchesIgnoresCase(title: string, lyrics: string, q: string)
    ensures Matches(ToUpper(title), ToUpper(lyrics), q) == Matches(title, lyrics, q)
  {
    LowerOfUpper(title);
    LowerOfUpper(lyrics);
  }

  /** The search filter over any list of songs, given how to read a song's
      title and lyrics: the whole list for a blank query, otherwise the
      songs whose title or lyrics contain the query, in list order. */
  function FilterSongs<T(==,!new)>(songs: seq<T>, title: T -> string, lyrics: T -> string, search: string)
    : (r: seq<T>)
    ensures AllSpace(search) ==> r == songs
    ensures IsSubsequence(r, songs)
    ensures !AllSpace(search) ==>
              forall s :: s in r <==> s in songs && Matches(title(s), lyrics(s), Query(search))
  {
    var q := Query(search);
    if q == [] then
      SubsequenceRefl(songs);
      songs
    else
      Filter(songs, (s: T) => Matches(title(s), lyrics(s), q))
  }
}
