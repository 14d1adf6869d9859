/** The "new setlist" page: the user picks songs in order from the song
    library (optionally filtered by a search), may override the key of each
    picked song, names the setlist and saves it. Saving inserts one
    `setlists` row and then one `setlist_songs` row per picked song. */
module SetlistBuilder {
  import opened Text
  import opened Seqs
  import Search

  /** A row of the `songs` table as the page loads it. */
  datatype Song = Song(id: string, title: string, originalKey: Option<string>, tempo: Option<string>, lyrics: string)

  /** One `setlist_songs` row. */
  datatype SetlistSongRow = SetlistSongRow(setlistId: string, songId: string, position: int, keyOverride: Option<string>)

  /** Why a submit stopped, in the order the checks and the two inserts run. */
  datatype SubmitError = NotSignedIn | NameRequired | NoSongSelected | CreateFailed | RowsFailed

  // ---------------------------------------------------------------------
  // Selection
  // ---------------------------------------------------------------------

  /** `toggleSong`: a picked song is un-picked, any other song is picked
      and goes to the end of the order. */
  function Toggle(prev: seq<string>, id: string): (r: seq<string>)
    ensures id in r <==> id !in prev
    ensures forall x :: x != id ==> (x in r <==> x in prev)
    ensures id !in prev ==> r == prev + [id]
    ensures Without(r, id) == Without(prev, id)
    ensures NoDup(prev) ==> NoDup(r)
  {
    if id in prev then
      Without(prev, id)
    else
      WithoutAppend(prev, [id], id);
      assert Without([id], id) == [];
      assert NoDup(prev) ==> NoDup(prev + [id]) by {
        if NoDup(prev) {
          forall i, j | 0 <= i < j < |prev + [id]| ensures (prev + [id])[i] != (prev + [id])[j] {
            if j == |prev| { assert (prev + [id])[i] == prev[i]; }
          }
        }
      }
      prev + [id]
  }

  /** Toggling a song twice gives back the selection exactly when the song
      was not picked or was the last one picked; otherwise the song moves to
      the end of the order. */
  lemma ToggleTwice(prev: seq<string>, id: string)
    requires NoDup(prev)
    ensures id in prev ==> Toggle(Toggle(prev, id), id) == Without(prev, id) + [id]
    ensures Toggle(Toggle(prev, id), id) == prev <==> (id !in prev || prev[|prev| - 1] == id)
  {
    var twice := Toggle(Toggle(prev, id), id);
    if id in prev {
      assert twice == Without(prev, id) + [id];
      if prev[|prev| - 1] == id {
        WithoutLast(prev);
        assert prev == prev[..|prev| - 1] + [id];
      } else {
        assert twice[|twice| - 1] == id;
      }
    }
  }

  // ---------------------------------------------------------------------
  // Search
  // ---------------------------------------------------------------------

  /** `filteredSongs`: every song for a blank query, otherwise the songs
      whose title or lyrics contain the query, in library order. */
  function FilterSongs(songs: seq<Song>, search: string): (r: seq<Song>)
    ensures AllSpace(search) ==> r == songs
    ensures IsSubsequence(r, songs)
    ensures !AllSpace(search) ==>
              forall s :: s in r <==> s in songs && Search.Matches(s.title, s.lyrics, Search.Query(search))
  {
    Search.FilterSongs(songs, (s: Song) => s.title, (s: Song) => s.lyrics, search)
  }

  // ---------------------------------------------------------------------
  // Keys
  // ---------------------------------------------------------------------

  /** `changeKey`: the override of one song set, every other left as is. */
  function SetOverride(overrides: map<string, string>, id: string, value: string): (r: map<string, string>)
    ensures r.Keys == overrides.Keys + {id}
    ensures r[id] == value
    ensures forall x :: x in overrides && x != id ==> r[x] == overrides[x]
  {
    overrides[id := value]
  }

  /** The key shown beside a song: `keyOverrides[id] ?? original_key ?? ''`. */
  function CurrentKey(overrides: map<string, string>, song: Song): (r: string)
    ensures song.id in overrides ==> r == overrides[song.id]
    ensures song.id !in overrides && song.originalKey.Some? ==> r == song.originalKey.value
    ensures song.id !in overrides && song.originalKey.None? ==> r == ""
  {
    if song.id in overrides then overrides[song.id] else song.originalKey.OrElse("")
  }

  /** After the key field of one song is edited, that song shows the typed
      value and every other song shows what it showed before. */
  lemma CurrentKeyAfterChange(overrides: map<string, string>, id: string, value: string, song: Song)
    ensures song.id == id ==> CurrentKey(SetOverride(overrides, id, value), song) == value
    ensures song.id != id ==> CurrentKey(SetOverride(overrides, id, value), song) == CurrentKey(overrides, song)
  {
  }


  // ---------------------------------------------------------------------
  // Saving
  // ---------------------------------------------------------------------

  /** `songs.find(s => s.id === id)`: the first song with that id. */
  function FindSong(songs: seq<Song>, id: string): (r: Option<Song>)
    ensures r.None? <==> forall i :: 0 <= i < |songs| ==> songs[i].id != id
    ensures r.Some? ==> exists i :: 0 <= i < |songs| && songs[i] == r.value && r.value.id == id &&
                                    forall j :: 0 <= j < i ==> songs[j].id != id
  {
    if songs == [] then None
    else if songs[0].id == id then Some(songs[0])
    else
      var r := FindSong(songs[1..], id);
      assert r.Some? ==> exists i :: 0 <= i < |songs| && songs[i] == r.value && r.value.id == id &&
                                    forall j :: 0 <= j < i ==> songs[j].id != id by {
        if r.Some? {
          var i :| 0 <= i < |songs[1..]| && songs[1..][i] == r.value && r.value.id == id &&
                   forall j :: 0 <= j < i ==> songs[1..][j].id != id;
          assert songs[i + 1] == r.value;
          assert forall j :: 0 <= j < i + 1 ==> songs[j].id != id by {
            forall j | 0 <= j < i + 1 ensures songs[j].id != id {
              if j > 0 { assert songs[j] == songs[1..][j - 1]; }
            }
          }
        }
      }
      r
  }

  /** The `key_override` stored for a picked song: its trimmed override, kept
      only when that is non-empty, the song has a non-empty original key and
      the two differ; `null` otherwise. */
  function KeyOverride(overrides: map<string, string>, song: Option<Song>, id: string): (r: Option<string>)
    ensures r.Some? <==>
              id in overrides && Trim(overrides[id]) != [] &&
              song.Some? && song.value.originalKey.Some? && song.value.originalKey.value != [] &&
              Trim(overrides[id]) != song.value.originalKey.value
    ensures r.Some? ==> r.value == Trim(overrides[id])
  {
    if id !in overrides then None
    else
      var o := Trim(overrides[id]);
      if Truthy(o) && song.Some? && song.value.originalKey.Some? &&
         Truthy(song.value.originalKey.value) && o != song.value.originalKey.value
      then Some(o)
      else None
  }

  /** A stored override is never blank, never padded and never the song's
      own original key: choosing the original key again stores `null`. */
  lemma KeyOverrideMeaningful(overrides: map<string, string>, song: Song)
    ensures KeyOverride(overrides, Some(song), song.id).Some? ==>
              var o := KeyOverride(overrides, Some(song), song.id).value;
              o != [] && !IsSpace(o[0]) && !IsSpace(o[|o| - 1]) && Some(o) != song.originalKey
    ensures song.originalKey.Some? && Trim(song.originalKey.value) == song.originalKey.value ==>
              KeyOverride(SetOverride(overrides, song.id, song.originalKey.value), Some(song), song.id).None?
  {
  }

  /** What is saved for a song follows what its key field shows: a song whose
      field was never edited saves `null`; an edited one saves the shown key,
      trimmed, exactly when that is non-blank and differs from a non-empty
      original key. */
  lemma StoredOverrideIsShownKey(overrides: map<string, string>, song: Song)
    ensures song.id !in overrides ==> KeyOverride(overrides, Some(song), song.id).None?
    ensures song.id in overrides ==>
              var shown := Trim(CurrentKey(overrides, song));
              (KeyOverride(overrides, Some(song), song.id).Some? <==>
                 shown != [] && song.originalKey.Some? && song.originalKey.value != [] &&
                 shown != song.originalKey.value)
    ensures KeyOverride(overrides, Some(song), song.id).Some? ==>
              KeyOverride(overrides, Some(song), song.id).value == Trim(CurrentKey(overrides, song))
  {
  }

  /** The rows for `ids`, numbered from `start + 1`. */
  function RowsFrom(setlistId: string, ids: seq<string>, start: nat, songs: seq<Song>, overrides: map<string, string>)
    : (r: seq<SetlistSongRow>)
    ensures |r| == |ids|
    ensures forall i :: 0 <= i < |ids| ==>
              r[i] == SetlistSongRow(setlistId, ids[i], start + i + 1, KeyOverride(overrides, FindSong(songs, ids[i]), ids[i]))
  {
    if ids == [] then []
    else
      [SetlistSongRow(setlistId, ids[0], start + 1, KeyOverride(overrides, FindSong(songs, ids[0]), ids[0]))]
      + RowsFrom(setlistId, ids[1..], start + 1, songs, overrides)
  }

  /** `rows`: one row per picked song, in the picked order, at positions
      1, 2, ..., n, each with its key override. */
  function BuildRows(setlistId: string, ids: seq<string>, songs: seq<Song>, overrides: map<string, string>)
    : (r: seq<SetlistSongRow>)
    ensures |r| == |ids|
    ensures forall i :: 0 <= i < |r| ==>
              r[i].setlistId == setlistId && r[i].songId == ids[i] && r[i].position == i + 1 &&
              r[i].keyOverride == KeyOverride(overrides, FindSong(songs, ids[i]), ids[i])
  {
    RowsFrom(setlistId, ids, 0, songs, overrides)
  }

  /** Positions run 1..n without gaps or repeats, and a duplicate-free
      selection gives rows for distinct songs. */
  lemma RowsWellFormed(setlistId: string, ids: seq<string>, songs: seq<Song>, overrides: map<string, string>)
    requires NoDup(ids)
    ensures var rows := BuildRows(setlistId, ids, songs, overrides);
            (forall i, j :: 0 <= i < j < |rows| ==> rows[i].position < rows[j].position && rows[i].songId != rows[j].songId) &&
            (|rows| > 0 ==> rows[0].position == 1 && rows[|rows| - 1].position == |ids|)
  {
  }

  /** `handleSubmit`'s checks, the first failing one wins: signed in, a
      non-blank name, at least one song. */
  function CheckSubmit(signedIn: bool, name: string, selected: seq<string>): (r: Option<SubmitError>)
    ensures r == None <==> signedIn && !IsBlank(name) && selected != []
    ensures r == Some(NotSignedIn) <==> !signedIn
    ensures r == Some(NameRequired) <==> signedIn && IsBlank(name)
    ensures r == Some(NoSongSelected) <==> signedIn && !IsBlank(name) && selected == []
  {
    if !signedIn then Some(NotSignedIn)
    else if IsBlank(name) then Some(NameRequired)
    else if |selected| == 0 then Some(NoSongSelected)
    else None
  }

  /** The state of the page that the handlers read and write. */
  class SetlistBuilderPage {
    var signedIn: bool
    var name: string
    var songs: seq<Song>
    var selected: seq<string>
    var keyOverrides: map<string, string>
    var search: string
    var saving: bool
    var error: Option<SubmitError>

    ghost predicate Valid()
      reads this
    {
      NoDup(selected)
    }

    /** The page once the user and the song library have loaded. */
    constructor (signedIn: bool, songs: seq<Song>)
      ensures Valid()
      ensures this.signedIn == signedIn && this.songs == songs
      ensures name == "" && selected == [] && keyOverrides == map[] && search == ""
      ensures !saving && error == None
    {
      this.signedIn := signedIn;
      this.songs := songs;
      name := "";
      selected := [];
      keyOverrides := map[];
      search := "";
      saving := false;
      error := None;
    }

    /** The songs listed under the search box. */
    function Visible(): seq<Song>
      reads this
    {
      FilterSongs(songs, search)
    }

    /** The name input. */
    method TypeName(value: string)
      modifies this`name
      ensures name == value
    {
      name := value;
    }

    /** The search input: the listed songs follow the new query. */
    method TypeSearch(value: string)
      modifies this`search
      ensures search == value
      ensures AllSpace(value) ==> Visible() == songs
      ensures IsSubsequence(Visible(), songs)
    {
      search := value;
    }

    method ToggleSong(id: string)
      requires Valid()
      modifies this`selected
      ensures Valid()
      ensures selected == Toggle(old(selected), id)
    {
      selected := Toggle(selected, id);
    }

    method ChangeKey(id: string, value: string)
      modifies this`keyOverrides
      ensures keyOverrides == SetOverride(old(keyOverrides), id, value)
    {
      keyOverrides := keyOverrides[id := value];
    }

    /** `handleSubmit`. The backend's replies are parameters: `created` is
        the id of the inserted setlist (`None` when the insert failed), and
        `rowsStored` says whether the `setlist_songs` insert succeeded. The
        outputs are what the page sends: the setlist name, the rows, and the
        page it navigates to. */
    method Submit(created: Option<string>, rowsStored: bool)
      returns (sentName: Option<string>, sentRows: Option<seq<SetlistSongRow>>, navigateTo: Option<string>)
      requires Valid()
      modifies this`error, this`saving
      ensures CheckSubmit(signedIn, name, selected).Some? ==>
                error == CheckSubmit(signedIn, name, selected) && saving == old(saving) &&
                sentName == None && sentRows == None && navigateTo == None
      ensures CheckSubmit(signedIn, name, selected).None? ==>
                !saving && sentName == Some(Trim(name))
      ensures CheckSubmit(signedIn, name, selected).None? && (created.None? || created.value == "") ==>
                error == Some(CreateFailed) && sentRows == None && navigateTo == None
      ensures CheckSubmit(signedIn, name, selected).None? && created.Some? && created.value != "" ==>
                sentRows == Some(BuildRows(created.value, selected, songs, keyOverrides)) &&
                error == (if rowsStored then None else Some(RowsFailed)) &&
                navigateTo == (if rowsStored then Some("/setlists/" + created.value) else None)
      ensures sentRows.Some? ==>
                forall i, j :: 0 <= i < j < |sentRows.value| ==>
                  sentRows.value[i].songId != sentRows.value[j].songId &&
                  sentRows.value[i].position < sentRows.value[j].position
    {
      sentName, sentRows, navigateTo := None, None, None;
      error := None;
      if !signedIn {
        error := Some(NotSignedIn);
        return;
      }
      if IsBlank(name) {
        error := Some(NameRequired);
        return;
      }
      if |selected| == 0 {
        error := Some(NoSongSelected);
        return;
      }
      saving := true;
      sentName := Some(Trim(name));
      if created.None? || !Truthy(created.value) {
        error := Some(CreateFailed);
        saving := false;
        return;
      }
      var setlistId := created.value;
      var rows := BuildRows(setlistId, selected, songs, keyOverrides);
      RowsWellFormed(setlistId, selected, songs, keyOverrides);
      sentRows := Some(rows);
      if !rowsStored {
        error := Some(RowsFailed);
        saving := false;
        return;
      }
      navigateTo := Some("/setlists/" + setlistId);
      saving := false;
    }
  }
}
