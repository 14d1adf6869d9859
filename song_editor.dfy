/** The stand-alone "new / edit song" component: the `id` query parameter
    selects edit mode, the song is loaded into the form, and a save validates
    the form and inserts or updates the `songs` row. */
module SongEditor {
  import opened Text
  import opened SongForm

  datatype SongError = TitleRequired | LyricsRequired | LoadFailed | UpdateFailed | InsertFailed

  /** What the backend answers to the load query. */
  datatype LoadReply = Loaded(record: SongRecord) | NoRow | LoadError

  /** `songId`: the `id` parameter, kept only when it is non-blank. The id
      itself is used untrimmed. */
  function EditSongId(param: Option<string>): (r: Option<string>)
    ensures r.Some? <==> param.Some? && !IsBlank(param.value)
    ensures r.Some? ==> r.value == param.value
  {
    if param.Some? && Truthy(param.value) && Trim(param.value) != "" then param else None
  }

  /** The form checks, the first failing one wins: a non-blank title, then
      non-blank lyrics. */
  function CheckSong(form: Form): (r: Option<SongError>)
    ensures r == None <==> !IsBlank(form.title) && !IsBlank(form.lyrics)
    ensures r == Some(TitleRequired) <==> IsBlank(form.title)
    ensures r == Some(LyricsRequired) <==> !IsBlank(form.title) && IsBlank(form.lyrics)
  {
    if IsBlank(form.title) then Some(TitleRequired)
    else if IsBlank(form.lyrics) then Some(LyricsRequired)
    else None
  }

  /** The payload of both the insert and the update: title and lyrics
      trimmed; key, tempo and YouTube link trimmed, `null` when empty. */
  function EditorPayload(form: Form): (p: Payload)
    ensures p.title == Trim(form.title) && p.lyrics == Trim(form.lyrics)
    ensures p.originalKey == TrimOrNull(form.originalKey)
    ensures p.tempo == TrimOrNull(form.tempo)
    ensures p.youtubeUrl == TrimOrNull(form.youtubeUrl)
    ensures p.originalKey.Some? ==> p.originalKey.value != [] && !IsSpace(p.originalKey.value[0])
  {
    Payload(Trim(form.title), Trim(form.lyrics), TrimOrNull(form.originalKey), TrimOrNull(form.tempo),
            TrimOrNull(form.youtubeUrl))
  }

  lemma TrimOrNullStable(o: Option<string>)
    requires o.Some? ==> o.value != [] && Trim(o.value) == o.value
    ensures TrimOrNull(o.OrElse("")) == o
  {
    if o.Some? {
      assert !AllSpace(o.value);
    }
  }

  /** Saving a valid form, loading the saved row back and saving again sends
      the same payload, and the reloaded form is still valid. */
  lemma EditorReloadRoundTrip(form: Form)
    requires CheckSong(form) == None
    ensures CheckSong(FromRecord(Stored(EditorPayload(form)))) == None
    ensures EditorPayload(FromRecord(Stored(EditorPayload(form)))) == EditorPayload(form)
  {
    var p := EditorPayload(form);
    TrimIdempotent(form.title);
    TrimIdempotent(form.lyrics);
    TrimIdempotent(form.originalKey);
    TrimIdempotent(form.tempo);
    TrimIdempotent(form.youtubeUrl);
    TrimOrNullStable(p.originalKey);
    TrimOrNullStable(p.tempo);
    TrimOrNullStable(p.youtubeUrl);
  }

  /** The state of the page that the handlers read and write. */
  class SongEditorPage {
    var songIdParam: Option<string>
    var form: Form
    var loadingSong: bool
    var saving: bool
    var error: Option<SongError>

    constructor (songIdParam: Option<string>)
      ensures this.songIdParam == songIdParam
      ensures form == EmptyForm && !loadingSong && !saving && error == None
    {
      this.songIdParam := songIdParam;
      form := EmptyForm;
      loadingSong, saving, error := false, false, None;
    }

    function SongId(): Option<string>
      reads this
    {
      EditSongId(songIdParam)
    }

    /** `isEditMode` */
    predicate IsEditMode()
      reads this
    {
      SongId().Some?
    }

    /** `updateField` */
    method UpdateField(k: Field, v: string)
      modifies this`form
      ensures form == old(form).With(k, v)
    {
      form := form.With(k, v);
    }

    /** The original-key input: what is typed is upper-cased first. */
    method TypeOriginalKey(input: string)
      modifies this`form
      ensures form == old(form).With(OriginalKey, ToUpper(input))
      ensures forall i :: 0 <= i < |form.originalKey| ==> !('a' <= form.originalKey[i] <= 'z')
    {
      ToUpperIdempotent(input);
      form := form.With(OriginalKey, ToUpper(input));
    }

    /** The load effect. Without a song id the form is reset to the empty
        form and the error cleared; otherwise `reply` is the answer to the
        load query: an error is reported, a row fills the form. */
    method LoadSong(reply: LoadReply)
      modifies this`form, this`error, this`loadingSong
      ensures !loadingSong
      ensures SongId().None? ==> form == EmptyForm && error == None
      ensures SongId().Some? && reply.Loaded? ==> form == FromRecord(reply.record) && error == old(error)
      ensures SongId().Some? && reply.LoadError? ==> form == old(form) && error == Some(LoadFailed)
      ensures SongId().Some? && reply.NoRow? ==> form == old(form) && error == old(error)
    {
      if SongId().None? {
        form := EmptyForm;
        error := None;
        loadingSong := false;
        return;
      }
      loadingSong := true;
      match reply {
        case LoadError => error := Some(LoadFailed);
        case Loaded(record) => form := FromRecord(record);
        case NoRow =>
      }
      loadingSong := false;
    }

    /** `handleSubmit`. `savedId` is the id the backend returns for the
        saved row (`None` when the insert or update failed). */
    method Submit(savedId: Option<string>) returns (request: Option<SaveRequest>, navigateTo: Option<string>)
      modifies this`saving, this`error
      ensures old(saving) ==> saving && error == old(error) && request == None && navigateTo == None
      ensures !old(saving) && CheckSong(form).Some? ==>
                error == CheckSong(form) && !saving && request == None && navigateTo == None
      ensures !old(saving) && CheckSong(form).None? ==>
                !saving &&
                request == Some(if IsEditMode() then Update(SongId().value, EditorPayload(form))
                                else Insert(EditorPayload(form))) &&
                error == (if savedId.Some? then None else if IsEditMode() then Some(UpdateFailed) else Some(InsertFailed)) &&
                navigateTo == (if savedId.Some? then Some("/songs/" + savedId.value) else None)
    {
      request, navigateTo := None, None;
      if saving {
        return;
      }
      error := None;
      var check := CheckSong(form);
      if check.Some? {
        error := check;
        return;
      }
      saving := true;
      var payload := EditorPayload(form);
      if IsEditMode() {
        request := Some(Update(SongId().value, payload));
        if savedId.None? {
          error := Some(UpdateFailed);
        }
      } else {
        request := Some(Insert(payload));
        if savedId.None? {
          error := Some(InsertFailed);
        }
      }
      if savedId.Some? {
        navigateTo := Some("/songs/" + savedId.value);
      }
      saving := false;
    }
  }
}
