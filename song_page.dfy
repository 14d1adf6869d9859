/** The `/songs/new` route page: the same form as the stand-alone song
    component, but edit mode is any non-empty `id`, `handleSubmit` runs no
    checks of its own, and the lyrics are saved exactly as typed. */
module SongPage {
  import opened Text
  import opened SongForm
  import SongEditor

  datatype PageMode = New | Edit

  /** What the backend answers to the load query. */
  datatype LoadReply = Loaded(record: SongRecord) | LoadError

  datatype PageError = LoadFailed | SaveFailed(message: string)

  /** `mode`: edit exactly when the `id` parameter is a non-empty string. */
  function ModeOf(param: Option<string>): (m: PageMode)
    ensures m == Edit <==> param.Some? && param.value != []
  {
    if param.Some? && Truthy(param.value) then Edit else New
  }

  /** The two pages disagree on mode only for a non-empty, all-whitespace
      `id`: this page edits, the stand-alone component creates a new song. */
  lemma ModesDiffer(param: Option<string>)
    ensures (ModeOf(param) == Edit) != SongEditor.EditSongId(param).Some? <==>
              param.Some? && param.value != [] && AllSpace(param.value)
  {
  }

  /** The payload of both the insert and the update: title trimmed, lyrics
      verbatim, key, tempo and YouTube link trimmed and `null` when empty. */
  function PagePayload(form: Form): (p: Payload)
    ensures p.title == Trim(form.title)
    ensures p.lyrics == form.lyrics
    ensures p.originalKey == TrimOrNull(form.originalKey)
    ensures p.tempo == TrimOrNull(form.tempo)
    ensures p.youtubeUrl == TrimOrNull(form.youtubeUrl)
  {
    Payload(Trim(form.title), form.lyrics, TrimOrNull(form.originalKey), TrimOrNull(form.tempo),
            TrimOrNull(form.youtubeUrl))
  }

  /** The two pages send the same payload except for the lyrics, and the
      lyrics differ exactly when they begin or end with whitespace. */
  lemma PayloadsDiffer(form: Form)
    ensures PagePayload(form) == SongEditor.EditorPayload(form).(lyrics := form.lyrics)
    ensures PagePayload(form) == SongEditor.EditorPayload(form) <==> Trim(form.lyrics) == form.lyrics
  {
  }

  /** Saving, reloading and saving again sends the same payload. */
  lemma PageReloadRoundTrip(form: Form)
    ensures PagePayload(FromRecord(Stored(PagePayload(form)))) == PagePayload(form)
  {
    var p := PagePayload(form);
    TrimIdempotent(form.title);
    TrimIdempotent(form.originalKey);
    TrimIdempotent(form.tempo);
    TrimIdempotent(form.youtubeUrl);
    SongEditor.TrimOrNullStable(p.originalKey);
    SongEditor.TrimOrNullStable(p.tempo);
    SongEditor.TrimOrNullStable(p.youtubeUrl);
  }

  /** The state of the page that the handlers read and write. */
  class SongPageState {
    var songIdParam: Option<string>
    var form: Form
    var saving: bool
    var error: Option<PageError>

    constructor (songIdParam: Option<string>)
      ensures this.songIdParam == songIdParam
      ensures form == EmptyForm && !saving && error == None
    {
      this.songIdParam := songIdParam;
      form := EmptyForm;
      saving, error := false, None;
    }

    function Mode(): PageMode
      reads this
    {
      ModeOf(songIdParam)
    }

    /** `handleChange` */
    method HandleChange(k: Field, v: string)
      modifies this`form
      ensures form == old(form).With(k, v)
    {
      form := form.With(k, v);
    }

    /** The load effect: it runs only in edit mode for a signed-in user;
        `reply` is the answer to the load query. */
    method LoadSong(signedIn: bool, reply: LoadReply)
      modifies this`form, this`error
      ensures Mode() == New || !signedIn ==> form == old(form) && error == old(error)
      ensures Mode() == Edit && signedIn && reply.Loaded? ==> form == FromRecord(reply.record) && error == None
      ensures Mode() == Edit && signedIn && reply.LoadError? ==> form == old(form) && error == Some(LoadFailed)
    {
      if Mode() != Edit || !signedIn {
        return;
      }
      error := None;
      match reply {
        case LoadError => error := Some(LoadFailed);
        case Loaded(record) => form := FromRecord(record);
      }
    }

    /** `handleSubmit`: no checks of its own. `failure` is the backend's error
        message for the insert or update (`None` for success). */
    method Submit(failure: Option<string>) returns (request: SaveRequest, success: bool)
      modifies this`saving, this`error
      ensures !saving
      ensures Mode() == New ==> request == Insert(PagePayload(form))
      ensures Mode() == Edit ==> request == Update(songIdParam.value, PagePayload(form))
      ensures success <==> failure.None?
      ensures error == (if failure.Some? then Some(SaveFailed(failure.value)) else None)
    {
      error := None;
      saving := true;
      var payload := PagePayload(form);
      if Mode() == New {
        request := Insert(payload);
      } else {
        request := Update(songIdParam.value, payload);
      }
      success := failure.None?;
      if failure.Some? {
        error := Some(SaveFailed(failure.value));
      }
      saving := false;
    }
  }
}
