/** The song form shared by the two "new / edit song" pages: five text
    fields, the empty form, the mapping from a loaded `songs` row into the
    form, and the payload a save sends. */
module SongForm {
  import opened Text

  datatype Field = Title | OriginalKey | Tempo | Lyrics | YoutubeUrl

  datatype Form = Form(title: string, originalKey: string, tempo: string, lyrics: string, youtubeUrl: string)
  {
    function Get(k: Field): string
    {
      match k
      case Title => title
      case OriginalKey => originalKey
      case Tempo => tempo
      case Lyrics => lyrics
      case YoutubeUrl => youtubeUrl
    }

    /** `{ ...form, [k]: v }`: field `k` replaced, the other four kept. */
    function With(k: Field, v: string): (r: Form)
      ensures r.Get(k) == v
      ensures forall j :: j != k ==> r.Get(j) == Get(j)
    {
      match k
      case Title => this.(title := v)
      case OriginalKey => this.(originalKey := v)
      case Tempo => this.(tempo := v)
      case Lyrics => this.(lyrics := v)
      case YoutubeUrl => this.(youtubeUrl := v)
    }
  }

  /** `EMPTY_FORM` */
  const EmptyForm := Form("", "", "", "", "")

  /** A `songs` row as loaded for editing; every column may be `null`. */
  datatype SongRecord = SongRecord(
    title: Option<string>, originalKey: Option<string>, tempo: Option<string>,
    lyrics: Option<string>, youtubeUrl: Option<string>)

  /** The columns a save writes. */
  datatype Payload = Payload(
    title: string, lyrics: string, originalKey: Option<string>, tempo: Option<string>, youtubeUrl: Option<string>)

  /** The call a save makes: an insert for a new song, an update by id. */
  datatype SaveRequest = Insert(payload: Payload) | Update(id: string, payload: Payload)

  /** The load mapping: each column's value, `''` for `null`. */
  function FromRecord(r: SongRecord): (f: Form)
    ensures forall k :: f.Get(k) == [] <==> Column(r, k).None? || Column(r, k).value == []
    ensures forall k :: Column(r, k).Some? ==> f.Get(k) == Column(r, k).value
  {
    Form(r.title.OrElse(""), r.originalKey.OrElse(""), r.tempo.OrElse(""), r.lyrics.OrElse(""), r.youtubeUrl.OrElse(""))
  }

  /** The column of a loaded row that feeds form field `k`. */
  function Column(r: SongRecord, k: Field): Option<string>
  {
    match k
    case Title => r.title
    case OriginalKey => r.originalKey
    case Tempo => r.tempo
    case Lyrics => r.lyrics
    case YoutubeUrl => r.youtubeUrl
  }

  /** The row a successful save leaves in the table. */
  function Stored(p: Payload): SongRecord
  {
    SongRecord(Some(p.title), p.originalKey, p.tempo, Some(p.lyrics), p.youtubeUrl)
  }
}
