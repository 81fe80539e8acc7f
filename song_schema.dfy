/** The shape of an artist document in the song collection and the schema check
    that every document must pass before it is saved. */
module SongSchema {

  datatype Option<+T> = None | Some(value: T)

  /** A song's `_id`. Ids are opaque and are only compared for equality. */
  type SongId = nat

  /** A string path of a document or of a request body: absent (undefined or null) or a string. */
  type Field = Option<string>

  /** JavaScript truthiness of an optional string, which is also what a required
      String path accepts: present and not empty. */
  predicate Filled(f: Field) {
    f.Some? && f.value != ""
  }

  /** The `category` enum, in the order the schema lists it. Matching is exact and case-sensitive. */
  const CategoryNames: seq<string> :=
    ["Classical", "Popular", "Rock", "Hip Hop", "Jazz", "Electronic", "Folk", "Blues"]

  predicate IsCategory(s: string) {
    s in CategoryNames
  }

  datatype Song = Song(id: SongId, songName: Field, songImageURL: Field, songURL: Field, category: Field)

  /** `albumImageURL` is not declared by the schema; it is carried as the controller uses it. */
  datatype Album = Album(albumName: Field, albumImageURL: Field, songs: seq<Song>)

  /** `artistImageURL` is not declared by the schema; it is carried as the controller uses it. */
  datatype Artist = Artist(artistName: Field, artistImageURL: Field, albums: seq<Album>)

  predicate ValidSong(s: Song) {
    && Filled(s.songName)
    && Filled(s.songImageURL)
    && Filled(s.songURL)
    && Filled(s.category) && IsCategory(s.category.value)
  }

  predicate ValidAlbum(a: Album) {
    && Filled(a.albumName)
    && forall k | 0 <= k < |a.songs| :: ValidSong(a.songs[k])
  }

  /** The schema: every required path is filled and every category is one of the enum values. */
  predicate ValidArtist(d: Artist) {
    && Filled(d.artistName)
    && forall j | 0 <= j < |d.albums| :: ValidAlbum(d.albums[j])
  }

  datatype SongPath = SongName | SongImageURL | SongURL | Category

  /** One validation failure, addressed like a Mongoose error path
      (`albums.<album>.songs.<song>.<field>`). */
  datatype FieldError =
    | ArtistNameRequired
    | AlbumNameRequired(album: nat)
    | SongFieldRequired(album: nat, song: nat, path: SongPath)
    | CategoryNotInEnum(album: nat, song: nat)
  {
    predicate OnSong() { SongFieldRequired? || CategoryNotInEnum? }
  }

  function SongField(s: Song, p: SongPath): Field {
    match p
    case SongName => s.songName
    case SongImageURL => s.songImageURL
    case SongURL => s.songURL
    case Category => s.category
  }

  /** Whether the song-level error `e` describes a real fault of song `s` (its indices aside). */
  predicate SongFault(s: Song, e: FieldError)
    requires e.OnSong()
  {
    match e
    case SongFieldRequired(_, _, p) => !Filled(SongField(s, p))
    case CategoryNotInEnum(_, _) => Filled(s.category) && !IsCategory(s.category.value)
  }

  /** Whether `e` names a path that exists in `d` and whose value the schema rejects. */
  predicate Violated(d: Artist, e: FieldError) {
    match e
    case ArtistNameRequired => !Filled(d.artistName)
    case AlbumNameRequired(j) => j < |d.albums| && !Filled(d.albums[j].albumName)
    case SongFieldRequired(j, k, _) =>
      j < |d.albums| && k < |d.albums[j].songs| && SongFault(d.albums[j].songs[k], e)
    case CategoryNotInEnum(j, k) =>
      j < |d.albums| && k < |d.albums[j].songs| && SongFault(d.albums[j].songs[k], e)
  }

  /** The errors of song `k` of album `j`: a missing required path is reported as such;
      a filled category outside the enum is reported as an enum error. */
  function SongErrors(j: nat, k: nat, s: Song): (errs: seq<FieldError>)
    ensures errs == [] <==> ValidSong(s)
    ensures forall e :: e in errs <==> e.OnSong() && e.album == j && e.song == k && SongFault(s, e)
  {
    (if Filled(s.songName) then [] else [SongFieldRequired(j, k, SongName)])
    + (if Filled(s.songImageURL) then [] else [SongFieldRequired(j, k, SongImageURL)])
    + (if Filled(s.songURL) then [] else [SongFieldRequired(j, k, SongURL)])
    + (if !Filled(s.category) then [SongFieldRequired(j, k, Category)]
       else if !IsCategory(s.category.value) then [CategoryNotInEnum(j, k)]
       else [])
  }

  function SongListErrors(j: nat, songs: seq<Song>): (errs: seq<FieldError>)
    ensures errs == [] <==> forall k | 0 <= k < |songs| :: ValidSong(songs[k])
    ensures forall e :: e in errs <==>
      e.OnSong() && e.album == j && e.song < |songs| && SongFault(songs[e.song], e)
    decreases |songs|
  {
    if songs == [] then []
    else
      var n := |songs| - 1;
      SongListErrors(j, songs[..n]) + SongErrors(j, n, songs[n])
  }

  function AlbumErrors(j: nat, a: Album): (errs: seq<FieldError>)
    ensures errs == [] <==> ValidAlbum(a)
    ensures forall e :: e in errs <==>
      || (e == AlbumNameRequired(j) && !Filled(a.albumName))
      || (e.OnSong() && e.album == j && e.song < |a.songs| && SongFault(a.songs[e.song], e))
  {
    (if Filled(a.albumName) then [] else [AlbumNameRequired(j)]) + SongListErrors(j, a.songs)
  }

  function AlbumListErrors(albums: seq<Album>): (errs: seq<FieldError>)
    ensures errs == [] <==> forall j | 0 <= j < |albums| :: ValidAlbum(albums[j])
    ensures forall e :: e in errs <==> Violated(Artist(None, None, albums), e) && e != ArtistNameRequired
    decreases |albums|
  {
    if albums == [] then []
    else
      var n := |albums| - 1;
      var errs := AlbumListErrors(albums[..n]) + AlbumErrors(n, albums[n]);
      assert forall e :: e in errs <==> Violated(Artist(None, None, albums), e) && e != ArtistNameRequired by {
        forall e ensures e in errs <==> Violated(Artist(None, None, albums), e) && e != ArtistNameRequired {
          ViolatedSnoc(albums, e);
        }
      }
      errs
  }

  /** An error of a non-empty album list is one of the list without its last album, or
      one of that last album. */
  lemma ViolatedSnoc(albums: seq<Album>, e: FieldError)
    requires albums != []
    ensures var n := |albums| - 1;
      (Violated(Artist(None, None, albums), e) && e != ArtistNameRequired) <==>
      || (Violated(Artist(None, None, albums[..n]), e) && e != ArtistNameRequired)
      || (e == AlbumNameRequired(n) && !Filled(albums[n].albumName))
      || (e.OnSong() && e.album == n && e.song < |albums[n].songs| && SongFault(albums[n].songs[e.song], e))
  {
  }

  /** What saving `d` reports: every violated path, and nothing else. */
  function SchemaErrors(d: Artist): (errs: seq<FieldError>)
    ensures errs == [] <==> ValidArtist(d)
    ensures forall e :: e in errs <==> Violated(d, e)
  {
    var errs := (if Filled(d.artistName) then [] else [ArtistNameRequired]) + AlbumListErrors(d.albums);
    assert forall e :: Violated(Artist(None, None, d.albums), e) && e != ArtistNameRequired <==>
      Violated(d, e) && e != ArtistNameRequired;
    errs
  }

  /** The enum holds eight distinct values. */
  lemma CategoryEnum()
    ensures |CategoryNames| == 8
    ensures forall a, b | 0 <= a < b < |CategoryNames| :: CategoryNames[a] != CategoryNames[b]
  {
  }

  /** Category matching is case-sensitive: only the exact spelling is accepted. */
  lemma CategoryCaseSensitive()
    ensures IsCategory("Hip Hop") && !IsCategory("Hip hop") && !IsCategory("rock")
  {
  }
}
