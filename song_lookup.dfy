/** Finding a song by its id inside the nested artist documents, and the read-only
    `GET /:id` handler built on it. */
module SongLookup {
  import opened SongSchema

  /** `Array.prototype.findIndex`: the first index whose element satisfies `p`, or -1. */
  function FindIndex<T>(xs: seq<T>, p: T -> bool): (r: int)
    ensures -1 <= r < |xs|
    ensures r == -1 <==> forall k | 0 <= k < |xs| :: !p(xs[k])
    ensures 0 <= r ==> p(xs[r]) && forall k | 0 <= k < r :: !p(xs[k])
  {
    if xs == [] then -1
    else if p(xs[0]) then 0
    else
      var r := FindIndex(xs[1..], p);
      if r == -1 then -1 else r + 1
  }

  /** `album.songs.some(song => song._id === id)` */
  predicate AlbumHasSong(a: Album, id: SongId) {
    exists k | 0 <= k < |a.songs| :: a.songs[k].id == id
  }

  /** The filter `{ "albums.songs._id": id }`: some song of some album has this id. */
  predicate ArtistHasSong(d: Artist, id: SongId) {
    exists j | 0 <= j < |d.albums| :: AlbumHasSong(d.albums[j], id)
  }

  /** `findOne({ "albums.songs._id": id })`, as the position of the first matching document. */
  function DocIndexBySong(docs: seq<Artist>, id: SongId): int {
    FindIndex(docs, (d: Artist) => ArtistHasSong(d, id))
  }

  /** `albums.findIndex(album => album.songs.some(song => song._id === id))` */
  function AlbumIndexBySong(albums: seq<Album>, id: SongId): int {
    FindIndex(albums, (a: Album) => AlbumHasSong(a, id))
  }

  /** `songs.findIndex(song => song._id === id)` */
  function SongIndexById(songs: seq<Song>, id: SongId): int {
    FindIndex(songs, (s: Song) => s.id == id)
  }

  /** The position of one song in the catalog: document, album within it, song within that. */
  datatype Location = Location(doc: nat, album: nat, song: nat)

  predicate IsLocation(docs: seq<Artist>, l: Location) {
    l.doc < |docs| && l.album < |docs[l.doc].albums| && l.song < |docs[l.doc].albums[l.album].songs|
  }

  function SongAt(docs: seq<Artist>, l: Location): Song
    requires IsLocation(docs, l)
  {
    docs[l.doc].albums[l.album].songs[l.song]
  }

  /** `l` holds a song with `id`, and no earlier document, no earlier album of that
      document and no earlier song of that album holds one. */
  predicate FirstOccurrence(docs: seq<Artist>, id: SongId, l: Location) {
    && IsLocation(docs, l)
    && SongAt(docs, l).id == id
    && (forall i | 0 <= i < l.doc :: !ArtistHasSong(docs[i], id))
    && (forall j | 0 <= j < l.album :: !AlbumHasSong(docs[l.doc].albums[j], id))
    && (forall k | 0 <= k < l.song :: docs[l.doc].albums[l.album].songs[k].id != id)
  }

  /** Every song id occurs at one location only. */
  ghost predicate UniqueIds(docs: seq<Artist>) {
    forall l1: Location, l2: Location | IsLocation(docs, l1) && IsLocation(docs, l2) ::
      SongAt(docs, l1).id == SongAt(docs, l2).id ==> l1 == l2
  }

  /** The three look-ups every handler does in turn: the document, the album, the song.
      Once a document is found, the album and song searches cannot fail. */
  function Locate(docs: seq<Artist>, id: SongId): (r: Option<Location>)
    ensures r.None? <==> forall i | 0 <= i < |docs| :: !ArtistHasSong(docs[i], id)
    ensures r.Some? ==> FirstOccurrence(docs, id, r.value)
  {
    var i := DocIndexBySong(docs, id);
    if i == -1 then None
    else
      var j := AlbumIndexBySong(docs[i].albums, id);
      if j == -1 then None
      else
        var k := SongIndexById(docs[i].albums[j].songs, id);
        if k == -1 then None
        else Some(Location(i, j, k))
  }

  /** There is one first occurrence at most: the look-up is a function of the catalog. */
  lemma FirstOccurrenceUnique(docs: seq<Artist>, id: SongId, l1: Location, l2: Location)
    requires FirstOccurrence(docs, id, l1) && FirstOccurrence(docs, id, l2)
    ensures l1 == l2
  {
    var d1, d2 := docs[l1.doc], docs[l2.doc];
    assert AlbumHasSong(d1.albums[l1.album], id);
    assert AlbumHasSong(d2.albums[l2.album], id);
    assert ArtistHasSong(d1, id) && ArtistHasSong(d2, id);
  }

  /** When ids are unique, any song is found at its own location. */
  lemma LocateUnique(docs: seq<Artist>, l: Location)
    requires UniqueIds(docs) && IsLocation(docs, l)
    ensures Locate(docs, SongAt(docs, l).id) == Some(l)
  {
    var id := SongAt(docs, l).id;
    assert AlbumHasSong(docs[l.doc].albums[l.album], id);
    assert ArtistHasSong(docs[l.doc], id);
    var r := Locate(docs, id).value;
    assert SongAt(docs, r).id == id;
  }

  /** The response body of `GET /:id`. */
  datatype SongView = SongView(artistName: Field, artistImageURL: Field, albumName: Field, albumImageURL: Field, song: Song)

  datatype Lookup = Found(view: SongView) | SongNotFound

  /** `getSongById`: the owning document's artist fields, the first album holding the id,
      and the song with that id; `NotFound` exactly when no document holds it. */
  function GetSongById(docs: seq<Artist>, id: SongId): (r: Lookup)
    ensures r.SongNotFound? <==> forall i | 0 <= i < |docs| :: !ArtistHasSong(docs[i], id)
    ensures r.Found? ==> r.view.song.id == id
    ensures r.Found? ==> exists l :: (
      && FirstOccurrence(docs, id, l)
      && r.view.artistName == docs[l.doc].artistName
      && r.view.artistImageURL == docs[l.doc].artistImageURL
      && r.view.albumName == docs[l.doc].albums[l.album].albumName
      && r.view.albumImageURL == docs[l.doc].albums[l.album].albumImageURL
      && r.view.song == SongAt(docs, l))
  {
    match Locate(docs, id)
    case None => SongNotFound
    case Some(l) =>
      var d := docs[l.doc];
      var a := d.albums[l.album];
      Found(SongView(d.artistName, d.artistImageURL, a.albumName, a.albumImageURL, a.songs[l.song]))
  }
}
