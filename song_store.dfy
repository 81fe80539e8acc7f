/** The song collection and the handlers that change it: `updateSong`, `deleteSong` and
    `createSong`. Each handler reads one document, changes it step by step and saves it;
    a save writes only a document that passes the schema, so the collection never holds
    a document that fails it. */
module SongStore {
  import opened SongSchema
  import opened SongLookup
  import opened SongEdits

  /** What a handler answers. */
  datatype Reply =
    | Saved(doc: Artist)                // 200, `{ success: true, data: doc }`
    | Deleted                           // 200, 'Song deleted successfully'
    | NotFound(message: string)         // 404
    | Invalid(errors: seq<FieldError>)  // the save was refused by the schema (500)
    | ServerError                       // a TypeError thrown inside the handler (500)

  /** `findOne({ artistName })`, as the position of the first document with that name. */
  function DocIndexByName(docs: seq<Artist>, name: Field): (i: int)
    ensures -1 <= i < |docs|
    ensures i == -1 <==> forall k | 0 <= k < |docs| :: docs[k].artistName != name
    ensures 0 <= i ==> docs[i].artistName == name && forall k | 0 <= k < i :: docs[k].artistName != name
  {
    FindIndex(docs, (d: Artist) => d.artistName == name)
  }

  /** The `forEach` of `createSong` over the request's albums, on the albums of the document
      found: each is merged in turn, and `None` stands for the TypeError of a turn that
      throws. */
  method MergeRequestAlbums(albums: seq<Album>, incoming: seq<AlbumInput>) returns (r: Option<seq<Album>>)
    ensures r == MergeInputs(albums, incoming)
  {
    var merged := albums;
    var n := 0;
    while n < |incoming|
      invariant 0 <= n <= |incoming|
      invariant MergeInputs(albums, incoming[..n]) == Some(merged)
    {
      var newAlbum := incoming[n];
      var albumIndex := AlbumIndexByName(merged, newAlbum.albumName);
      ghost var prev := merged;
      if albumIndex > -1 {
        if newAlbum.songs.None? {
          // `push(...undefined)` throws before anything is saved
          ThrowsAtPrefix(albums, incoming, n + 1, n);
          ThrowFails(albums, incoming, n);
          return None;
        }
        var album := merged[albumIndex];
        merged := merged[albumIndex := album.(songs := album.songs + newAlbum.songs.value)];
      } else {
        merged := merged + [AsAlbum(newAlbum)];
      }
      MergeInputsExtend(albums, incoming, n, prev);
      n := n + 1;
    }
    assert incoming[..n] == incoming;
    return Some(merged);
  }

  /** The eight `if (value) target = value` assignments of `updateSong`, applied to song
      `songIndex` of album `albumIndex` of `doc`. */
  method WritePatch(doc: Artist, albumIndex: nat, songIndex: nat, p: Patch) returns (r: Artist)
    requires albumIndex < |doc.albums| && songIndex < |doc.albums[albumIndex].songs|
    ensures r == Patched(doc, albumIndex, songIndex, p)
  {
    r := doc;
    if Filled(p.artistName) { r := r.(artistName := p.artistName); }
    if Filled(p.artistImageURL) { r := r.(artistImageURL := p.artistImageURL); }
    var album := r.albums[albumIndex];
    if Filled(p.albumName) { album := album.(albumName := p.albumName); }
    if Filled(p.albumImageURL) { album := album.(albumImageURL := p.albumImageURL); }
    var song := album.songs[songIndex];
    if Filled(p.songName) { song := song.(songName := p.songName); }
    if Filled(p.songImageURL) { song := song.(songImageURL := p.songImageURL); }
    if Filled(p.songURL) { song := song.(songURL := p.songURL); }
    if Filled(p.category) { song := song.(category := p.category); }
    album := album.(songs := album.songs[songIndex := song]);
    r := r.(albums := r.albums[albumIndex := album]);
  }

  class Store {
    /** The documents of the collection, in their natural order. */
    var catalog: seq<Artist>

    ghost predicate Valid()
      reads this
    {
      forall i | 0 <= i < |catalog| :: ValidArtist(catalog[i])
    }

    constructor ()
      ensures Valid() && catalog == []
    {
      catalog := [];
    }

    /** `doc.save()`: validates the whole document; if it passes, writes it over
        document `slot`, or adds it as a new document when `slot` is -1. */
    method Save(doc: Artist, slot: int) returns (errs: seq<FieldError>)
      requires Valid() && -1 <= slot < |catalog|
      modifies this
      ensures Valid()
      ensures errs == SchemaErrors(doc)
      ensures errs != [] ==> catalog == old(catalog)
      ensures errs == [] && slot == -1 ==> catalog == old(catalog) + [doc]
      ensures errs == [] && slot != -1 ==> catalog == old(catalog)[slot := doc]
    {
      errs := SchemaErrors(doc);
      if errs != [] {
        return;
      }
      if slot == -1 {
        catalog := catalog + [doc];
      } else {
        catalog := catalog[slot := doc];
      }
    }

    /** `updateSong`: every truthy field of the body is written to the artist, to the album
        holding the song or to the song. The save, and so the update, is refused exactly
        when the body carries a category outside the enum. */
    method UpdateSong(id: SongId, p: Patch) returns (r: Reply)
      requires Valid()
      modifies this
      ensures Valid()
      ensures Locate(old(catalog), id).None? ==> r == NotFound("Song not found") && catalog == old(catalog)
      ensures Locate(old(catalog), id).Some? && Filled(p.category) && !IsCategory(p.category.value) ==>
        r.Invalid? && catalog == old(catalog)
      ensures Locate(old(catalog), id).Some? && (!Filled(p.category) || IsCategory(p.category.value)) ==>
        var l := Locate(old(catalog), id).value;
        var doc := Patched(old(catalog)[l.doc], l.album, l.song, p);
        r == Saved(doc) && catalog == old(catalog)[l.doc := doc]
    {
      var i := DocIndexBySong(catalog, id);
      if i == -1 {
        return NotFound("Song not found");
      }
      var doc := catalog[i];
      var albumIndex := AlbumIndexBySong(doc.albums, id);
      var songIndex := SongIndexById(doc.albums[albumIndex].songs, id);
      ghost var l := Location(i, albumIndex, songIndex);
      assert Locate(catalog, id) == Some(l);
      PatchedValid(doc, albumIndex, songIndex, p);

      doc := WritePatch(doc, albumIndex, songIndex, p);

      var errs := Save(doc, i);
      r := if errs == [] then Saved(doc) else Invalid(errs);
    }

    /** `deleteSong`: the song is spliced out of its album and the document saved; the
        album stays even when it is left empty, and the document stays too. */
    method DeleteSong(id: SongId) returns (r: Reply)
      requires Valid()
      modifies this
      ensures Valid()
      ensures Locate(old(catalog), id).None? ==> r == NotFound("Song not found") && catalog == old(catalog)
      ensures Locate(old(catalog), id).Some? ==>
        var l := Locate(old(catalog), id).value;
        r == Deleted && catalog == old(catalog)[l.doc := WithoutSong(old(catalog)[l.doc], l.album, l.song)]
    {
      var i := DocIndexBySong(catalog, id);
      if i == -1 {
        return NotFound("Song not found");
      }
      var doc := catalog[i];
      var albumIndex := AlbumIndexBySong(doc.albums, id);
      if albumIndex == -1 {
        // 'Album not found' (404) cannot be sent: the document was chosen for holding the id
        assert false;
      }
      var songs := doc.albums[albumIndex].songs;
      var songIndex := SongIndexById(songs, id);
      if songIndex == -1 {
        // nor can the second 'Song not found': the album was chosen for holding the id
        assert false;
      }
      assert Locate(catalog, id) == Some(Location(i, albumIndex, songIndex));
      WithoutSongValid(doc, albumIndex, songIndex);

      songs := songs[..songIndex] + songs[songIndex + 1..];
      doc := doc.(albums := doc.albums[albumIndex := doc.albums[albumIndex].(songs := songs)]);

      var errs := Save(doc, i);
      r := if errs == [] then Deleted else Invalid(errs);
    }

    /** `createSong`: a request for an artist name no document has becomes a new document
        holding the request's albums; otherwise each incoming album is merged, in order,
        into the existing document. A request without `albums`, or a turn that pushes a
        missing `songs` into an existing album, makes the merge throw before any save. */
    method CreateSong(artistName: Field, artistImageURL: Field, albums: Option<seq<AlbumInput>>) returns (r: Reply)
      requires Valid()
      modifies this
      ensures Valid()
      ensures DocIndexByName(old(catalog), artistName) == -1 ==>
        var doc := Artist(artistName, artistImageURL, if albums.Some? then AsAlbums(albums.value) else []);
        if ValidArtist(doc) then r == Saved(doc) && catalog == old(catalog) + [doc]
        else r == Invalid(SchemaErrors(doc)) && catalog == old(catalog)
      ensures DocIndexByName(old(catalog), artistName) != -1 && albums.None? ==>
        r == ServerError && catalog == old(catalog)
      ensures (DocIndexByName(old(catalog), artistName) != -1 && albums.Some? &&
        MergeInputs(old(catalog)[DocIndexByName(old(catalog), artistName)].albums, albums.value).None?) ==>
        r == ServerError && catalog == old(catalog)
      ensures (DocIndexByName(old(catalog), artistName) != -1 && albums.Some? &&
        MergeInputs(old(catalog)[DocIndexByName(old(catalog), artistName)].albums, albums.value).Some?) ==>
        var i := DocIndexByName(old(catalog), artistName);
        var doc := old(catalog)[i].(albums := MergeAll(old(catalog)[i].albums, AsAlbums(albums.value)));
        if ValidArtist(doc) then r == Saved(doc) && catalog == old(catalog)[i := doc]
        else r == Invalid(SchemaErrors(doc)) && catalog == old(catalog)
    {
      var i := DocIndexByName(catalog, artistName);
      var doc;
      if i == -1 {
        doc := Artist(artistName, artistImageURL, if albums.Some? then AsAlbums(albums.value) else []);
      } else {
        if albums.None? {
          // `undefined.forEach` throws before anything is saved
          return ServerError;
        }
        var merged := MergeRequestAlbums(catalog[i].albums, albums.value);
        if merged.None? {
          return ServerError;
        }
        doc := catalog[i].(albums := merged.value);
      }
      var errs := Save(doc, i);
      r := if errs == [] then Saved(doc) else Invalid(errs);
    }
  }
}
