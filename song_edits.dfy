/** The changes the update, delete and create handlers make to one artist document,
    as functions of the document before the change, with what they keep and what they change. */
module SongEdits {
  import opened SongSchema
  import opened SongLookup

  // ---------------------------------------------------------------------------
  // Shape-preserving edits: a document with the same songs at the same places

  /** `d2` has the albums and songs of `d1` at the same positions, with the same ids. */
  predicate SameIds(d1: Artist, d2: Artist) {
    && |d1.albums| == |d2.albums|
    && (forall j | 0 <= j < |d1.albums| :: |d1.albums[j].songs| == |d2.albums[j].songs|)
    && (forall j, k | 0 <= j < |d1.albums| && 0 <= k < |d1.albums[j].songs| ::
          d1.albums[j].songs[k].id == d2.albums[j].songs[k].id)
  }

  lemma SameIdsContain(d1: Artist, d2: Artist, id: SongId)
    requires SameIds(d1, d2)
    ensures ArtistHasSong(d1, id) <==> ArtistHasSong(d2, id)
    ensures forall j | 0 <= j < |d1.albums| :: AlbumHasSong(d1.albums[j], id) <==> AlbumHasSong(d2.albums[j], id)
  {
    forall j | 0 <= j < |d1.albums|
      ensures AlbumHasSong(d1.albums[j], id) <==> AlbumHasSong(d2.albums[j], id)
    {
      if AlbumHasSong(d1.albums[j], id) {
        var k :| 0 <= k < |d1.albums[j].songs| && d1.albums[j].songs[k].id == id;
        assert d2.albums[j].songs[k].id == id;
      }
      if AlbumHasSong(d2.albums[j], id) {
        var k :| 0 <= k < |d2.albums[j].songs| && d2.albums[j].songs[k].id == id;
        assert d1.albums[j].songs[k].id == id;
      }
    }
  }

  /** A first occurrence stays one when a document is replaced by one with the same ids. */
  lemma SameIdsFirstOccurrence(docs: seq<Artist>, i: nat, d: Artist, id: SongId, l: Location)
    requires i < |docs| && SameIds(docs[i], d) && FirstOccurrence(docs, id, l)
    ensures FirstOccurrence(docs[i := d], id, l)
  {
    var docs' := docs[i := d];
    SameIdsContain(docs[i], d, id);
    assert IsLocation(docs', l) && SongAt(docs', l).id == id;
    assert forall i' | 0 <= i' < l.doc :: !ArtistHasSong(docs'[i'], id);
    assert forall j | 0 <= j < l.album :: !AlbumHasSong(docs'[l.doc].albums[j], id);
  }

  /** Replacing one document by another with the same ids moves no song: every look-up
      by id finds what it found before. */
  lemma SameIdsLocate(docs: seq<Artist>, i: nat, d: Artist, id: SongId)
    requires i < |docs| && SameIds(docs[i], d)
    ensures Locate(docs[i := d], id) == Locate(docs, id)
  {
    var docs' := docs[i := d];
    SameIdsContain(docs[i], d, id);
    var r, r' := Locate(docs, id), Locate(docs', id);
    if r.Some? {
      var l := r.value;
      SameIdsFirstOccurrence(docs, i, d, id, l);
      assert ArtistHasSong(docs'[l.doc], id) by {
        assert AlbumHasSong(docs'[l.doc].albums[l.album], id);
      }
      FirstOccurrenceUnique(docs', id, l, r'.value);
    } else {
      forall i' | 0 <= i' < |docs'| ensures !ArtistHasSong(docs'[i'], id) {
        assert !ArtistHasSong(docs[i'], id);
      }
    }
  }

  // ---------------------------------------------------------------------------
  // updateSong

  /** The fields a `PUT /:id` body may carry. */
  datatype Patch = Patch(
    artistName: Field, artistImageURL: Field,
    albumName: Field, albumImageURL: Field,
    songName: Field, songImageURL: Field, songURL: Field, category: Field)

  /** `if (value) target = value`: a truthy value replaces the field, anything else leaves it. */
  function Assign(value: Field, current: Field): Field {
    if Filled(value) then value else current
  }

  /** The document after `updateSong` has written `p` into it, with song `k` of album `j`
      being the song addressed. */
  function Patched(d: Artist, j: nat, k: nat, p: Patch): (r: Artist)
    requires j < |d.albums| && k < |d.albums[j].songs|
    // artist fields go to the document
    ensures Filled(p.artistName) ==> r.artistName == p.artistName
    ensures !Filled(p.artistName) ==> r.artistName == d.artistName
    ensures Filled(p.artistImageURL) ==> r.artistImageURL == p.artistImageURL
    ensures !Filled(p.artistImageURL) ==> r.artistImageURL == d.artistImageURL
    // album fields go to album j, and to no other album
    ensures |r.albums| == |d.albums|
    ensures forall j' | 0 <= j' < |d.albums| && j' != j :: r.albums[j'] == d.albums[j']
    ensures Filled(p.albumName) ==> r.albums[j].albumName == p.albumName
    ensures !Filled(p.albumName) ==> r.albums[j].albumName == d.albums[j].albumName
    ensures Filled(p.albumImageURL) ==> r.albums[j].albumImageURL == p.albumImageURL
    ensures !Filled(p.albumImageURL) ==> r.albums[j].albumImageURL == d.albums[j].albumImageURL
    // song fields go to song k of album j, and to no other song
    ensures |r.albums[j].songs| == |d.albums[j].songs|
    ensures forall k' | 0 <= k' < |d.albums[j].songs| && k' != k :: r.albums[j].songs[k'] == d.albums[j].songs[k']
    ensures r.albums[j].songs[k].id == d.albums[j].songs[k].id
    ensures Filled(p.songName) ==> r.albums[j].songs[k].songName == p.songName
    ensures !Filled(p.songName) ==> r.albums[j].songs[k].songName == d.albums[j].songs[k].songName
    ensures Filled(p.songImageURL) ==> r.albums[j].songs[k].songImageURL == p.songImageURL
    ensures !Filled(p.songImageURL) ==> r.albums[j].songs[k].songImageURL == d.albums[j].songs[k].songImageURL
    ensures Filled(p.songURL) ==> r.albums[j].songs[k].songURL == p.songURL
    ensures !Filled(p.songURL) ==> r.albums[j].songs[k].songURL == d.albums[j].songs[k].songURL
    ensures Filled(p.category) ==> r.albums[j].songs[k].category == p.category
    ensures !Filled(p.category) ==> r.albums[j].songs[k].category == d.albums[j].songs[k].category
  {
    var a := d.albums[j];
    var s := a.songs[k];
    var s' := s.(songName := Assign(p.songName, s.songName),
                 songImageURL := Assign(p.songImageURL, s.songImageURL),
                 songURL := Assign(p.songURL, s.songURL),
                 category := Assign(p.category, s.category));
    var a' := a.(albumName := Assign(p.albumName, a.albumName),
                 albumImageURL := Assign(p.albumImageURL, a.albumImageURL),
                 songs := a.songs[k := s']);
    d.(artistName := Assign(p.artistName, d.artistName),
       artistImageURL := Assign(p.artistImageURL, d.artistImageURL),
       albums := d.albums[j := a'])
  }

  /** A body whose every field is absent or empty changes nothing. */
  lemma EmptyPatchIsIdentity(d: Artist, j: nat, k: nat, p: Patch)
    requires j < |d.albums| && k < |d.albums[j].songs|
    requires !Filled(p.artistName) && !Filled(p.artistImageURL)
    requires !Filled(p.albumName) && !Filled(p.albumImageURL)
    requires !Filled(p.songName) && !Filled(p.songImageURL) && !Filled(p.songURL) && !Filled(p.category)
    ensures Patched(d, j, k, p) == d
  {
    var r := Patched(d, j, k, p);
    assert r.albums[j].songs == d.albums[j].songs;
    assert r.albums == d.albums;
  }

  /** An update never moves a song: every id is found where it was found before. */
  lemma PatchedLocate(docs: seq<Artist>, l: Location, p: Patch, id: SongId)
    requires IsLocation(docs, l)
    ensures Locate(docs[l.doc := Patched(docs[l.doc], l.album, l.song, p)], id) == Locate(docs, id)
  {
    var d := docs[l.doc];
    var d' := Patched(d, l.album, l.song, p);
    assert SameIds(d, d') by {
      forall j | 0 <= j < |d.albums| ensures |d.albums[j].songs| == |d'.albums[j].songs| {
      }
    }
    SameIdsLocate(docs, l.doc, d', id);
  }

  /** Saving an update to a valid document succeeds exactly when the body carries no
      category, or one of the enum values; a bad category is reported at the song's path. */
  lemma PatchedValid(d: Artist, j: nat, k: nat, p: Patch)
    requires ValidArtist(d) && j < |d.albums| && k < |d.albums[j].songs|
    ensures ValidArtist(Patched(d, j, k, p)) <==> !Filled(p.category) || IsCategory(p.category.value)
    ensures Filled(p.category) && !IsCategory(p.category.value) ==>
      SchemaErrors(Patched(d, j, k, p)) != [] && CategoryNotInEnum(j, k) in SchemaErrors(Patched(d, j, k, p))
  {
    var r := Patched(d, j, k, p);
    if !Filled(p.category) || IsCategory(p.category.value) {
      assert ValidAlbum(d.albums[j]);
      assert ValidAlbum(r.albums[j]) by {
        forall k' | 0 <= k' < |r.albums[j].songs| ensures ValidSong(r.albums[j].songs[k']) {
          if k' != k { assert ValidSong(d.albums[j].songs[k']); }
        }
      }
      assert forall j' | 0 <= j' < |r.albums| :: ValidAlbum(r.albums[j']) by {
        forall j' | 0 <= j' < |r.albums| ensures ValidAlbum(r.albums[j']) {
          if j' != j { assert ValidAlbum(d.albums[j']); }
        }
      }
    } else {
      assert Violated(r, CategoryNotInEnum(j, k));
    }
  }

  // ---------------------------------------------------------------------------
  // deleteSong

  /** `albums[j].songs.splice(k, 1)`: the document without song `k` of album `j`.
      The album stays, even when it is left without songs. */
  function WithoutSong(d: Artist, j: nat, k: nat): (r: Artist)
    requires j < |d.albums| && k < |d.albums[j].songs|
    ensures r.artistName == d.artistName && r.artistImageURL == d.artistImageURL
    ensures |r.albums| == |d.albums|
    ensures forall j' | 0 <= j' < |d.albums| && j' != j :: r.albums[j'] == d.albums[j']
    ensures r.albums[j].albumName == d.albums[j].albumName
    ensures r.albums[j].albumImageURL == d.albums[j].albumImageURL
    ensures |r.albums[j].songs| == |d.albums[j].songs| - 1
    ensures forall k' | 0 <= k' < k :: r.albums[j].songs[k'] == d.albums[j].songs[k']
    ensures forall k' | k <= k' < |r.albums[j].songs| :: r.albums[j].songs[k'] == d.albums[j].songs[k' + 1]
  {
    var songs := d.albums[j].songs;
    d.(albums := d.albums[j := d.albums[j].(songs := songs[..k] + songs[k + 1..])])
  }

  /** Removing a song from a valid document leaves a valid document, so its save succeeds. */
  lemma WithoutSongValid(d: Artist, j: nat, k: nat)
    requires ValidArtist(d) && j < |d.albums| && k < |d.albums[j].songs|
    ensures ValidArtist(WithoutSong(d, j, k))
  {
    var r := WithoutSong(d, j, k);
    assert ValidAlbum(d.albums[j]);
    assert ValidAlbum(r.albums[j]) by {
      forall k' | 0 <= k' < |r.albums[j].songs| ensures ValidSong(r.albums[j].songs[k']) {
        if k' < k { assert ValidSong(d.albums[j].songs[k']); }
        else { assert ValidSong(d.albums[j].songs[k' + 1]); }
      }
    }
    forall j' | 0 <= j' < |r.albums| ensures ValidAlbum(r.albums[j']) {
      if j' != j { assert ValidAlbum(d.albums[j']); }
    }
  }

  /** Where song `k` of album `j` of the document after deleting at `l` was before. */
  function Before(l: Location, j: nat, k: nat): Location {
    if j == l.album && k >= l.song then Location(l.doc, j, k + 1) else Location(l.doc, j, k)
  }

  lemma BeforeSong(docs: seq<Artist>, l: Location, j: nat, k: nat)
    requires IsLocation(docs, l)
    requires var d' := WithoutSong(docs[l.doc], l.album, l.song); j < |d'.albums| && k < |d'.albums[j].songs|
    ensures IsLocation(docs, Before(l, j, k)) && Before(l, j, k) != l
    ensures WithoutSong(docs[l.doc], l.album, l.song).albums[j].songs[k] == SongAt(docs, Before(l, j, k))
  {
  }

  /** With unique ids, a deleted song can no longer be found. */
  lemma WithoutSongGone(docs: seq<Artist>, l: Location)
    requires UniqueIds(docs) && IsLocation(docs, l)
    ensures Locate(docs[l.doc := WithoutSong(docs[l.doc], l.album, l.song)], SongAt(docs, l).id).None?
  {
    var id := SongAt(docs, l).id;
    var docs' := docs[l.doc := WithoutSong(docs[l.doc], l.album, l.song)];
    forall i, j, k | 0 <= i < |docs'| && 0 <= j < |docs'[i].albums| && 0 <= k < |docs'[i].albums[j].songs|
      ensures docs'[i].albums[j].songs[k].id != id
    {
      var b := Location(i, j, k);
      if i == l.doc {
        BeforeSong(docs, l, j, k);
        b := Before(l, j, k);
      }
      assert IsLocation(docs, b) && b != l && docs'[i].albums[j].songs[k] == SongAt(docs, b);
    }
  }

  /** Deleting one song leaves every other id in the document that held it. */
  lemma WithoutSongKeepsOthers(d: Artist, j: nat, k: nat, id: SongId)
    requires j < |d.albums| && k < |d.albums[j].songs| && id != d.albums[j].songs[k].id
    ensures ArtistHasSong(WithoutSong(d, j, k), id) <==> ArtistHasSong(d, id)
  {
    var d' := WithoutSong(d, j, k);
    if ArtistHasSong(d', id) {
      var j' :| 0 <= j' < |d'.albums| && AlbumHasSong(d'.albums[j'], id);
      var k' :| 0 <= k' < |d'.albums[j'].songs| && d'.albums[j'].songs[k'].id == id;
      var k0 := if j' == j && k' >= k then k' + 1 else k';
      assert d.albums[j'].songs[k0].id == id;
      assert AlbumHasSong(d.albums[j'], id);
    }
    if ArtistHasSong(d, id) {
      var j' :| 0 <= j' < |d.albums| && AlbumHasSong(d.albums[j'], id);
      var k' :| 0 <= k' < |d.albums[j'].songs| && d.albums[j'].songs[k'].id == id;
      if j' == j {
        var k1 := if k' < k then k' else k' - 1;
        assert d'.albums[j'].songs[k1].id == id;
      } else {
        assert d'.albums[j'] == d.albums[j'];
      }
      assert AlbumHasSong(d'.albums[j'], id);
    }
  }

  /** Deleting a song keeps every other song findable. */
  lemma WithoutSongLocateOthers(docs: seq<Artist>, l: Location, id: SongId)
    requires IsLocation(docs, l) && id != SongAt(docs, l).id
    ensures Locate(docs[l.doc := WithoutSong(docs[l.doc], l.album, l.song)], id).Some? <==> Locate(docs, id).Some?
  {
    WithoutSongKeepsOthers(docs[l.doc], l.album, l.song, id);
    var docs' := docs[l.doc := WithoutSong(docs[l.doc], l.album, l.song)];
    forall i | 0 <= i < |docs'| ensures ArtistHasSong(docs'[i], id) <==> ArtistHasSong(docs[i], id) {
    }
  }

  // ---------------------------------------------------------------------------
  // createSong, merge branch

  /** `albums.findIndex(album => album.albumName === name)` */
  function AlbumIndexByName(albums: seq<Album>, name: Field): (j: int)
    ensures -1 <= j < |albums|
    ensures j == -1 <==> forall k | 0 <= k < |albums| :: albums[k].albumName != name
    ensures 0 <= j ==> albums[j].albumName == name && forall k | 0 <= k < j :: albums[k].albumName != name
  {
    FindIndex(albums, (a: Album) => a.albumName == name)
  }

  /** One turn of the `forEach` over the incoming albums: the songs of `x` are appended to
      the first album of the same name, or `x` is appended as a new album. */
  function MergeAlbum(albums: seq<Album>, x: Album): (r: seq<Album>)
    ensures x.albumName in Names(albums) ==> |r| == |albums|
    ensures x.albumName !in Names(albums) ==> r == albums + [x]
  {
    var j := AlbumIndexByName(albums, x.albumName);
    if j > -1 then albums[j := albums[j].(songs := albums[j].songs + x.songs)]
    else albums + [x]
  }

  /** The albums after the whole `forEach`: each incoming album merged in input order. */
  function MergeAll(albums: seq<Album>, incoming: seq<Album>): (r: seq<Album>)
    ensures |albums| <= |r| <= |albums| + |incoming|
    decreases |incoming|
  {
    if incoming == [] then albums
    else
      var n := |incoming| - 1;
      MergeAlbum(MergeAll(albums, incoming[..n]), incoming[n])
  }

  function Names(albums: seq<Album>): (names: seq<Field>)
    ensures |names| == |albums| && forall j | 0 <= j < |albums| :: names[j] == albums[j].albumName
  {
    seq(|albums|, j requires 0 <= j < |albums| => albums[j].albumName)
  }

  /** The names of `names` that are not in `seen`, each once, in order of first appearance. */
  function NewNames(seen: seq<Field>, names: seq<Field>): seq<Field>
    decreases |names|
  {
    if names == [] then []
    else
      var n := |names| - 1;
      var earlier := NewNames(seen, names[..n]);
      if names[n] in seen || names[n] in names[..n] then earlier else earlier + [names[n]]
  }

  /** Every song of every album, album by album. */
  function AllSongs(albums: seq<Album>): seq<Song>
    decreases |albums|
  {
    if albums == [] then []
    else
      var n := |albums| - 1;
      AllSongs(albums[..n]) + albums[n].songs
  }

  lemma {:induction false} NewNamesMembers(seen: seq<Field>, names: seq<Field>)
    ensures forall nm :: nm in NewNames(seen, names) <==> nm in names && nm !in seen
    decreases |names|
  {
    if names != [] {
      var n := |names| - 1;
      NewNamesMembers(seen, names[..n]);
      assert names == names[..n] + [names[n]];
    }
  }

  lemma MergeAlbumNames(albums: seq<Album>, x: Album)
    ensures Names(MergeAlbum(albums, x)) ==
      if x.albumName in Names(albums) then Names(albums) else Names(albums) + [x.albumName]
  {
    var j := AlbumIndexByName(albums, x.albumName);
    if j > -1 {
      assert x.albumName in Names(albums);
    } else {
      assert x.albumName !in Names(albums);
    }
  }

  /** One more name: it is appended after the names already listed unless it is among them. */
  lemma NewNamesSnoc(seen: seq<Field>, pre: seq<Field>, x: Field)
    ensures var listed := seen + NewNames(seen, pre);
      seen + NewNames(seen, pre + [x]) == if x in listed then listed else listed + [x]
  {
    var names := pre + [x];
    assert names[..|pre|] == pre && names[|pre|] == x;
    NewNamesMembers(seen, pre);
    assert x in seen + NewNames(seen, pre) <==> x in seen || x in pre;
  }

  lemma NamesSnoc(incoming: seq<Album>)
    requires incoming != []
    ensures Names(incoming) == Names(incoming[..|incoming| - 1]) + [incoming[|incoming| - 1].albumName]
  {
  }

  /** Existing albums keep their places; each incoming album whose name is new is
      appended once, in the order the names first appear in the input. */
  lemma {:induction false} MergeAllNames(albums: seq<Album>, incoming: seq<Album>)
    ensures Names(MergeAll(albums, incoming)) == Names(albums) + NewNames(Names(albums), Names(incoming))
    decreases |incoming|
  {
    if incoming != [] {
      var n := |incoming| - 1;
      var before := MergeAll(albums, incoming[..n]);
      MergeAllNames(albums, incoming[..n]);
      MergeAlbumNames(before, incoming[n]);
      NamesSnoc(incoming);
      NewNamesSnoc(Names(albums), Names(incoming[..n]), incoming[n].albumName);
    }
  }

  /** Existing albums keep their name and image, and their songs as a prefix. */
  lemma {:induction false} MergeAllKeepsExisting(albums: seq<Album>, incoming: seq<Album>)
    ensures |MergeAll(albums, incoming)| >= |albums|
    ensures forall j | 0 <= j < |albums| ::
      && MergeAll(albums, incoming)[j].albumName == albums[j].albumName
      && MergeAll(albums, incoming)[j].albumImageURL == albums[j].albumImageURL
      && albums[j].songs <= MergeAll(albums, incoming)[j].songs
    decreases |incoming|
  {
    if incoming != [] {
      var n := |incoming| - 1;
      MergeAllKeepsExisting(albums, incoming[..n]);
      var before := MergeAll(albums, incoming[..n]);
      var after := MergeAlbum(before, incoming[n]);
      forall j | 0 <= j < |albums|
        ensures after[j].albumName == albums[j].albumName
        ensures after[j].albumImageURL == albums[j].albumImageURL
        ensures albums[j].songs <= after[j].songs
      {
        assert albums[j].songs <= before[j].songs;
        assert before[j].songs <= after[j].songs;
      }
    }
  }

  /** Album `j` is the first album called by its name, where `findIndex` on that name stops. */
  predicate FirstOfName(albums: seq<Album>, j: nat) {
    j < |albums| && forall j' | 0 <= j' < j :: albums[j'].albumName != albums[j].albumName
  }

  /** The songs of the incoming albums called `name`, in input order. */
  function SongsNamed(incoming: seq<Album>, name: Field): seq<Song>
    decreases |incoming|
  {
    if incoming == [] then []
    else
      var n := |incoming| - 1;
      SongsNamed(incoming[..n], name) + (if incoming[n].albumName == name then incoming[n].songs else [])
  }

  /** One turn appends the incoming songs to the first album of the same name, and to no
      other album. */
  lemma MergeAlbumSongsAt(albums: seq<Album>, x: Album, j: nat)
    requires j < |albums|
    ensures j < |MergeAlbum(albums, x)|
    ensures MergeAlbum(albums, x)[j].songs ==
      albums[j].songs + if FirstOfName(albums, j) && albums[j].albumName == x.albumName then x.songs else []
  {
    var i := AlbumIndexByName(albums, x.albumName);
    if FirstOfName(albums, j) && albums[j].albumName == x.albumName {
      assert i == j;
    }
  }

  /** Whether an album is the first of its name depends only on the names up to it. */
  lemma FirstOfNameKept(albums: seq<Album>, merged: seq<Album>, j: nat)
    requires j < |albums| <= |merged|
    requires forall j' | 0 <= j' < |albums| :: merged[j'].albumName == albums[j'].albumName
    ensures FirstOfName(merged, j) <==> FirstOfName(albums, j)
  {
  }

  /** The last incoming album adds its songs to existing album `j` exactly when `j` is the
      first album of that name. */
  lemma MergeAllSongsStep(albums: seq<Album>, incoming: seq<Album>, j: nat)
    requires j < |albums| && incoming != []
    ensures j < |MergeAll(albums, incoming[..|incoming| - 1])| && j < |MergeAll(albums, incoming)|
    ensures var n := |incoming| - 1;
      MergeAll(albums, incoming)[j].songs == MergeAll(albums, incoming[..n])[j].songs +
        if FirstOfName(albums, j) && incoming[n].albumName == albums[j].albumName then incoming[n].songs else []
  {
    var n := |incoming| - 1;
    var before := MergeAll(albums, incoming[..n]);
    MergeAllKeepsExisting(albums, incoming[..n]);
    MergeAlbumSongsAt(before, incoming[n], j);
    FirstOfNameKept(albums, before, j);
  }

  /** An existing album that is the first of its name gains exactly the songs of the
      incoming albums with that name, in input order; every other existing album keeps
      its songs. */
  lemma {:induction false} MergeAllSongsAt(albums: seq<Album>, incoming: seq<Album>, j: nat)
    requires j < |albums|
    ensures j < |MergeAll(albums, incoming)|
    ensures MergeAll(albums, incoming)[j].songs ==
      albums[j].songs + if FirstOfName(albums, j) then SongsNamed(incoming, albums[j].albumName) else []
    decreases |incoming|
  {
    if incoming != [] {
      var n := |incoming| - 1;
      var name := albums[j].albumName;
      MergeAllSongsAt(albums, incoming[..n], j);
      MergeAllSongsStep(albums, incoming, j);
      var earlier := SongsNamed(incoming[..n], name);
      var added := if incoming[n].albumName == name then incoming[n].songs else [];
      assert SongsNamed(incoming, name) == earlier + added;
      if FirstOfName(albums, j) {
        assert albums[j].songs + earlier + added == albums[j].songs + (earlier + added);
      }
    }
  }

  /** When no incoming name exists yet and the incoming names are distinct, the incoming
      albums are appended as they are. */
  lemma {:induction false} MergeAllFresh(albums: seq<Album>, incoming: seq<Album>)
    requires forall j | 0 <= j < |incoming| :: incoming[j].albumName !in Names(albums)
    requires forall a, b | 0 <= a < b < |incoming| :: incoming[a].albumName != incoming[b].albumName
    ensures MergeAll(albums, incoming) == albums + incoming
    decreases |incoming|
  {
    if incoming != [] {
      var n := |incoming| - 1;
      MergeAllFresh(albums, incoming[..n]);
      var before := albums + incoming[..n];
      assert incoming[n].albumName !in Names(before) by {
        forall j | 0 <= j < |before| ensures before[j].albumName != incoming[n].albumName {
          if j >= |albums| { assert before[j] == incoming[j - |albums|]; }
          else { assert albums[j].albumName in Names(albums); }
        }
      }
      MergeAlbumNames(before, incoming[n]);
      assert AlbumIndexByName(before, incoming[n].albumName) == -1;
      assert before + [incoming[n]] == albums + incoming;
    }
  }

  lemma {:induction false} AllSongsReplace(albums: seq<Album>, j: nat, songs: seq<Song>)
    requires j < |albums|
    ensures multiset(AllSongs(albums[j := albums[j].(songs := songs)])) + multiset(albums[j].songs)
         == multiset(AllSongs(albums)) + multiset(songs)
    decreases |albums|
  {
    var n := |albums| - 1;
    var albums' := albums[j := albums[j].(songs := songs)];
    assert AllSongs(albums) == AllSongs(albums[..n]) + albums[n].songs;
    assert AllSongs(albums') == AllSongs(albums'[..n]) + albums'[n].songs;
    if j < n {
      var front, front' := albums[..n], albums'[..n];
      assert front' == front[j := front[j].(songs := songs)];
      AllSongsReplace(front, j, songs);
      var m0, m1, m2 := multiset(AllSongs(front')), multiset(albums[j].songs), multiset(albums[n].songs);
      calc {
        multiset(AllSongs(albums')) + m1;
        m0 + m2 + m1;
        (m0 + m1) + m2;
        multiset(AllSongs(front)) + multiset(songs) + m2;
        multiset(AllSongs(front)) + m2 + multiset(songs);
        multiset(AllSongs(albums)) + multiset(songs);
      }
    } else {
      assert albums'[..n] == albums[..n];
    }
  }

  lemma AllSongsAppend(albums: seq<Album>, x: Album)
    ensures AllSongs(albums + [x]) == AllSongs(albums) + x.songs
  {
    assert (albums + [x])[..|albums|] == albums;
  }

  lemma MergeAlbumSongs(albums: seq<Album>, x: Album)
    ensures multiset(AllSongs(MergeAlbum(albums, x))) == multiset(AllSongs(albums)) + multiset(x.songs)
  {
    var j := AlbumIndexByName(albums, x.albumName);
    if j > -1 {
      var songs := albums[j].songs + x.songs;
      var merged := albums[j := albums[j].(songs := songs)];
      assert MergeAlbum(albums, x) == merged;
      AllSongsReplace(albums, j, songs);
      MultisetCancel(multiset(AllSongs(merged)), multiset(AllSongs(albums)), multiset(albums[j].songs), multiset(x.songs));
    } else {
      assert MergeAlbum(albums, x) == albums + [x];
      AllSongsAppend(albums, x);
    }
  }

  lemma MultisetCancel<T>(m: multiset<T>, a: multiset<T>, b: multiset<T>, c: multiset<T>)
    requires m + b == a + (b + c)
    ensures m == a + c
  {
    forall t ensures m[t] == (a + c)[t] {
      assert (m + b)[t] == (a + (b + c))[t];
    }
    assert m == a + c;
  }

  /** Every incoming song is added, same-name songs included: the songs after the merge are
      the existing ones plus the incoming ones, so the song count grows by exactly the
      number of incoming songs. */
  lemma {:induction false} MergeAllSongs(albums: seq<Album>, incoming: seq<Album>)
    ensures multiset(AllSongs(MergeAll(albums, incoming))) == multiset(AllSongs(albums)) + multiset(AllSongs(incoming))
    ensures |AllSongs(MergeAll(albums, incoming))| == |AllSongs(albums)| + |AllSongs(incoming)|
    decreases |incoming|
  {
    if incoming != [] {
      var n := |incoming| - 1;
      MergeAllSongs(albums, incoming[..n]);
      MergeAlbumSongs(MergeAll(albums, incoming[..n]), incoming[n]);
      assert AllSongs(incoming) == AllSongs(incoming[..n]) + incoming[n].songs;
    }
    var r := AllSongs(MergeAll(albums, incoming));
    assert |multiset(r)| == |r|;
    assert |multiset(AllSongs(albums))| == |AllSongs(albums)|;
    assert |multiset(AllSongs(incoming))| == |AllSongs(incoming)|;
  }

  /** Merging valid albums into valid albums gives valid albums. */
  lemma {:induction false} MergeAllValid(albums: seq<Album>, incoming: seq<Album>)
    requires forall j | 0 <= j < |albums| :: ValidAlbum(albums[j])
    requires forall j | 0 <= j < |incoming| :: ValidAlbum(incoming[j])
    ensures forall j | 0 <= j < |MergeAll(albums, incoming)| :: ValidAlbum(MergeAll(albums, incoming)[j])
    decreases |incoming|
  {
    if incoming != [] {
      var n := |incoming| - 1;
      MergeAllValid(albums, incoming[..n]);
      var before := MergeAll(albums, incoming[..n]);
      var x := incoming[n];
      assert ValidAlbum(x);
      var j := AlbumIndexByName(before, x.albumName);
      if j > -1 {
        var a := before[j].(songs := before[j].songs + x.songs);
        assert ValidAlbum(before[j]);
        assert ValidAlbum(a) by {
          forall k | 0 <= k < |a.songs| ensures ValidSong(a.songs[k]) {
            if k < |before[j].songs| { assert ValidSong(before[j].songs[k]); }
            else { assert ValidSong(x.songs[k - |before[j].songs|]); }
          }
        }
      }
    }
  }

  /** A song already present under the same name in the same album is added a second time. */
  lemma MergeKeepsDuplicates(name: Field, image: Field, s: Song)
    ensures MergeAll([Album(name, image, [s])], [Album(name, None, [s])]) == [Album(name, image, [s, s])]
  {
    var albums := [Album(name, image, [s])];
    var incoming := [Album(name, None, [s])];
    assert incoming[..0] == [];
    assert AlbumIndexByName(albums, name) == 0;
    assert [s] + [s] == [s, s];
  }

  // ---------------------------------------------------------------------------
  // createSong, the request's albums

  /** An album as a `createSong` body carries it: its `songs` may be missing. */
  datatype AlbumInput = AlbumInput(albumName: Field, albumImageURL: Field, songs: Option<seq<Song>>)

  /** The album Mongoose casts an input album to: a missing `songs` array becomes empty. */
  function AsAlbum(x: AlbumInput): Album {
    Album(x.albumName, x.albumImageURL, if x.songs.Some? then x.songs.value else [])
  }

  function AsAlbums(xs: seq<AlbumInput>): (albums: seq<Album>)
    ensures |albums| == |xs| && forall j | 0 <= j < |xs| :: albums[j] == AsAlbum(xs[j])
  {
    seq(|xs|, j requires 0 <= j < |xs| => AsAlbum(xs[j]))
  }

  /** Turn `n` of the `forEach` throws: its album has no `songs` and its name is already
      taken, so `push(...undefined)` fails. */
  predicate ThrowsAt(albums: seq<Album>, incoming: seq<AlbumInput>, n: nat) {
    && n < |incoming|
    && incoming[n].songs.None?
    && AlbumIndexByName(MergeAll(albums, AsAlbums(incoming[..n])), incoming[n].albumName) > -1
  }

  /** The turns of a shorter input throw exactly where the same turns of the longer one do. */
  lemma ThrowsAtPrefix(albums: seq<Album>, incoming: seq<AlbumInput>, n: nat, m: nat)
    requires n <= |incoming|
    ensures ThrowsAt(albums, incoming[..n], m) <==> m < n && ThrowsAt(albums, incoming, m)
  {
    if m < n {
      assert incoming[..n][..m] == incoming[..m];
    }
  }

  /** The merge of the cast albums, one turn at a time. */
  lemma MergeAllInputsSnoc(albums: seq<Album>, incoming: seq<AlbumInput>)
    requires incoming != []
    ensures var n := |incoming| - 1;
      MergeAll(albums, AsAlbums(incoming)) == MergeAlbum(MergeAll(albums, AsAlbums(incoming[..n])), AsAlbum(incoming[n]))
  {
    var n := |incoming| - 1;
    assert AsAlbums(incoming)[..n] == AsAlbums(incoming[..n]);
  }

  /** The whole `forEach` over the request's albums: `None` when a turn throws, and
      otherwise the merge of the cast albums. */
  function MergeInputs(albums: seq<Album>, incoming: seq<AlbumInput>): (r: Option<seq<Album>>)
    ensures r.Some? ==> r.value == MergeAll(albums, AsAlbums(incoming))
    decreases |incoming|
  {
    if incoming == [] then Some(albums)
    else
      var n := |incoming| - 1;
      MergeAllInputsSnoc(albums, incoming);
      match MergeInputs(albums, incoming[..n])
      case None => None
      case Some(before) =>
        if incoming[n].songs.None? && AlbumIndexByName(before, incoming[n].albumName) > -1 then None
        else Some(MergeAlbum(before, AsAlbum(incoming[n])))
  }

  /** The `forEach` fails on a longer input when it failed on the shorter one, or when its
      last turn throws. */
  lemma MergeInputsStep(albums: seq<Album>, incoming: seq<AlbumInput>)
    requires incoming != []
    ensures var n := |incoming| - 1;
      MergeInputs(albums, incoming).None? <==>
      MergeInputs(albums, incoming[..n]).None? || ThrowsAt(albums, incoming, n)
  {
  }

  /** A turn that does not throw merges its album into the albums merged so far. */
  lemma MergeInputsExtend(albums: seq<Album>, incoming: seq<AlbumInput>, n: nat, merged: seq<Album>)
    requires n < |incoming| && MergeInputs(albums, incoming[..n]) == Some(merged)
    requires !(incoming[n].songs.None? && AlbumIndexByName(merged, incoming[n].albumName) > -1)
    ensures MergeInputs(albums, incoming[..n + 1]) == Some(MergeAlbum(merged, AsAlbum(incoming[n])))
  {
    assert incoming[..n + 1][..n] == incoming[..n];
  }

  /** A failed `forEach` has a turn that throws. */
  lemma {:induction false} FirstThrow(albums: seq<Album>, incoming: seq<AlbumInput>) returns (n: nat)
    requires MergeInputs(albums, incoming).None?
    ensures ThrowsAt(albums, incoming, n)
    decreases |incoming|
  {
    var last := |incoming| - 1;
    MergeInputsStep(albums, incoming);
    if MergeInputs(albums, incoming[..last]).None? {
      n := FirstThrow(albums, incoming[..last]);
      ThrowsAtPrefix(albums, incoming, last, n);
    } else {
      n := last;
    }
  }

  /** A turn that throws makes the whole `forEach` fail. */
  lemma {:induction false} ThrowFails(albums: seq<Album>, incoming: seq<AlbumInput>, m: nat)
    requires ThrowsAt(albums, incoming, m)
    ensures MergeInputs(albums, incoming).None?
    decreases |incoming|
  {
    var last := |incoming| - 1;
    MergeInputsStep(albums, incoming);
    if m < last {
      ThrowsAtPrefix(albums, incoming, last, m);
      ThrowFails(albums, incoming[..last], m);
      assert MergeInputs(albums, incoming[..last]).None?;
    } else {
      assert m == last;
    }
  }

  /** The `forEach` fails exactly when some turn throws. */
  lemma MergeInputsThrows(albums: seq<Album>, incoming: seq<AlbumInput>)
    ensures MergeInputs(albums, incoming).None? <==> exists n: nat :: ThrowsAt(albums, incoming, n)
  {
    if MergeInputs(albums, incoming).None? {
      var n := FirstThrow(albums, incoming);
    }
    if exists n: nat :: ThrowsAt(albums, incoming, n) {
      var m: nat :| ThrowsAt(albums, incoming, m);
      ThrowFails(albums, incoming, m);
    }
  }
}
