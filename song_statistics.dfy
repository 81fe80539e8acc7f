/** `getOverallStatistics`: the aggregation pipelines restated as functions over the
    records that `$unwind` produces. A `$group` with `$sum: 1` is a multiset of its keys
    (each key's count is its multiplicity); a `$group` followed by `$count` is the number
    of distinct keys. */
module SongStatistics {
  import opened SongSchema
  import opened SongEdits

  /** A document after `{ $unwind: '$albums' }`, reduced to the paths the pipelines read. */
  datatype AlbumRecord = AlbumRecord(artistName: Field, albumName: Field)

  /** A document after `{ $unwind: '$albums' }, { $unwind: '$albums.songs' }`. */
  datatype SongRecord = SongRecord(artistName: Field, albumName: Field, song: Song)

  /** One record per album of each document; a document without albums yields none. */
  function UnwindAlbums(docs: seq<Artist>): seq<AlbumRecord>
    decreases |docs|
  {
    if docs == [] then []
    else
      var n := |docs| - 1;
      UnwindAlbums(docs[..n]) + AlbumRecords(docs[n])
  }

  function AlbumRecords(d: Artist): (recs: seq<AlbumRecord>)
    ensures |recs| == |d.albums|
    ensures forall j | 0 <= j < |d.albums| :: recs[j] == AlbumRecord(d.artistName, d.albums[j].albumName)
  {
    seq(|d.albums|, j requires 0 <= j < |d.albums| => AlbumRecord(d.artistName, d.albums[j].albumName))
  }

  /** One record per song of each album of one artist; an album without songs yields none. */
  function UnwindAlbumSongs(artist: Field, albums: seq<Album>): seq<SongRecord>
    decreases |albums|
  {
    if albums == [] then []
    else
      var n := |albums| - 1;
      var a := albums[n];
      UnwindAlbumSongs(artist, albums[..n])
      + seq(|a.songs|, k requires 0 <= k < |a.songs| => SongRecord(artist, a.albumName, a.songs[k]))
  }

  function UnwindSongs(docs: seq<Artist>): seq<SongRecord>
    decreases |docs|
  {
    if docs == [] then []
    else
      var n := |docs| - 1;
      UnwindSongs(docs[..n]) + UnwindAlbumSongs(docs[n].artistName, docs[n].albums)
  }

  /** `distinct('artistName')`: every artist name some document has, once. */
  function DistinctArtistNames(docs: seq<Artist>): (names: set<string>)
    ensures forall nm :: nm in names <==> exists i | 0 <= i < |docs| :: docs[i].artistName == Some(nm)
    ensures |names| <= |docs|
    decreases |docs|
  {
    if docs == [] then {}
    else
      var n := |docs| - 1;
      var earlier := DistinctArtistNames(docs[..n]);
      assert forall i | 0 <= i < n :: docs[..n][i] == docs[i];
      match docs[n].artistName
      case None => earlier
      case Some(nm) => earlier + {nm}
  }

  function Categories(recs: seq<SongRecord>): (cs: seq<Field>)
    ensures |cs| == |recs| && forall i | 0 <= i < |recs| :: cs[i] == recs[i].song.category
  {
    seq(|recs|, i requires 0 <= i < |recs| => recs[i].song.category)
  }

  function SongArtists(recs: seq<SongRecord>): (names: seq<Field>)
    ensures |names| == |recs| && forall i | 0 <= i < |recs| :: names[i] == recs[i].artistName
  {
    seq(|recs|, i requires 0 <= i < |recs| => recs[i].artistName)
  }

  function AlbumNames(recs: seq<AlbumRecord>): (names: seq<Field>)
    ensures |names| == |recs| && forall i | 0 <= i < |recs| :: names[i] == recs[i].albumName
  {
    seq(|recs|, i requires 0 <= i < |recs| => recs[i].albumName)
  }

  /** The album names of `artist`'s album records: `$addToSet: '$albums.albumName'`. */
  function AlbumSet(recs: seq<AlbumRecord>, artist: Field): set<Field> {
    set r <- recs | r.artistName == artist :: r.albumName
  }

  /** `albumsByArtist`: one entry per artist name among the records, counting its distinct album names. */
  function AlbumsByArtist(recs: seq<AlbumRecord>): map<Field, nat> {
    map a | a in (set r <- recs :: r.artistName) :: |AlbumSet(recs, a)|
  }

  datatype Statistics = Statistics(
    totalSongs: nat,
    totalArtists: nat,
    totalAlbums: nat,
    totalGenres: nat,
    songsByGenre: multiset<Field>,
    songsByArtist: multiset<Field>,
    albumsByArtist: map<Field, nat>,
    songsInAlbum: multiset<Field>)

  /** Every `$group` bucket of `songsByGenre` is one of the genres `totalGenres` counts,
      and its counts add up to `totalSongs`; likewise for `songsInAlbum` and `totalAlbums`. */
  function OverallStatistics(docs: seq<Artist>): (st: Statistics)
    ensures st.totalArtists == |DistinctArtistNames(docs)|
    ensures |st.songsByGenre| == st.totalSongs && |st.songsByArtist| == st.totalSongs
    ensures st.totalGenres == |set c | c in st.songsByGenre|
    ensures st.totalAlbums == |set a | a in st.songsInAlbum|
    ensures forall a | a in st.albumsByArtist :: 1 <= st.albumsByArtist[a] <= st.totalAlbums
  {
    var songs := UnwindSongs(docs);
    var albums := UnwindAlbums(docs);
    var genres := set r <- songs :: r.song.category;
    var albumNames := set r <- albums :: r.albumName;
    var byArtist := AlbumsByArtist(albums);
    assert genres == set c | c in multiset(Categories(songs));
    assert albumNames == set a | a in multiset(AlbumNames(albums));
    assert forall a | a in byArtist :: 1 <= byArtist[a] <= |albumNames| by {
      forall a | a in byArtist ensures 1 <= byArtist[a] <= |albumNames| {
        var r :| r in albums && r.artistName == a;
        assert r.albumName in AlbumSet(albums, a);
        SubsetSize(AlbumSet(albums, a), albumNames);
      }
    }
    Statistics(
      totalSongs := |songs|,
      totalArtists := |DistinctArtistNames(docs)|,
      totalAlbums := |albumNames|,
      totalGenres := |genres|,
      songsByGenre := multiset(Categories(songs)),
      songsByArtist := multiset(SongArtists(songs)),
      albumsByArtist := byArtist,
      songsInAlbum := multiset(AlbumNames(albums)))
  }

  lemma {:induction false} SubsetSize<T>(a: set<T>, b: set<T>)
    requires a <= b
    ensures |a| <= |b|
    decreases |b|
  {
    if b != {} {
      var x :| x in b;
      SubsetSize(a - {x}, b - {x});
    }
  }

  // ---------------------------------------------------------------------------
  // Reference counts over the documents themselves

  /** The number of songs in all albums of all documents. */
  function SongCount(docs: seq<Artist>): nat
    decreases |docs|
  {
    if docs == [] then 0
    else
      var n := |docs| - 1;
      SongCount(docs[..n]) + |AllSongs(docs[n].albums)|
  }

  /** The number of album entries in all documents. */
  function AlbumCount(docs: seq<Artist>): nat
    decreases |docs|
  {
    if docs == [] then 0
    else
      var n := |docs| - 1;
      AlbumCount(docs[..n]) + |docs[n].albums|
  }

  lemma {:induction false} UnwindAlbumSongsSize(artist: Field, albums: seq<Album>)
    ensures |UnwindAlbumSongs(artist, albums)| == |AllSongs(albums)|
    decreases |albums|
  {
    if albums != [] {
      UnwindAlbumSongsSize(artist, albums[..|albums| - 1]);
    }
  }

  /** `totalSongs` is the sum, over all albums of all documents, of their song counts. */
  lemma {:induction false} TotalSongsIsSongCount(docs: seq<Artist>)
    ensures OverallStatistics(docs).totalSongs == SongCount(docs)
    ensures |UnwindSongs(docs)| == SongCount(docs)
    decreases |docs|
  {
    if docs != [] {
      var n := |docs| - 1;
      TotalSongsIsSongCount(docs[..n]);
      UnwindAlbumSongsSize(docs[n].artistName, docs[n].albums);
    }
  }

  /** `songsInAlbum` unwinds albums only: its counts add up to the number of album
      entries, not to the number of songs. */
  lemma {:induction false} SongsInAlbumCountsAlbums(docs: seq<Artist>)
    ensures |OverallStatistics(docs).songsInAlbum| == AlbumCount(docs)
    ensures |UnwindAlbums(docs)| == AlbumCount(docs)
    decreases |docs|
  {
    if docs != [] {
      SongsInAlbumCountsAlbums(docs[..|docs| - 1]);
    }
  }

  /** Replacing one document changes the song total by the difference of its song counts. */
  lemma {:induction false} SongCountReplace(docs: seq<Artist>, i: nat, d: Artist)
    requires i < |docs|
    ensures SongCount(docs[i := d]) + |AllSongs(docs[i].albums)| == SongCount(docs) + |AllSongs(d.albums)|
    decreases |docs|
  {
    var n := |docs| - 1;
    if i < n {
      assert docs[i := d][..n] == docs[..n][i := d];
      SongCountReplace(docs[..n], i, d);
    } else {
      assert docs[i := d][..n] == docs[..n];
    }
  }

  /** Merging a request into an existing document adds exactly its songs to `totalSongs`. */
  lemma MergeGrowsTotalSongs(docs: seq<Artist>, i: nat, incoming: seq<Album>)
    requires i < |docs|
    ensures var merged := docs[i].(albums := MergeAll(docs[i].albums, incoming));
      OverallStatistics(docs[i := merged]).totalSongs == OverallStatistics(docs).totalSongs + |AllSongs(incoming)|
  {
    var merged := docs[i].(albums := MergeAll(docs[i].albums, incoming));
    MergeAllSongs(docs[i].albums, incoming);
    SongCountReplace(docs, i, merged);
    TotalSongsIsSongCount(docs);
    TotalSongsIsSongCount(docs[i := merged]);
  }

  /** A new document adds exactly its songs to `totalSongs`. */
  lemma NewArtistGrowsTotalSongs(docs: seq<Artist>, d: Artist)
    ensures OverallStatistics(docs + [d]).totalSongs == OverallStatistics(docs).totalSongs + |AllSongs(d.albums)|
  {
    assert (docs + [d])[..|docs|] == docs;
    TotalSongsIsSongCount(docs);
    TotalSongsIsSongCount(docs + [d]);
  }

  lemma {:induction false} AllSongsWithout(albums: seq<Album>, j: nat, k: nat)
    requires j < |albums| && k < |albums[j].songs|
    ensures var songs := albums[j].songs;
      |AllSongs(albums[j := albums[j].(songs := songs[..k] + songs[k + 1..])])| + 1 == |AllSongs(albums)|
    decreases |albums|
  {
    var songs := albums[j].songs;
    var albums' := albums[j := albums[j].(songs := songs[..k] + songs[k + 1..])];
    var n := |albums| - 1;
    if j < n {
      assert albums'[..n] == albums[..n][j := albums[..n][j].(songs := songs[..k] + songs[k + 1..])];
      AllSongsWithout(albums[..n], j, k);
    } else {
      assert albums'[..n] == albums[..n];
    }
  }

  /** Deleting a song takes exactly one from `totalSongs`. */
  lemma DeleteShrinksTotalSongs(docs: seq<Artist>, i: nat, j: nat, k: nat)
    requires i < |docs| && j < |docs[i].albums| && k < |docs[i].albums[j].songs|
    ensures OverallStatistics(docs[i := WithoutSong(docs[i], j, k)]).totalSongs + 1 == OverallStatistics(docs).totalSongs
  {
    var d := WithoutSong(docs[i], j, k);
    var songs := docs[i].albums[j].songs;
    assert d.albums == docs[i].albums[j := docs[i].albums[j].(songs := songs[..k] + songs[k + 1..])];
    AllSongsWithout(docs[i].albums, j, k);
    SongCountReplace(docs, i, d);
    TotalSongsIsSongCount(docs);
    TotalSongsIsSongCount(docs[i := d]);
  }

  /** On an empty catalog every total is 0 and every breakdown is empty. */
  lemma EmptyCatalog()
    ensures OverallStatistics([]) == Statistics(0, 0, 0, 0, multiset{}, multiset{}, map[], multiset{})
  {
  }

  /** `$unwind: '$albums'` yields exactly one record per album entry of each document. */
  lemma {:induction false} UnwindAlbumsMembers(docs: seq<Artist>)
    ensures forall r :: r in UnwindAlbums(docs) <==>
      exists i, j | 0 <= i < |docs| && 0 <= j < |docs[i].albums| ::
        r == AlbumRecord(docs[i].artistName, docs[i].albums[j].albumName)
    decreases |docs|
  {
    if docs != [] {
      var n := |docs| - 1;
      var front := docs[..n];
      UnwindAlbumsMembers(front);
      forall r ensures r in UnwindAlbums(docs) <==>
        exists i, j | 0 <= i < |docs| && 0 <= j < |docs[i].albums| ::
          r == AlbumRecord(docs[i].artistName, docs[i].albums[j].albumName)
      {
        if r in UnwindAlbums(front) {
          var i, j :| 0 <= i < |front| && 0 <= j < |front[i].albums| &&
            r == AlbumRecord(front[i].artistName, front[i].albums[j].albumName);
          assert front[i] == docs[i];
        } else if r in AlbumRecords(docs[n]) {
          var j :| 0 <= j < |docs[n].albums| && AlbumRecords(docs[n])[j] == r;
          assert r == AlbumRecord(docs[n].artistName, docs[n].albums[j].albumName);
        }
        if exists i, j | 0 <= i < |docs| && 0 <= j < |docs[i].albums| ::
          r == AlbumRecord(docs[i].artistName, docs[i].albums[j].albumName)
        {
          var i, j :| 0 <= i < |docs| && 0 <= j < |docs[i].albums| &&
            r == AlbumRecord(docs[i].artistName, docs[i].albums[j].albumName);
          if i < n {
            assert front[i] == docs[i];
            assert r in UnwindAlbums(front);
          } else {
            assert AlbumRecords(docs[n])[j] == r;
          }
        }
      }
    }
  }

  /** Every album name used anywhere in the catalog, once. */
  function AlbumNameSet(docs: seq<Artist>): set<Field> {
    set i, j | 0 <= i < |docs| && 0 <= j < |docs[i].albums| :: docs[i].albums[j].albumName
  }

  /** The album names used in the documents named `artist`, once. */
  function ArtistAlbumNameSet(docs: seq<Artist>, artist: Field): set<Field> {
    set i, j | 0 <= i < |docs| && docs[i].artistName == artist && 0 <= j < |docs[i].albums| ::
      docs[i].albums[j].albumName
  }

  /** `totalAlbums` is the number of distinct album names across all documents, whichever
      artist holds them; `songsInAlbum` has a bucket for exactly those names. */
  lemma TotalAlbumsDistinct(docs: seq<Artist>)
    ensures OverallStatistics(docs).totalAlbums == |AlbumNameSet(docs)|
    ensures forall x :: x in OverallStatistics(docs).songsInAlbum <==> x in AlbumNameSet(docs)
  {
    var albums := UnwindAlbums(docs);
    UnwindAlbumsMembers(docs);
    assert (set r <- albums :: r.albumName) == AlbumNameSet(docs) by {
      forall x | x in AlbumNameSet(docs) ensures x in (set r <- albums :: r.albumName) {
        var i, j :| 0 <= i < |docs| && 0 <= j < |docs[i].albums| && x == docs[i].albums[j].albumName;
        assert AlbumRecord(docs[i].artistName, x) in albums;
      }
    }
    forall x ensures x in multiset(AlbumNames(albums)) <==> x in AlbumNameSet(docs) {
      if x in AlbumNames(albums) {
        var k :| 0 <= k < |albums| && AlbumNames(albums)[k] == x;
        assert albums[k] in albums;
      }
      if x in AlbumNameSet(docs) {
        var r :| r in albums && r.albumName == x;
        var k :| 0 <= k < |albums| && albums[k] == r;
        assert AlbumNames(albums)[k] == x;
      }
    }
  }

  /** The artist names among the album records are those of documents with an album. */
  lemma ArtistKeysOfDocs(docs: seq<Artist>, artist: Field)
    ensures artist in (set r <- UnwindAlbums(docs) :: r.artistName) <==>
      exists i | 0 <= i < |docs| :: docs[i].artistName == artist && |docs[i].albums| > 0
  {
    var albums := UnwindAlbums(docs);
    UnwindAlbumsMembers(docs);
    if exists i | 0 <= i < |docs| :: docs[i].artistName == artist && |docs[i].albums| > 0 {
      var i :| 0 <= i < |docs| && docs[i].artistName == artist && |docs[i].albums| > 0;
      assert AlbumRecord(artist, docs[i].albums[0].albumName) in albums;
    }
    if artist in (set r <- albums :: r.artistName) {
      var r :| r in albums && r.artistName == artist;
      var i, j :| 0 <= i < |docs| && 0 <= j < |docs[i].albums| &&
        r == AlbumRecord(docs[i].artistName, docs[i].albums[j].albumName);
    }
  }

  /** The `$addToSet` of one artist's album records holds the album names of its documents. */
  lemma AlbumSetOfDocs(docs: seq<Artist>, artist: Field)
    ensures AlbumSet(UnwindAlbums(docs), artist) == ArtistAlbumNameSet(docs, artist)
  {
    var albums := UnwindAlbums(docs);
    UnwindAlbumsMembers(docs);
    forall x | x in ArtistAlbumNameSet(docs, artist) ensures x in AlbumSet(albums, artist) {
      var i, j :| 0 <= i < |docs| && docs[i].artistName == artist && 0 <= j < |docs[i].albums| &&
        x == docs[i].albums[j].albumName;
      assert AlbumRecord(artist, x) in albums;
    }
    forall x | x in AlbumSet(albums, artist) ensures x in ArtistAlbumNameSet(docs, artist) {
      var r :| r in albums && r.artistName == artist && r.albumName == x;
      var i, j :| 0 <= i < |docs| && 0 <= j < |docs[i].albums| &&
        r == AlbumRecord(docs[i].artistName, docs[i].albums[j].albumName);
    }
  }

  /** `albumsByArtist` has an entry for exactly the artist names of documents with at
      least one album, and counts the distinct album names over all documents with that
      artist name. */
  lemma AlbumsByArtistDistinct(docs: seq<Artist>, artist: Field)
    ensures artist in OverallStatistics(docs).albumsByArtist <==>
      exists i | 0 <= i < |docs| :: docs[i].artistName == artist && |docs[i].albums| > 0
    ensures artist in OverallStatistics(docs).albumsByArtist ==>
      OverallStatistics(docs).albumsByArtist[artist] == |ArtistAlbumNameSet(docs, artist)|
  {
    assert OverallStatistics(docs).albumsByArtist == AlbumsByArtist(UnwindAlbums(docs));
    ArtistKeysOfDocs(docs, artist);
    AlbumSetOfDocs(docs, artist);
  }

  // ---------------------------------------------------------------------------
  // Per-key counts of the `$sum: 1` groups, against counts over the documents

  /** The number of songs of `songs` whose category is `c`. */
  function CategoryCount(songs: seq<Song>, c: Field): nat
    decreases |songs|
  {
    if songs == [] then 0
    else
      var n := |songs| - 1;
      CategoryCount(songs[..n], c) + if songs[n].category == c then 1 else 0
  }

  /** The number of songs with category `c` in all documents. */
  function GenreSongCount(docs: seq<Artist>, c: Field): nat
    decreases |docs|
  {
    if docs == [] then 0
    else
      var n := |docs| - 1;
      GenreSongCount(docs[..n], c) + CategoryCount(AllSongs(docs[n].albums), c)
  }

  /** The number of songs in the documents whose artist name is `a`. */
  function ArtistSongCount(docs: seq<Artist>, a: Field): nat
    decreases |docs|
  {
    if docs == [] then 0
    else
      var n := |docs| - 1;
      ArtistSongCount(docs[..n], a) + if docs[n].artistName == a then |AllSongs(docs[n].albums)| else 0
  }

  /** The number of albums of `albums` called `name`. */
  function NamedAlbumCount(albums: seq<Album>, name: Field): nat
    decreases |albums|
  {
    if albums == [] then 0
    else
      var n := |albums| - 1;
      NamedAlbumCount(albums[..n], name) + if albums[n].albumName == name then 1 else 0
  }

  /** The number of album entries called `name` in all documents. */
  function AlbumEntryCount(docs: seq<Artist>, name: Field): nat
    decreases |docs|
  {
    if docs == [] then 0
    else
      var n := |docs| - 1;
      AlbumEntryCount(docs[..n], name) + NamedAlbumCount(docs[n].albums, name)
  }

  function SongCategories(songs: seq<Song>): (cs: seq<Field>)
    ensures |cs| == |songs| && forall k | 0 <= k < |songs| :: cs[k] == songs[k].category
  {
    seq(|songs|, k requires 0 <= k < |songs| => songs[k].category)
  }

  /** The song records of one artist's albums are that artist's songs, in album order. */
  lemma {:induction false} UnwindAlbumSongsShape(artist: Field, albums: seq<Album>)
    ensures |UnwindAlbumSongs(artist, albums)| == |AllSongs(albums)|
    ensures forall k | 0 <= k < |AllSongs(albums)| ::
      UnwindAlbumSongs(artist, albums)[k].artistName == artist &&
      UnwindAlbumSongs(artist, albums)[k].song == AllSongs(albums)[k]
    decreases |albums|
  {
    if albums != [] {
      var n := |albums| - 1;
      UnwindAlbumSongsShape(artist, albums[..n]);
    }
  }

  lemma {:induction false} CategoryCountMultiset(songs: seq<Song>, c: Field)
    ensures multiset(SongCategories(songs))[c] == CategoryCount(songs, c)
    decreases |songs|
  {
    if songs != [] {
      var n := |songs| - 1;
      CategoryCountMultiset(songs[..n], c);
      assert SongCategories(songs) == SongCategories(songs[..n]) + [songs[n].category];
    }
  }

  lemma {:induction false} NamedAlbumCountMultiset(albums: seq<Album>, name: Field)
    ensures multiset(Names(albums))[name] == NamedAlbumCount(albums, name)
    decreases |albums|
  {
    if albums != [] {
      var n := |albums| - 1;
      NamedAlbumCountMultiset(albums[..n], name);
      assert Names(albums) == Names(albums[..n]) + [albums[n].albumName];
    }
  }

  lemma {:induction false} ConstantMultiset<T>(s: seq<T>, x: T, y: T)
    requires forall k | 0 <= k < |s| :: s[k] == x
    ensures multiset(s)[y] == if y == x then |s| else 0
    decreases |s|
  {
    if s != [] {
      var n := |s| - 1;
      ConstantMultiset(s[..n], x, y);
      assert s == s[..n] + [s[n]];
    }
  }

  lemma {:induction false} GenreCountsUnwound(docs: seq<Artist>, c: Field)
    ensures multiset(Categories(UnwindSongs(docs)))[c] == GenreSongCount(docs, c)
    decreases |docs|
  {
    if docs != [] {
      var n := |docs| - 1;
      var front, last := UnwindSongs(docs[..n]), UnwindAlbumSongs(docs[n].artistName, docs[n].albums);
      GenreCountsUnwound(docs[..n], c);
      UnwindAlbumSongsShape(docs[n].artistName, docs[n].albums);
      assert Categories(last) == SongCategories(AllSongs(docs[n].albums));
      CategoryCountMultiset(AllSongs(docs[n].albums), c);
      assert Categories(front + last) == Categories(front) + Categories(last);
    }
  }

  lemma {:induction false} ArtistCountsUnwound(docs: seq<Artist>, a: Field)
    ensures multiset(SongArtists(UnwindSongs(docs)))[a] == ArtistSongCount(docs, a)
    decreases |docs|
  {
    if docs != [] {
      var n := |docs| - 1;
      var front, last := UnwindSongs(docs[..n]), UnwindAlbumSongs(docs[n].artistName, docs[n].albums);
      ArtistCountsUnwound(docs[..n], a);
      UnwindAlbumSongsShape(docs[n].artistName, docs[n].albums);
      ConstantMultiset(SongArtists(last), docs[n].artistName, a);
      assert SongArtists(front + last) == SongArtists(front) + SongArtists(last);
    }
  }

  lemma {:induction false} AlbumCountsUnwound(docs: seq<Artist>, name: Field)
    ensures multiset(AlbumNames(UnwindAlbums(docs)))[name] == AlbumEntryCount(docs, name)
    decreases |docs|
  {
    if docs != [] {
      var n := |docs| - 1;
      var front, last := UnwindAlbums(docs[..n]), AlbumRecords(docs[n]);
      AlbumCountsUnwound(docs[..n], name);
      assert AlbumNames(last) == Names(docs[n].albums);
      NamedAlbumCountMultiset(docs[n].albums, name);
      assert AlbumNames(front + last) == AlbumNames(front) + AlbumNames(last);
    }
  }

  /** `songsByGenre` gives each category the number of songs in the catalog with that category. */
  lemma SongsByGenreCounts(docs: seq<Artist>, c: Field)
    ensures OverallStatistics(docs).songsByGenre[c] == GenreSongCount(docs, c)
  {
    GenreCountsUnwound(docs, c);
  }

  /** `songsByArtist` gives each artist name the number of songs in the documents with that name. */
  lemma SongsByArtistCounts(docs: seq<Artist>, a: Field)
    ensures OverallStatistics(docs).songsByArtist[a] == ArtistSongCount(docs, a)
  {
    ArtistCountsUnwound(docs, a);
  }

  /** `songsInAlbum` gives each album name the number of album entries with that name. */
  lemma SongsInAlbumCounts(docs: seq<Artist>, name: Field)
    ensures OverallStatistics(docs).songsInAlbum[name] == AlbumEntryCount(docs, name)
  {
    AlbumCountsUnwound(docs, name);
  }

  /** Two artists, each with one album of the same name. */
  function SharedAlbumName(s1: Song, s2: Song): seq<Artist> {
    var x := Some("Greatest Hits");
    [Artist(Some("Ann"), None, [Album(x, None, [s1])]), Artist(Some("Bob"), None, [Album(x, None, [s2])])]
  }

  lemma SharedAlbumNameUnwound(s1: Song, s2: Song)
    ensures UnwindAlbums(SharedAlbumName(s1, s2)) ==
      [AlbumRecord(Some("Ann"), Some("Greatest Hits")), AlbumRecord(Some("Bob"), Some("Greatest Hits"))]
  {
    var docs := SharedAlbumName(s1, s2);
    assert docs[..1] == [docs[0]] && [docs[0]][..0] == [];
    assert UnwindAlbums([docs[0]]) == [AlbumRecord(Some("Ann"), Some("Greatest Hits"))];
  }

  /** The grouping key of `totalAlbums` and `songsInAlbum` is the album name alone: equal
      names of different artists collapse into one bucket, which counts album entries. */
  lemma AlbumNamesCollapse(s1: Song, s2: Song)
    ensures var st := OverallStatistics(SharedAlbumName(s1, s2));
      && st.totalAlbums == 1 && st.songsInAlbum == multiset{Some("Greatest Hits"), Some("Greatest Hits")}
  {
    var x := Some("Greatest Hits");
    var albums := UnwindAlbums(SharedAlbumName(s1, s2));
    SharedAlbumNameUnwound(s1, s2);
    assert (set r <- albums :: r.albumName) == {x};
    assert AlbumNames(albums) == [x, x];
  }

  /** `albumsByArtist` groups by artist and album name: each artist keeps its own count. */
  lemma AlbumsCountedPerArtist(s1: Song, s2: Song)
    ensures OverallStatistics(SharedAlbumName(s1, s2)).albumsByArtist == map[Some("Ann") := 1, Some("Bob") := 1]
  {
    var x := Some("Greatest Hits");
    var a, b := Some("Ann"), Some("Bob");
    var albums := UnwindAlbums(SharedAlbumName(s1, s2));
    SharedAlbumNameUnwound(s1, s2);
    assert (set r <- albums :: r.artistName) == {a, b};
    assert AlbumSet(albums, a) == {x} && AlbumSet(albums, b) == {x};
    assert AlbumsByArtist(albums) == map[a := 1, b := 1];
  }

  /** In a catalog of valid documents, at most the eight enum values are in use. */
  lemma GenresWithinEnum(docs: seq<Artist>)
    requires forall i | 0 <= i < |docs| :: ValidArtist(docs[i])
    ensures OverallStatistics(docs).totalGenres <= 8
  {
    var songs := UnwindSongs(docs);
    var genres := set r <- songs :: r.song.category;
    var allowed := set c <- CategoryNames :: Some(c);
    UnwoundSongsValid(docs);
    forall g | g in genres ensures g in allowed {
      var r :| r in songs && r.song.category == g;
      assert ValidSong(r.song);
    }
    SubsetSize(genres, allowed);
    PresentSize(CategoryNames);
  }

  lemma {:induction false} PresentSize(names: seq<string>)
    ensures |set c <- names :: Some(c)| <= |names|
    decreases |names|
  {
    if names != [] {
      var n := |names| - 1;
      PresentSize(names[..n]);
      assert (set c <- names :: Some(c)) == (set c <- names[..n] :: Some(c)) + {Some(names[n])} by {
        assert names == names[..n] + [names[n]];
      }
    }
  }

  lemma {:induction false} UnwoundAlbumSongsValid(artist: Field, albums: seq<Album>)
    requires forall j | 0 <= j < |albums| :: ValidAlbum(albums[j])
    ensures forall r <- UnwindAlbumSongs(artist, albums) :: ValidSong(r.song)
    decreases |albums|
  {
    if albums != [] {
      var n := |albums| - 1;
      UnwoundAlbumSongsValid(artist, albums[..n]);
      assert ValidAlbum(albums[n]);
    }
  }

  lemma {:induction false} UnwoundSongsValid(docs: seq<Artist>)
    requires forall i | 0 <= i < |docs| :: ValidArtist(docs[i])
    ensures forall r <- UnwindSongs(docs) :: ValidSong(r.song)
    decreases |docs|
  {
    if docs != [] {
      var n := |docs| - 1;
      UnwoundSongsValid(docs[..n]);
      assert ValidArtist(docs[n]);
      UnwoundAlbumSongsValid(docs[n].artistName, docs[n].albums);
    }
  }
}
