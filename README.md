# Music catalog song controller, modelled in Dafny

The service stores a music catalog in one MongoDB collection. Each document is an
artist: `artistName`, `artistImageURL` and an ordered list of albums. Each album has
an `albumName`, an `albumImageURL` and an ordered list of songs. Each song has an `_id`,
a `songName`, a `songImageURL`, a `songURL` and a `category`. The song controller
serves five handlers over this collection:

- `getSongById` looks a song up by its id.
- `updateSong` writes the truthy fields of a request body into the artist, the album
  holding the song, and the song.
- `deleteSong` splices a song out of its album.
- `createSong` creates an artist document, or merges the request's albums into the
  existing one.
- `getOverallStatistics` runs a set of aggregation pipelines.

Every write goes through `save`, which first checks the Mongoose schema. The schema
makes `artistName`, every `albumName` and every song path required. It also restricts
`category` to eight case-sensitive values.

The model has five modules:

- `SongSchema` (song_schema.dfy): the document shape and the schema check. The check
  is an error list: one entry per violated path, and nothing else. A document passes
  exactly when the list is empty.
- `SongLookup` (song_lookup.dfy): the three look-ups each handler makes in turn:
  `findOne` on `albums.songs._id`, then the album, then the song. `getSongById` is
  built on them.
- `SongEdits` (song_edits.dfy): the document each handler writes, as a function of the
  document it read. It also holds the lemmas on what each edit keeps and what it
  changes.
- `SongStore` (song_store.dfy): the collection as a class whose `catalog` field the
  handlers update. `updateSong`, `deleteSong` and `createSong` are methods. Each one
  does the code's steps in order and is proved against the functions of `SongEdits`.
  The class invariant is that every stored document passes the schema.
- `SongStatistics` (song_statistics.dfy): each pipeline restated over the records
  that `$unwind` produces.
  - A `$group` with `$sum: 1` becomes a multiset of its keys.
  - A `$group` followed by `$count` becomes the number of distinct keys.
  - `distinct` becomes a set.

The model follows what the code does, including where it does less than the handler
names suggest:

- `createSong` does not skip a song whose name is already in the album. It appends
  every incoming song (`MergeKeepsDuplicates`).
- `deleteSong` never removes the album or the artist document. An album left without
  songs stays (`WithoutSong`).
- There is no search handler in the controller, so none is modelled.
- `songsInAlbum` counts album entries per album name, not songs
  (`SongsInAlbumCountsAlbums`).

## Model

| member | source | states |
|---|---|---|
| SongSchema.SongErrors | src/model/song.js:16-32 | a song has no errors exactly when `songName`, `songImageURL`, `songURL` and `category` are all filled and the category is one of the enum values; an error is reported exactly for each path at fault, and a filled category outside the enum is an enum error |
| SongSchema.SongListErrors | src/model/song.js:15-33 | a song list has no errors exactly when every song is valid; each error names a song of the list that has that fault |
| SongSchema.AlbumErrors | src/model/song.js:9-34 | an album has no errors exactly when its name is filled and all its songs are valid; its errors are the missing name and the faults of its songs, at this album's index |
| SongSchema.AlbumListErrors | src/model/song.js:9-34 | the errors of an album list are exactly the album-level and song-level violations in it, each at its own album index |
| SongSchema.SchemaErrors | src/model/song.js:3-35 | the errors `save` reports are empty exactly when the document passes the schema, and an error is reported exactly when the path it names exists and the schema rejects its value |
| SongSchema.CategoryEnum | src/model/song.js:31 | the category enum holds eight distinct values |
| SongSchema.CategoryCaseSensitive | src/model/song.js:28-32 | category matching is exact: "Hip Hop" is accepted, "Hip hop" and "rock" are not |
| SongLookup.FindIndex | src/controllers/songController.js:81-82 | the result is -1 exactly when no element satisfies the predicate; otherwise it is an index whose element satisfies the predicate and no earlier element does |
| SongLookup.Locate | src/controllers/songController.js:107-122 | there is no location exactly when no document holds the id; otherwise the location holds the id and is its first occurrence (first document, then first album in it, then first song in that), so the "Album not found" and second "Song not found" branches cannot be reached |
| SongLookup.FirstOccurrenceUnique | src/controllers/songController.js:28-36 | two first occurrences of one id are the same location: the look-up is determined by the catalog |
| SongLookup.LocateUnique | src/controllers/songController.js:28-36 | when song ids are unique, looking up any stored song's id finds that song's own location |
| SongLookup.GetSongById | src/controllers/songController.js:23-51 | "not found" exactly when no document holds the id; otherwise the reply carries the song with that id, and the artist and album fields come from the document and album where the id first occurs |
| SongEdits.Patched | src/controllers/songController.js:84-92 | each filled body field replaces the artist field, the field of album `albumIndex` or the field of song `songIndex`; an absent or empty field leaves it as it was; every other album, every other song and the song's id are unchanged |
| SongEdits.EmptyPatchIsIdentity | src/controllers/songController.js:85-92 | a body whose fields are all absent or empty leaves the document unchanged |
| SongEdits.PatchedLocate | src/controllers/songController.js:81-92 | an update moves no song: every id is found where it was found before |
| SongEdits.PatchedValid | src/controllers/songController.js:92-95 | an updated valid document passes the schema exactly when the body has no category or one of the enum values; a bad category is reported at that song's path |
| SongEdits.WithoutSong | src/controllers/songController.js:124-125 | the document without the song: same artist fields and album count, every other album unchanged, the album keeps its name and image and loses exactly that song, and the remaining songs keep their order |
| SongEdits.WithoutSongValid | src/controllers/songController.js:124-128 | removing a song from a valid document leaves a valid document, so the save after a delete succeeds |
| SongEdits.WithoutSongGone | src/controllers/songController.js:107-128 | when ids are unique, the deleted id can no longer be found |
| SongEdits.WithoutSongKeepsOthers | src/controllers/songController.js:125 | a delete keeps every other id in the document that held the song |
| SongEdits.WithoutSongLocateOthers | src/controllers/songController.js:107-128 | every other id is found after a delete exactly when it was found before |
| SongEdits.AlbumIndexByName | src/controllers/songController.js:215 | the index is -1 exactly when no album has the incoming name; otherwise it is the first album with that name |
| SongEdits.MergeAlbum | src/controllers/songController.js:215-220 | one turn of the `forEach`: when the incoming name is taken the album count stays the same, otherwise the incoming album is appended as it is; the names kept are stated by `MergeAlbumNames`, the songs by `MergeAlbumSongsAt` and `MergeAlbumSongs` |
| SongEdits.MergeAll | src/controllers/songController.js:214-221 | the whole `forEach`: the album count grows by at most the number of incoming albums; names, songs and kept albums are stated by `MergeAllNames`, `MergeAllSongsAt`, `MergeAllSongs` and `MergeAllKeepsExisting` |
| SongEdits.MergeAlbumNames | src/controllers/songController.js:214-220 | one merge step keeps the album names when the incoming name exists, and otherwise appends the incoming name at the end |
| SongEdits.MergeAllNames | src/controllers/songController.js:214-221 | after the merge the album names are the old names followed by the incoming names that are new, each once, in input order |
| SongEdits.MergeAlbumSongsAt | src/controllers/songController.js:215-217 | one merge step appends the incoming songs to the first album with the incoming name and leaves the songs of every other album as they were |
| SongEdits.MergeAllSongsAt | src/controllers/songController.js:214-221 | after the merge, an existing album that is the first of its name holds its old songs followed by the songs of every incoming album with that name, in input order; every other existing album keeps its songs |
| SongEdits.MergeAllKeepsExisting | src/controllers/songController.js:214-221 | existing albums keep their places, names and images, and their songs are a prefix of their new songs |
| SongEdits.MergeAllFresh | src/controllers/songController.js:214-221 | when no incoming name exists yet and the incoming names are distinct, the incoming albums are appended unchanged and in order |
| SongEdits.MergeAlbumSongs | src/controllers/songController.js:215-220 | one merge step adds exactly the incoming album's songs to the document's songs |
| SongEdits.MergeAllSongs | src/controllers/songController.js:214-221 | the songs after the merge are the old songs plus all incoming songs, as a multiset, so the song count grows by exactly the number of incoming songs |
| SongEdits.MergeAllValid | src/controllers/songController.js:214-224 | merging valid incoming albums into valid albums gives valid albums, so the save succeeds |
| SongEdits.MergeKeepsDuplicates | src/controllers/songController.js:216-217 | a song already in the album is appended a second time: there is no dedup |
| SongEdits.MergeInputs | src/controllers/songController.js:214-221 | when no turn of the `forEach` throws, the albums after it are the merge of the request's albums, each cast with a missing `songs` read as empty |
| SongEdits.MergeInputsThrows | src/controllers/songController.js:214-221 | the `forEach` fails exactly when some turn throws: an incoming album without `songs` whose name is already among the albums merged so far |
| SongStore.DocIndexByName | src/controllers/songController.js:205 | `findOne({ artistName })` gives -1 exactly when no document has that name; otherwise it is the first document with that name |
| SongStore.MergeRequestAlbums | src/controllers/songController.js:214-221 | the `forEach` loop over the request's albums computes `MergeInputs`: a failure when some turn throws, otherwise the merged albums |
| SongStore.WritePatch | src/controllers/songController.js:84-92 | the eight guarded assignments produce exactly the patched document |
| SongStore.Store.Save | src/controllers/songController.js:94-95 | the save reports exactly the schema errors of the document; it writes the document only when there are none, and the store stays valid |
| SongStore.Store.UpdateSong | src/controllers/songController.js:66-100 | "Song not found" and no write when no document holds the id; refused with no write when the body's category is outside the enum; otherwise the document holding the id is replaced by the patched one and the reply carries it |
| SongStore.Store.DeleteSong | src/controllers/songController.js:102-133 | "Song not found" and no write when no document holds the id; otherwise only the document holding the id changes, to the document without that song |
| SongStore.Store.CreateSong | src/controllers/songController.js:201-229 | an unknown artist name adds one document holding the request's albums, if it passes the schema; for a known name, a request without `albums`, or with an album lacking `songs` whose name is already taken, fails with no write; otherwise the first document with that name is replaced by the merged document, if it passes the schema |
| SongStatistics.DistinctArtistNames | src/controllers/songController.js:146 | a name is in the result exactly when some document has that artist name, and there are no more names than documents |
| SongStatistics.OverallStatistics | src/controllers/songController.js:138-199 | `totalArtists` is the number of distinct artist names; the `songsByGenre` and `songsByArtist` counts both sum to `totalSongs`; `totalGenres` and `totalAlbums` are the numbers of distinct keys in their buckets; each `albumsByArtist` count is at least 1 and at most `totalAlbums` |
| SongStatistics.TotalSongsIsSongCount | src/controllers/songController.js:140-144 | `totalSongs` is the sum of the song counts of all albums of all documents |
| SongStatistics.SongsInAlbumCountsAlbums | src/controllers/songController.js:179-182 | the `songsInAlbum` counts sum to the number of album entries, not songs |
| SongStatistics.MergeGrowsTotalSongs | src/controllers/songController.js:140-144 | merging a request into an existing document grows `totalSongs` by exactly the number of incoming songs |
| SongStatistics.NewArtistGrowsTotalSongs | src/controllers/songController.js:140-144 | adding a new document grows `totalSongs` by exactly its number of songs |
| SongStatistics.DeleteShrinksTotalSongs | src/controllers/songController.js:140-144 | deleting a song lowers `totalSongs` by exactly one |
| SongStatistics.EmptyCatalog | src/controllers/songController.js:184-193 | on an empty catalog every total is 0 and every breakdown is empty |
| SongStatistics.UnwindAlbums | src/controllers/songController.js:148-150 | `$unwind: '$albums'`: one record per album entry; its members are stated by `UnwindAlbumsMembers`, its length by `SongsInAlbumCountsAlbums` and its per-name counts by `SongsInAlbumCounts` |
| SongStatistics.UnwindSongs | src/controllers/songController.js:140-143 | `$unwind: '$albums'` then `$unwind: '$albums.songs'`: one record per song; its length is stated by `TotalSongsIsSongCount` and its per-key counts by `SongsByGenreCounts` and `SongsByArtistCounts` |
| SongStatistics.UnwindAlbumsMembers | src/controllers/songController.js:148-150 | membership: a record is produced by `$unwind: '$albums'` exactly when it is the (artist name, album name) pair of some album entry of some document |
| SongStatistics.SongsByGenreCounts | src/controllers/songController.js:161-165 | for every catalog and category, the `songsByGenre` count of that category is the number of songs with that category, summed over all albums of all documents |
| SongStatistics.SongsByArtistCounts | src/controllers/songController.js:167-171 | for every catalog and artist name, the `songsByArtist` count of that name is the number of songs in the documents with that artist name |
| SongStatistics.SongsInAlbumCounts | src/controllers/songController.js:179-182 | for every catalog and album name, the `songsInAlbum` count of that name is the number of album entries with that name, over all documents |
| SongStatistics.TotalAlbumsDistinct | src/controllers/songController.js:148-152 | for every catalog, `totalAlbums` is the number of distinct album names across all documents, whichever artist holds them, and `songsInAlbum` has a bucket for exactly those names |
| SongStatistics.AlbumsByArtistDistinct | src/controllers/songController.js:173-177 | for every catalog, `albumsByArtist` has an entry for exactly the artist names of documents with at least one album, and that entry is the number of distinct album names over the documents with that name |
| SongStatistics.AlbumNamesCollapse | src/controllers/songController.js:148-152 | example: on a catalog of two artists with one album each, both called "Greatest Hits", `totalAlbums` is 1 and the `songsInAlbum` bucket counts the two album entries |
| SongStatistics.AlbumsCountedPerArtist | src/controllers/songController.js:173-177 | example: on the same catalog, `albumsByArtist` gives each of the two artists a count of 1 |
| SongStatistics.GenresWithinEnum | src/controllers/songController.js:154-159 | in a catalog of valid documents, `totalGenres` is at most 8 |

## Left out

- HTTP shaping is not modelled: status codes, the JSON envelopes and the `error.message`
  text. Replies are a datatype: saved, deleted, not found, refused by the schema, or a
  server error.
- Concurrency is not modelled. The handlers are `async`, and two requests could read
  and write the same document in between each other's steps. The model is sequential.
- The database is a sequence of documents in natural order. `_id` values of new
  documents and subdocuments, and the `timestamps` fields, are not modelled.
- Song ids are abstract values compared for equality. The controller matches the
  request string against `_id.toString()`, while `findOne` casts it to an ObjectId.
  The two can disagree: an id written in upper-case hex passes the cast but matches no
  `toString()`. Such a request reaches "Album not found" in `deleteSong`
  (src/controllers/songController.js:115-116) and throws (500) in `getSongById` (:36) and
  `updateSong` (:82). The unreachability that SongLookup.Locate states holds only for
  ids in the form `toString()` prints. A request id that cannot be cast to an ObjectId
  at all makes `findOne` throw a CastError, so the code answers 500 in `getSongById`
  (:28), `updateSong` (:74) and `deleteSong` (:107). The model answers "not found" for
  every id that no document holds.
- `artistImageURL` and `albumImageURL` are not declared in the schema, so Mongoose's
  strict mode would not store them. The model stores them as the controller reads and
  writes them.
- The order in which Mongoose lists validation errors, and their messages, are not
  modelled. The model reports the set of violated paths.
- Casting a non-string body value to a string is not modelled. Fields are absent or
  strings.
- `getAllSongs` is a plain `find()` with no logic. It is not modelled.
- SongStatistics.OverallStatistics: the `$group` outputs are arrays in an unspecified
  order; the model keeps only their contents, as multisets and maps.
- SongStatistics.DistinctArtistNames: documents without an `artistName` contribute
  nothing. MongoDB's treatment of a null `artistName` is not modelled. A stored
  document always has one, since the schema requires it.
- SongStore.Store.CreateSong: when the request has no `albums` for a new artist, the
  model stores an empty album list. Mongoose's default for a missing array path is the
  same, and it is also how a missing `songs` of an incoming album is cast (`AsAlbum`).
- The Express wiring, the database connection and the Joi validation file are not
  part of this model.
