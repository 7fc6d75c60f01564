# Music library core, modelled in Dafny

This project models the core of an Electron music player, covering both its main process and its renderer:

- **Library builder** (`static/main/MusicScanner.ts`). It walks the music folders and classifies files as songs or pictures. It builds the music database: maps of songs, albums and artists with their cross-references, a title index of albums and a name index of artists. Names are compared under a normalisation that ignores case and a leading article. An album is resolved by a precedence rule, and a partial artist overlap demotes artists from primary to secondary. Each directory's largest picture becomes the cover of the albums that have songs in that directory.
- **Search** (`static/main/MusicAccess.ts`). A query is an AND of words. Each word is looked up in an index of songs, albums and artists, and the per-word results are intersected.
- **Playlists on disk** (`static/main/playlists.ts`). A list of song keys is written as extended-M3U text: the `#EXTM3U` header, which section 4.3.1.1 of RFC 8216 requires on the first line, then one path per line. The text is read back through the path-to-key index, with a fallback for the older format of one key per line.
- **Cover-art helpers** (`static/main/cover-art.ts`). These cover:
  - the album-title trimming loop used for online lookups, and its skip set;
  - the choice of `.png` or `.jpg` by the PNG signature (section 3.1 of RFC 2083);
  - stripping `#...` from album ids;
  - the `AlbumCoverData` shape check.
- **Display derivations** (`src/Recoil/ReadOnly.ts`, `src/DataAccess.js`). These cover the "A, B & C" artist line, the album artist label, the song and album summaries, and the "saveable playlist" test.

How the model is laid out:

- The database is a class, `MusicDatabase.MusicDB`. Its fields are the maps of the source's record plus the scanner's module state: the three key counters and the saved path-to-key map.
- Songs, albums and artists are values. Updating a record in place is modelled as reassigning its entry in the map.
- The source lets a new album and its first song share one artist array. The model reproduces this aliasing explicitly with the `sharedPrimary` map, so a demotion of that song also shrinks the album's primary artists, as it does in the source.
- The loops of the source are methods with invariants, proved against specification functions. The specification functions' properties are proved as lemmas.
- Failure paths (a selector that throws, a missing index, a short buffer) are `Result`/`Option` values.

## Model

| member | source | states |
|---|---|---|
| `Normalize.NormalizeName` | static/main/MusicScanner.ts:88-103 | the loop over the cleaners computes `Normalized`: upper-casing, then the six replacements in their order |
| `Normalize.NormalizedSteps` | static/main/MusicScanner.ts:88-103 | normalisation is the character cleaners followed by stripping a leading `THE `, then `A `, then `AN ` |
| `Normalize.NormalizedIsClean` | static/main/MusicScanner.ts:89-91 | a normalised name holds no backtick, no `’`, no combining mark U+0300–U+036F and no U+2010 |
| `Normalize.NormalizedIgnoresCase` | static/main/MusicScanner.ts:98 | lower-casing a name first does not change its normalised form |
| `Normalize.LeadingTheIgnored` | static/main/MusicScanner.ts:92 | "The " + s normalises like s, unless s itself starts with "THE " |
| `Normalize.LeadingAIgnored` | static/main/MusicScanner.ts:93 | "a " + s normalises like s, unless s starts with "THE " or "A " |
| `Normalize.StackedArticles` | static/main/MusicScanner.ts:92-94 | "THE A x" loses both articles, and a following "AN " is then stripped too |
| `Normalize.ReplaceConcat` | static/main/MusicScanner.ts:89-91 | a global character replacement works character by character, so it distributes over concatenation |
| `Normalize.CleanedConcat` | static/main/MusicScanner.ts:98-101 | upper-casing and the character cleaners distribute over concatenation |
| `Normalize.CleanedPlain` | static/main/MusicScanner.ts:98-101 | on plain letters and spaces the character cleaners only upper-case |
| `Normalize.StringCompareSpec` | static/main/MusicScanner.ts:108-109 | `stringCompare` is -1, 0 or 1, is 0 exactly on equal strings, and is antisymmetric |
| `Normalize.LessTrichotomy` | static/main/MusicScanner.ts:108-109 | the code-point order on strings is a strict total order |
| `Normalize.NoArticlesCmp` | static/main/MusicScanner.ts:111-112 | the comparison is 0 exactly when the normalised names are equal |
| `MusicDatabase.SetIntersection` | static/main/MusicScanner.ts:57-64 | the result holds exactly the elements in both arrays |
| `MusicDatabase.DemoteArtists` | static/main/MusicScanner.ts:191-203 | the backward loop keeps the common artists in order and appends the others to the secondary list, highest index first |
| `MusicDatabase.DemotionPermutes` | static/main/MusicScanner.ts:195-202 | kept plus demoted artists are a permutation of the original primary list |
| `MusicDatabase.DemotionMembers` | static/main/MusicScanner.ts:195-202 | kept artists are exactly the common ones of the list; demoted artists are exactly the others |
| `MusicDatabase.DemotionIdempotent` | static/main/MusicScanner.ts:195-202 | demoting a list that was already demoted keeps it and demotes nothing more |
| `MusicDatabase.NothingDemoted` | static/main/MusicScanner.ts:195-202 | nothing is demoted exactly when every artist is common, and the list is then unchanged |
| `MusicDatabase.DemoteSongIdempotent` | static/main/MusicScanner.ts:224 | demoting a song twice equals demoting it once |
| `MusicDatabase.DemoteSongsInIdempotent` | static/main/MusicScanner.ts:218-225 | demoting the album's songs twice equals doing it once |
| `MusicDatabase.FollowSharedNoChange` | static/main/MusicScanner.ts:262 | while the aliasing holds, the albums already show their shared songs' artists |
| `MusicDatabase.FollowSharedTwice` | static/main/MusicScanner.ts:212-226 | an album that shares a song's array always shows the latest state of that array |
| `MusicDatabase.DemoteKeepsValid` | static/main/MusicScanner.ts:218-225 | demoting songs and following the shared arrays keeps the database consistent |
| `MusicDatabase.DemoteSongsInShape` | static/main/MusicScanner.ts:224 | demotion changes only the songs' two artist lists and draws their members from the old lists |
| `MusicDatabase.FollowSharedShape` | static/main/MusicScanner.ts:262 | following shared arrays changes only albums' primary artists |
| `MusicDatabase.DemoteListed` | static/main/MusicScanner.ts:218-225 | the loop over `check.songs` demotes each listed song found and updates every album aliasing it |
| `MusicDatabase.DemoteAlbum` | static/main/MusicScanner.ts:212-226 | the loop over the album's primary list, which it re-reads after each pass, demotes the songs once if any artist is not common and otherwise changes nothing |
| `MusicDatabase.DemoteAlbumKeepsValid` | static/main/MusicScanner.ts:212-226 | that loop keeps the database consistent and changes only primary artists among album fields |
| `MusicDatabase.DemoteAlbumSongs` | static/main/MusicScanner.ts:212-226 | the same loop run on the database, with the same consistency and frame guarantees |
| `MusicDatabase.MusicDB.constructor` | static/main/MusicScanner.ts:370-383 | a scan starts from an empty, consistent database with the given saved keys and counters |
| `MusicDatabase.NewArtistKeepsValid` | static/main/MusicScanner.ts:126-129 | a new artist under a fresh key, with no songs or albums, keeps the database consistent |
| `MusicDatabase.NewArtistResolves` | static/main/MusicScanner.ts:126-129 | after the name index entry is set, the name resolves to the new key and every name that resolved before still resolves the same way |
| `MusicDatabase.GetOrNewArtist` | static/main/MusicScanner.ts:114-131 | a name whose index entry names an existing artist returns that artist and changes nothing; otherwise a fresh key is minted, indexed under the normalised name and stored with empty lists; either way the name resolves to the result |
| `MusicDatabase.FirstMatchIsFirst` | static/main/MusicScanner.ts:153-175 | the album chosen is the first candidate listed whose verdict is not "skip"; every earlier one is skipped |
| `MusicDatabase.MatchAgrees` | static/main/MusicScanner.ts:154-169 | a candidate that is not skipped exists, has the song's year, and has the same normalised title |
| `MusicDatabase.AddAlbumTo` | static/main/MusicScanner.ts:243-253 | each listed artist found has the album afterwards; unlisted artists and artists that had it are untouched; only album lists change |
| `MusicDatabase.AddAlbumToNoDuplicate` | static/main/MusicScanner.ts:248-252 | an artist gains the album at most once however often the list names it |
| `MusicDatabase.AddAlbumKeepsValid` | static/main/MusicScanner.ts:243-253 | adding an existing album to artists keeps the database consistent |
| `MusicDatabase.AppendAlbumToEach` | static/main/MusicScanner.ts:243-253 | the loop over the song's artists computes `AddAlbumTo` |
| `MusicDatabase.AddAlbumToArtists` | static/main/MusicScanner.ts:241-254 | the same-artists branch updates the artists as `AddAlbumTo` says and keeps the database consistent |
| `MusicDatabase.MarkVAKeepsValid` | static/main/MusicScanner.ts:237-238 | marking an album `va` with no primary artists (and ending its aliasing) keeps the database consistent |
| `MusicDatabase.MarkVA` | static/main/MusicScanner.ts:237-239 | the album becomes `va` with an empty primary list; nothing else changes |
| `MusicDatabase.JoinOverlap` | static/main/MusicScanner.ts:204-227 | the song's artists are demoted, then the album's songs if the album needs it; primary plus secondary is a permutation of what came in; albums keep keys, titles, years and songs |
| `MusicDatabase.JoinAlbum` | static/main/MusicScanner.ts:170-254 | the found album's branch: same VA type returns it unchanged, equal artist sets add the album to the artists, overlap demotes, no overlap marks it `va` |
| `MusicDatabase.NewAlbumKeepsValid` | static/main/MusicScanner.ts:259-270 | a new album under a fresh key, listed under its title, keeps the database consistent |
| `MusicDatabase.NewAlbum` | static/main/MusicScanner.ts:143-150 | the new album has a fresh key, the given title, year and VA type, no songs, and the incoming artists only when it is not VA; its key is appended to the title's index entry |
| `MusicDatabase.FindAlbum` | static/main/MusicScanner.ts:153-255 | the candidate loop returns the first album whose verdict is not "skip", or none |
| `MusicDatabase.GetOrNewAlbum` | static/main/MusicScanner.ts:133-271 | with no match, a new album exists under a fresh key and nothing else changes; otherwise the first match is joined as its verdict says; the result has the song's year and normalised title; no song, album or artist is added or lost; the artist lists are permuted |
| `MusicDatabase.NewAlbumIsFoundAgain` | static/main/MusicScanner.ts:153-175 | a second call with the same title, year, artists and VA type finds the album the first call created, with nothing to demote |
| `MusicDatabase.GetSongKey` | static/main/MusicScanner.ts:80-86 | a path keeps the non-empty key saved for it by the previous scan; otherwise the next key of the counter is taken |
| `MusicDatabase.PushSongSpec` | static/main/MusicScanner.ts:306 | each artist's song list gains the key once per time the artist is credited, at its end; the rest of the artist is unchanged |
| `MusicDatabase.PushSongShape` | static/main/MusicScanner.ts:306 | after the pushes every artist keeps its key and albums, and its songs are old ones or the new key |
| `MusicDatabase.PushSongReachesAll` | static/main/MusicScanner.ts:306 | every credited artist holds the new song |
| `MusicDatabase.PushToArtists` | static/main/MusicScanner.ts:306 | the `forEach` loop computes `PushSong` |
| `MusicDatabase.InsertKeepsKeys` | static/main/MusicScanner.ts:305-307 | storing the song and appending it to its album keeps every record under its own key |
| `MusicDatabase.InsertKeepsLinks` | static/main/MusicScanner.ts:305-307 | it keeps every cross-reference pointing at an existing record |
| `MusicDatabase.InsertKeepsSharing` | static/main/MusicScanner.ts:295-307 | it keeps the aliasing between a new album and its first song's artists |
| `MusicDatabase.InsertKeepsValid` | static/main/MusicScanner.ts:295-307 | storing a song and pushing its key to its album and artists keeps the database consistent |
| `MusicDatabase.InsertSong` | static/main/MusicScanner.ts:305-307 | the album's songs and each credited artist's songs end with the key, and the song is stored |
| `MusicDatabase.ResolveArtists` | static/main/MusicScanner.ts:278-279 | each name resolves to the returned key at its position, and names that resolved before still resolve the same way; every existing artist record stays as it was, and each artist added is one of the returned keys with no songs and no albums |
| `MusicDatabase.ResolvedAll` | static/main/MusicScanner.ts:278-284 | names that all resolve give exactly the keys found, and those keys name existing artists |
| `MusicDatabase.ResolvedAfter` | static/main/MusicScanner.ts:278-306 | resolution survives any change to the artists that keeps their keys |
| `MusicDatabase.FoundKeySameArtists` | static/main/MusicScanner.ts:115-122 | resolving a name depends only on which artist keys exist |
| `MusicDatabase.ResolveCredits` | static/main/MusicScanner.ts:276-285 | the primary then the secondary names resolve, in order, to the returned keys; existing artists stay as they were and the added ones are returned keys with empty song and album lists |
| `MusicDatabase.PermutedMembers` | static/main/MusicScanner.ts:290-298 | a permutation of the credited keys draws every member from them |
| `MusicDatabase.FileUnderAlbum` | static/main/MusicScanner.ts:286-302 | the album, the song's two artist lists and the new songs, albums and artists are exactly what `Filed` and `ArtistsFiled` give for the state before: the first matching album joined as its verdict says, or a new album under the next key; the album has the song's normalised title and year (0 when missing); the artist lists are a permutation of those passed in |
| `MusicDatabase.JoinedIsFiled` | static/main/MusicScanner.ts:133-271 | the outcome `GetOrNewAlbum` promises, for a match or for a new album, is exactly the transition `Filed` and `ArtistsFiled` define |
| `MusicDatabase.FiledKeepsCredits` | static/main/MusicScanner.ts:226-262 | filing a song neither loses nor invents a credited artist: the two lists after it are a permutation of the two before |
| `MusicDatabase.AddResolvedSong` | static/main/MusicScanner.ts:286-307 | the new songs map is the one `Filed` leaves plus the song under its key, holding the filed album and artist lists; the filed album gains the key at the end of its songs and nothing else changes in the albums; every credited artist gets the key, on top of what the filing did to the artists |
| `MusicDatabase.AddSongToDatabase` | static/main/MusicScanner.ts:273-308 | the songs map gains exactly the song's key; the new songs and albums maps are those `Filed` gives for the resolved primary and secondary artists, plus the song and its key in its album; its album has its title and year; every credited name resolves to an artist that lists the song; the song's artists permute the resolved keys; as `ArtistsCredited` says, existing artists stay, new ones are credited, each artist's songs are its old songs (none for a new one) followed by the key once per credit, and an existing artist not credited is unchanged |
| `MusicDatabase.CreditedAfterFiling` | static/main/MusicScanner.ts:276-307 | resolving the names, filing the album (which touches only the primary artists' album lists) and pushing the key give the artists `ArtistsCredited` describes |
| `MusicTypes.PackTrack` | static/main/MusicScanner.ts:300 | the stored track is the track plus 100 times the disk, or the track when there is no disk |
| `MusicTypes.PackTrackRoundTrip` | static/main/MusicScanner.ts:300 | for a track below 100, the track and the disk are recovered by `% 100` and `/ 100` |
| `MusicTypes.OrZero` | static/main/MusicScanner.ts:289 | a missing year is 0 |
| `MusicTypes.ArtistNames` | static/main/MusicScanner.ts:276-277 | one artist name becomes a one-element list; a list stays as it is |
| `Keys.KeyIsFresh` | static/main/MusicScanner.ts:67-78 | a counter's next key was not issued before and is issued once taken |
| `Keys.MakeKeyInjective` | static/main/MusicScanner.ts:67-78 | different counter values give different keys |
| `Keys.KindsAreDisjoint` | static/main/MusicScanner.ts:71-78 | song, album and artist keys never coincide |
| `Keys.MakeKey` | static/main/MusicScanner.ts:71-78 | a key is its kind's prefix letter followed by the counter in decimal |
| `FolderScan.KindsOfFile` | static/main/MusicScanner.ts:471-485 | no name is both music and image; a hidden basename is never music; an image is a name whose lower-cased extension is an image type, hidden or not |
| `FolderScan.AcceptedByExtension` | static/main/MusicScanner.ts:478-481 | an accepted name ends, lower-cased, with one of the type's extensions |
| `FolderScan.ExtensionSetsDisjoint` | static/main/MusicScanner.ts:471-472 | no extension is both an audio and an image type |
| `FolderScan.TypeOfJoined` | static/main/MusicScanner.ts:523-528 | a name joined under a directory is classified like the bare name |
| `FolderScan.Classify` | static/main/MusicScanner.ts:515-529 | a file is a song if its name is music, else a picture if it is an image, else nothing |
| `FolderScan.EntryOutcome` | static/main/MusicScanner.ts:508-535 | a directory is queued, a symbolic link is followed to its target, a file is classified, anything else or a failed lookup is skipped |
| `FolderScan.Outcomes` | static/main/MusicScanner.ts:508-536 | each directory entry has its outcome, and every recorded file is classified |
| `FolderScan.Record` | static/main/MusicScanner.ts:514-528 | recording an outcome only appends to the song or picture list and keeps both classified |
| `FolderScan.RecordAllExtends` | static/main/MusicScanner.ts:508-536 | recording the entries of a directory only appends, and keeps the lists classified |
| `FolderScan.ScanDirectory` | static/main/MusicScanner.ts:508-536 | the loop over a directory's entries records their outcomes in order |
| `FolderScan.ExtendsTransitive` | static/main/MusicScanner.ts:492-537 | appending only is transitive across steps of the walk |
| `FolderScan.Step` | static/main/MusicScanner.ts:492-537 | one pass pops the last queued directory, reads it (an unreadable one is skipped) and records its entries |
| `FolderScan.Walk` | static/main/MusicScanner.ts:492-537 | the walk only appends and reports whether it emptied the queue |
| `FolderScan.Find` | static/main/MusicScanner.ts:487-537 | the worklist loop computes `Walk`; every song found is a music file and every picture an image that is not music |
| `AlbumCovers.Group` | static/main/MusicScanner.ts:313-322 | pictures are grouped by directory: each group is the pictures of that directory, first-seen order, no duplicates |
| `AlbumCovers.AddPicSpec` | static/main/MusicScanner.ts:314-321 | adding one picture keeps the grouping exact |
| `AlbumCovers.GroupByDirectory` | static/main/MusicScanner.ts:313-322 | the loop builds `Group` |
| `AlbumCovers.DirsOfSongs` | static/main/MusicScanner.ts:325-331 | the directories of the album's songs that exist |
| `AlbumCovers.AlbumsByDirectory` | static/main/MusicScanner.ts:323-343 | only picture directories get an entry, never an empty one, and each holds exactly the albums with a song there |
| `AlbumCovers.AlbumsInStep` | static/main/MusicScanner.ts:324-342 | handling one more album adds it to exactly the directories of its songs |
| `AlbumCovers.LargestFromSpec` | static/main/MusicScanner.ts:352-358 | the running choice is the first file strictly larger than all before it, or stays as it was |
| `AlbumCovers.PickLargest` | static/main/MusicScanner.ts:352-358 | "" when every file has size 0; otherwise a file of maximum size, the first one listed |
| `AlbumCovers.LastDirWith` | static/main/MusicScanner.ts:347-361 | the last picture directory that holds the album, or none |
| `AlbumCovers.CoversFromSpec` | static/main/MusicScanner.ts:347-361 | an album's cover comes from the last directory holding it; albums in no such directory keep their picture |
| `AlbumCovers.LastDirSplit` | static/main/MusicScanner.ts:347-361 | the last directory over a longer list is the new one if it holds the album, the earlier answer otherwise |
| `AlbumCovers.DirAlbums` | static/main/MusicScanner.ts:323-343 | each picture directory maps to exactly its albums, other directories to none |
| `AlbumCovers.SetCovers` | static/main/MusicScanner.ts:347-362 | the loop over directories sets covers as `CoversFrom` says |
| `AlbumCovers.HandleAlbumCovers` | static/main/MusicScanner.ts:310-364 | the pictures map becomes `Covers` of the old one; nothing else changes |
| `AlbumCovers.CoverOfAlbum` | static/main/MusicScanner.ts:310-364 | an album with a song in a picture directory gets the largest picture of the last such directory; others keep their picture |
| `Search.Dedup` | static/main/MusicAccess.ts:154-161 | a set built from a lookup holds its elements once each |
| `Search.Intersection` | static/main/MusicAccess.ts:125-133 | the elements of `b` that are in `a`, once each |
| `Search.Intersect` | static/main/MusicAccess.ts:125-133 | the loop builds `Intersection` |
| `Search.NonEmptySpec` | static/main/MusicAccess.ts:150-153 | the words kept are exactly the non-empty pieces |
| `Search.WordsStep` | static/main/MusicAccess.ts:148-153 | one more piece adds its trimmed form when that is not empty |
| `Search.AllOfMeansEvery` | static/main/MusicAccess.ts:154-161 | a key is in the result exactly when there is a word and every word's lookup holds it |
| `Search.AllOfStep` | static/main/MusicAccess.ts:154-161 | the first word seeds the result, each later word intersects it |
| `Search.SearchForSpec` | static/main/MusicAccess.ts:142-174 | no duplicates; three empty lists when no word is left; otherwise exactly the keys every word matches, per kind |
| `Search.RunQuery` | static/main/MusicAccess.ts:148-173 | the loop under the `first` flag computes the AND of the word lookups |
| `Search.Searcher.constructor` | static/main/MusicAccess.ts:19 | no index is installed at start |
| `Search.Searcher.SetMusicIndex` | static/main/MusicAccess.ts:121-123 | installs the index |
| `Search.Searcher.IndexSearch` | static/main/MusicAccess.ts:142-174 | fails without an index; otherwise gives `SearchFor` of the query |
| `Search.Searcher.SearchWholeWord` | static/main/MusicAccess.ts:176-186 | nothing without an index or for a missing or empty term; otherwise the whole-word search |
| `Search.Searcher.SearchSubstring` | static/main/MusicAccess.ts:188-198 | nothing without an index or for a missing or empty term; otherwise the substring search |
| `Playlists.PlaylistSaveDataRoundTrip` | static/main/playlists.ts:83-89 | a record turned into a value passes `isPlaylistSaveData` and reads back unchanged |
| `Playlists.AsPlaylistSaveData` | static/main/playlists.ts:83-89 | a record exactly when `name` is a string and `songs` an array of strings, holding those values |
| `Playlists.DiskPaths` | static/main/playlists.ts:168-175 | the paths of the keys that have one, never more than the keys, never empty |
| `Playlists.ToDiskFormat` | static/main/playlists.ts:165-177 | the loop produces the header and the known paths, joined by newlines |
| `Playlists.KnownKeys` | static/main/playlists.ts:185-188 | the legacy format keeps exactly the lines that are song keys |
| `Playlists.KeysOfPaths` | static/main/playlists.ts:189-192 | lines mapped through the path index, keeping only keys of songs |
| `Playlists.Decode` | static/main/playlists.ts:179-193 | the result holds only keys of songs |
| `Playlists.DecodeHeaderLines` | static/main/playlists.ts:179-193 | lines that are the header followed by each key's path decode to the keys, in order |
| `Playlists.EncodeDecodeRoundTrip` | static/main/playlists.ts:165-193 | decoding the encoding gives the keys back when every key has a path, the indexes invert each other on them, no path has a newline and the header is neither a path nor a key |
| `Playlists.EncodedLines` | static/main/playlists.ts:176-180 | splitting the joined lines gives them back when none holds a newline |
| `Playlists.LookupPaths` | static/main/playlists.ts:190-192 | paths that map to song keys give those keys, in order |
| `Playlists.HeaderLookup` | static/main/playlists.ts:189-192 | the header line adds nothing when it is not a path |
| `Playlists.MapOf` | static/main/playlists.ts:141-143 | the path-to-key index has every entry's path, each with a value it was listed with |
| `Playlists.InverseOf` | static/main/playlists.ts:144-145 | the key-to-path index has every entry's key, each with a path listed for it |
| `Playlists.InverseOfLatest` | static/main/playlists.ts:145 | on duplicate keys the later path wins |
| `Playlists.MapOfLatest` | static/main/playlists.ts:141-143 | while the map is built from the parsed entries (as `new Map` does), a later entry for the same path wins |
| `Playlists.IndexesInverse` | static/main/playlists.ts:136-149 | with neither paths nor keys repeated, the two indexes are mutual inverses |
| `Playlists.Invert` | static/main/playlists.ts:144-145 | the `forEach` loop builds `InverseOf` |
| `Playlists.Indexes` | static/main/playlists.ts:136-149 | the indexes exist exactly when the stored text is present, non-empty and parses to a map of strings |
| `Playlists.EntriesAgree` | static/main/playlists.ts:141-145 | over entries with distinct paths, each key's path in the inverted index maps back to the key, and every key listed gets a path |
| `Playlists.IndexesAgree` | static/main/playlists.ts:136-149 | for loaded indexes, `keyToPath` never names a path that `pathToKey` sends elsewhere, and every key in `pathToKey` has a path |
| `Playlists.ParseIndexes` | static/main/playlists.ts:136-149 | the method computes `Indexes` |
| `Playlists.SongIndex.constructor` | static/main/playlists.ts:133-134 | both indexes start unset |
| `Playlists.SongIndex.LoadHash` | static/main/playlists.ts:136-149 | on failure nothing changes; otherwise both indexes are set as `Indexes` says |
| `Playlists.SongIndex.GetKeyToPath` | static/main/playlists.ts:151-156 | a loaded index is returned as is and nothing changes; otherwise both indexes are loaded as `Indexes` says and this one returned, or the failure is passed on and nothing changes |
| `Playlists.SongIndex.GetPathToKey` | static/main/playlists.ts:158-163 | the same for the path-to-key index, with the same new state |
| `Playlists.SongIndex.Save` | static/main/playlists.ts:165-177 | the text is `Encode` of the keys under the loaded index; the indexes are loaded if they were not, and unchanged when they were or the load fails |
| `Playlists.SongIndex.Load` | static/main/playlists.ts:179-193 | nothing without a database; the legacy format keeps known keys; otherwise `Decode` under the path index; only song keys are returned; the indexes change only when the M3U format finds them unloaded and loading succeeds, and then hold what `Indexes` gives |
| `CoverArt.CutAt` | static/main/cover-art.ts:89-101 | the cut is at an opener of the first pair whose last occurrence is past index 0, or 0 when there is none |
| `CoverArt.TrimWithCuts` | static/main/cover-art.ts:89-101 | both branches of the loop cut at the same place, so one step keeps the trimmed prefix before that cut |
| `CoverArt.FirstBeforeLast` | static/main/cover-art.ts:90-91 | the first occurrence of a character is not after its last |
| `CoverArt.TrimStepShortens` | static/main/cover-art.ts:88-102 | a step changes nothing exactly when no opener occurs past index 0, and a step that changes the title shortens it |
| `CoverArt.Attempts` | static/main/cover-art.ts:78-102 | the first attempt is the title itself |
| `CoverArt.AttemptsSpec` | static/main/cover-art.ts:78-102 | each attempt is the step of the previous one and strictly shorter; the last is a fixed point; there are at most length + 1 attempts |
| `CoverArt.GetArt` | static/main/cover-art.ts:56-59 | an error propagates; a "No results" answer is nothing; anything else is the answer |
| `CoverArt.TryTitle` | static/main/cover-art.ts:56-59 | a hit exactly when the service answers for this artist and title with something other than "No results" |
| `CoverArt.ArtQueryIsSwapped` | static/main/cover-art.ts:56-57 | see Findings: the query as written misses an album the service knows |
| `CoverArt.FirstHit` | static/main/cover-art.ts:78-87 | the first title with a hit, if any title has one |
| `CoverArt.SearchTitles` | static/main/cover-art.ts:78-102 | the do/while loop returns the first hit among the attempts, or none with the most-trimmed title |
| `CoverArt.LookForAlbumAsWritten` | static/main/cover-art.ts:62-108 | a skipped title returns nothing and records nothing; otherwise the first hit, or none with the most-trimmed title added to the skip set |
| `CoverArt.LookForAlbum` | static/main/cover-art.ts:62-108 | the same, recording the trimmed album title that the skip test checks |
| `CoverArt.SkipRecordMissesAlbum` | static/main/cover-art.ts:75-77 | see Findings: the recorded title does not stop the next lookup of "A (B)" |
| `CoverArt.TwoAttempts` | static/main/cover-art.ts:78-102 | one changing step to a fixed point makes exactly two attempts |
| `CoverArt.BracketExample` | static/main/cover-art.ts:89-99 | "A (B)" is trimmed to "A" in one step |
| `CoverArt.NoBracketExample` | static/main/cover-art.ts:89-101 | "A" is left unchanged |
| `CoverArt.ReadInt32BE` | static/main/cover-art.ts:192 | fails on fewer than 4 bytes; otherwise a signed 32-bit value |
| `CoverArt.ReadUInt32BE` | static/main/cover-art.ts:192 | fails on fewer than 4 bytes; otherwise the unsigned big-endian value |
| `CoverArt.Unsigned32` | static/main/cover-art.ts:192 | the first four bytes, big-endian, below 2^32 |
| `CoverArt.PngNeverDetected` | static/main/cover-art.ts:192-193 | see Findings: the suffix as written is never `.png`, even for the PNG signature |
| `CoverArt.PngSuffix` | static/main/cover-art.ts:192-193 | `.png` exactly when the first four bytes are 89 50 4E 47; otherwise `.jpg`; a failure when there are fewer than four bytes |
| `CoverArt.PngSuffixAsWritten` | static/main/cover-art.ts:192-193 | as written, with the signed read: a failure exactly when there are fewer than four bytes |
| `CoverArt.SignatureBytes` | static/main/cover-art.ts:192-193 | the unsigned value equals 0x89504E47 exactly when the bytes are 89 50 4E 47 |
| `CoverArt.CoverName` | static/main/cover-art.ts:41-44 | the stored name, or `.CoverArt` when it is missing or empty |
| `CoverArt.CoverFileFor` | static/main/cover-art.ts:186-197 | fails only when there is a first song, saving beside music is chosen, and the suffix could not be read; a path it gives ends in the cover name and the suffix |
| `CoverArt.CoverFile` | static/main/cover-art.ts:186-197 | as written (signed read): fails only when there is a first song, saving beside music is chosen, and the data is shorter than four bytes |
| `CoverArt.CoverFileIsJpg` | static/main/cover-art.ts:191-197 | see Findings: as written, the cover file beside the music is always named after the cover name plus `.jpg`, PNG data included |
| `CoverArt.CoverFileCorrected` | static/main/cover-art.ts:186-197 | the cover file with the unsigned read; fails in the same cases as `CoverFile` |
| `CoverArt.CoverFileName` | static/main/cover-art.ts:194-197 | corrected, the cover file is named after the cover name and the suffix, and ends in `.png` exactly for data starting with the PNG signature |
| `CoverArt.SuffixOfSuffix` | static/main/cover-art.ts:193-196 | the file name ends in `.png` exactly when that suffix was chosen |
| `CoverArt.NoSlashInFileName` | static/main/cover-art.ts:196 | a cover name without `/` gives a file name without `/` |
| `CoverArt.Saved` | static/main/cover-art.ts:188-224 | a written file is recorded as the album's picture; otherwise the picture is cached and the map is unchanged |
| `CoverArt.SavePicForAlbum` | static/main/cover-art.ts:180-225 | the result and the new pictures map are as `Saved` says for the cover file as written (`CoverFile`) |
| `CoverArt.StripAlbumId` | static/main/cover-art.ts:119-121 | an id without `#` is kept; otherwise it is cut before its last `#` |
| `CoverArt.StripAlbumIdTag` | static/main/cover-art.ts:119-121 | a key with a `#tag` appended is recovered |
| `CoverArt.AsAlbumCoverData` | static/main/cover-art.ts:238-271 | a value exactly when `nativeImage` is a byte array and `songKey` or `albumKey` is a string; a string `albumKey` wins over `songKey`, as `SaveNativeImageForAlbum` reads it first |
| `CoverArt.AlbumCoverDataRoundTrip` | static/main/cover-art.ts:227-254 | cover data turned into a value passes the check and reads back unchanged |
| `Display.SongByKey` | src/Recoil/ReadOnly.ts:69-77 | the song, or an error exactly when the key is unknown |
| `Display.AlbumByKey` | src/Recoil/ReadOnly.ts:84-92 | the album, or an error exactly when the key is unknown |
| `Display.ArtistByKey` | src/Recoil/ReadOnly.ts:117-125 | the artist, or an error exactly when the key is unknown |
| `Display.MaybeAlbumByKey` | src/Recoil/ReadOnly.ts:94-100 | nothing for the empty key; otherwise the album, or an error for an unknown key |
| `Display.MaybeArtistByKey` | src/Recoil/ReadOnly.ts:127-133 | nothing for the empty key; otherwise the artist, or an error for an unknown key |
| `Display.AlbumKeyForSongKey` | src/Recoil/ReadOnly.ts:135-145 | "" for the empty key; otherwise the song's album, or an error for an unknown song |
| `Display.CurSongs` | src/Recoil/ReadOnly.ts:166-172 | the songs of the list in order, or an error exactly when some key is unknown |
| `Display.NonEmptyNames` | src/Recoil/ReadOnly.ts:156 | the names kept are exactly the non-empty ones |
| `Display.ArtistNamesOf` | src/Recoil/ReadOnly.ts:151-155 | the names of the artists in order, or an error exactly when some key is unknown |
| `Display.ArtistLineIsList` | src/Recoil/ReadOnly.ts:157-162 | one or more names give "A", "A & B", "A, B & C", ...; no name gives " & " and the placeholder |
| `Display.ArtistLineNonEmpty` | src/Recoil/ReadOnly.ts:157-162 | with non-empty names the artist line is never empty |
| `Display.ArtistString` | src/Recoil/ReadOnly.ts:147-164 | an error exactly when an artist is unknown; otherwise the artist line of the non-empty names with "OOPS!" for none |
| `Display.VaLabel` | src/Recoil/ReadOnly.ts:210-216 | "Soundtrack" for `ost`, "Compilation" for `va`, "???" otherwise |
| `Display.YearString` | src/Recoil/ReadOnly.ts:203 | "" exactly for year 0; otherwise the year's decimal form |
| `Display.DataForAlbum` | src/Recoil/ReadOnly.ts:193-219 | all empty for the empty key; an error for an unknown album or primary artist; otherwise the title, the year, and as artist the `ArtistString` line of the primary artists, or the VA label when there are none |
| `Display.AlbumArtistIsList` | src/Recoil/ReadOnly.ts:205-209 | with named primary artists, the album artist is the English list of their names |
| `Display.AlbumArtistLine` | src/Recoil/ReadOnly.ts:205-209 | when every primary artist is known, the album's artist is the English list of their non-empty names, or " & OOPS!" when all are empty |
| `Display.NoEmptyNames` | src/Recoil/ReadOnly.ts:156 | filtering names that are all non-empty keeps them all |
| `Display.DataForSong` | src/Recoil/ReadOnly.ts:174-191 | the empty record for the empty key; an error for an unknown song; otherwise the title and track with the album's data |
| `Display.Saveable` | src/Recoil/ReadOnly.ts:239-251 | true exactly when the list is a playlist and some key is in one of the stored and current lists but not the other |
| `DataAccess.NamesOrEmpty` | src/DataAccess.js:32-36 | each artist's name, or "" for an unknown artist, in order |
| `DataAccess.GetDataForSong` | src/DataAccess.js:5-47 | the "-" placeholder without a song; otherwise title and track, the album title when the album is known, and the artist line only when the album and artist maps both exist |
| `DataAccess.ArtistOfSong` | src/DataAccess.js:38-45 | one or more names give the English list; none gives " & undefined" |
| `JsValues.StringItems` | static/main/playlists.ts:87 | the strings of an array of strings, in order |
| `JsValues.StringSet` | static/main/cover-art.ts:75 | the strings a set of strings holds |
| `JsValues.StringEntries` | static/main/playlists.ts:142-145 | the entries of a map of strings, in insertion order, with no path listed twice |
| `Strings.SplitJoin` | static/main/playlists.ts:176-180 | splitting a join gives the parts back when none holds the separator |
| `Paths.JoinKeepsName` | static/main/MusicScanner.ts:523-528 | a name joined under a directory keeps its basename and extension |
| `Paths.Dirname` | static/main/MusicScanner.ts:315 | "." for a bare name; otherwise the path is the directory, `/` and the basename |
| `Paths.Extname` | static/main/MusicScanner.ts:480 | a suffix of the basename that is empty or a dot followed by no dot |

## Left out

- File-system I/O is an input. `readdir`, `realpath` and `stat` become a `FileSystem` value, and `fsp.stat` sizes become a map. Writing files, hiding them and the album-cover cache are left out. So are `persist` reads and writes: the stored settings, the skip set and the song-hash text are inputs.
- `AlbumCovers.HandleAlbumCovers` requires a size for every picture. A failed `fsp.stat` throws and aborts the scan in the source; that path is not modelled.
- `FolderScan.Find` walks at most `fuel` directories and reports whether its queue emptied. The source loops until the queue is empty. On a symbolic link to an ancestor directory it never stops, which the fuel bound hides.
- `Normalize.NormalizeName`: `toLocaleUpperCase` upper-cases only ASCII letters here. `normalize()` (the code uses the default NFC form) is taken as the identity. So combining marks are only removed where the input already holds them decomposed. The comment at static/main/MusicScanner.ts:90 ("kills diacriticals after .normalize()") expects decomposed marks, but NFC composes them, so precomposed accented letters pass through; the model follows the code.
- `Keys.MakeKey`: `SeqNum` is not part of this model. Keys are a prefix letter and a decimal counter, and only their freshness is relied on.
- The search index that `MakeSearchable` builds is not part of this model. Each lookup is an arbitrary function of the word and the substring flag.
- `FTON` parsing, the metadata readers, the metadata cache and the override stores are not part of this model. A parse is a function argument.
- `UpdateSongMetadata` (floating-point track division), `fileNamesToDatabase`'s pipeline around `AddSongToDatabase`, `makeIndex`, `getMusicDB`'s cache and `saveMusicDB` are left out.
- The `https` download, `albumArt` itself and `SaveNativeImageForAlbum` are left out. The art service is a function argument.
- The rest of `picBufProcessor` (reading files and embedded covers) is left out; only its `#` stripping is modelled.
- Playlist rename, delete and listing, `savePlaylist`/`loadPlaylist` file access and `checkPlaylists` are left out.
- Timers, debouncing, async ordering and the UI, IPC and Electron wiring are left out.
- `Display.Saveable`: `isPlaylist` is an input, because its definition is not part of this model.
- `Paths.JoinPath`: `path.join` also normalizes (it resolves `.` and `..` segments and collapses repeated '/'). The model only puts one '/' between the parts, so song paths and directories are taken as already normal.
- `Normalize.StringCompareSpec`, `Normalize.LessTrichotomy`: JavaScript's `<` compares UTF-16 code units; `Normalize.Less` compares code points. The two orders differ only between a character above U+FFFF and one in U+E000 to U+FFFF.
- Integers are unbounded. JavaScript numbers are doubles, which matters only beyond 2^53.

## Findings

| source | as written | input that shows it | evidently intended | confidence | as-written member | corrected member |
|---|---|---|---|---|---|---|
| static/main/cover-art.ts:192-193 | `data.readInt32BE(0) === 0x89504e47` compares a signed 32-bit read with a constant above 2^31 | any PNG data, first bytes 89 50 4E 47: the read gives -1991225785, so the suffix is `.jpg` | an unsigned read, so PNG files are saved as `.png` | not executed | `CoverArt.PngNeverDetected`, `CoverArt.CoverFileIsJpg` | `CoverArt.PngSuffix`, `CoverArt.CoverFileName` |
| static/main/cover-art.ts:56-57,80 | `getArt(album, artist)` is called as `getArt(artist, albTrim)`, so the service is asked for the album title as the artist | artist "Queen", album "Jazz", a service that knows only that album | the artist and the album in their own places | not executed | `CoverArt.ArtQueryIsSwapped` | `CoverArt.TryTitle` |
| static/main/cover-art.ts:75-77,105-107 | the skip set is tested with the trimmed album title but records the most-trimmed title | album "A (B)" with no art found: "A" is recorded, so "A (B)" is looked up again next time | record the title that the skip test checks | not executed | `CoverArt.SkipRecordMissesAlbum` | `CoverArt.LookForAlbum` |
