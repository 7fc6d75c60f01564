/**
 * The music database and the code that fills it (MusicScanner.ts):
 * get-or-new artist, get-or-new album with its matching precedence and
 * artist demotion, and adding one song's metadata.
 *
 * The database is one object whose maps are updated in place. The records in
 * the maps are values: where the program mutates a record object in place, the
 * model stores an updated record under the same key.
 *
 * The program shares one array between records: a new normal album's
 * `primaryArtists` is the very array that becomes its first song's
 * `artistIds`, so demoting that song's artists also shrinks the album's list.
 * The model keeps this sharing explicit in `sharedPrimary`, which maps such an
 * album to the song whose artist list it shares.
 */
module MusicDatabase {
  import opened Wrappers
  import opened Strings
  import opened MusicTypes
  import opened Keys
  import opened Normalize

  // ---- Sets made from arrays ----

  function Elems(s: seq<string>): set<string> {
    set x | x in s
  }

  /** `Comparisons.ArraySetEqual`: the two arrays hold the same elements. */
  predicate SetEqual(a: seq<string>, b: seq<string>) {
    Elems(a) == Elems(b)
  }

  /** `setIntersection`: the elements in both arrays; it filters the shorter one,
      which does not change the answer. */
  function SetIntersection(a: seq<string>, b: seq<string>): (r: set<string>)
    ensures forall x :: x in r <==> x in a && x in b
    decreases if |a| > |b| then 1 else 0
  {
    if |a| > |b| then SetIntersection(b, a)
    else set x | x in a && x in b
  }

  // ---- Demotion of artists from primary to secondary ----

  /** The artists `demoteArtists` keeps in the primary list, in their order. */
  function Kept(xs: seq<ArtistKey>, common: set<ArtistKey>): (r: seq<ArtistKey>)
  {
    if |xs| == 0 then []
    else (if xs[0] in common then [xs[0]] else []) + Kept(xs[1..], common)
  }

  /** The artists `demoteArtists` moves to the secondary list, highest index first. */
  function Demoted(xs: seq<ArtistKey>, common: set<ArtistKey>): (r: seq<ArtistKey>)
  {
    if |xs| == 0 then []
    else Demoted(xs[1..], common) + (if xs[0] in common then [] else [xs[0]])
  }

  /** Demotion neither loses nor invents artists: kept ++ demoted is a permutation. */
  lemma {:induction false} DemotionPermutes(xs: seq<ArtistKey>, common: set<ArtistKey>)
    ensures multiset(Kept(xs, common)) + multiset(Demoted(xs, common)) == multiset(xs)
  {
    if |xs| > 0 {
      var h, t := xs[0], xs[1..];
      DemotionPermutes(t, common);
      assert xs == [h] + t;
      assert multiset(xs) == multiset{h} + multiset(t);
      if h in common {
        assert Kept(xs, common) == [h] + Kept(t, common);
        assert Demoted(xs, common) == Demoted(t, common);
      } else {
        assert Kept(xs, common) == Kept(t, common);
        assert Demoted(xs, common) == Demoted(t, common) + [h];
      }
    }
  }

  /** One step of the recursion, seen from an index into the list. */
  lemma DemotionStep(xs: seq<ArtistKey>, i: nat, common: set<ArtistKey>)
    requires i < |xs|
    ensures Kept(xs[i..], common) == (if xs[i] in common then [xs[i]] else []) + Kept(xs[i + 1..], common)
    ensures Demoted(xs[i..], common) == Demoted(xs[i + 1..], common) + (if xs[i] in common then [] else [xs[i]])
  {
    assert xs[i..][1..] == xs[i + 1..];
  }

  /** Kept artists are the common ones, demoted artists the others; both come from the list. */
  lemma {:induction false} DemotionMembers(xs: seq<ArtistKey>, common: set<ArtistKey>)
    ensures forall x :: x in Kept(xs, common) <==> x in xs && x in common
    ensures forall x :: x in Demoted(xs, common) <==> x in xs && x !in common
  {
    if |xs| > 0 {
      DemotionMembers(xs[1..], common);
      assert xs == [xs[0]] + xs[1..];
    }
  }

  /** Demoting twice is demoting once: what is kept is all common. */
  lemma {:induction false} DemotionIdempotent(xs: seq<ArtistKey>, common: set<ArtistKey>)
    ensures Kept(Kept(xs, common), common) == Kept(xs, common)
    ensures Demoted(Kept(xs, common), common) == []
  {
    if |xs| > 0 {
      DemotionIdempotent(xs[1..], common);
      var rest := Kept(xs[1..], common);
      if xs[0] in common {
        var k := [xs[0]] + rest;
        assert Kept(xs, common) == k;
        assert k[1..] == rest;
        assert Kept(k, common) == [xs[0]] + Kept(rest, common);
        assert Demoted(k, common) == Demoted(rest, common);
      } else {
        assert Kept(xs, common) == rest;
      }
    }
  }

  /** Nothing is demoted exactly when every artist is common. */
  lemma {:induction false} NothingDemoted(xs: seq<ArtistKey>, common: set<ArtistKey>)
    ensures Demoted(xs, common) == [] <==> forall x :: x in xs ==> x in common
    ensures Demoted(xs, common) == [] ==> Kept(xs, common) == xs
  {
    if |xs| > 0 {
      NothingDemoted(xs[1..], common);
      assert xs == [xs[0]] + xs[1..];
      assert forall x :: x in xs ==> x == xs[0] || x in xs[1..];
    }
  }

  /** `demoteArtists`: walk the primary list from its end, moving every artist
      not in `common` to the end of the secondary list and splicing it out. */
  method DemoteArtists(primary: seq<ArtistKey>, second: seq<ArtistKey>, common: set<ArtistKey>)
    returns (p: seq<ArtistKey>, s: seq<ArtistKey>)
    ensures p == Kept(primary, common)
    ensures s == second + Demoted(primary, common)
  {
    p, s := primary, second;
    var i := |primary|;
    // The artists at index i and above have been visited.
    while i > 0
      invariant 0 <= i <= |primary|
      invariant p == primary[..i] + Kept(primary[i..], common)
      invariant s == second + Demoted(primary[i..], common)
    {
      i := i - 1;
      DemotionStep(primary, i, common);
      ghost var tail := Kept(primary[i + 1..], common);
      assert p == primary[..i] + ([primary[i]] + tail) by {
        assert primary[..i + 1] == primary[..i] + [primary[i]];
      }
      assert p[i] == primary[i];
      if p[i] !in common {
        s := s + [p[i]];
        p := p[..i] + p[i + 1..];
        assert p == primary[..i] + tail;
      }
    }
    assert primary[0..] == primary;
  }

  /** A song after `demoteArtists(song.artistIds, song.secondaryIds)`. */
  function DemoteSong(song: Song, common: set<ArtistKey>): Song {
    song.(artistIds := Kept(song.artistIds, common),
          secondaryIds := song.secondaryIds + Demoted(song.artistIds, common))
  }

  lemma DemoteSongIdempotent(song: Song, common: set<ArtistKey>)
    ensures DemoteSong(DemoteSong(song, common), common) == DemoteSong(song, common)
  {
    DemotionIdempotent(song.artistIds, common);
    var d := DemoteSong(song, common);
    assert d.secondaryIds + [] == d.secondaryIds;
  }

  /** The songs map after demoting every song listed in `keys`. */
  function DemoteSongsIn(songs: map<SongKey, Song>, keys: seq<SongKey>, common: set<ArtistKey>)
    : map<SongKey, Song>
  {
    map k | k in songs :: if k in keys then DemoteSong(songs[k], common) else songs[k]
  }

  lemma DemoteSongsInIdempotent(songs: map<SongKey, Song>, keys: seq<SongKey>, common: set<ArtistKey>)
    ensures DemoteSongsIn(DemoteSongsIn(songs, keys, common), keys, common)
         == DemoteSongsIn(songs, keys, common)
  {
    forall k | k in songs && k in keys {
      DemoteSongIdempotent(songs[k], common);
    }
  }

  /** The albums map once every album sharing its primary list with a song
      shows that song's current artist list. */
  function FollowShared(albums: map<AlbumKey, Album>, shared: map<AlbumKey, SongKey>,
                        songs: map<SongKey, Song>): map<AlbumKey, Album>
  {
    map a | a in albums ::
      if a in shared && shared[a] in songs
      then albums[a].(primaryArtists := songs[shared[a]].artistIds)
      else albums[a]
  }

  // ---- The database ----

  ghost predicate KeysOk(albums: map<AlbumKey, Album>, artists: map<ArtistKey, Artist>,
                         songs: map<SongKey, Song>, nextAlbum: nat, nextArtist: nat)
  {
    && (forall k :: k in artists ==> artists[k].key == k && IssuedBelow(k, ArtistPrefix, nextArtist))
    && (forall k :: k in albums ==> albums[k].key == k && IssuedBelow(k, AlbumPrefix, nextAlbum))
    && (forall k :: k in songs ==> songs[k].key == k)
  }

  /** Every key a record mentions names a record of the database. */
  ghost predicate LinksOk(songs: map<SongKey, Song>, albums: map<AlbumKey, Album>,
                          artists: map<ArtistKey, Artist>)
  {
    && (forall k :: k in songs ==> songs[k].albumId in albums)
    && (forall k, a :: k in songs && a in songs[k].artistIds ==> a in artists)
    && (forall k, a :: k in songs && a in songs[k].secondaryIds ==> a in artists)
    && (forall k, s :: k in albums && s in albums[k].songs ==> s in songs)
    && (forall k, s :: k in artists && s in artists[k].songs ==> s in songs)
    && (forall k, a :: k in artists && a in artists[k].albums ==> a in albums)
  }

  /** Every album key in the title index names an album. */
  ghost predicate IndexOk(titleIndex: map<string, seq<AlbumKey>>, albums: map<AlbumKey, Album>) {
    forall t, a :: t in titleIndex && a in titleIndex[t] ==> a in albums
  }

  /** An album that shares its primary list with a song shows exactly that song's artists. */
  ghost predicate SharingOk(shared: map<AlbumKey, SongKey>, albums: map<AlbumKey, Album>,
                            songs: map<SongKey, Song>)
  {
    forall a :: a in shared ==>
      a in albums && shared[a] in songs && albums[a].primaryArtists == songs[shared[a]].artistIds
  }

  /** The consistency of the database, over its maps and counters. */
  ghost predicate ValidState(songs: map<SongKey, Song>, albums: map<AlbumKey, Album>,
                             artists: map<ArtistKey, Artist>, titleIndex: map<string, seq<AlbumKey>>,
                             shared: map<AlbumKey, SongKey>, nextAlbum: nat, nextArtist: nat)
  {
    && KeysOk(albums, artists, songs, nextAlbum, nextArtist)
    && LinksOk(songs, albums, artists)
    && IndexOk(titleIndex, albums)
    && SharingOk(shared, albums, songs)
  }

  lemma FollowSharedNoChange(albums: map<AlbumKey, Album>, shared: map<AlbumKey, SongKey>,
                             songs: map<SongKey, Song>)
    requires SharingOk(shared, albums, songs)
    ensures FollowShared(albums, shared, songs) == albums
  {
  }

  class MusicDB {
    var songs: map<SongKey, Song>
    var albums: map<AlbumKey, Album>
    var artists: map<ArtistKey, Artist>
    var pictures: map<AlbumKey, string>
    var albumTitleIndex: map<string, seq<AlbumKey>>
    var artistNameIndex: map<string, ArtistKey>
    /** The path-to-song-key map saved by the previous scan, if it was loaded. */
    var existingKeys: Option<map<string, SongKey>>
    /** The three key counters. */
    var nextSongKey: nat
    var nextAlbumKey: nat
    var nextArtistKey: nat
    /** Album key to the song whose `artistIds` array is that album's `primaryArtists`. */
    var sharedPrimary: map<AlbumKey, SongKey>

    ghost predicate Valid()
      reads this`songs, this`albums, this`artists, this`albumTitleIndex, this`sharedPrimary
      reads this`nextAlbumKey, this`nextArtistKey
    {
      ValidState(songs, albums, artists, albumTitleIndex, sharedPrimary, nextAlbumKey, nextArtistKey)
    }

    /** An empty database, as a scan starts with. */
    constructor (existing: Option<map<string, SongKey>>, songSeed: nat, albumSeed: nat, artistSeed: nat)
      ensures Valid()
      ensures songs == map[] && albums == map[] && artists == map[] && pictures == map[]
      ensures albumTitleIndex == map[] && artistNameIndex == map[] && sharedPrimary == map[]
      ensures existingKeys == existing
      ensures nextSongKey == songSeed && nextAlbumKey == albumSeed && nextArtistKey == artistSeed
    {
      songs, albums, artists, pictures := map[], map[], map[], map[];
      albumTitleIndex, artistNameIndex, sharedPrimary := map[], map[], map[];
      existingKeys := existing;
      nextSongKey, nextAlbumKey, nextArtistKey := songSeed, albumSeed, artistSeed;
    }
  }

  /** Adding a fresh artist with no songs or albums keeps the database consistent. */
  lemma NewArtistKeepsValid(songs: map<SongKey, Song>, albums: map<AlbumKey, Album>,
                            artists: map<ArtistKey, Artist>, titleIndex: map<string, seq<AlbumKey>>,
                            shared: map<AlbumKey, SongKey>, nextAlbum: nat, nextArtist: nat,
                            key: ArtistKey, artist: Artist, artists': map<ArtistKey, Artist>, nextArtist': nat)
    requires ValidState(songs, albums, artists, titleIndex, shared, nextAlbum, nextArtist)
    requires key == MakeKey(ArtistPrefix, nextArtist) && artist.key == key
    requires artist.songs == [] && artist.albums == []
    requires artists' == artists[key := artist] && nextArtist' == nextArtist + 1
    ensures key !in artists && key != ""
    ensures ValidState(songs, albums, artists', titleIndex, shared, nextAlbum, nextArtist')
  {
    KeyIsFresh(ArtistPrefix, nextArtist);
    forall k | k in artists
      ensures IssuedBelow(k, ArtistPrefix, nextArtist + 1)
    {
    }
  }

  /** The artist key the name index holds for a name, if the entry is a usable
      key of an existing artist (`if (maybeKey)` rejects the empty key). */
  function FoundKey(index: map<string, ArtistKey>, artists: map<ArtistKey, Artist>, name: string)
    : Option<ArtistKey>
  {
    var norm := Normalized(name);
    if norm in index && index[norm] != "" && index[norm] in artists
    then Some(index[norm]) else None
  }

  /** A name that did not resolve, entered under a new key, resolves to it, and
      every name that resolved before still resolves to the same artist. */
  lemma NewArtistResolves(index: map<string, ArtistKey>, artists: map<ArtistKey, Artist>,
                          name: string, key: ArtistKey, artist: Artist)
    requires FoundKey(index, artists, name).None? && key != "" && key !in artists
    ensures FoundKey(index[Normalized(name) := key], artists[key := artist], name) == Some(key)
    ensures forall n :: FoundKey(index, artists, n).Some? ==>
      FoundKey(index[Normalized(name) := key], artists[key := artist], n) == FoundKey(index, artists, n)
  {
    forall n | FoundKey(index, artists, n).Some?
      ensures FoundKey(index[Normalized(name) := key], artists[key := artist], n) == FoundKey(index, artists, n)
    {
      assert Normalized(n) != Normalized(name);
    }
  }

  /** `getOrNewArtist`: the artist of that normalized name, created if missing.
      An index entry naming no artist is overwritten with a new artist. */
  method GetOrNewArtist(db: MusicDB, name: string) returns (artist: Artist)
    requires db.Valid()
    modifies db`artists, db`artistNameIndex, db`nextArtistKey
    ensures db.Valid()
    ensures FoundKey(db.artistNameIndex, db.artists, name) == Some(artist.key)
    ensures artist.key in db.artists && db.artists[artist.key] == artist
    ensures var found := FoundKey(old(db.artistNameIndex), old(db.artists), name);
      if found.Some? then
        artist == old(db.artists)[found.value]
        && db.artists == old(db.artists) && db.artistNameIndex == old(db.artistNameIndex)
        && db.nextArtistKey == old(db.nextArtistKey)
      else
        && artist == Artist(name, [], [], MakeKey(ArtistPrefix, old(db.nextArtistKey)))
        && artist.key !in old(db.artists)
        && db.artists == old(db.artists)[artist.key := artist]
        && db.artistNameIndex == old(db.artistNameIndex)[Normalized(name) := artist.key]
        && db.nextArtistKey == old(db.nextArtistKey) + 1
    // a name that already resolved keeps its artist
    ensures forall n :: FoundKey(old(db.artistNameIndex), old(db.artists), n).Some? ==>
      FoundKey(db.artistNameIndex, db.artists, n) == FoundKey(old(db.artistNameIndex), old(db.artists), n)
  {
    var norm := NormalizeName(name);
    if norm in db.artistNameIndex {
      var maybeKey := db.artistNameIndex[norm];
      if maybeKey != "" && maybeKey in db.artists {
        return db.artists[maybeKey];
      }
      // The index names no artist: fall through and overwrite the entry.
    }
    var key := MakeKey(ArtistPrefix, db.nextArtistKey);
    artist := Artist(name, [], [], key);
    db.nextArtistKey := db.nextArtistKey + 1;
    db.artistNameIndex := db.artistNameIndex[norm := key];
    db.artists := db.artists[key := artist];
    NewArtistKeepsValid(db.songs, db.albums, old(db.artists), db.albumTitleIndex, db.sharedPrimary,
                        db.nextAlbumKey, old(db.nextArtistKey), key, artist, db.artists, db.nextArtistKey);
    NewArtistResolves(old(db.artistNameIndex), old(db.artists), name, key, artist);
  }

  // ---- Demoting the songs of an album ----

  /** Demotion changes only the two artist lists of songs. */
  lemma DemoteSongsInShape(songs: map<SongKey, Song>, keys: seq<SongKey>, common: set<ArtistKey>)
    ensures var songs' := DemoteSongsIn(songs, keys, common);
      && songs'.Keys == songs.Keys
      && (forall k :: k in songs ==> songs'[k].key == songs[k].key && songs'[k].albumId == songs[k].albumId)
      && (forall k, a :: k in songs && a in songs'[k].artistIds ==> a in songs[k].artistIds)
      && (forall k, a :: k in songs && a in songs'[k].secondaryIds ==>
            a in songs[k].secondaryIds || a in songs[k].artistIds)
  {
    var songs' := DemoteSongsIn(songs, keys, common);
    forall k | k in songs && k in keys
      ensures forall a :: a in songs'[k].artistIds ==> a in songs[k].artistIds
      ensures forall a :: a in songs'[k].secondaryIds ==> a in songs[k].secondaryIds || a in songs[k].artistIds
    {
      DemotionMembers(songs[k].artistIds, common);
    }
  }

  /** Following shared lists changes only the primary artists of albums. */
  lemma FollowSharedShape(albums: map<AlbumKey, Album>, shared: map<AlbumKey, SongKey>,
                          songs: map<SongKey, Song>)
    ensures var albums' := FollowShared(albums, shared, songs);
      && albums'.Keys == albums.Keys
      && forall a :: a in albums ==> albums'[a].key == albums[a].key && albums'[a].songs == albums[a].songs
  {
  }

  /** Demoting the songs keeps the database consistent: demotion only moves
      artists between a song's two lists, and shared album lists follow. */
  lemma DemoteKeepsValid(songs: map<SongKey, Song>, albums: map<AlbumKey, Album>,
                         artists: map<ArtistKey, Artist>, titleIndex: map<string, seq<AlbumKey>>,
                         shared: map<AlbumKey, SongKey>, nextAlbum: nat, nextArtist: nat,
                         keys: seq<SongKey>, common: set<ArtistKey>,
                         songs': map<SongKey, Song>, albums': map<AlbumKey, Album>)
    requires ValidState(songs, albums, artists, titleIndex, shared, nextAlbum, nextArtist)
    requires songs' == DemoteSongsIn(songs, keys, common)
    requires albums' == FollowShared(albums, shared, songs')
    ensures ValidState(songs', albums', artists, titleIndex, shared, nextAlbum, nextArtist)
  {
    DemoteSongsInShape(songs, keys, common);
    FollowSharedShape(albums, shared, songs');
  }

  /** Demoting across the same songs map twice reads the latest artist lists. */
  lemma FollowSharedTwice(albums: map<AlbumKey, Album>, shared: map<AlbumKey, SongKey>,
                          songs1: map<SongKey, Song>, songs2: map<SongKey, Song>)
    requires songs1.Keys == songs2.Keys
    ensures FollowShared(FollowShared(albums, shared, songs1), shared, songs2)
         == FollowShared(albums, shared, songs2)
  {
  }

  /** One more song demoted: the map over a longer prefix of the key list. */
  lemma DemoteSongsInStep(songs0: map<SongKey, Song>, keys: seq<SongKey>, i: nat, common: set<ArtistKey>)
    requires i < |keys|
    ensures var cur := DemoteSongsIn(songs0, keys[..i], common);
      var s := keys[i];
      DemoteSongsIn(songs0, keys[..i + 1], common)
        == if s in cur then cur[s := DemoteSong(cur[s], common)] else cur
  {
    var s := keys[i];
    assert keys[..i + 1] == keys[..i] + [s];
    if s in songs0 && s in keys[..i] {
      DemoteSongIdempotent(songs0[s], common);
    }
  }

  /** The inner loop `for (const s of check.songs)` over the maps: demote the
      artists of every listed song, skipping a key that names no song; an album
      sharing its primary list with a demoted song sees the same demotion. */
  method DemoteListed(songs0: map<SongKey, Song>, albums0: map<AlbumKey, Album>,
                      shared: map<AlbumKey, SongKey>, keys: seq<SongKey>, common: set<ArtistKey>)
    returns (songs: map<SongKey, Song>, albums: map<AlbumKey, Album>)
    requires albums0 == FollowShared(albums0, shared, songs0)
    ensures songs == DemoteSongsIn(songs0, keys, common)
    ensures albums == FollowShared(albums0, shared, songs)
  {
    songs, albums := songs0, albums0;
    for i := 0 to |keys|
      invariant songs == DemoteSongsIn(songs0, keys[..i], common)
      invariant albums == FollowShared(albums0, shared, songs)
    {
      var s := keys[i];
      DemoteSongsInStep(songs0, keys, i, common);
      if s !in songs {
        continue;
      }
      var sng := songs[s];
      var p, q := DemoteArtists(sng.artistIds, sng.secondaryIds, common);
      ghost var before := songs;
      songs := songs[s := sng.(artistIds := p, secondaryIds := q)];
      FollowSharedTwice(albums0, shared, before, songs);
      albums := FollowShared(albums, shared, songs);
    }
    assert keys[..|keys|] == keys;
  }

  /** Some artist of the album's primary list is not common, so `demoteArtists`
      runs over the album's songs. */
  predicate NeedsDemotion(primary: seq<ArtistKey>, common: set<ArtistKey>) {
    exists x :: x in primary && x !in common
  }

  /** The loop over `check.primaryArtists` from its end: each artist not in
      `common` demotes every song of the album. The list is read afresh each
      time, since a shared list shrinks under the demotion; an index past its
      end reads `undefined`, which is not common. Demoting a second time
      changes nothing, so the album's songs are demoted exactly when some
      artist of its list is not common. */
  method DemoteAlbum(songs0: map<SongKey, Song>, albums0: map<AlbumKey, Album>,
                     shared: map<AlbumKey, SongKey>, albumKey: AlbumKey, common: set<ArtistKey>)
    returns (songs: map<SongKey, Song>, albums: map<AlbumKey, Album>)
    requires albumKey in albums0 && albums0 == FollowShared(albums0, shared, songs0)
    ensures if NeedsDemotion(albums0[albumKey].primaryArtists, common) then
        && songs == DemoteSongsIn(songs0, albums0[albumKey].songs, common)
        && albums == FollowShared(albums0, shared, songs)
      else
        songs == songs0 && albums == albums0
  {
    var prim0 := albums0[albumKey].primaryArtists;
    var songKeys := albums0[albumKey].songs;
    songs, albums := songs0, albums0;
    ghost var done := false;
    var j := |prim0| - 1;
    while j >= 0
      invariant -1 <= j < |prim0|
      invariant albumKey in albums && albums[albumKey].songs == songKeys
      invariant albums == FollowShared(albums, shared, songs)
      invariant !done ==> songs == songs0 && albums == albums0
      invariant !done ==> forall t :: j < t < |prim0| ==> prim0[t] in common
      invariant done ==> NeedsDemotion(prim0, common)
      invariant done ==> songs == DemoteSongsIn(songs0, songKeys, common)
      invariant done ==> albums == FollowShared(albums0, shared, songs)
    {
      var prim := albums[albumKey].primaryArtists;
      if j < |prim| && prim[j] in common {
        j := j - 1;
        continue;
      }
      if !done {
        assert prim0[j] !in common;
      }
      ghost var songs1 := songs;
      songs, albums := DemoteListed(songs, albums, shared, albums[albumKey].songs, common);
      FollowSharedShape(albums0, shared, songs);
      if done {
        DemoteSongsInIdempotent(songs0, songKeys, common);
        FollowSharedTwice(albums0, shared, songs1, songs);
      }
      FollowSharedTwice(albums0, shared, songs, songs);
      done := true;
      j := j - 1;
    }
    if !done {
      assert !NeedsDemotion(prim0, common);
    }
  }

  /** What `DemoteAlbum` computes keeps the database consistent and reshapes
      only the artist lists. */
  lemma DemoteAlbumKeepsValid(songs: map<SongKey, Song>, albums: map<AlbumKey, Album>,
                              artists: map<ArtistKey, Artist>, titleIndex: map<string, seq<AlbumKey>>,
                              shared: map<AlbumKey, SongKey>, nextAlbum: nat, nextArtist: nat,
                              albumKey: AlbumKey, common: set<ArtistKey>,
                              songs': map<SongKey, Song>, albums': map<AlbumKey, Album>)
    requires ValidState(songs, albums, artists, titleIndex, shared, nextAlbum, nextArtist)
    requires albumKey in albums
    requires if NeedsDemotion(albums[albumKey].primaryArtists, common) then
        && songs' == DemoteSongsIn(songs, albums[albumKey].songs, common)
        && albums' == FollowShared(albums, shared, songs')
      else
        songs' == songs && albums' == albums
    ensures ValidState(songs', albums', artists, titleIndex, shared, nextAlbum, nextArtist)
    ensures albums'.Keys == albums.Keys && AlbumsReshaped(albums, albums')
    ensures songs'.Keys == songs.Keys
  {
    if NeedsDemotion(albums[albumKey].primaryArtists, common) {
      DemoteKeepsValid(songs, albums, artists, titleIndex, shared, nextAlbum, nextArtist,
                       albums[albumKey].songs, common, songs', albums');
      DemoteSongsInShape(songs, albums[albumKey].songs, common);
      FollowSharedShape(albums, shared, songs');
    }
  }

  /** The same loop on the database. */
  method DemoteAlbumSongs(db: MusicDB, albumKey: AlbumKey, common: set<ArtistKey>)
    requires db.Valid() && albumKey in db.albums
    modifies db`songs, db`albums
    ensures db.Valid()
    ensures if NeedsDemotion(old(db.albums)[albumKey].primaryArtists, common) then
        && db.songs == DemoteSongsIn(old(db.songs), old(db.albums)[albumKey].songs, common)
        && db.albums == FollowShared(old(db.albums), db.sharedPrimary, db.songs)
      else
        db.songs == old(db.songs) && db.albums == old(db.albums)
    ensures db.albums.Keys == old(db.albums).Keys && AlbumsReshaped(old(db.albums), db.albums)
    ensures db.songs.Keys == old(db.songs).Keys
  {
    FollowSharedNoChange(db.albums, db.sharedPrimary, db.songs);
    db.songs, db.albums := DemoteAlbum(db.songs, db.albums, db.sharedPrimary, albumKey, common);
    DemoteAlbumKeepsValid(old(db.songs), old(db.albums), db.artists, db.albumTitleIndex, db.sharedPrimary,
                          db.nextAlbumKey, db.nextArtistKey, albumKey, common, db.songs, db.albums);
  }

  // ---- Which existing album a song joins ----

  /** How `getOrNewAlbum` treats one album listed under the title. */
  datatype Verdict =
    | Skip                           // not this one: look at the next
    | SameVA                         // the same compilation or soundtrack
    | SameArtists                    // the same primary artists
    | Overlap(common: set<ArtistKey>)  // some artists in common: demote the others
    | NoOverlap                      // no artist in common: the album becomes a compilation

  function CandidateVerdict(albums: map<AlbumKey, Album>, songs: map<SongKey, Song>, cand: AlbumKey,
                            title: string, year: int, artists: seq<ArtistKey>, vatype: VAType): Verdict
  {
    if cand !in albums then Skip
    else
      var check := albums[cand];
      if NoArticlesCmp(check.title, title) != 0 then Skip
      else if check.year != year then Skip
      else if check.vatype == vatype && vatype != NotVA then SameVA
      else if SetEqual(check.primaryArtists, artists) then SameArtists
      else if |check.songs| == 0 || check.songs[0] !in songs then Skip
      else
        var common := SetIntersection(check.primaryArtists, artists);
        if |common| > 0 then Overlap(common) else NoOverlap
  }

  /** The first album of the list whose verdict is not `Skip`. */
  function FirstMatch(albums: map<AlbumKey, Album>, songs: map<SongKey, Song>, cands: seq<AlbumKey>,
                      title: string, year: int, artists: seq<ArtistKey>, vatype: VAType): Option<AlbumKey>
  {
    if |cands| == 0 then None
    else if CandidateVerdict(albums, songs, cands[0], title, year, artists, vatype) != Skip then Some(cands[0])
    else FirstMatch(albums, songs, cands[1..], title, year, artists, vatype)
  }

  /** The precedence of the search: the match is the first album listed that is
      not skipped, and no match means every album listed is skipped. */
  lemma {:induction false} FirstMatchIsFirst(albums: map<AlbumKey, Album>, songs: map<SongKey, Song>,
                                             cands: seq<AlbumKey>, title: string, year: int,
                                             artists: seq<ArtistKey>, vatype: VAType)
    ensures var m := FirstMatch(albums, songs, cands, title, year, artists, vatype);
      match m
      case None => forall i :: 0 <= i < |cands| ==>
        CandidateVerdict(albums, songs, cands[i], title, year, artists, vatype) == Skip
      case Some(k) => exists i :: (0 <= i < |cands| && cands[i] == k
        && CandidateVerdict(albums, songs, k, title, year, artists, vatype) != Skip
        && forall j :: 0 <= j < i ==> CandidateVerdict(albums, songs, cands[j], title, year, artists, vatype) == Skip)
  {
    if |cands| > 0 {
      FirstMatchIsFirst(albums, songs, cands[1..], title, year, artists, vatype);
      var m := FirstMatch(albums, songs, cands, title, year, artists, vatype);
      if CandidateVerdict(albums, songs, cands[0], title, year, artists, vatype) == Skip {
        if m.Some? {
          var i :| 0 <= i < |cands[1..]| && cands[1..][i] == m.value
            && CandidateVerdict(albums, songs, m.value, title, year, artists, vatype) != Skip
            && forall j :: 0 <= j < i ==> CandidateVerdict(albums, songs, cands[1..][j], title, year, artists, vatype) == Skip;
          assert cands[i + 1] == m.value;
          forall j | 0 <= j < i + 1
            ensures CandidateVerdict(albums, songs, cands[j], title, year, artists, vatype) == Skip
          {
            if j > 0 {
              assert cands[j] == cands[1..][j - 1];
            }
          }
        } else {
          forall i | 0 <= i < |cands|
            ensures CandidateVerdict(albums, songs, cands[i], title, year, artists, vatype) == Skip
          {
            if i > 0 {
              assert cands[i] == cands[1..][i - 1];
            }
          }
        }
      }
    }
  }

  /** An album that is not skipped has the song's year and, once normalized, its title. */
  lemma MatchAgrees(albums: map<AlbumKey, Album>, songs: map<SongKey, Song>, cand: AlbumKey,
                    title: string, year: int, artists: seq<ArtistKey>, vatype: VAType)
    requires CandidateVerdict(albums, songs, cand, title, year, artists, vatype) != Skip
    ensures cand in albums && albums[cand].year == year
    ensures Normalized(albums[cand].title) == Normalized(title)
  {
  }

  /** The artists map after each listed artist gains the album, unless it has it already. */
  function AddAlbumTo(artists: map<ArtistKey, Artist>, list: seq<ArtistKey>, albumKey: AlbumKey)
    : (r: map<ArtistKey, Artist>)
    ensures r.Keys == artists.Keys
    ensures forall a :: a in artists && a in list ==> albumKey in r[a].albums
    ensures forall a :: a in artists && a !in list ==> r[a] == artists[a]
    ensures forall a :: a in artists && albumKey in artists[a].albums ==> r[a] == artists[a]
    ensures forall a :: a in artists ==> r[a].(albums := artists[a].albums) == artists[a]
  {
    map a | a in artists ::
      if a in list && albumKey !in artists[a].albums
      then artists[a].(albums := artists[a].albums + [albumKey])
      else artists[a]
  }

  /** An artist gains the album at most once, however often the list names it. */
  lemma AddAlbumToNoDuplicate(artists: map<ArtistKey, Artist>, list: seq<ArtistKey>,
                              albumKey: AlbumKey, a: ArtistKey)
    requires a in artists && albumKey !in artists[a].albums
    ensures multiset(AddAlbumTo(artists, list, albumKey)[a].albums)[albumKey] == (if a in list then 1 else 0)
  {
  }

  /** One more artist of the list handled by the loop below. */
  lemma AddAlbumToStep(artists0: map<ArtistKey, Artist>, list: seq<ArtistKey>, i: nat, albumKey: AlbumKey)
    requires i < |list|
    ensures var cur := AddAlbumTo(artists0, list[..i], albumKey);
      var art := list[i];
      AddAlbumTo(artists0, list[..i + 1], albumKey)
        == if art !in cur || albumKey in cur[art].albums then cur
           else cur[art := cur[art].(albums := cur[art].albums + [albumKey])]
  {
    assert list[..i + 1] == list[..i] + [list[i]];
  }

  lemma AddAlbumKeepsValid(db: MusicDB, albumKey: AlbumKey, list: seq<ArtistKey>)
    requires db.Valid() && albumKey in db.albums
    ensures var artists' := AddAlbumTo(db.artists, list, albumKey);
      KeysOk(db.albums, artists', db.songs, db.nextAlbumKey, db.nextArtistKey)
      && LinksOk(db.songs, db.albums, artists')
  {
    var artists' := AddAlbumTo(db.artists, list, albumKey);
    forall k | k in artists'
      ensures artists'[k].key == k && artists'[k].songs == db.artists[k].songs
      ensures forall a :: a in artists'[k].albums ==> a in db.albums
    {
      assert artists'[k].(albums := db.artists[k].albums) == db.artists[k];
    }
  }

  /** The loop over the song's artists when the album has the same ones: each
      artist that exists and lacks the album gets it appended. */
  method AppendAlbumToEach(artists: map<ArtistKey, Artist>, list: seq<ArtistKey>, albumKey: AlbumKey)
    returns (arts: map<ArtistKey, Artist>)
    ensures arts == AddAlbumTo(artists, list, albumKey)
  {
    arts := artists;
    for i := 0 to |list|
      invariant arts == AddAlbumTo(artists, list[..i], albumKey)
    {
      var art := list[i];
      AddAlbumToStep(artists, list, i, albumKey);
      if art !in arts {
        continue;
      }
      var thisArtist := arts[art];
      if albumKey in thisArtist.albums {
        continue;
      }
      arts := arts[art := thisArtist.(albums := thisArtist.albums + [albumKey])];
    }
    assert list[..|list|] == list;
  }

  /** The same-artists branch: the database's artists updated by the loop above. */
  method AddAlbumToArtists(db: MusicDB, albumKey: AlbumKey, list: seq<ArtistKey>)
    requires db.Valid() && albumKey in db.albums
    modifies db`artists
    ensures db.Valid()
    ensures db.artists == AddAlbumTo(old(db.artists), list, albumKey)
    ensures ArtistsGainAlbums(old(db.artists), db.artists)
  {
    AddAlbumKeepsValid(db, albumKey, list);
    db.artists := AppendAlbumToEach(db.artists, list, albumKey);
  }

  // ---- getOrNewAlbum ----

  /** The albums the title index lists under the title's normalized form. */
  function Candidates(titleIndex: map<string, seq<AlbumKey>>, title: string): seq<AlbumKey> {
    var norm := Normalized(title);
    if norm in titleIndex then titleIndex[norm] else []
  }

  /** What joining the matched album `key` with verdict `v` does to the maps
      (from the `0` state to the other) and to the song's artist lists. */
  ghost predicate Joined(songs0: map<SongKey, Song>, albums0: map<AlbumKey, Album>,
                         artists0: map<ArtistKey, Artist>, shared0: map<AlbumKey, SongKey>,
                         songs: map<SongKey, Song>, albums: map<AlbumKey, Album>,
                         artists: map<ArtistKey, Artist>, shared: map<AlbumKey, SongKey>,
                         key: AlbumKey, v: Verdict, incoming: seq<ArtistKey>, incomingSecond: seq<ArtistKey>,
                         primaryOut: seq<ArtistKey>, secondaryOut: seq<ArtistKey>)
  {
    && key in albums0
    && match v
      case Skip => false
      case SameVA =>
        && songs == songs0 && albums == albums0 && artists == artists0 && shared == shared0
        && primaryOut == incoming && secondaryOut == incomingSecond
      case SameArtists =>
        && songs == songs0 && albums == albums0 && shared == shared0
        && artists == AddAlbumTo(artists0, incoming, key)
        && primaryOut == incoming && secondaryOut == incomingSecond
      case NoOverlap =>
        && songs == songs0 && artists == artists0
        && albums == albums0[key := albums0[key].(vatype := Va, primaryArtists := [])]
        && shared == shared0 - {key}
        && primaryOut == incoming && secondaryOut == incomingSecond
      case Overlap(common) =>
        && artists == artists0 && shared == shared0
        && primaryOut == Kept(incoming, common)
        && secondaryOut == incomingSecond + Demoted(incoming, common)
        && if NeedsDemotion(albums0[key].primaryArtists, common) then
             songs == DemoteSongsIn(songs0, albums0[key].songs, common)
             && albums == FollowShared(albums0, shared0, songs)
           else
             songs == songs0 && albums == albums0
  }

  /** Albums keep their keys, titles, years and songs; only the primary artists
      and the VA type may change, and new albums may appear. */
  ghost predicate AlbumsReshaped(albums0: map<AlbumKey, Album>, albums: map<AlbumKey, Album>) {
    && albums0.Keys <= albums.Keys
    && forall k :: k in albums0 ==>
         albums[k].(primaryArtists := albums0[k].primaryArtists, vatype := albums0[k].vatype) == albums0[k]
  }

  /** The same artists, of which only the album lists may change. */
  ghost predicate ArtistsGainAlbums(artists0: map<ArtistKey, Artist>, artists: map<ArtistKey, Artist>) {
    && artists.Keys == artists0.Keys
    && forall k :: k in artists0 ==> artists[k].(albums := artists0[k].albums) == artists0[k]
  }

  lemma MarkVAKeepsValid(songs: map<SongKey, Song>, albums: map<AlbumKey, Album>,
                         artists: map<ArtistKey, Artist>, titleIndex: map<string, seq<AlbumKey>>,
                         shared: map<AlbumKey, SongKey>, nextAlbum: nat, nextArtist: nat,
                         key: AlbumKey, albums': map<AlbumKey, Album>, shared': map<AlbumKey, SongKey>)
    requires ValidState(songs, albums, artists, titleIndex, shared, nextAlbum, nextArtist)
    requires key in albums
    requires albums' == albums[key := albums[key].(vatype := Va, primaryArtists := [])]
    requires shared' == shared - {key}
    ensures ValidState(songs, albums', artists, titleIndex, shared', nextAlbum, nextArtist)
  {
  }

  /** No artist in common: `check.vatype = 'va'; check.primaryArtists = []`.
      The album's new list is its own, so it no longer follows a song. */
  method MarkVA(db: MusicDB, albumKey: AlbumKey)
    requires db.Valid() && albumKey in db.albums
    modifies db`albums, db`sharedPrimary
    ensures db.Valid()
    ensures db.albums == old(db.albums)[albumKey := old(db.albums)[albumKey].(vatype := Va, primaryArtists := [])]
    ensures db.sharedPrimary == old(db.sharedPrimary) - {albumKey}
    ensures db.albums.Keys == old(db.albums).Keys && AlbumsReshaped(old(db.albums), db.albums)
  {
    var check := db.albums[albumKey];
    db.albums := db.albums[albumKey := check.(vatype := Va, primaryArtists := [])];
    db.sharedPrimary := db.sharedPrimary - {albumKey};
    MarkVAKeepsValid(db.songs, old(db.albums), db.artists, db.albumTitleIndex, old(db.sharedPrimary),
                     db.nextAlbumKey, db.nextArtistKey, albumKey, db.albums, db.sharedPrimary);
  }

  /** Some artists in common: the song's artists outside the album's move to its
      secondary list, and so do the album's own (and its songs') when some of its
      artists are not shared. */
  method JoinOverlap(db: MusicDB, albumKey: AlbumKey, common: set<ArtistKey>,
                     artists: seq<ArtistKey>, secondaryArtists: seq<ArtistKey>)
    returns (primaryOut: seq<ArtistKey>, secondaryOut: seq<ArtistKey>)
    requires db.Valid() && albumKey in db.albums
    modifies db`songs, db`albums
    ensures db.Valid()
    ensures primaryOut == Kept(artists, common)
    ensures secondaryOut == secondaryArtists + Demoted(artists, common)
    ensures if NeedsDemotion(old(db.albums)[albumKey].primaryArtists, common) then
        && db.songs == DemoteSongsIn(old(db.songs), old(db.albums)[albumKey].songs, common)
        && db.albums == FollowShared(old(db.albums), db.sharedPrimary, db.songs)
      else
        db.songs == old(db.songs) && db.albums == old(db.albums)
    ensures db.albums.Keys == old(db.albums).Keys && AlbumsReshaped(old(db.albums), db.albums)
    ensures db.songs.Keys == old(db.songs).Keys
    ensures multiset(primaryOut + secondaryOut) == multiset(artists + secondaryArtists)
  {
    primaryOut, secondaryOut := DemoteArtists(artists, secondaryArtists, common);
    DemotionPermutes(artists, common);
    DemoteAlbumSongs(db, albumKey, common);
  }

  /** The found album's branch of `getOrNewAlbum`, after the checks gave verdict `v`. */
  method JoinAlbum(db: MusicDB, albumKey: AlbumKey, v: Verdict,
                   artists: seq<ArtistKey>, secondaryArtists: seq<ArtistKey>)
    returns (primaryOut: seq<ArtistKey>, secondaryOut: seq<ArtistKey>)
    requires db.Valid() && albumKey in db.albums && v != Skip
    modifies db`songs, db`albums, db`artists, db`sharedPrimary
    ensures db.Valid()
    ensures Joined(old(db.songs), old(db.albums), old(db.artists), old(db.sharedPrimary),
                   db.songs, db.albums, db.artists, db.sharedPrimary,
                   albumKey, v, artists, secondaryArtists, primaryOut, secondaryOut)
    ensures db.albums.Keys == old(db.albums).Keys && AlbumsReshaped(old(db.albums), db.albums)
    ensures ArtistsGainAlbums(old(db.artists), db.artists)
    ensures db.songs.Keys == old(db.songs).Keys
    ensures multiset(primaryOut + secondaryOut) == multiset(artists + secondaryArtists)
  {
    primaryOut, secondaryOut := artists, secondaryArtists;
    match v {
      case SameVA =>
      case SameArtists =>
        AddAlbumToArtists(db, albumKey, artists);
      case Overlap(common) =>
        primaryOut, secondaryOut := JoinOverlap(db, albumKey, common, artists, secondaryArtists);
      case NoOverlap =>
        MarkVA(db, albumKey);
    }
  }

  /** The album `getOrNewAlbum` creates. */
  function FreshAlbum(key: AlbumKey, title: string, year: int, artists: seq<ArtistKey>, vatype: VAType): Album {
    Album(year, if vatype == NotVA then artists else [], title, vatype, [], key)
  }

  lemma NewAlbumKeepsValid(songs: map<SongKey, Song>, albums: map<AlbumKey, Album>,
                           artists: map<ArtistKey, Artist>, titleIndex: map<string, seq<AlbumKey>>,
                           shared: map<AlbumKey, SongKey>, nextAlbum: nat, nextArtist: nat,
                           norm: string, cands: seq<AlbumKey>, album: Album,
                           albums': map<AlbumKey, Album>, titleIndex': map<string, seq<AlbumKey>>, nextAlbum': nat)
    requires ValidState(songs, albums, artists, titleIndex, shared, nextAlbum, nextArtist)
    requires forall a :: a in cands ==> a in albums
    requires album.key == MakeKey(AlbumPrefix, nextAlbum) && album.songs == []
    requires albums' == albums[album.key := album] && titleIndex' == titleIndex[norm := cands + [album.key]]
    requires nextAlbum' == nextAlbum + 1
    ensures album.key !in albums
    ensures ValidState(songs, albums', artists, titleIndex', shared, nextAlbum', nextArtist)
  {
    KeyIsFresh(AlbumPrefix, nextAlbum);
    forall k | k in albums
      ensures IssuedBelow(k, AlbumPrefix, nextAlbum + 1)
    {
    }
  }

  /** The new album's branch of `getOrNewAlbum`: a fresh key, listed under the title. */
  method NewAlbum(db: MusicDB, norm: string, cands: seq<AlbumKey>, title: string, year: int,
                  artists: seq<ArtistKey>, vatype: VAType) returns (key: AlbumKey)
    requires db.Valid()
    requires forall a :: a in cands ==> a in db.albums
    modifies db`albums, db`albumTitleIndex, db`nextAlbumKey
    ensures db.Valid()
    ensures key == MakeKey(AlbumPrefix, old(db.nextAlbumKey)) && key !in old(db.albums)
    ensures db.albums == old(db.albums)[key := FreshAlbum(key, title, year, artists, vatype)]
    ensures db.albumTitleIndex == old(db.albumTitleIndex)[norm := cands + [key]]
    ensures db.nextAlbumKey == old(db.nextAlbumKey) + 1
  {
    key := MakeKey(AlbumPrefix, db.nextAlbumKey);
    var album := FreshAlbum(key, title, year, artists, vatype);
    db.nextAlbumKey := db.nextAlbumKey + 1;
    db.albumTitleIndex := db.albumTitleIndex[norm := cands + [key]];
    db.albums := db.albums[key := album];
    NewAlbumKeepsValid(db.songs, old(db.albums), db.artists, old(db.albumTitleIndex), db.sharedPrimary,
                       old(db.nextAlbumKey), db.nextArtistKey, norm, cands, album,
                       db.albums, db.albumTitleIndex, db.nextAlbumKey);
  }

  /** The candidate loop of `getOrNewAlbum`: the first album listed under the
      title whose checks do not send the search on to the next one. */
  method FindAlbum(db: MusicDB, cands: seq<AlbumKey>, title: string, year: int,
                   artists: seq<ArtistKey>, vatype: VAType) returns (found: Option<AlbumKey>)
    ensures found == FirstMatch(db.albums, db.songs, cands, title, year, artists, vatype)
    ensures found.Some? ==>
      found.value in cands && CandidateVerdict(db.albums, db.songs, found.value, title, year, artists, vatype) != Skip
  {
    for i := 0 to |cands|
      invariant FirstMatch(db.albums, db.songs, cands[i..], title, year, artists, vatype)
             == FirstMatch(db.albums, db.songs, cands, title, year, artists, vatype)
    {
      assert cands[i..][1..] == cands[i + 1..];
      if CandidateVerdict(db.albums, db.songs, cands[i], title, year, artists, vatype) != Skip {
        return Some(cands[i]);
      }
    }
    return None;
  }

  /** `getOrNewAlbum`: the album of that normalized title and year that the
      song belongs to, created if none qualifies. It returns the album's key and
      the song's artist lists, which a partial artist overlap demotes. */
  method GetOrNewAlbum(db: MusicDB, title: string, year: int, artists: seq<ArtistKey>,
                       secondaryArtists: seq<ArtistKey>, vatype: VAType)
    returns (albumKey: AlbumKey, primaryOut: seq<ArtistKey>, secondaryOut: seq<ArtistKey>)
    requires db.Valid()
    modifies db`songs, db`albums, db`artists, db`sharedPrimary, db`albumTitleIndex, db`nextAlbumKey
    ensures db.Valid()
    ensures albumKey in db.albums
    ensures var cands := Candidates(old(db.albumTitleIndex), title);
      match FirstMatch(old(db.albums), old(db.songs), cands, title, year, artists, vatype)
      case None =>
        && albumKey == MakeKey(AlbumPrefix, old(db.nextAlbumKey)) && albumKey !in old(db.albums)
        && db.albums == old(db.albums)[albumKey := FreshAlbum(albumKey, title, year, artists, vatype)]
        && db.albumTitleIndex == old(db.albumTitleIndex)[Normalized(title) := cands + [albumKey]]
        && db.nextAlbumKey == old(db.nextAlbumKey) + 1
        && db.songs == old(db.songs) && db.artists == old(db.artists)
        && db.sharedPrimary == old(db.sharedPrimary)
        && primaryOut == artists && secondaryOut == secondaryArtists
      case Some(k) =>
        && albumKey == k
        && db.albumTitleIndex == old(db.albumTitleIndex)[Normalized(title) := cands]
        && db.nextAlbumKey == old(db.nextAlbumKey)
        && Joined(old(db.songs), old(db.albums), old(db.artists), old(db.sharedPrimary),
                  db.songs, db.albums, db.artists, db.sharedPrimary, k,
                  CandidateVerdict(old(db.albums), old(db.songs), k, title, year, artists, vatype),
                  artists, secondaryArtists, primaryOut, secondaryOut)
    ensures Normalized(db.albums[albumKey].title) == Normalized(title) && db.albums[albumKey].year == year
    ensures albumKey !in old(db.albums) ==>
      && db.albums[albumKey] == FreshAlbum(albumKey, title, year, artists, vatype)
      && primaryOut == artists && secondaryOut == secondaryArtists
      && db.songs == old(db.songs) && db.sharedPrimary == old(db.sharedPrimary)
    ensures AlbumsReshaped(old(db.albums), db.albums)
    ensures ArtistsGainAlbums(old(db.artists), db.artists)
    ensures db.songs.Keys == old(db.songs).Keys
    ensures multiset(primaryOut + secondaryOut) == multiset(artists + secondaryArtists)
  {
    var norm := NormalizeName(title);
    var cands := if norm in db.albumTitleIndex then db.albumTitleIndex[norm] else [];
    var found := FindAlbum(db, cands, title, year, artists, vatype);
    if found.Some? {
      // A match is listed, so the empty entry the source puts in first is never left behind.
      albumKey := found.value;
      assert db.albumTitleIndex == db.albumTitleIndex[norm := cands];
      var v := CandidateVerdict(db.albums, db.songs, albumKey, title, year, artists, vatype);
      MatchAgrees(db.albums, db.songs, albumKey, title, year, artists, vatype);
      primaryOut, secondaryOut := JoinAlbum(db, albumKey, v, artists, secondaryArtists);
      assert albumKey in old(db.albums);
    } else {
      albumKey := NewAlbum(db, norm, cands, title, year, artists, vatype);
      primaryOut, secondaryOut := artists, secondaryArtists;
      assert db.albums[albumKey] == FreshAlbum(albumKey, title, year, artists, vatype);
    }
  }

  /** A second `getOrNewAlbum` with the same title, year, artists and VA type
      finds the album the first one created, with nothing left to demote. */
  lemma {:induction false} NewAlbumIsFoundAgain(albums: map<AlbumKey, Album>, songs: map<SongKey, Song>,
                                                cands: seq<AlbumKey>, key: AlbumKey, title: string,
                                                year: int, artists: seq<ArtistKey>, vatype: VAType)
    requires FirstMatch(albums, songs, cands, title, year, artists, vatype) == None
    requires key !in albums
    ensures var albums' := albums[key := FreshAlbum(key, title, year, artists, vatype)];
      FirstMatch(albums', songs, cands + [key], title, year, artists, vatype) == Some(key)
      && CandidateVerdict(albums', songs, key, title, year, artists, vatype)
         == if vatype == NotVA then SameArtists else SameVA
  {
    var albums' := albums[key := FreshAlbum(key, title, year, artists, vatype)];
    assert CandidateVerdict(albums', songs, key, title, year, artists, vatype)
        == if vatype == NotVA then SameArtists else SameVA;
    if |cands| == 0 {
      assert cands + [key] == [key];
    } else {
      var c := cands[0];
      assert (cands + [key])[1..] == cands[1..] + [key];
      if c != key {
        assert CandidateVerdict(albums', songs, c, title, year, artists, vatype)
            == CandidateVerdict(albums, songs, c, title, year, artists, vatype);
        NewAlbumIsFoundAgain(albums, songs, cands[1..], key, title, year, artists, vatype);
      }
    }
  }

  // ---- getSongKey ----

  /** `existingKeys.get(songPath) || ...`: the previous scan saved a non-empty key for the path. */
  predicate UsesSavedKey(existing: Option<map<string, SongKey>>, path: string) {
    existing.Some? && path in existing.value && existing.value[path] != ""
  }

  /** The key `getSongKey` gives a path: the saved one, else the counter's next key. */
  function SongKeyFor(existing: Option<map<string, SongKey>>, next: nat, path: string): SongKey {
    if UsesSavedKey(existing, path) then existing.value[path] else MakeKey(SongPrefix, next)
  }

  /** `getSongKey`: a path keeps the key the previous scan saved for it; any
      other path takes a key from the song counter, which is never empty and
      which the counter had not issued before. */
  method GetSongKey(db: MusicDB, songPath: string) returns (key: SongKey)
    requires db.Valid()
    modifies db`nextSongKey
    ensures db.Valid()
    ensures key == SongKeyFor(db.existingKeys, old(db.nextSongKey), songPath)
    ensures key != ""
    ensures UsesSavedKey(db.existingKeys, songPath) ==> db.nextSongKey == old(db.nextSongKey)
    ensures !UsesSavedKey(db.existingKeys, songPath) ==>
      db.nextSongKey == old(db.nextSongKey) + 1
      && !IssuedBelow(key, SongPrefix, old(db.nextSongKey)) && IssuedBelow(key, SongPrefix, db.nextSongKey)
  {
    if db.existingKeys.Some? && songPath in db.existingKeys.value {
      var saved := db.existingKeys.value[songPath];
      if saved != "" {
        return saved;
      }
    }
    key := MakeKey(SongPrefix, db.nextSongKey);
    KeyIsFresh(SongPrefix, db.nextSongKey);
    db.nextSongKey := db.nextSongKey + 1;
  }

  // ---- AddSongToDatabase ----

  /** The artists map after `artist.songs.push(key)` for each credited artist in turn. */
  function PushSong(artists: map<ArtistKey, Artist>, credited: seq<ArtistKey>, key: SongKey)
    : (r: map<ArtistKey, Artist>)
    requires forall a :: a in credited ==> a in artists
    ensures r.Keys == artists.Keys
    decreases |credited|
  {
    if |credited| == 0 then artists
    else
      var r := PushSong(artists, credited[..|credited| - 1], key);
      var a := credited[|credited| - 1];
      r[a := r[a].(songs := r[a].songs + [key])]
  }

  /** `n` copies of a key. */
  function Copies(key: SongKey, n: nat): (r: seq<SongKey>)
    ensures |r| == n && forall i :: 0 <= i < n ==> r[i] == key
  {
    if n == 0 then [] else Copies(key, n - 1) + [key]
  }

  /** Each artist gains the song once per time it is credited, at the end of its list,
      and nothing else changes. */
  lemma {:induction false} PushSongSpec(artists: map<ArtistKey, Artist>, credited: seq<ArtistKey>, key: SongKey)
    requires forall a :: a in credited ==> a in artists
    ensures var r := PushSong(artists, credited, key);
      forall a :: a in artists ==>
        r[a] == artists[a].(songs := artists[a].songs + Copies(key, multiset(credited)[a]))
    decreases |credited|
  {
    if |credited| > 0 {
      var init := credited[..|credited| - 1];
      var last := credited[|credited| - 1];
      assert credited == init + [last];
      PushSongSpec(artists, init, key);
      var r := PushSong(artists, credited, key);
      forall a | a in artists
        ensures r[a] == artists[a].(songs := artists[a].songs + Copies(key, multiset(credited)[a]))
      {
        if a == last {
          assert multiset(credited)[a] == multiset(init)[a] + 1;
          assert Copies(key, multiset(credited)[a]) == Copies(key, multiset(init)[a]) + [key];
        } else {
          assert multiset(credited)[a] == multiset(init)[a];
        }
      }
    }
  }

  /** The sharing map once song `key` is stored: aliases to the song it replaces
      end, and a new normal album shares the new song's list. */
  function ShareAfterInsert(shared: map<AlbumKey, SongKey>, key: SongKey, albumKey: AlbumKey, shares: bool)
    : map<AlbumKey, SongKey>
  {
    var kept := map a | a in shared && shared[a] != key :: shared[a];
    if shares then kept[albumKey := key] else kept
  }

  /** The artists after the pushes: the same records, with songs that are old songs or the new key. */
  lemma PushSongShape(artists: map<ArtistKey, Artist>, credited: seq<ArtistKey>, key: SongKey)
    requires forall a :: a in credited ==> a in artists
    ensures var r := PushSong(artists, credited, key);
      forall a :: a in r ==>
        && r[a].(songs := artists[a].songs) == artists[a]
        && forall s :: s in r[a].songs ==> s in artists[a].songs || s == key
  {
    PushSongSpec(artists, credited, key);
  }

  lemma InsertKeepsKeys(songs: map<SongKey, Song>, albums: map<AlbumKey, Album>,
                        artists: map<ArtistKey, Artist>, nextAlbum: nat, nextArtist: nat, song: Song,
                        songs': map<SongKey, Song>, albums': map<AlbumKey, Album>, artists': map<ArtistKey, Artist>)
    requires KeysOk(albums, artists, songs, nextAlbum, nextArtist)
    requires song.albumId in albums
    requires songs' == songs[song.key := song]
    requires albums' == albums[song.albumId := albums[song.albumId].(songs := albums[song.albumId].songs + [song.key])]
    requires artists'.Keys == artists.Keys && forall a :: a in artists ==> artists'[a].key == artists[a].key
    ensures KeysOk(albums', artists', songs', nextAlbum, nextArtist)
  {
  }

  lemma InsertKeepsLinks(songs: map<SongKey, Song>, albums: map<AlbumKey, Album>,
                         artists: map<ArtistKey, Artist>, song: Song,
                         songs': map<SongKey, Song>, albums': map<AlbumKey, Album>, artists': map<ArtistKey, Artist>)
    requires LinksOk(songs, albums, artists)
    requires song.albumId in albums
    requires forall a :: a in song.artistIds ==> a in artists
    requires forall a :: a in song.secondaryIds ==> a in artists
    requires songs' == songs[song.key := song]
    requires albums' == albums[song.albumId := albums[song.albumId].(songs := albums[song.albumId].songs + [song.key])]
    requires artists'.Keys == artists.Keys
    requires forall a :: a in artists ==> artists'[a].albums == artists[a].albums
    requires forall a, s :: a in artists && s in artists'[a].songs ==> s in artists[a].songs || s == song.key
    ensures LinksOk(songs', albums', artists')
  {
  }

  lemma InsertKeepsSharing(songs: map<SongKey, Song>, albums: map<AlbumKey, Album>,
                           shared: map<AlbumKey, SongKey>, song: Song, shares: bool,
                           songs': map<SongKey, Song>, albums': map<AlbumKey, Album>, shared': map<AlbumKey, SongKey>)
    requires SharingOk(shared, albums, songs)
    requires song.albumId in albums
    requires shares ==> albums[song.albumId].primaryArtists == song.artistIds
    requires songs' == songs[song.key := song]
    requires albums' == albums[song.albumId := albums[song.albumId].(songs := albums[song.albumId].songs + [song.key])]
    requires shared' == ShareAfterInsert(shared, song.key, song.albumId, shares)
    ensures SharingOk(shared', albums', songs')
  {
  }

  lemma InsertKeepsValid(songs: map<SongKey, Song>, albums: map<AlbumKey, Album>,
                         artists: map<ArtistKey, Artist>, titleIndex: map<string, seq<AlbumKey>>,
                         shared: map<AlbumKey, SongKey>, nextAlbum: nat, nextArtist: nat,
                         song: Song, credited: seq<ArtistKey>, shares: bool,
                         songs': map<SongKey, Song>, albums': map<AlbumKey, Album>,
                         artists': map<ArtistKey, Artist>, shared': map<AlbumKey, SongKey>)
    requires ValidState(songs, albums, artists, titleIndex, shared, nextAlbum, nextArtist)
    requires song.albumId in albums
    requires forall a :: a in credited ==> a in artists
    requires forall a :: a in song.artistIds ==> a in artists
    requires forall a :: a in song.secondaryIds ==> a in artists
    requires shares ==> albums[song.albumId].primaryArtists == song.artistIds
    requires songs' == songs[song.key := song]
    requires albums' == albums[song.albumId := albums[song.albumId].(songs := albums[song.albumId].songs + [song.key])]
    requires artists' == PushSong(artists, credited, song.key)
    requires shared' == ShareAfterInsert(shared, song.key, song.albumId, shares)
    ensures ValidState(songs', albums', artists', titleIndex, shared', nextAlbum, nextArtist)
  {
    PushSongShape(artists, credited, song.key);
    forall a | a in artists
      ensures artists'[a].key == artists[a].key && artists'[a].albums == artists[a].albums
    {
      assert artists'[a].(songs := artists[a].songs) == artists[a];
    }
    InsertKeepsKeys(songs, albums, artists, nextAlbum, nextArtist, song, songs', albums', artists');
    InsertKeepsLinks(songs, albums, artists, song, songs', albums', artists');
    InsertKeepsSharing(songs, albums, shared, song, shares, songs', albums', shared');
  }

  /** `allArtists.forEach((artist) => artist.songs.push(key))`. */
  method PushToArtists(artists: map<ArtistKey, Artist>, credited: seq<ArtistKey>, key: SongKey)
    returns (r: map<ArtistKey, Artist>)
    requires forall a :: a in credited ==> a in artists
    ensures r == PushSong(artists, credited, key)
  {
    r := artists;
    for i := 0 to |credited|
      invariant r == PushSong(artists, credited[..i], key)
    {
      assert credited[..i + 1][..i] == credited[..i];
      var artist := r[credited[i]];
      r := r[credited[i] := artist.(songs := artist.songs + [key])];
    }
    assert credited[..|credited|] == credited;
  }

  /** The end of `AddSongToDatabase`: append the song's key to its album and to every
      credited artist, then store the song under its key. */
  method InsertSong(db: MusicDB, song: Song, credited: seq<ArtistKey>, shares: bool)
    requires db.Valid()
    requires song.albumId in db.albums
    requires forall a :: a in credited ==> a in db.artists
    requires forall a :: a in song.artistIds ==> a in db.artists
    requires forall a :: a in song.secondaryIds ==> a in db.artists
    requires shares ==> db.albums[song.albumId].primaryArtists == song.artistIds
    modifies db`songs, db`albums, db`artists, db`sharedPrimary
    ensures db.Valid()
    ensures db.songs == old(db.songs)[song.key := song]
    ensures var album := old(db.albums)[song.albumId];
      db.albums == old(db.albums)[song.albumId := album.(songs := album.songs + [song.key])]
    ensures db.artists == PushSong(old(db.artists), credited, song.key)
    ensures db.sharedPrimary == ShareAfterInsert(old(db.sharedPrimary), song.key, song.albumId, shares)
  {
    ghost var songs0, albums0, artists0, shared0 := db.songs, db.albums, db.artists, db.sharedPrimary;
    assert ValidState(songs0, albums0, artists0, db.albumTitleIndex, shared0, db.nextAlbumKey, db.nextArtistKey);
    var album := db.albums[song.albumId];
    var albums := db.albums[song.albumId := album.(songs := album.songs + [song.key])];
    var artists := PushToArtists(db.artists, credited, song.key);
    var shared := ShareAfterInsert(db.sharedPrimary, song.key, song.albumId, shares);
    var songs := db.songs[song.key := song];
    db.albums, db.artists, db.sharedPrimary, db.songs := albums, artists, shared, songs;
    InsertKeepsValid(songs0, albums0, artists0, db.albumTitleIndex, shared0, db.nextAlbumKey, db.nextArtistKey,
                     song, credited, shares, db.songs, db.albums, db.artists, db.sharedPrimary);
  }

  /** The keys the name index resolves names to ("" for a name it does not resolve). */
  function ResolvedKeys(index: map<string, ArtistKey>, artists: map<ArtistKey, Artist>, names: seq<string>)
    : (ids: seq<ArtistKey>)
    ensures |ids| == |names|
  {
    seq(|names|, i requires 0 <= i < |names| => FoundKey(index, artists, names[i]).GetOr(""))
  }

  /** Resolving names keeps every artist as it was; the artists it adds are
      among the resolved keys and have no songs and no albums yet. */
  ghost predicate ArtistsAdded(artists0: map<ArtistKey, Artist>, artists: map<ArtistKey, Artist>, ids: seq<ArtistKey>) {
    && (forall a :: a in artists0 ==> a in artists && artists[a] == artists0[a])
    && (forall a :: a in artists && a !in artists0 ==> a in ids && artists[a].songs == [] && artists[a].albums == [])
  }

  lemma ArtistsAddedTwice(artists0: map<ArtistKey, Artist>, artists1: map<ArtistKey, Artist>,
                          artists: map<ArtistKey, Artist>, ids0: seq<ArtistKey>, ids: seq<ArtistKey>)
    requires ArtistsAdded(artists0, artists1, ids0) && ArtistsAdded(artists1, artists, ids)
    ensures ArtistsAdded(artists0, artists, ids0 + ids)
  {
  }

  /** `getOrNewArtist` for each name in turn, as `artists.map(...)` does. */
  method ResolveArtists(db: MusicDB, names: seq<string>) returns (ids: seq<ArtistKey>)
    requires db.Valid()
    modifies db`artists, db`artistNameIndex, db`nextArtistKey
    ensures db.Valid()
    ensures |ids| == |names|
    ensures forall k :: 0 <= k < |names| ==> FoundKey(db.artistNameIndex, db.artists, names[k]) == Some(ids[k])
    ensures forall n :: FoundKey(old(db.artistNameIndex), old(db.artists), n).Some? ==>
      FoundKey(db.artistNameIndex, db.artists, n) == FoundKey(old(db.artistNameIndex), old(db.artists), n)
    ensures ArtistsAdded(old(db.artists), db.artists, ids)
  {
    ids := [];
    for i := 0 to |names|
      invariant db.Valid()
      invariant |ids| == i
      invariant forall k :: 0 <= k < i ==> FoundKey(db.artistNameIndex, db.artists, names[k]) == Some(ids[k])
      invariant forall n :: FoundKey(old(db.artistNameIndex), old(db.artists), n).Some? ==>
        FoundKey(db.artistNameIndex, db.artists, n) == FoundKey(old(db.artistNameIndex), old(db.artists), n)
      invariant ArtistsAdded(old(db.artists), db.artists, ids)
    {
      ghost var index0, artists0, ids0 := db.artistNameIndex, db.artists, ids;
      var artist := GetOrNewArtist(db, names[i]);
      ids := ids + [artist.key];
      forall k | 0 <= k < i + 1
        ensures FoundKey(db.artistNameIndex, db.artists, names[k]) == Some(ids[k])
      {
        if k < i {
          assert ids[k] == ids0[k] && FoundKey(index0, artists0, names[k]) == Some(ids0[k]);
        }
      }
    }
  }

  /** Found keys depend on the artists only through which keys exist. */
  lemma FoundKeySameArtists(index: map<string, ArtistKey>, artists0: map<ArtistKey, Artist>,
                            artists: map<ArtistKey, Artist>, name: string)
    requires artists.Keys == artists0.Keys
    ensures FoundKey(index, artists, name) == FoundKey(index, artists0, name)
  {
  }

  /** Names that all resolve: their resolved keys are exactly the given ones,
      and each of those names an artist. */
  lemma ResolvedAll(index: map<string, ArtistKey>, artists: map<ArtistKey, Artist>,
                    names: seq<string>, ids: seq<ArtistKey>)
    requires |ids| == |names|
    requires forall k :: 0 <= k < |names| ==> FoundKey(index, artists, names[k]) == Some(ids[k])
    ensures ResolvedKeys(index, artists, names) == ids
    ensures forall n :: n in names ==> FoundKey(index, artists, n).Some?
    ensures forall a :: a in ids ==> a in artists
  {
    forall a | a in ids
      ensures a in artists
    {
      var k :| 0 <= k < |ids| && ids[k] == a;
      assert FoundKey(index, artists, names[k]) == Some(a);
    }
  }

  /** Resolution survives any change to the artists that keeps their keys. */
  lemma ResolvedAfter(index: map<string, ArtistKey>, artists0: map<ArtistKey, Artist>,
                      artists: map<ArtistKey, Artist>, names: seq<string>, ids: seq<ArtistKey>)
    requires artists.Keys == artists0.Keys && |ids| == |names|
    requires forall k :: 0 <= k < |names| ==> FoundKey(index, artists0, names[k]) == Some(ids[k])
    ensures forall k :: 0 <= k < |names| ==> FoundKey(index, artists, names[k]) == Some(ids[k])
  {
    forall k | 0 <= k < |names|
      ensures FoundKey(index, artists, names[k]) == Some(ids[k])
    {
      FoundKeySameArtists(index, artists0, artists, names[k]);
    }
  }

  /** Every credited artist holds the song. */
  lemma PushSongReachesAll(artists: map<ArtistKey, Artist>, credited: seq<ArtistKey>, key: SongKey)
    requires forall a :: a in credited ==> a in artists
    ensures forall a :: a in credited ==> key in PushSong(artists, credited, key)[a].songs
  {
    PushSongSpec(artists, credited, key);
    forall a | a in credited
      ensures key in PushSong(artists, credited, key)[a].songs
    {
      var c := Copies(key, multiset(credited)[a]);
      assert c[|c| - 1] == key;
    }
  }

  /** The primary then the secondary artists of a metadata record, resolved in turn. */
  method ResolveCredits(db: MusicDB, names: seq<string>, more: seq<string>)
    returns (artistIds: seq<ArtistKey>, secondaryIds: seq<ArtistKey>)
    requires db.Valid()
    modifies db`artists, db`artistNameIndex, db`nextArtistKey
    ensures db.Valid()
    ensures |artistIds| == |names| && |secondaryIds| == |more|
    ensures forall k :: 0 <= k < |names| ==> FoundKey(db.artistNameIndex, db.artists, names[k]) == Some(artistIds[k])
    ensures forall k :: 0 <= k < |more| ==> FoundKey(db.artistNameIndex, db.artists, more[k]) == Some(secondaryIds[k])
    ensures ArtistsAdded(old(db.artists), db.artists, artistIds + secondaryIds)
    ensures forall k :: 0 <= k < |names + more| ==>
      FoundKey(db.artistNameIndex, db.artists, (names + more)[k]) == Some((artistIds + secondaryIds)[k])
  {
    ghost var artists0 := db.artists;
    artistIds := ResolveArtists(db, names);
    ghost var artists1 := db.artists;
    secondaryIds := ResolveArtists(db, more);
    ArtistsAddedTwice(artists0, artists1, db.artists, artistIds, secondaryIds);
    forall k | 0 <= k < |names + more|
      ensures FoundKey(db.artistNameIndex, db.artists, (names + more)[k]) == Some((artistIds + secondaryIds)[k])
    {
      if k >= |names| {
        assert (names + more)[k] == more[k - |names|];
        assert (artistIds + secondaryIds)[k] == secondaryIds[k - |names|];
      } else {
        assert (names + more)[k] == names[k];
        assert (artistIds + secondaryIds)[k] == artistIds[k];
      }
    }
  }

  lemma PermutedMembers(p: seq<ArtistKey>, q: seq<ArtistKey>, c: seq<ArtistKey>)
    requires multiset(p + q) == multiset(c)
    ensures forall a :: a in p ==> a in c
    ensures forall a :: a in q ==> a in c
  {
    forall a | a in p || a in q
      ensures a in c
    {
      assert a in multiset(p + q);
    }
  }

  /** Where `getOrNewAlbum` files a song, and the songs and albums it leaves behind. */
  datatype Filing = Filing(albumKey: AlbumKey, primary: seq<ArtistKey>, secondary: seq<ArtistKey>,
                           songs: map<SongKey, Song>, albums: map<AlbumKey, Album>)

  /**
   * `getOrNewAlbum` as one transition: the first album listed under the title
   * whose checks match, joined as its verdict says, or else a new album under
   * the next album key. The song keeps its artist lists except after a partial
   * overlap, which moves the artists outside the album's list to the secondary
   * list.
   */
  ghost function Filed(songs: map<SongKey, Song>, albums: map<AlbumKey, Album>, shared: map<AlbumKey, SongKey>,
                       titleIndex: map<string, seq<AlbumKey>>, nextAlbum: nat, title: string, year: int,
                       artists: seq<ArtistKey>, secondaryArtists: seq<ArtistKey>, vatype: VAType): Filing
  {
    match FirstMatch(albums, songs, Candidates(titleIndex, title), title, year, artists, vatype)
    case None =>
      var key := MakeKey(AlbumPrefix, nextAlbum);
      Filing(key, artists, secondaryArtists, songs, albums[key := FreshAlbum(key, title, year, artists, vatype)])
    case Some(k) =>
      match CandidateVerdict(albums, songs, k, title, year, artists, vatype)
      case NoOverlap =>
        Filing(k, artists, secondaryArtists, songs, albums[k := albums[k].(vatype := Va, primaryArtists := [])])
      case Overlap(common) =>
        var songs' :=
          if NeedsDemotion(albums[k].primaryArtists, common) then DemoteSongsIn(songs, albums[k].songs, common)
          else songs;
        var albums' := if NeedsDemotion(albums[k].primaryArtists, common) then FollowShared(albums, shared, songs') else albums;
        Filing(k, Kept(artists, common), secondaryArtists + Demoted(artists, common), songs', albums')
      case _ => Filing(k, artists, secondaryArtists, songs, albums)
  }

  /** The artists after `getOrNewAlbum`: only a match on the same artists adds the album to theirs. */
  ghost function ArtistsFiled(songs: map<SongKey, Song>, albums: map<AlbumKey, Album>, artistMap: map<ArtistKey, Artist>,
                              titleIndex: map<string, seq<AlbumKey>>, title: string, year: int,
                              artists: seq<ArtistKey>, vatype: VAType): (r: map<ArtistKey, Artist>)
    ensures r.Keys == artistMap.Keys
    ensures forall a :: a in artistMap ==> r[a].(albums := artistMap[a].albums) == artistMap[a]
    ensures forall a :: a in artistMap && a !in artists ==> r[a] == artistMap[a]
  {
    match FirstMatch(albums, songs, Candidates(titleIndex, title), title, year, artists, vatype)
    case Some(k) =>
      if CandidateVerdict(albums, songs, k, title, year, artists, vatype) == SameArtists
      then AddAlbumTo(artistMap, artists, k) else artistMap
    case None => artistMap
  }

  /** Filing a song neither loses nor invents any of its credited artists. */
  lemma FiledKeepsCredits(songs: map<SongKey, Song>, albums: map<AlbumKey, Album>, shared: map<AlbumKey, SongKey>,
                          titleIndex: map<string, seq<AlbumKey>>, nextAlbum: nat, title: string, year: int,
                          artists: seq<ArtistKey>, secondaryArtists: seq<ArtistKey>, vatype: VAType)
    ensures var f := Filed(songs, albums, shared, titleIndex, nextAlbum, title, year, artists, secondaryArtists, vatype);
      multiset(f.primary + f.secondary) == multiset(artists + secondaryArtists)
  {
    match FirstMatch(albums, songs, Candidates(titleIndex, title), title, year, artists, vatype)
    case Some(k) =>
      match CandidateVerdict(albums, songs, k, title, year, artists, vatype) {
        case Overlap(common) => DemotionPermutes(artists, common);
        case _ =>
      }
    case None =>
  }

  /** What `GetOrNewAlbum` promises is the transition `Filed` and `ArtistsFiled` describe. */
  lemma JoinedIsFiled(songs0: map<SongKey, Song>, albums0: map<AlbumKey, Album>, artists0: map<ArtistKey, Artist>,
                      shared0: map<AlbumKey, SongKey>, titleIndex0: map<string, seq<AlbumKey>>, nextAlbum0: nat,
                      songs: map<SongKey, Song>, albums: map<AlbumKey, Album>, artistMap: map<ArtistKey, Artist>,
                      shared: map<AlbumKey, SongKey>, title: string, year: int,
                      artists: seq<ArtistKey>, secondaryArtists: seq<ArtistKey>, vatype: VAType,
                      albumKey: AlbumKey, primaryOut: seq<ArtistKey>, secondaryOut: seq<ArtistKey>)
    requires var cands := Candidates(titleIndex0, title);
      match FirstMatch(albums0, songs0, cands, title, year, artists, vatype)
      case None =>
        && albumKey == MakeKey(AlbumPrefix, nextAlbum0)
        && albums == albums0[albumKey := FreshAlbum(albumKey, title, year, artists, vatype)]
        && songs == songs0 && artistMap == artists0
        && primaryOut == artists && secondaryOut == secondaryArtists
      case Some(k) =>
        && albumKey == k
        && Joined(songs0, albums0, artists0, shared0, songs, albums, artistMap, shared, k,
                  CandidateVerdict(albums0, songs0, k, title, year, artists, vatype),
                  artists, secondaryArtists, primaryOut, secondaryOut)
    ensures Filing(albumKey, primaryOut, secondaryOut, songs, albums)
         == Filed(songs0, albums0, shared0, titleIndex0, nextAlbum0, title, year, artists, secondaryArtists, vatype)
    ensures artistMap == ArtistsFiled(songs0, albums0, artists0, titleIndex0, title, year, artists, vatype)
  {
    match FirstMatch(albums0, songs0, Candidates(titleIndex0, title), title, year, artists, vatype)
    case None =>
    case Some(k) =>
      match CandidateVerdict(albums0, songs0, k, title, year, artists, vatype) {
        case Overlap(common) =>
          assert shared == shared0;
        case _ =>
      }
  }

  /** The artists after a song credited to `ids` is added: the old ones stay, the
      new ones are credited, each gains the song's key at the end of its songs once
      per credit, and an old artist not credited is left as it was. */
  ghost predicate ArtistsCredited(artists0: map<ArtistKey, Artist>, artists: map<ArtistKey, Artist>,
                                  ids: seq<ArtistKey>, key: SongKey)
  {
    && artists0.Keys <= artists.Keys
    && (forall a :: a in artists && a !in artists0 ==> a in ids)
    && (forall a :: a in artists ==>
          artists[a].songs == (if a in artists0 then artists0[a].songs else []) + Copies(key, multiset(ids)[a]))
    && (forall a :: a in artists0 && a !in ids ==> artists[a] == artists0[a])
  }

  /** Resolving the credits, filing the album (which changes album lists only, and only
      of the primary artists) and pushing the key credits the artists as `ArtistsCredited` says. */
  lemma CreditedAfterFiling(artists0: map<ArtistKey, Artist>, resolved: map<ArtistKey, Artist>,
                            filed: map<ArtistKey, Artist>, primary: seq<ArtistKey>, ids: seq<ArtistKey>, key: SongKey)
    requires ArtistsAdded(artists0, resolved, ids)
    requires filed.Keys == resolved.Keys
    requires forall a :: a in resolved ==> filed[a].(albums := resolved[a].albums) == resolved[a]
    requires forall a :: a in resolved && a !in primary ==> filed[a] == resolved[a]
    requires forall a :: a in primary ==> a in ids
    requires forall a :: a in ids ==> a in filed
    ensures ArtistsCredited(artists0, PushSong(filed, ids, key), ids, key)
  {
    PushSongSpec(filed, ids, key);
    var r := PushSong(filed, ids, key);
    forall a | a in artists0 && a !in ids
      ensures r[a] == artists0[a]
    {
      assert multiset(ids)[a] == 0;
      assert filed[a].songs + Copies(key, 0) == filed[a].songs;
    }
  }

  /** The `getOrNewAlbum` and `getSongKey` calls of `AddSongToDatabase`, with what
      the rest of it relies on. `shares` tells whether the album is new and normal,
      so that its primary list is the very list the song will hold. */
  method FileUnderAlbum(db: MusicDB, md: FullMetadata, artistIds: seq<ArtistKey>, secondaryIds: seq<ArtistKey>)
    returns (albumKey: AlbumKey, primaryOut: seq<ArtistKey>, secondaryOut: seq<ArtistKey>, shares: bool, key: SongKey)
    requires db.Valid()
    modifies db`songs, db`albums, db`artists, db`sharedPrimary, db`albumTitleIndex, db`nextAlbumKey, db`nextSongKey
    ensures db.Valid()
    ensures albumKey in db.albums
    ensures Normalized(db.albums[albumKey].title) == Normalized(md.album)
    ensures db.albums[albumKey].year == OrZero(md.year)
    ensures multiset(primaryOut + secondaryOut) == multiset(artistIds + secondaryIds)
    ensures shares ==> db.albums[albumKey].primaryArtists == primaryOut
    ensures db.artists.Keys == old(db.artists).Keys
    ensures db.songs.Keys == old(db.songs).Keys
    ensures key == SongKeyFor(old(db.existingKeys), old(db.nextSongKey), md.originalPath)
    ensures Filing(albumKey, primaryOut, secondaryOut, db.songs, db.albums)
         == Filed(old(db.songs), old(db.albums), old(db.sharedPrimary), old(db.albumTitleIndex), old(db.nextAlbumKey),
                  md.album, OrZero(md.year), artistIds, secondaryIds, md.vaType)
    ensures db.artists == ArtistsFiled(old(db.songs), old(db.albums), old(db.artists), old(db.albumTitleIndex),
                                       md.album, OrZero(md.year), artistIds, md.vaType)
  {
    // The key does not depend on the album, so taking it first changes nothing.
    key := GetSongKey(db, md.originalPath);
    var albumsBefore := db.albums;
    albumKey, primaryOut, secondaryOut :=
      GetOrNewAlbum(db, md.album, OrZero(md.year), artistIds, secondaryIds, md.vaType);
    JoinedIsFiled(old(db.songs), old(db.albums), old(db.artists), old(db.sharedPrimary), old(db.albumTitleIndex),
                  old(db.nextAlbumKey), db.songs, db.albums, db.artists, db.sharedPrimary,
                  md.album, OrZero(md.year), artistIds, secondaryIds, md.vaType, albumKey, primaryOut, secondaryOut);
    shares := albumKey !in albumsBefore && md.vaType == NotVA;
    assert shares ==> db.albums[albumKey].primaryArtists == primaryOut by {
      if shares {
        assert db.albums[albumKey] == FreshAlbum(albumKey, md.album, OrZero(md.year), artistIds, md.vaType);
      }
    }
  }

  /** The rest of `AddSongToDatabase` once the artists are resolved: the album, the
      song's key, and the song recorded in the album, the artists and the songs map. */
  method AddResolvedSong(md: FullMetadata, db: MusicDB, artistIds: seq<ArtistKey>, secondaryIds: seq<ArtistKey>)
    requires db.Valid()
    requires forall a :: a in artistIds + secondaryIds ==> a in db.artists
    modifies db`songs, db`albums, db`artists, db`sharedPrimary, db`albumTitleIndex, db`nextAlbumKey, db`nextSongKey
    ensures db.Valid()
    ensures var key := SongKeyFor(old(db.existingKeys), old(db.nextSongKey), md.originalPath);
      && db.songs.Keys == old(db.songs).Keys + {key}
      && var song := db.songs[key];
      && song.path == md.originalPath && song.title == md.title && song.key == key
      && song.track == PackTrack(md.track, md.disk) && song.variations == md.variations
      && song.albumId in db.albums
      && Normalized(db.albums[song.albumId].title) == Normalized(md.album)
      && db.albums[song.albumId].year == OrZero(md.year)
      && key in db.albums[song.albumId].songs
      && (forall a :: a in artistIds + secondaryIds ==> a in db.artists && key in db.artists[a].songs)
      && multiset(song.artistIds + song.secondaryIds) == multiset(artistIds + secondaryIds)
    ensures db.artists.Keys == old(db.artists).Keys
    ensures var f := Filed(old(db.songs), old(db.albums), old(db.sharedPrimary), old(db.albumTitleIndex),
                           old(db.nextAlbumKey), md.album, OrZero(md.year), artistIds, secondaryIds, md.vaType);
      var key := SongKeyFor(old(db.existingKeys), old(db.nextSongKey), md.originalPath);
      && f.albumKey in f.albums
      && db.songs == f.songs[key := Song(md.originalPath, f.primary, f.secondary, f.albumKey,
                                         PackTrack(md.track, md.disk), md.title, key, md.variations)]
      && db.albums == f.albums[f.albumKey := f.albums[f.albumKey].(songs := f.albums[f.albumKey].songs + [key])]
      && db.artists == PushSong(ArtistsFiled(old(db.songs), old(db.albums), old(db.artists), old(db.albumTitleIndex),
                                             md.album, OrZero(md.year), artistIds, md.vaType),
                                artistIds + secondaryIds, key)
  {
    var albumKey, primaryOut, secondaryOut, shares, key := FileUnderAlbum(db, md, artistIds, secondaryIds);
    var song := Song(md.originalPath, primaryOut, secondaryOut, albumKey,
                     PackTrack(md.track, md.disk), md.title, key, md.variations);
    var credited := artistIds + secondaryIds;
    PermutedMembers(primaryOut, secondaryOut, credited);
    label BeforeInsert:
    InsertSong(db, song, credited, shares);
    PushSongReachesAll(old@BeforeInsert(db.artists), credited, key);
  }

  /** `AddSongToDatabase`: resolve the song's artists and album, take its key,
      and record it everywhere it belongs. */
  method AddSongToDatabase(md: FullMetadata, db: MusicDB)
    requires db.Valid()
    modifies db`songs, db`albums, db`artists, db`sharedPrimary, db`albumTitleIndex, db`artistNameIndex
    modifies db`nextSongKey, db`nextAlbumKey, db`nextArtistKey
    ensures db.Valid()
    ensures var key := SongKeyFor(old(db.existingKeys), old(db.nextSongKey), md.originalPath);
      && db.songs.Keys == old(db.songs).Keys + {key}
      && var song := db.songs[key];
      && song.path == md.originalPath && song.title == md.title && song.key == key
      && song.track == PackTrack(md.track, md.disk) && song.variations == md.variations
      && song.albumId in db.albums
      && Normalized(db.albums[song.albumId].title) == Normalized(md.album)
      && db.albums[song.albumId].year == OrZero(md.year)
      && key in db.albums[song.albumId].songs
      && var credited := ArtistNames(md.artist) + md.moreArtists.GetOr([]);
         var ids := ResolvedKeys(db.artistNameIndex, db.artists, credited);
         && (forall n :: n in credited ==> FoundKey(db.artistNameIndex, db.artists, n).Some?)
         && (forall a :: a in ids ==> a in db.artists && key in db.artists[a].songs)
         && multiset(song.artistIds + song.secondaryIds) == multiset(ids)
         && ArtistsCredited(old(db.artists), db.artists, ids, key)
    ensures var primary := ResolvedKeys(db.artistNameIndex, db.artists, ArtistNames(md.artist));
      var secondary := ResolvedKeys(db.artistNameIndex, db.artists, md.moreArtists.GetOr([]));
      var f := Filed(old(db.songs), old(db.albums), old(db.sharedPrimary), old(db.albumTitleIndex),
                     old(db.nextAlbumKey), md.album, OrZero(md.year), primary, secondary, md.vaType);
      var key := SongKeyFor(old(db.existingKeys), old(db.nextSongKey), md.originalPath);
      && f.albumKey in f.albums
      && db.songs == f.songs[key := Song(md.originalPath, f.primary, f.secondary, f.albumKey,
                                         PackTrack(md.track, md.disk), md.title, key, md.variations)]
      && db.albums == f.albums[f.albumKey := f.albums[f.albumKey].(songs := f.albums[f.albumKey].songs + [key])]
  {
    var names := ArtistNames(md.artist);
    var more := md.moreArtists.GetOr([]);
    var artistIds, secondaryIds := ResolveCredits(db, names, more);
    ghost var credited, ids := names + more, artistIds + secondaryIds;
    ghost var index, artists0 := db.artistNameIndex, db.artists;
    ResolvedAll(index, artists0, credited, ids);
    ghost var filed := ArtistsFiled(db.songs, db.albums, artists0, db.albumTitleIndex, md.album, OrZero(md.year),
                                    artistIds, md.vaType);
    AddResolvedSong(md, db, artistIds, secondaryIds);
    CreditedAfterFiling(old(db.artists), artists0, filed, artistIds, ids,
                        SongKeyFor(old(db.existingKeys), old(db.nextSongKey), md.originalPath));
    ResolvedAfter(index, artists0, db.artists, credited, ids);
    ResolvedAll(db.artistNameIndex, db.artists, credited, ids);
    ResolvedAfter(index, artists0, db.artists, names, artistIds);
    ResolvedAll(db.artistNameIndex, db.artists, names, artistIds);
    ResolvedAfter(index, artists0, db.artists, more, secondaryIds);
    ResolvedAll(db.artistNameIndex, db.artists, more, secondaryIds);
  }
}
