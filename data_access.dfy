/**
 * The older renderer's song summary (DataAccess.js): title, track, artist
 * line and album title of a song, read from a store whose song, album and
 * artist maps may each be absent. Unlike the selectors, nothing here fails:
 * what cannot be found is left as "-" or dropped.
 */
module DataAccess {
  import opened Wrappers
  import opened MusicTypes
  import Display

  /** The store's `Songs`, `Albums` and `Artists` entries, each possibly missing. */
  datatype Store = Store(
    songs: Option<map<SongKey, Song>>,
    albums: Option<map<AlbumKey, Album>>,
    artists: Option<map<ArtistKey, Artist>>)

  datatype SongInfo = SongInfo(title: string, track: int, artist: string, album: string)

  /** The placeholder summary. */
  const Unknown := SongInfo("-", 0, "-", "-")

  /** The names of the artists found in the map, in order; an unknown artist gives "". */
  function NamesOrEmpty(artists: map<ArtistKey, Artist>, keys: seq<ArtistKey>): (names: seq<string>)
    ensures |names| == |keys|
    ensures forall i :: 0 <= i < |keys| ==> names[i] == (if keys[i] in artists then artists[keys[i]].name else "")
  {
    seq(|keys|, i requires 0 <= i < |keys| => if keys[i] in artists then artists[keys[i]].name else "")
  }

  /**
   * `GetDataForSong`: the placeholder when there is no song map or the song
   * is not in it; otherwise its title and track, then its album's title when
   * the album is known, then (only when there is an artist map) the artist
   * line of the non-empty names of its artists, " & undefined" for none.
   */
  function GetDataForSong(store: Store, sk: SongKey): (r: SongInfo)
    ensures (store.songs.None? || sk !in store.songs.value) ==> r == Unknown
    ensures store.songs.Some? && sk in store.songs.value ==>
      var song := store.songs.value[sk];
      r.title == song.title && r.track == song.track &&
      r.album == (if store.albums.Some? && song.albumId in store.albums.value
                  then store.albums.value[song.albumId].title else "-") &&
      (store.albums.None? || store.artists.None? ==> r.artist == "-") &&
      (store.albums.Some? && store.artists.Some? ==>
        r.artist == Display.ArtistLine(Display.NonEmptyNames(NamesOrEmpty(store.artists.value, song.artistIds)), "undefined"))
  {
    if store.songs.None? || sk !in store.songs.value then Unknown
    else
      var song := store.songs.value[sk];
      var res := Unknown.(title := song.title, track := song.track);
      if store.albums.None? then res
      else
        var albums := store.albums.value;
        var res := if song.albumId in albums then res.(album := albums[song.albumId].title) else res;
        if store.artists.None? then res
        else
          var names := Display.NonEmptyNames(NamesOrEmpty(store.artists.value, song.artistIds));
          res.(artist := Display.ArtistLine(names, "undefined"))
  }

  /**
   * With every map present and at least one named artist, the artist is the
   * English list of the known names; with none it is " & undefined".
   */
  lemma ArtistOfSong(store: Store, sk: SongKey)
    requires store.songs.Some? && sk in store.songs.value
    requires store.albums.Some? && store.artists.Some?
    ensures var names := Display.NonEmptyNames(NamesOrEmpty(store.artists.value, store.songs.value[sk].artistIds));
      (|names| >= 1 ==> GetDataForSong(store, sk).artist == Display.ListPhrase(names)) &&
      (|names| == 0 ==> GetDataForSong(store, sk).artist == " & undefined")
  {
    var names := Display.NonEmptyNames(NamesOrEmpty(store.artists.value, store.songs.value[sk].artistIds));
    Display.ArtistLineIsList(names, "undefined");
  }
}
