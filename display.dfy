/**
 * What the renderer derives from the library for display (ReadOnly.ts):
 * records by key, the artist line of a song or album, the album and song
 * summaries, and whether the current playlist can be saved. A selector that
 * throws is an `Err` here.
 */
module Display {
  import opened Wrappers
  import opened Strings
  import opened MusicTypes

  /** The library the renderer mirrors from the main process. */
  datatype Library = Library(
    songs: map<SongKey, Song>,
    albums: map<AlbumKey, Album>,
    artists: map<ArtistKey, Artist>)

  /** `songByKeySel`: the song, or an error naming the key. */
  function SongByKey(lib: Library, sk: SongKey): (r: Result<Song>)
    ensures r.Ok? <==> sk in lib.songs
    ensures r.Ok? ==> r.value == lib.songs[sk]
  {
    if sk in lib.songs then Ok(lib.songs[sk]) else Err(sk)
  }

  /** `albumByKeySel`. */
  function AlbumByKey(lib: Library, ak: AlbumKey): (r: Result<Album>)
    ensures r.Ok? <==> ak in lib.albums
    ensures r.Ok? ==> r.value == lib.albums[ak]
  {
    if ak in lib.albums then Ok(lib.albums[ak]) else Err(ak)
  }

  /** `maybeAlbumByKeySel`: nothing for the empty key, otherwise as `albumByKeySel`. */
  function MaybeAlbumByKey(lib: Library, ak: AlbumKey): (r: Result<Option<Album>>)
    ensures ak == "" ==> r == Ok(None)
    ensures ak != "" ==> (r.Ok? <==> ak in lib.albums)
    ensures ak != "" && r.Ok? ==> r.value == Some(lib.albums[ak])
  {
    if |ak| == 0 then Ok(None)
    else
      match AlbumByKey(lib, ak)
      case Err(m) => Err(m)
      case Ok(a) => Ok(Some(a))
  }

  /** `artistByKeySel`. */
  function ArtistByKey(lib: Library, ak: ArtistKey): (r: Result<Artist>)
    ensures r.Ok? <==> ak in lib.artists
    ensures r.Ok? ==> r.value == lib.artists[ak]
  {
    if ak in lib.artists then Ok(lib.artists[ak]) else Err(ak)
  }

  /** `albumKeyForSongKeySel`: "" for the empty key, otherwise the album of the song. */
  function AlbumKeyForSongKey(lib: Library, sk: SongKey): (r: Result<AlbumKey>)
    ensures sk == "" ==> r == Ok("")
    ensures sk != "" ==> (r.Ok? <==> sk in lib.songs)
    ensures sk != "" && r.Ok? ==> r.value == lib.songs[sk].albumId
  {
    if |sk| > 0 then
      match SongByKey(lib, sk)
      case Err(m) => Err(m)
      case Ok(song) => Ok(song.albumId)
    else Ok("")
  }

  /** `curSongsSel`: the songs of the current list, in order; an error for the first key not in the library. */
  function CurSongs(lib: Library, list: seq<SongKey>): (r: Result<seq<Song>>)
    ensures r.Ok? <==> forall k :: k in list ==> k in lib.songs
    ensures r.Ok? ==> |r.value| == |list| && forall i :: 0 <= i < |list| ==> r.value[i] == lib.songs[list[i]]
    decreases |list|
  {
    if |list| == 0 then Ok([])
    else
      var init := CurSongs(lib, list[..|list| - 1]);
      var k := list[|list| - 1];
      assert forall x :: x in list <==> x in list[..|list| - 1] || x == k;
      if init.Err? then init
      else match SongByKey(lib, k)
        case Err(m) => Err(m)
        case Ok(song) => Ok(init.value + [song])
  }

  /** `maybeArtistByKeySel`. */
  function MaybeArtistByKey(lib: Library, ak: ArtistKey): (r: Result<Option<Artist>>)
    ensures ak == "" ==> r == Ok(None)
    ensures ak != "" ==> (r.Ok? <==> ak in lib.artists)
    ensures ak != "" && r.Ok? ==> r.value == Some(lib.artists[ak])
  {
    if |ak| == 0 then Ok(None)
    else
      match ArtistByKey(lib, ak)
      case Err(m) => Err(m)
      case Ok(a) => Ok(Some(a))
  }

  /** The English list "A", "A & B", "A, B & C", ... defined name by name. */
  function ListPhrase(names: seq<string>): string
    requires |names| >= 1
    decreases |names|
  {
    if |names| == 1 then names[0]
    else if |names| == 2 then names[0] + " & " + names[1]
    else names[0] + ", " + ListPhrase(names[1..])
  }

  /** `parts.join(', ')`. */
  function JoinComma(parts: seq<string>): string
    decreases |parts|
  {
    if |parts| == 0 then ""
    else if |parts| == 1 then parts[0]
    else parts[0] + ", " + JoinComma(parts[1..])
  }

  /** The artist line for at least one name is the English list of the names; for none it is " & " and `missing`. */
  lemma {:induction false} ArtistLineIsList(names: seq<string>, missing: string)
    ensures |names| >= 1 ==> ArtistLine(names, missing) == ListPhrase(names)
    ensures |names| == 0 ==> ArtistLine(names, missing) == " & " + missing
    decreases |names|
  {
    if |names| > 2 {
      ArtistLineIsList(names[1..], missing);
      assert names[1..][..|names| - 2] == names[..|names| - 1][1..];
      assert ArtistLine(names, missing) == names[0] + ", " + ArtistLine(names[1..], missing);
    }
  }

  /** The artist line of `artistStringSel` and `GetDataForSong`. */
  function ArtistLine(names: seq<string>, missing: string): string {
    if |names| == 1 then names[0]
    else JoinComma(if |names| == 0 then [] else names[..|names| - 1]) + " & " + (if |names| == 0 then missing else names[|names| - 1])
  }

  /** The non-empty names, in order. */
  function NonEmptyNames(names: seq<string>): (r: seq<string>)
    ensures forall n :: n in r <==> n in names && n != ""
    ensures forall i :: 0 <= i < |r| ==> r[i] != ""
    decreases |names|
  {
    if |names| == 0 then []
    else
      var init := NonEmptyNames(names[..|names| - 1]);
      var n := names[|names| - 1];
      assert forall x :: x in names <==> x in names[..|names| - 1] || x == n;
      if n != "" then init + [n] else init
  }

  /** The names of the artists, in order; an error for the first key not in the library. */
  function ArtistNamesOf(lib: Library, keys: seq<ArtistKey>): (r: Result<seq<string>>)
    ensures r.Ok? <==> forall k :: k in keys ==> k in lib.artists
    ensures r.Ok? ==> |r.value| == |keys| && forall i :: 0 <= i < |keys| ==> r.value[i] == lib.artists[keys[i]].name
    decreases |keys|
  {
    if |keys| == 0 then Ok([])
    else
      var init := ArtistNamesOf(lib, keys[..|keys| - 1]);
      var k := keys[|keys| - 1];
      assert forall x :: x in keys <==> x in keys[..|keys| - 1] || x == k;
      if init.Err? then init
      else if k !in lib.artists then Err(k)
      else Ok(init.value + [lib.artists[k].name])
  }

  /**
   * `artistStringSel`: an error when an artist is not in the library;
   * otherwise the artist line of the non-empty names, " & OOPS!" for none.
   */
  function ArtistString(lib: Library, keys: seq<ArtistKey>): (r: Result<string>)
    ensures r.Ok? <==> forall k :: k in keys ==> k in lib.artists
    ensures r.Ok? ==> r.value == ArtistLine(NonEmptyNames(ArtistNamesOf(lib, keys).value), "OOPS!")
  {
    match ArtistNamesOf(lib, keys)
    case Err(m) => Err(m)
    case Ok(names) => Ok(ArtistLine(NonEmptyNames(names), "OOPS!"))
  }

  /** The artist line is never empty. */
  lemma ArtistLineNonEmpty(names: seq<string>, missing: string)
    requires forall i :: 0 <= i < |names| ==> names[i] != ""
    ensures ArtistLine(names, missing) != ""
  {
    if |names| == 1 {
      assert names[0] != "";
    } else {
      assert |ArtistLine(names, missing)| >= 3;
    }
  }

  /** The artist, album and year of an album. */
  datatype AlbumData = AlbumData(artist: string, album: string, year: string)

  /** An album without primary artists: "Soundtrack", "Compilation" or "???" by its tag. */
  function VaLabel(vatype: VAType): (tag: string)
    ensures vatype == Ost ==> tag == "Soundtrack"
    ensures vatype == Va ==> tag == "Compilation"
    ensures vatype == NotVA ==> tag == "???"
  {
    match vatype
    case Ost => "Soundtrack"
    case Va => "Compilation"
    case NotVA => "???"
  }

  /** A year as shown: "" for 0, its decimal form otherwise. */
  function YearString(year: int): (s: string)
    ensures year == 0 <==> s == ""
    ensures year > 0 ==> (forall i :: 0 <= i < |s| ==> IsDigit(s[i])) && DecimalValue(s) == year
    ensures year < 0 ==> s[0] == '-' && s[1..] == NatToDecimal(-year)
  {
    if year != 0 then
      DecimalRoundTrip(if year > 0 then year else -year);
      IntToString(year)
    else ""
  }

  /**
   * `dataForAlbumSel`: all empty for the empty key; an error for an unknown
   * album or primary artist; otherwise the title, the year and the artist
   * line, or a label when the album has no primary artists.
   */
  function DataForAlbum(lib: Library, ak: AlbumKey): (r: Result<AlbumData>)
    ensures ak == "" ==> r == Ok(AlbumData("", "", ""))
    ensures ak != "" && ak !in lib.albums ==> r.Err?
    ensures ak != "" && ak in lib.albums ==>
      var a := lib.albums[ak];
      (|a.primaryArtists| == 0 ==> r == Ok(AlbumData(VaLabel(a.vatype), a.title, YearString(a.year)))) &&
      (|a.primaryArtists| > 0 ==> (r.Ok? <==> forall k :: k in a.primaryArtists ==> k in lib.artists)) &&
      (|a.primaryArtists| > 0 && r.Ok? ==> Ok(r.value.artist) == ArtistString(lib, a.primaryArtists)) &&
      (r.Ok? ==> r.value.album == a.title && r.value.year == YearString(a.year))
  {
    if ak == "" then Ok(AlbumData("", "", ""))
    else
      match AlbumByKey(lib, ak)
      case Err(m) => Err(m)
      case Ok(album) =>
        var year := YearString(album.year);
        if |album.primaryArtists| > 0 then
          match ArtistString(lib, album.primaryArtists)
          case Err(m) => Err(m)
          case Ok(name) => Ok(AlbumData(name, album.title, year))
        else Ok(AlbumData(VaLabel(album.vatype), album.title, year))
  }

  /** For an album with primary artists, the artist is the English list of their non-empty names. */
  lemma AlbumArtistIsList(lib: Library, ak: AlbumKey)
    requires ak in lib.albums && ak != "" && |lib.albums[ak].primaryArtists| > 0
    requires forall k :: k in lib.albums[ak].primaryArtists ==> k in lib.artists && lib.artists[k].name != ""
    ensures DataForAlbum(lib, ak).Ok?
    ensures DataForAlbum(lib, ak).value.artist == ListPhrase(ArtistNamesOf(lib, lib.albums[ak].primaryArtists).value)
  {
    var keys := lib.albums[ak].primaryArtists;
    var names := ArtistNamesOf(lib, keys).value;
    forall i | 0 <= i < |names| ensures names[i] != "" {
      assert keys[i] in keys;
    }
    NoEmptyNames(names);
    ArtistLineIsList(names, "OOPS!");
  }

  /**
   * For an album whose primary artists are all in the library, the artist is
   * the English list of their non-empty names, or " & OOPS!" when every name is empty.
   */
  lemma AlbumArtistLine(lib: Library, ak: AlbumKey)
    requires ak != "" && ak in lib.albums && |lib.albums[ak].primaryArtists| > 0
    requires forall k :: k in lib.albums[ak].primaryArtists ==> k in lib.artists
    ensures var named := NonEmptyNames(ArtistNamesOf(lib, lib.albums[ak].primaryArtists).value);
      && DataForAlbum(lib, ak).Ok?
      && (|named| >= 1 ==> DataForAlbum(lib, ak).value.artist == ListPhrase(named))
      && (|named| == 0 ==> DataForAlbum(lib, ak).value.artist == " & OOPS!")
  {
    ArtistLineIsList(NonEmptyNames(ArtistNamesOf(lib, lib.albums[ak].primaryArtists).value), "OOPS!");
  }

  /** Dropping empty names from names that are all non-empty changes nothing. */
  lemma {:induction false} NoEmptyNames(names: seq<string>)
    requires forall i :: 0 <= i < |names| ==> names[i] != ""
    ensures NonEmptyNames(names) == names
    decreases |names|
  {
    if |names| > 0 {
      NoEmptyNames(names[..|names| - 1]);
      assert names[..|names| - 1] + [names[|names| - 1]] == names;
    }
  }

  /** The summary of a song shown in lists. */
  datatype SongData = SongData(title: string, track: int, artist: string, album: string, year: string)

  /**
   * `dataForSongSel`: empty fields for the empty key; an error for an
   * unknown song, or from its album's data; otherwise the song's title and
   * track with its album's data.
   */
  function DataForSong(lib: Library, sk: SongKey): (r: Result<SongData>)
    ensures sk == "" ==> r == Ok(SongData("", 0, "", "", ""))
    ensures sk != "" && sk !in lib.songs ==> r.Err?
    ensures sk != "" && sk in lib.songs ==>
      var s := lib.songs[sk];
      var a := DataForAlbum(lib, s.albumId);
      (r.Ok? <==> a.Ok?) &&
      (r.Ok? ==> r.value == SongData(s.title, s.track, a.value.artist, a.value.album, a.value.year))
  {
    if |sk| == 0 then Ok(SongData("", 0, "", "", ""))
    else
      match SongByKey(lib, sk)
      case Err(m) => Err(m)
      case Ok(song) =>
        match DataForAlbum(lib, song.albumId)
        case Err(m) => Err(m)
        case Ok(ad) => Ok(SongData(song.title, song.track, ad.artist, ad.album, ad.year))
  }

  /**
   * `saveableSel`: the active list is a playlist (`isPlaylist`, whose
   * definition is not part of this model) and the current songs differ,
   * as sets, from its saved list.
   */
  function Saveable(isPlaylist: bool, saved: seq<SongKey>, current: seq<SongKey>): (r: bool)
    ensures r <==> isPlaylist && exists k :: (k in saved && k !in current) || (k in current && k !in saved)
  {
    var stored := set k | k in saved;
    var now := set k | k in current;
    assert stored != now ==> exists k :: k in stored - now || k in now - stored;
    assert (exists k :: (k in saved && k !in current) || (k in current && k !in saved)) ==> stored != now by {
      if exists k :: (k in saved && k !in current) || (k in current && k !in saved) {
        var k :| (k in saved && k !in current) || (k in current && k !in saved);
        assert k in stored - now || k in now - stored;
      }
    }
    isPlaylist && stored != now
  }
}
