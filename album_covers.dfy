/**
 * Choosing album covers from the pictures the folder scan found
 * (`HandleAlbumCovers` in MusicScanner.ts): the pictures are grouped by
 * directory, and every album with a song in a directory gets that
 * directory's largest picture. File sizes, which the program asks the file
 * system for, are an input map.
 */
module AlbumCovers {
  import opened Wrappers
  import opened MusicTypes
  import opened Paths
  import opened MusicDatabase

  predicate NoDup(s: seq<string>) {
    forall i, j :: 0 <= i < j < |s| ==> s[i] != s[j]
  }

  // ---- Pictures grouped by directory ----

  /** Directories in order of first appearance, and each one's pictures in order of first appearance. */
  datatype PicGroups = PicGroups(dirs: seq<string>, byDir: map<string, seq<string>>)

  /** Adds one picture: a new directory is appended, a picture already listed is not added again. */
  function AddPic(g: PicGroups, p: string): PicGroups {
    var d := Dirname(p);
    if d in g.byDir then
      if p in g.byDir[d] then g else g.(byDir := g.byDir[d := g.byDir[d] + [p]])
    else PicGroups(g.dirs + [d], g.byDir[d := [p]])
  }

  /** What a grouping holds: the listed directories are exactly those of the pictures, each listed once, each with exactly its own pictures, once each. */
  ghost predicate GroupsPics(g: PicGroups, pics: seq<string>) {
    (forall d :: d in g.byDir <==> d in g.dirs) &&
    NoDup(g.dirs) &&
    (forall p :: p in pics ==> Dirname(p) in g.byDir) &&
    (forall d :: d in g.byDir ==> NoDup(g.byDir[d])) &&
    (forall d, x :: d in g.byDir && x in g.byDir[d] ==> x in pics && Dirname(x) == d) &&
    (forall x :: x in pics ==> x in g.byDir[Dirname(x)])
  }

  /** The grouping after all of `pics`, in order. */
  function Group(pics: seq<string>): (g: PicGroups)
    ensures GroupsPics(g, pics)
    decreases |pics|
  {
    if |pics| == 0 then PicGroups([], map[])
    else
      var init, p := pics[..|pics| - 1], pics[|pics| - 1];
      assert pics == init + [p];
      AddPicSpec(Group(init), init, p);
      AddPic(Group(init), p)
  }

  lemma AddPicSpec(g: PicGroups, init: seq<string>, p: string)
    requires GroupsPics(g, init)
    ensures GroupsPics(AddPic(g, p), init + [p])
  {
    var d := Dirname(p);
    var h := AddPic(g, p);
    var pics := init + [p];
    assert forall x :: x in pics <==> x in init || x == p;
    if d !in g.byDir {
      assert d !in g.dirs;
      assert h.byDir == g.byDir[d := [p]] && h.dirs == g.dirs + [d];
      assert NoDup(h.dirs);
    } else if p in g.byDir[d] {
      assert h == g;
    } else {
      assert h.dirs == g.dirs && h.byDir == g.byDir[d := g.byDir[d] + [p]];
      assert NoDup(g.byDir[d] + [p]);
    }
  }

  /** The first loop: groups the pictures by directory. */
  method GroupByDirectory(pics: seq<string>) returns (g: PicGroups)
    ensures g == Group(pics)
  {
    g := PicGroups([], map[]);
    for i := 0 to |pics|
      invariant g == Group(pics[..i])
    {
      assert pics[..i + 1][..i] == pics[..i];
      g := AddPic(g, pics[i]);
    }
    assert pics[..|pics|] == pics;
  }

  // ---- Albums by directory ----

  /** The directories that hold a song of the album. */
  function SongDirs(album: Album, songs: map<SongKey, Song>): set<string> {
    set s | s in album.songs && s in songs :: Dirname(songs[s].path)
  }

  /** The albums among `keys` with a song in `dir`. */
  function AlbumsIn(albums: map<AlbumKey, Album>, songs: map<SongKey, Song>, keys: set<AlbumKey>, dir: string)
    : set<AlbumKey>
  {
    set a | a in keys && a in albums && dir in SongDirs(albums[a], songs)
  }

  /** The directories among the listed song keys (the inner loop over an album's songs). */
  method DirsOfSongs(keys: seq<SongKey>, songs: map<SongKey, Song>) returns (dirs: set<string>)
    ensures dirs == set s | s in keys && s in songs :: Dirname(songs[s].path)
  {
    dirs := {};
    for j := 0 to |keys|
      invariant dirs == set s | s in keys[..j] && s in songs :: Dirname(songs[s].path)
    {
      assert keys[..j + 1] == keys[..j] + [keys[j]];
      if keys[j] in songs {
        dirs := dirs + {Dirname(songs[keys[j]].path)};
      }
    }
    assert keys[..|keys|] == keys;
  }

  /** `dirsToAlbums` as a total function: missing directories have no albums. */
  function AlbumsAt(m: map<string, set<AlbumKey>>, dir: string): set<AlbumKey> {
    if dir in m then m[dir] else {}
  }

  /**
   * The second loop: for every album and every directory holding one of its
   * songs, records the album under the directory if the directory has
   * pictures. The albums are visited in some order; the result does not
   * depend on it.
   */
  method AlbumsByDirectory(albums: map<AlbumKey, Album>, songs: map<SongKey, Song>, picDirs: set<string>)
    returns (m: map<string, set<AlbumKey>>)
    ensures forall d :: d in m ==> d in picDirs && m[d] != {}
    ensures forall d :: d in picDirs ==> AlbumsAt(m, d) == AlbumsIn(albums, songs, albums.Keys, d)
  {
    m := map[];
    var left := albums.Keys;
    ghost var done: set<AlbumKey> := {};
    while left != {}
      invariant left <= albums.Keys && done == albums.Keys - left
      invariant forall d :: d in m ==> d in picDirs && m[d] != {}
      invariant forall d :: d in picDirs ==> AlbumsAt(m, d) == AlbumsIn(albums, songs, done, d)
      decreases left
    {
      var a :| a in left;
      var ds := DirsOfSongs(albums[a].songs, songs);
      var m' := map d | d in m.Keys + (ds * picDirs) :: AlbumsAt(m, d) + (if d in ds then {a} else {});
      forall d | d in picDirs
        ensures AlbumsAt(m', d) == AlbumsIn(albums, songs, done + {a}, d)
      {
        AlbumsInStep(albums, songs, done, a, d);
      }
      m, left, done := m', left - {a}, done + {a};
    }
  }

  /** Visiting one more album adds it under exactly the directories holding its songs. */
  lemma AlbumsInStep(albums: map<AlbumKey, Album>, songs: map<SongKey, Song>, done: set<AlbumKey>,
                     a: AlbumKey, d: string)
    requires a in albums
    ensures AlbumsIn(albums, songs, done + {a}, d)
      == AlbumsIn(albums, songs, done, d) + (if d in SongDirs(albums[a], songs) then {a} else {})
  {
  }

  // ---- The largest picture of a directory ----

  /** The size of a file; every picture passed in has one. */
  function SizeOf(sizes: map<string, nat>, f: string): nat {
    if f in sizes then sizes[f] else 0
  }

  /** The running (size, name) after the files, replacing it only on a strictly larger size. */
  function LargestFrom(files: seq<string>, sizes: map<string, nat>, best: (nat, string)): (nat, string)
    decreases |files|
  {
    if |files| == 0 then best
    else
      var f := files[0];
      LargestFrom(files[1..], sizes, if SizeOf(sizes, f) > best.0 then (SizeOf(sizes, f), f) else best)
  }

  function Largest(files: seq<string>, sizes: map<string, nat>): string
  {
    LargestFrom(files, sizes, (0, "")).1
  }

  /**
   * What the running maximum finds: when every file is empty, the name stays
   * ""; otherwise it is the first file of the largest size.
   */
  lemma {:induction false} LargestFromSpec(files: seq<string>, sizes: map<string, nat>, best: (nat, string))
    ensures var r := LargestFrom(files, sizes, best);
      (r == best <==> forall k :: 0 <= k < |files| ==> SizeOf(sizes, files[k]) <= best.0) &&
      (r != best ==> exists i :: 0 <= i < |files| && r == (SizeOf(sizes, files[i]), files[i]) && r.0 > best.0 &&
                       (forall k :: 0 <= k < i ==> SizeOf(sizes, files[k]) < r.0) &&
                       (forall k :: i < k < |files| ==> SizeOf(sizes, files[k]) <= r.0))
    decreases |files|
  {
    if |files| > 0 {
      var f := files[0];
      var next := if SizeOf(sizes, f) > best.0 then (SizeOf(sizes, f), f) else best;
      LargestFromSpec(files[1..], sizes, next);
      var r := LargestFrom(files, sizes, best);
      assert r == LargestFrom(files[1..], sizes, next);
      if r == next && next != best {
        assert r == (SizeOf(sizes, files[0]), files[0]);
      } else if r != next {
        var i :| 0 <= i < |files[1..]| && r == (SizeOf(sizes, files[1..][i]), files[1..][i]) && r.0 > next.0 &&
                 (forall k :: 0 <= k < i ==> SizeOf(sizes, files[1..][k]) < r.0) &&
                 (forall k :: i < k < |files[1..]| ==> SizeOf(sizes, files[1..][k]) <= r.0);
        assert r == (SizeOf(sizes, files[i + 1]), files[i + 1]);
        forall k | 0 <= k < i + 1 ensures SizeOf(sizes, files[k]) < r.0 {
          if k > 0 { assert files[k] == files[1..][k - 1]; }
        }
        forall k | i + 1 < k < |files| ensures SizeOf(sizes, files[k]) <= r.0 {
          assert files[k] == files[1..][k - 1];
        }
      } else {
        forall k | 0 <= k < |files| ensures SizeOf(sizes, files[k]) <= best.0 {
          if k > 0 { assert files[k] == files[1..][k - 1]; }
        }
      }
    }
  }

  /** The loop over one directory's pictures: the largest, first among equals, "" if all are empty. */
  method PickLargest(files: seq<string>, sizes: map<string, nat>) returns (name: string)
    ensures name == Largest(files, sizes)
    ensures (forall k :: 0 <= k < |files| ==> SizeOf(sizes, files[k]) == 0) ==> name == ""
    ensures (exists k :: 0 <= k < |files| && SizeOf(sizes, files[k]) > 0) ==>
      exists i :: 0 <= i < |files| && name == files[i] &&
        (forall k :: 0 <= k < i ==> SizeOf(sizes, files[k]) < SizeOf(sizes, name)) &&
        (forall k :: i < k < |files| ==> SizeOf(sizes, files[k]) <= SizeOf(sizes, name))
  {
    var size, largest := 0, "";
    for i := 0 to |files|
      invariant LargestFrom(files[i..], sizes, (size, largest)) == LargestFrom(files, sizes, (0, ""))
    {
      assert files[i..][1..] == files[i + 1..];
      if SizeOf(sizes, files[i]) > size {
        size, largest := SizeOf(sizes, files[i]), files[i];
      }
    }
    name := largest;
    LargestFromSpec(files, sizes, (0, ""));
  }

  // ---- Setting the pictures ----

  /** The pictures after handling the directories `dirs` in order. */
  function CoversFrom(pictures: map<AlbumKey, string>, dirs: seq<string>, groups: map<string, seq<string>>,
                      byDir: map<string, set<AlbumKey>>, sizes: map<string, nat>): map<AlbumKey, string>
    requires forall d :: d in dirs ==> d in groups
    decreases |dirs|
  {
    if |dirs| == 0 then pictures
    else
      var d := dirs[0];
      var largest := Largest(groups[d], sizes);
      var next := if d in byDir then pictures + map a | a in byDir[d] :: largest else pictures;
      CoversFrom(next, dirs[1..], groups, byDir, sizes)
  }

  /** The last of `dirs` whose albums include `a`. */
  function LastDirWith(dirs: seq<string>, byDir: map<string, set<AlbumKey>>, a: AlbumKey): (r: Option<string>)
    ensures r.Some? ==>
      exists i :: 0 <= i < |dirs| && dirs[i] == r.value && a in AlbumsAt(byDir, r.value) &&
                  (forall k :: i < k < |dirs| ==> a !in AlbumsAt(byDir, dirs[k]))
    ensures r.None? ==> forall d :: d in dirs ==> a !in AlbumsAt(byDir, d)
    decreases |dirs|
  {
    if |dirs| == 0 then None
    else
      var last := dirs[|dirs| - 1];
      if a in AlbumsAt(byDir, last) then Some(last)
      else
        var r := LastDirWith(dirs[..|dirs| - 1], byDir, a);
        assert forall d :: d in dirs ==> d in dirs[..|dirs| - 1] || d == last;
        r
  }

  /**
   * Each album's picture comes from the last directory (in order of first
   * appearance) holding one of its songs; an album with no song in a
   * directory with pictures keeps what it had.
   */
  lemma {:induction false} CoversFromSpec(pictures: map<AlbumKey, string>, dirs: seq<string>,
                                          groups: map<string, seq<string>>, byDir: map<string, set<AlbumKey>>,
                                          sizes: map<string, nat>, a: AlbumKey)
    requires forall d :: d in dirs ==> d in groups
    ensures var r := CoversFrom(pictures, dirs, groups, byDir, sizes);
      match LastDirWith(dirs, byDir, a)
      case Some(d) => a in r && r[a] == Largest(groups[d], sizes)
      case None => (a in r <==> a in pictures) && (a in pictures ==> r[a] == pictures[a])
    decreases |dirs|
  {
    if |dirs| > 0 {
      var d := dirs[0];
      var next := if d in byDir then pictures + map a | a in byDir[d] :: Largest(groups[d], sizes) else pictures;
      CoversFromSpec(next, dirs[1..], groups, byDir, sizes, a);
      LastDirSplit(dirs, byDir, a);
    }
  }

  /** The last directory with `a` is the last one after the first directory, or the first one. */
  lemma {:induction false} LastDirSplit(dirs: seq<string>, byDir: map<string, set<AlbumKey>>, a: AlbumKey)
    requires |dirs| > 0
    ensures LastDirWith(dirs, byDir, a) ==
      match LastDirWith(dirs[1..], byDir, a)
      case Some(d) => Some(d)
      case None => if a in AlbumsAt(byDir, dirs[0]) then Some(dirs[0]) else None
    decreases |dirs|
  {
    if |dirs| > 1 {
      var last := dirs[|dirs| - 1];
      if a !in AlbumsAt(byDir, last) {
        LastDirSplit(dirs[..|dirs| - 1], byDir, a);
        assert dirs[..|dirs| - 1][1..] == dirs[1..][..|dirs[1..]| - 1];
      }
    }
  }

  /** `dirsToAlbums`: each of `dirs` holding a song of some album, mapped to those albums. */
  function DirAlbums(albums: map<AlbumKey, Album>, songs: map<SongKey, Song>, dirs: set<string>)
    : (m: map<string, set<AlbumKey>>)
    ensures forall d :: AlbumsAt(m, d) == if d in dirs then AlbumsIn(albums, songs, albums.Keys, d) else {}
  {
    map d | d in dirs && AlbumsIn(albums, songs, albums.Keys, d) != {} :: AlbumsIn(albums, songs, albums.Keys, d)
  }

  /** The pictures after handling every directory with pictures, in order of first appearance. */
  function Covers(pictures: map<AlbumKey, string>, albums: map<AlbumKey, Album>, songs: map<SongKey, Song>,
                  pics: seq<string>, sizes: map<string, nat>): map<AlbumKey, string>
    requires forall p :: p in pics ==> p in sizes
  {
    var g := Group(pics);
    CoversFrom(pictures, g.dirs, g.byDir, DirAlbums(albums, songs, g.byDir.Keys), sizes)
  }

  /**
   * `HandleAlbumCovers`: groups the pictures by directory, finds the albums
   * with songs in each, and sets each such album's picture to the largest
   * picture of the directory, directory by directory.
   */
  method HandleAlbumCovers(db: MusicDB, pics: seq<string>, sizes: map<string, nat>)
    requires forall p :: p in pics ==> p in sizes
    modifies db`pictures
    ensures db.pictures == Covers(old(db.pictures), db.albums, db.songs, pics, sizes)
  {
    var g := GroupByDirectory(pics);
    var byDir := AlbumsByDirectory(db.albums, db.songs, g.byDir.Keys);
    assert byDir == DirAlbums(db.albums, db.songs, g.byDir.Keys);
    db.pictures := SetCovers(db.pictures, g.dirs, g.byDir, byDir, sizes);
  }

  /** The third loop: each directory with albums gives them its largest picture. */
  method SetCovers(pictures0: map<AlbumKey, string>, dirs: seq<string>, groups: map<string, seq<string>>,
                   byDir: map<string, set<AlbumKey>>, sizes: map<string, nat>)
    returns (pictures: map<AlbumKey, string>)
    requires forall d :: d in dirs ==> d in groups
    ensures pictures == CoversFrom(pictures0, dirs, groups, byDir, sizes)
  {
    pictures := pictures0;
    for i := 0 to |dirs|
      invariant CoversFrom(pictures, dirs[i..], groups, byDir, sizes) == CoversFrom(pictures0, dirs, groups, byDir, sizes)
    {
      assert dirs[i..][1..] == dirs[i + 1..];
      var dir := dirs[i];
      if dir in byDir {
        var largest := PickLargest(groups[dir], sizes);
        pictures := pictures + map a | a in byDir[dir] :: largest;
      }
    }
    assert dirs[|dirs|..] == [];
  }

  /**
   * What `HandleAlbumCovers` leaves: an album with a song in a directory with
   * pictures gets the largest picture of the last such directory; any other
   * album keeps the picture it had, or still has none.
   */
  lemma CoverOfAlbum(pictures: map<AlbumKey, string>, albums: map<AlbumKey, Album>, songs: map<SongKey, Song>,
                     pics: seq<string>, sizes: map<string, nat>, a: AlbumKey)
    requires forall p :: p in pics ==> p in sizes
    ensures var g := Group(pics);
      var r := Covers(pictures, albums, songs, pics, sizes);
      match LastDirWith(g.dirs, DirAlbums(albums, songs, g.byDir.Keys), a)
      case Some(d) =>
        a in AlbumsIn(albums, songs, albums.Keys, d) && d in g.byDir && a in r && r[a] == Largest(g.byDir[d], sizes)
      case None =>
        (forall d :: d in g.dirs ==> a !in AlbumsIn(albums, songs, albums.Keys, d)) &&
        (a in r <==> a in pictures) && (a in pictures ==> r[a] == pictures[a])
  {
    var g := Group(pics);
    var byDir := DirAlbums(albums, songs, g.byDir.Keys);
    assert Covers(pictures, albums, songs, pics, sizes) == CoversFrom(pictures, g.dirs, g.byDir, byDir, sizes);
    CoversFromSpec(pictures, g.dirs, g.byDir, byDir, sizes, a);
    match LastDirWith(g.dirs, byDir, a)
    case Some(d) =>
      assert d in g.byDir;
    case None =>
      forall d | d in g.dirs ensures a !in AlbumsIn(albums, songs, albums.Keys, d) {
        assert d in g.byDir;
      }
  }
}
