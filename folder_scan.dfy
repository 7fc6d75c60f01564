/**
 * The folder scan (MusicScanner.ts): classifying file names by extension and
 * walking the music locations with a work list, over an abstract file system
 * that stands for `readdir`, `realpath` and `stat`.
 */
module FolderScan {
  import opened Strings
  import opened Paths

  const AudioTypes: set<string> := {".flac", ".mp3", ".aac", ".m4a"}
  const ImageTypes: set<string> := {".png", ".jpg", ".jpeg"}

  /**
   * `isOfType`: the lower-cased extension is one of `types`, and the basename
   * does not start with '.' unless hidden files are allowed.
   */
  predicate IsOfType(filename: string, types: set<string>, hidden: bool) {
    (hidden || !StartsWith(Basename(filename), ".")) && ToLower(Extname(filename)) in types
  }

  /** An accepted name ends, up to case, with one of the extensions of its type. */
  lemma AcceptedByExtension(filename: string, types: set<string>, hidden: bool)
    requires IsOfType(filename, types, hidden)
    ensures exists e :: e in types && EndsWith(ToLower(filename), e)
  {
    LowerSuffix(filename, Extname(filename));
  }

  /** A suffix of a string, lower-cased, is a suffix of the lower-cased string. */
  lemma LowerSuffix(s: string, e: string)
    requires EndsWith(Basename(s), e)
    ensures EndsWith(ToLower(s), ToLower(e))
  {
    EndsWithTransitive(s, Basename(s), e);
    LowerKeepsSuffix(s, e);
  }

  /** Audio files: hidden names are rejected. */
  predicate IsMusicType(filename: string) {
    IsOfType(filename, AudioTypes, false)
  }

  /** Image files: hidden names are accepted (a hidden cover is fine). */
  predicate IsImageType(filename: string) {
    IsOfType(filename, ImageTypes, true)
  }

  /** No name is both an audio file and an image, and a hidden name is never audio. */
  lemma {:induction false} KindsOfFile(filename: string)
    ensures !(IsMusicType(filename) && IsImageType(filename))
    ensures StartsWith(Basename(filename), ".") ==> !IsMusicType(filename)
    ensures IsImageType(filename) <==> ToLower(Extname(filename)) in ImageTypes
  {
    ExtensionSetsDisjoint(ToLower(Extname(filename)));
  }

  /** No extension is both an audio and an image extension: their second characters differ. */
  lemma ExtensionSetsDisjoint(e: string)
    ensures !(e in AudioTypes && e in ImageTypes)
  {
    if e in AudioTypes {
      assert |e| >= 2 && (e[1] == 'f' || e[1] == 'm' || e[1] == 'a');
    }
    if e in ImageTypes {
      assert |e| >= 2 && (e[1] == 'p' || e[1] == 'j');
    }
  }

  /** Classifying a directory entry by its name or by its full path gives the same answer. */
  lemma TypeOfJoined(dir: string, name: string, types: set<string>, hidden: bool)
    requires '/' !in name
    ensures IsOfType(JoinPath(dir, name), types, hidden) == IsOfType(name, types, hidden)
  {
    JoinKeepsName(dir, name);
  }

  // ---- The abstract file system ----

  /** What `Dirent` and `Stats` tell apart. */
  datatype Kind = File | Directory | SymLink | Other

  datatype Dirent = Dirent(name: string, kind: Kind)

  /**
   * The file system as the scan sees it: the entries `readdir` lists for each
   * readable directory, `realpath` of each resolvable link, and the kind `stat`
   * reports for each path it can reach. A path missing from a map is one whose
   * call throws.
   */
  datatype FileSystem = FileSystem(
    listing: map<string, seq<Dirent>>,
    realpath: map<string, string>,
    stat: map<string, Kind>)

  /** `readdir` lists plain names: no entry name contains '/'. */
  ghost predicate PlainNames(fs: FileSystem) {
    forall dir, k :: dir in fs.listing && 0 <= k < |fs.listing[dir]| ==> '/' !in fs.listing[dir][k].name
  }

  /** What one directory entry contributes: a directory to visit, a song, a picture, or nothing. */
  datatype Outcome = Visit(dir: string) | SongFile(path: string) | PicFile(path: string) | Skip

  function Classify(path: string, name: string): (o: Outcome)
    ensures o.SongFile? ==> o.path == path && IsMusicType(name)
    ensures o.PicFile? ==> o.path == path && IsImageType(name) && !IsMusicType(name)
    ensures !o.Visit?
  {
    if IsMusicType(name) then SongFile(path)
    else if IsImageType(name) then PicFile(path)
    else Skip
  }

  /**
   * One entry of directory `dir`: a link is resolved and stat'ed (a failure
   * is caught and skips it) and classified by its real path; a directory is
   * queued; a file is classified by its name.
   */
  function EntryOutcome(fs: FileSystem, dir: string, d: Dirent): (o: Outcome)
    requires '/' !in d.name
    ensures o.SongFile? ==> IsMusicType(o.path)
    ensures o.PicFile? ==> IsImageType(o.path) && !IsMusicType(o.path)
    ensures d.kind == Directory ==> o == Visit(JoinPath(dir, d.name))
    ensures d.kind == Other ==> o == Skip
  {
    match d.kind
    case SymLink =>
      var link := JoinPath(dir, d.name);
      if link !in fs.realpath then Skip
      else
        var ap := fs.realpath[link];
        if ap !in fs.stat then Skip
        else if fs.stat[ap] == Directory then Visit(ap)
        else if fs.stat[ap] == File then Classify(ap, ap)
        else Skip
    case Directory => Visit(JoinPath(dir, d.name))
    case File =>
      var o := Classify(JoinPath(dir, d.name), d.name);
      TypeOfJoined(dir, d.name, AudioTypes, false);
      TypeOfJoined(dir, d.name, ImageTypes, true);
      o
    case Other => Skip
  }

  /** An outcome that keeps the scan's promise: songs are audio files, pictures are images only. */
  predicate WellClassified(o: Outcome) {
    (o.SongFile? ==> IsMusicType(o.path)) && (o.PicFile? ==> IsImageType(o.path) && !IsMusicType(o.path))
  }

  /** The outcomes of the entries of `dir`, in listing order. */
  function Outcomes(fs: FileSystem, dir: string, entries: seq<Dirent>): (os: seq<Outcome>)
    requires forall k :: 0 <= k < |entries| ==> '/' !in entries[k].name
    ensures |os| == |entries|
    ensures forall k :: 0 <= k < |os| ==> os[k] == EntryOutcome(fs, dir, entries[k]) && WellClassified(os[k])
  {
    seq(|entries|, k requires 0 <= k < |entries| => EntryOutcome(fs, dir, entries[k]))
  }

  /** The three lists a walk accumulates. */
  datatype Found = Found(queue: seq<string>, songs: seq<string>, pics: seq<string>)

  /** Every song found is audio and every picture is an image and not audio. */
  predicate Classified(f: Found) {
    (forall p :: p in f.songs ==> IsMusicType(p)) && (forall p :: p in f.pics ==> IsImageType(p) && !IsMusicType(p))
  }

  /** Appends the outcome of one entry to the lists. */
  function Record(f: Found, o: Outcome): (g: Found)
    ensures Classified(f) && WellClassified(o) ==> Classified(g)
    ensures |f.songs| <= |g.songs| && g.songs[..|f.songs|] == f.songs
    ensures |f.pics| <= |g.pics| && g.pics[..|f.pics|] == f.pics
  {
    match o
    case Visit(d) => f.(queue := f.queue + [d])
    case SongFile(p) => f.(songs := f.songs + [p])
    case PicFile(p) => f.(pics := f.pics + [p])
    case Skip => f
  }

  /** The lists after recording `os` in order, starting from `f`. */
  function RecordAll(f: Found, os: seq<Outcome>): Found
    decreases |os|
  {
    if |os| == 0 then f else RecordAll(Record(f, os[0]), os[1..])
  }

  /** Recording only appends to the song and picture lists, and keeps them classified. */
  lemma {:induction false} RecordAllExtends(f: Found, os: seq<Outcome>)
    ensures var r := RecordAll(f, os);
      |f.songs| <= |r.songs| && r.songs[..|f.songs|] == f.songs &&
      |f.pics| <= |r.pics| && r.pics[..|f.pics|] == f.pics
    ensures Classified(f) && (forall k :: 0 <= k < |os| ==> WellClassified(os[k])) ==> Classified(RecordAll(f, os))
    decreases |os|
  {
    if |os| > 0 {
      var g := Record(f, os[0]);
      RecordAllExtends(g, os[1..]);
      var r := RecordAll(f, os);
      assert r.songs[..|g.songs|][..|f.songs|] == r.songs[..|f.songs|];
      assert r.pics[..|g.pics|][..|f.pics|] == r.pics[..|f.pics|];
      if Classified(f) && (forall k :: 0 <= k < |os| ==> WellClassified(os[k])) {
        assert forall k :: 0 <= k < |os[1..]| ==> WellClassified(os[1..][k]) by {
          forall k | 0 <= k < |os[1..]| ensures WellClassified(os[1..][k]) {
            assert os[1..][k] == os[k + 1];
          }
        }
      }
    }
  }

  /** The inner loop of `find`: the entries of one directory, in listing order. */
  method ScanDirectory(fs: FileSystem, dir: string, entries: seq<Dirent>, f0: Found) returns (f: Found)
    requires forall k :: 0 <= k < |entries| ==> '/' !in entries[k].name
    ensures f == RecordAll(f0, Outcomes(fs, dir, entries))
    ensures Classified(f0) ==> Classified(f)
  {
    f := f0;
    var os := Outcomes(fs, dir, entries);
    for i := 0 to |entries|
      invariant RecordAll(f, os[i..]) == RecordAll(f0, os)
    {
      assert os[i..][1..] == os[i + 1..];
      f := Record(f, EntryOutcome(fs, dir, entries[i]));
    }
    RecordAllExtends(f0, os);
  }

  /** `g` holds what `f` found, in the same order, and perhaps more after it. */
  predicate Extends(f: Found, g: Found) {
    |f.songs| <= |g.songs| && g.songs[..|f.songs|] == f.songs &&
    |f.pics| <= |g.pics| && g.pics[..|f.pics|] == f.pics
  }

  lemma ExtendsTransitive(f: Found, g: Found, h: Found)
    requires Extends(f, g) && Extends(g, h)
    ensures Extends(f, h)
  {
    assert h.songs[..|g.songs|][..|f.songs|] == h.songs[..|f.songs|];
    assert h.pics[..|g.pics|][..|f.pics|] == h.pics[..|f.pics|];
  }

  /** Popping the last queued location and scanning it, if it is a readable directory. */
  function Step(fs: FileSystem, f: Found): (g: Found)
    requires PlainNames(fs)
    requires |f.queue| > 0
    ensures Classified(f) ==> Classified(g)
    ensures Extends(f, g)
  {
    var dir := f.queue[|f.queue| - 1];
    var rest := f.(queue := f.queue[..|f.queue| - 1]);
    if dir == "" || dir !in fs.listing then rest
    else
      var os := Outcomes(fs, dir, fs.listing[dir]);
      RecordAllExtends(rest, os);
      RecordAll(rest, os)
  }

  /**
   * The walk after at most `fuel` more steps; the flag says whether the
   * queue ran empty.
   */
  function Walk(fs: FileSystem, f: Found, fuel: nat): (r: (Found, bool))
    requires PlainNames(fs)
    ensures Extends(f, r.0)
    ensures r.1 <==> |r.0.queue| == 0
    decreases fuel
  {
    if |f.queue| == 0 then (f, true)
    else if fuel == 0 then (f, false)
    else
      var g := Step(fs, f);
      var r := Walk(fs, g, fuel - 1);
      ExtendsTransitive(f, g, r.0);
      r
  }

  /**
   * `find`: drains the work list, last location first, collecting audio files
   * and images. The walk stops after `fuel` directories; `complete` says
   * whether the work list ran empty within that budget.
   */
  method Find(fs: FileSystem, locations: seq<string>, fuel: nat)
    returns (songs: seq<string>, pics: seq<string>, complete: bool)
    requires PlainNames(fs)
    ensures var r := Walk(fs, Found(locations, [], []), fuel);
      songs == r.0.songs && pics == r.0.pics && complete == r.1
    ensures forall p :: p in songs ==> IsMusicType(p)
    ensures forall p :: p in pics ==> IsImageType(p) && !IsMusicType(p)
  {
    var f := Found(locations, [], []);
    var left := fuel;
    while |f.queue| > 0 && left > 0
      invariant Walk(fs, f, left) == Walk(fs, Found(locations, [], []), fuel)
      invariant Classified(f)
      decreases left
    {
      var dir := f.queue[|f.queue| - 1];
      ghost var g := Step(fs, f);
      f := f.(queue := f.queue[..|f.queue| - 1]);
      if dir != "" && dir in fs.listing {
        f := ScanDirectory(fs, dir, fs.listing[dir], f);
      }
      assert f == g;
      left := left - 1;
    }
    songs, pics, complete := f.songs, f.pics, |f.queue| == 0;
  }
}
