/**
 * The photo store of one album: which files of the album's original/
 * directory count as photos, the preview and thumbnail URLs each gets, and
 * the newest-first ordering of the gallery.
 */
module Storage {
  import opened Wrappers
  import opened Text

  /** Timestamp is the file's modification time as an integer clock reading. */
  datatype Photo = Photo(filename: string, timestamp: int, url: string, thumbUrl: string)

  /** One entry of a directory listing; modTime is None when Info() failed. */
  datatype DirEntry = DirEntry(name: string, isDir: bool, modTime: Option<int>)

  predicate IsImage(name: string) {
    var ext := ToLower(Ext(name));
    ext == ".jpg" || ext == ".jpeg" || ext == ".png"
  }

  predicate LowerAlpha(s: string) {
    forall i :: 0 <= i < |s| ==> 'a' <= s[i] <= 'z'
  }

  /** Lower-casing commutes with taking a suffix. */
  lemma ToLowerSuffix(s: string, k: nat)
    requires k <= |s|
    ensures ToLower(s)[k..] == ToLower(s[k..])
  {
  }

  /** A lower-cased name ending in "." + ext ends, before lower-casing, in a '.' and letters. */
  lemma SuffixGivesExtension(name: string, ext: string)
    requires LowerAlpha(ext)
    requires HasSuffix(ToLower(name), "." + ext)
    ensures ToLower(Ext(name)) == "." + ext
  {
    var k := |ext| + 1;
    var s := name[|name| - k..];
    ToLowerSuffix(name, |name| - k);
    var ls := ToLower(s);
    assert ls == "." + ext;
    assert ls[0] == LowerChar(s[0]);
    assert s[0] == '.';
    var x := s[1..];
    forall i | 0 <= i < |x| ensures x[i] != '.' && x[i] != '/' {
      assert ls[i + 1] == LowerChar(x[i]) == ext[i];
    }
    var q := name[..|name| - k];
    assert name == q + ['.'] + x;
    ExtOfTail(q, x);
    assert Ext(name) == s;
  }

  /** The converse: the extension is a suffix of the name. */
  lemma ExtensionGivesSuffix(name: string, ext: string)
    requires ToLower(Ext(name)) == "." + ext
    ensures HasSuffix(ToLower(name), "." + ext)
  {
    var r := Ext(name);
    ExtShape(name);
    ToLowerSuffix(name, |name| - |r|);
  }

  /**
   * The extension of a name, lower-cased, is "." + ext exactly when the
   * lower-cased name ends in "." + ext, for an all-letter ext.
   */
  lemma ExtensionIsSuffix(name: string, ext: string)
    requires LowerAlpha(ext)
    ensures ToLower(Ext(name)) == "." + ext <==> HasSuffix(ToLower(name), "." + ext)
  {
    if HasSuffix(ToLower(name), "." + ext) {
      SuffixGivesExtension(name, ext);
    }
    if ToLower(Ext(name)) == "." + ext {
      ExtensionGivesSuffix(name, ext);
    }
  }

  /** isImage reads as "the name ends, ignoring case, in .jpg, .jpeg or .png". */
  lemma IsImageBySuffix(name: string)
    ensures IsImage(name) <==>
      HasSuffix(ToLower(name), ".jpg") || HasSuffix(ToLower(name), ".jpeg") || HasSuffix(ToLower(name), ".png")
  {
    assert ".jpg" == "." + "jpg" && ".jpeg" == "." + "jpeg" && ".png" == "." + "png";
    assert LowerAlpha("jpg") && LowerAlpha("jpeg") && LowerAlpha("png");
    ExtensionIsSuffix(name, "jpg");
    ExtensionIsSuffix(name, "jpeg");
    ExtensionIsSuffix(name, "png");
  }

  /** An upper-case camera file name is an image. */
  lemma IsImageUpperCase()
    ensures IsImage("IMG_20240101_120000.JPG")
  {
    var n := "IMG_20240101_120000.JPG";
    ExtOfTail("IMG_20240101_120000", "JPG");
    assert n == "IMG_20240101_120000" + ['.'] + "JPG";
    assert ToLower(".JPG") == ".jpg";
  }

  /** Another extension is not an image. */
  lemma IsImageRejectsOtherExtension()
    ensures !IsImage("notes.txt")
  {
    ExtOfTail("notes", "txt");
    assert "notes.txt" == "notes" + ['.'] + "txt";
    var e := ToLower(".txt");
    assert e == ".txt";
    assert e != ".jpg" && e != ".png" by { assert e[1] == 't'; }
    assert e != ".jpeg" by { assert |e| == 4; }
  }

  /** A bare "jpg" has no extension and is not an image. */
  lemma IsImageRejectsNoDot()
    ensures !IsImage("jpg")
  {
    assert "jpg"[..2] == "jp" && "jp"[..1] == "j" && "j"[..0] == [];
    assert Ext("j") == [];
    assert Ext("jp") == [];
    assert Ext("jpg") == [];
  }

  function PhotoFor(name: string, timestamp: int): (p: Photo)
    ensures p.filename == name && p.timestamp == timestamp
    ensures p.url == "/photos/preview/" + name && p.thumbUrl == "/photos/thumb/" + name
  {
    Photo(name, timestamp, "/photos/preview/" + name, "/photos/thumb/" + name)
  }

  /** The entries List keeps, in listing order: image files whose Info() succeeded. */
  function Listed(entries: seq<DirEntry>): seq<Photo> {
    if entries == [] then []
    else
      var e := entries[|entries| - 1];
      var rest := Listed(entries[..|entries| - 1]);
      if !e.isDir && IsImage(e.name) && e.modTime.Some? then rest + [PhotoFor(e.name, e.modTime.value)] else rest
  }

  predicate Keeps(e: DirEntry) {
    !e.isDir && IsImage(e.name) && e.modTime.Some?
  }

  /** A photo is listed exactly when it comes from a kept entry. */
  lemma {:induction false} ListedMembership(entries: seq<DirEntry>, p: Photo)
    ensures p in Listed(entries) <==>
      exists i :: 0 <= i < |entries| && Keeps(entries[i]) && p == PhotoFor(entries[i].name, entries[i].modTime.value)
    decreases |entries|
  {
    if entries != [] {
      var init := entries[..|entries| - 1];
      ListedMembership(init, p);
      if p in Listed(entries) && p !in Listed(init) {
        var j := |entries| - 1;
        assert Keeps(entries[j]) && p == PhotoFor(entries[j].name, entries[j].modTime.value);
      }
      if exists i :: 0 <= i < |entries| && Keeps(entries[i]) && p == PhotoFor(entries[i].name, entries[i].modTime.value) {
        var i :| 0 <= i < |entries| && Keeps(entries[i]) && p == PhotoFor(entries[i].name, entries[i].modTime.value);
        if i < |entries| - 1 {
          assert init[i] == entries[i];
        }
      }
    }
  }

  predicate NewestFirst(s: seq<Photo>) {
    forall i, j :: 0 <= i < j < |s| ==> s[i].timestamp >= s[j].timestamp
  }

  /** Put p in front of the first photo that is not newer than it. */
  function InsertByTime(p: Photo, s: seq<Photo>): (r: seq<Photo>)
    ensures |r| == |s| + 1
    ensures multiset(r) == multiset(s) + multiset{p}
  {
    if s == [] then [p]
    else if p.timestamp >= s[0].timestamp then [p] + s
    else
      assert s == [s[0]] + s[1..];
      [s[0]] + InsertByTime(p, s[1..])
  }

  lemma {:induction false} InsertByTimeSorted(p: Photo, s: seq<Photo>)
    requires NewestFirst(s)
    ensures NewestFirst(InsertByTime(p, s))
    ensures s != [] ==> InsertByTime(p, s)[0] == p || InsertByTime(p, s)[0] == s[0]
    decreases |s|
  {
    if s != [] && p.timestamp < s[0].timestamp {
      var t := InsertByTime(p, s[1..]);
      InsertByTimeSorted(p, s[1..]);
      assert NewestFirst(s[1..]) by {
        forall i, j | 0 <= i < j < |s[1..]| ensures s[1..][i].timestamp >= s[1..][j].timestamp {
          assert s[1..][i] == s[i + 1] && s[1..][j] == s[j + 1];
        }
      }
      var r := [s[0]] + t;
      assert r == InsertByTime(p, s);
      assert s[0].timestamp >= t[0].timestamp by {
        if |s| > 1 { assert s[1..][0] == s[1]; }
      }
      forall i, j | 0 <= i < j < |r| ensures r[i].timestamp >= r[j].timestamp {
        assert r[j] == t[j - 1];
        if i > 0 {
          assert r[i] == t[i - 1];
        } else {
          assert t[0].timestamp >= t[j - 1].timestamp || j - 1 == 0;
        }
      }
    }
  }

  /** sort.Slice(photos, Timestamp.After): some newest-first permutation of the input. */
  function SortNewestFirst(s: seq<Photo>): (r: seq<Photo>)
    ensures NewestFirst(r)
    ensures multiset(r) == multiset(s)
  {
    if s == [] then []
    else
      assert s == [s[0]] + s[1..];
      var rest := SortNewestFirst(s[1..]);
      InsertByTimeSorted(s[0], rest);
      InsertByTime(s[0], rest)
  }

  /** The first photo of a newest-first list is at least as new as every other. */
  lemma FirstIsNewest(s: seq<Photo>, q: Photo)
    requires NewestFirst(s) && q in s
    ensures s[0].timestamp >= q.timestamp
  {
  }

  class Manager {
    var rootDir: string

    constructor (rootDir: string)
      ensures this.rootDir == rootDir
    {
      this.rootDir := rootDir;
    }

    /** The directory List reads. */
    function OriginalDir(): string
      reads this
    {
      JoinPath(rootDir, "original")
    }

    method SetRootDir(dir: string)
      modifies this`rootDir
      ensures rootDir == dir
    {
      rootDir := dir;
    }

    /**
     * Manager.List; listing is what reading OriginalDir() returned. The
     * photos are the kept entries, newest first.
     */
    method List(listing: Result<seq<DirEntry>, string>) returns (r: Result<seq<Photo>, string>)
      ensures listing.Failure? ==> r == Failure(listing.error)
      ensures listing.Success? ==> r.Success? && NewestFirst(r.value)
      ensures listing.Success? ==> multiset(r.value) == multiset(Listed(listing.value))
    {
      if listing.Failure? {
        return Failure(listing.error);
      }
      var entries := listing.value;
      var photos: seq<Photo> := [];
      var i := 0;
      while i < |entries|
        invariant 0 <= i <= |entries|
        invariant photos == Listed(entries[..i])
      {
        var e := entries[i];
        assert entries[..i + 1][..i] == entries[..i];
        if !e.isDir && IsImage(e.name) {
          if e.modTime.Some? {
            photos := photos + [PhotoFor(e.name, e.modTime.value)];
          }
        }
        i := i + 1;
      }
      assert entries[..i] == entries;
      photos := SortNewestFirst(photos);
      return Success(photos);
    }

    /** Manager.GetLatest: the newest listed photo, or nothing (a listing error also gives nothing). */
    method GetLatest(listing: Result<seq<DirEntry>, string>) returns (r: Option<Photo>)
      ensures r.None? <==> listing.Failure? || Listed(listing.value) == []
      ensures r.Some? ==> r.value in Listed(listing.value)
      ensures r.Some? ==> forall q :: q in Listed(listing.value) ==> q.timestamp <= r.value.timestamp
    {
      var photos := List(listing);
      if photos.Success? && |photos.value| > 0 {
        assert photos.value[0] in multiset(photos.value);
        forall q | q in Listed(listing.value) ensures q.timestamp <= photos.value[0].timestamp {
          assert q in multiset(Listed(listing.value));
          assert q in photos.value;
          FirstIsNewest(photos.value, q);
        }
        return Some(photos.value[0]);
      }
      return None;
    }
  }
}
