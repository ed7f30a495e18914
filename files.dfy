/**
 * The local file system as seen by the core: for each path, whether each
 * operation the core performs on it fails (and with which message).
 */
module Files {
  import opened Wrappers
  import opened Http

  datatype FileSystem = FileSystem(
    create: string -> Option<string>,           // error of os.Create(path)
    open: string -> Option<string>,             // error of os.Open(path)
    stat: string -> Option<string>,             // error of os.Stat(path)
    read: string -> Result<seq<byte>, string>,  // copying the whole open file
    remove: string -> Option<string>)           // error of os.Remove(path)

  /** Go's `os.Stat(p).Name()`: trailing slashes dropped (but not a lone
      leading one), then everything up to the last '/' dropped. */
  function BaseName(path: string): (r: string)
    ensures '/' in r ==> r == "/"
    ensures path == [] ==> r == []
    ensures r == "/" ==> forall j :: 0 <= j < |path| ==> path[j] == '/'
    ensures path != [] ==> r != []
    ensures path != [] && (forall j :: 0 <= j < |path| ==> path[j] == '/') ==> r == "/"
  {
    var s := StripTrailingSlashes(path);
    assert path != [] && s != "/" ==> s[|s| - 1] != '/';
    LastElement(s)
  }

  function StripTrailingSlashes(path: string): (r: string)
    ensures |r| <= |path| && r == path[..|r|]
    ensures |r| > 1 ==> r[|r| - 1] != '/'
    ensures |path| > 0 ==> |r| > 0
    ensures |path| > 0 && path[|path| - 1] != '/' ==> r == path
    ensures forall j :: |r| <= j < |path| ==> path[j] == '/'
  {
    if |path| > 1 && path[|path| - 1] == '/' then StripTrailingSlashes(path[..|path| - 1]) else path
  }

  /** The part after the last '/'; a lone "/" is kept as it is. */
  function LastElement(path: string): (r: string)
    ensures '/' !in r || (r == path && path == "/")
    ensures path == "/" ==> r == "/"
    ensures |r| <= |path|
    ensures path != "/" ==> r == path[|path| - |r|..] && (|r| == |path| || path[|path| - |r| - 1] == '/')
  {
    if path == "/" then path else AfterLastSlash(path)
  }

  function AfterLastSlash(path: string): (r: string)
    ensures '/' !in r
    ensures |r| <= |path| && r == path[|path| - |r|..]
    ensures '/' !in path ==> r == path
    ensures |r| == |path| || path[|path| - |r| - 1] == '/'
  {
    if |path| == 0 then []
    else if path[|path| - 1] == '/' then []
    else AfterLastSlash(path[..|path| - 1]) + [path[|path| - 1]]
  }

  /** `r` sits in `path` at index `i`, preceded by a '/' (or by nothing) and
      followed by nothing but '/'. */
  predicate LastElementAt(path: string, r: string, i: int) {
    && 0 <= i <= |path| - |r|
    && path[i..i + |r|] == r
    && (i == 0 || path[i - 1] == '/')
    && forall j :: i + |r| <= j < |path| ==> path[j] == '/'
  }

  /** The value of BaseName: the last element of the path, with the
      trailing slashes dropped and nothing but it kept. */
  lemma BaseNameValue(path: string)
    requires path != [] && BaseName(path) != "/"
    ensures BaseName(path) != [] && '/' !in BaseName(path)
    ensures exists i :: LastElementAt(path, BaseName(path), i)
  {
    var s := StripTrailingSlashes(path);
    var r := LastElement(s);
    var i := |s| - |r|;
    assert s != "/";
    assert path[i..i + |r|] == s[i..] == r;
    assert LastElementAt(path, r, i);
  }

  /** A '/'-free slice of a path has no '/' at any of its positions. */
  lemma NoSlashInside(path: string, w: string, j: int, k: int)
    requires 0 <= j <= |path| - |w| && path[j..j + |w|] == w && '/' !in w
    requires j <= k < j + |w|
    ensures path[k] != '/'
  {
    assert path[k] == w[k - j];
  }

  /** Two non-empty, '/'-free slices that both sit as the last element of a
      path are the same slice. */
  lemma LastElementAtUnique(path: string, w: string, j: int, r: string, i: int)
    requires w != [] && '/' !in w && LastElementAt(path, w, j)
    requires r != [] && '/' !in r && LastElementAt(path, r, i)
    ensures w == r
  {
    // both end right after the last character of the path that is not '/'
    if j + |w| < i + |r| {
      NoSlashInside(path, r, i, i + |r| - 1);
      assert false;
    }
    if i + |r| < j + |w| {
      NoSlashInside(path, w, j, j + |w| - 1);
      assert false;
    }
    // and both start at the beginning or right after a '/'
    if j < i {
      NoSlashInside(path, w, j, i - 1);
      assert false;
    }
    if i < j {
      NoSlashInside(path, r, i, j - 1);
      assert false;
    }
  }

  /** Only one non-empty, '/'-free slice of a path is its last element, so
      BaseNameValue singles out the name. */
  lemma LastElementUnique(path: string, w: string, j: int)
    requires w != [] && '/' !in w && LastElementAt(path, w, j)
    ensures w == BaseName(path)
  {
    NoSlashInside(path, w, j, j);
    BaseNameValue(path);
    var i :| LastElementAt(path, BaseName(path), i);
    LastElementAtUnique(path, w, j, BaseName(path), i);
  }
}
