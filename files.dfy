/**
 * `ListDirFiles`: every regular file under a directory, found by a
 * recursive walk. The file system is an in-memory tree: a directory's
 * listing is either the error that opening or reading it raised, or its
 * entries in the order the system returns them.
 */
module Files {
  import opened Wrappers
  import opened Errors
  import opened Strings

  datatype Entry =
    | RegularFile(name: string)
    | Directory(name: string, contents: Listing)
    /** Anything else a directory can hold (links, devices, sockets...). */
    | OtherEntry(name: string)

  datatype Listing = Unreadable(err: Error) | Entries(entries: seq<Entry>)

  /** `filepath.Join(dir, name)` for the names a walk produces; path cleaning is not modelled. */
  function PathJoin(dir: string, name: string): (p: string)
    ensures HasPrefix(p, dir + "/")
  {
    dir + "/" + name
  }

  /** The non-empty elements of `parts`, in order. */
  function NonEmpty(parts: seq<string>): (r: seq<string>)
    ensures forall i :: 0 <= i < |r| ==> r[i] != ""
    ensures forall p :: p in r <==> p in parts && p != ""
  {
    if parts == [] then []
    else if parts[0] == "" then NonEmpty(parts[1..])
    else [parts[0]] + NonEmpty(parts[1..])
  }

  /** Dropping empty elements keeps the order of the rest: it works piece by piece. */
  lemma {:induction false} NonEmptyAppend(a: seq<string>, b: seq<string>)
    ensures NonEmpty(a + b) == NonEmpty(a) + NonEmpty(b)
    ensures NonEmpty([]) == [] && NonEmpty([""]) == []
    ensures forall p :: p != "" ==> NonEmpty([p]) == [p]
  {
    if a == [] {
      assert a + b == b;
    } else {
      assert (a + b)[1..] == a[1..] + b;
      NonEmptyAppend(a[1..], b);
    }
  }

  /** `filepath.Join` of several elements: the non-empty ones, separated by "/" (cleaning is not modelled). */
  function JoinPath(parts: seq<string>): string
  {
    Join(NonEmpty(parts), '/')
  }

  /** Joining two non-empty elements puts one separator between them; empty elements are ignored. */
  lemma JoinPathPair(a: string, b: string)
    ensures a != "" && b != "" ==> JoinPath([a, b]) == PathJoin(a, b)
    ensures a == "" ==> JoinPath([a, b]) == b
    ensures b == "" ==> JoinPath([a, b]) == a
  {
    assert [a, b][1..] == [b];
    assert [b][1..] == [];
    var tail := if b == "" then [] else [b];
    assert NonEmpty([b]) == tail;
    var both := if a == "" then tail else [a] + tail;
    assert NonEmpty([a, b]) == both;
    if a != "" && b != "" {
      assert both == [a, b] && both[1..] == [b];
      assert Join(both, '/') == a + ['/'] + b;
    }
  }

  /** With no empty element, joining puts one separator between consecutive elements. */
  lemma {:induction false} JoinPathTriple(a: string, b: string, c: string)
    requires a != "" && b != "" && c != ""
    ensures JoinPath([a, b, c]) == PathJoin(PathJoin(a, b), c)
    ensures JoinPath(["", b, c]) == PathJoin(b, c)
  {
    assert [a, b, c][1..] == [b, c];
    assert ["", b, c][1..] == [b, c];
    assert [b, c][1..] == [c];
    assert [c][1..] == [];
    assert NonEmpty([c]) == [c];
    assert NonEmpty([b, c]) == [b, c];
    assert NonEmpty([a, b, c]) == [a, b, c];
    assert NonEmpty(["", b, c]) == [b, c];
    assert Join([b, c], '/') == b + ['/'] + c;
    assert Join([a, b, c], '/') == a + ['/'] + (b + ['/'] + c);
  }

  /** `filepath.Rel(dir, f)` for a path under `dir`: what follows `dir` and the separator. */
  function RelPath(dir: string, f: string): (rel: string)
    requires HasPrefix(f, dir + "/")
    ensures PathJoin(dir, rel) == f
    ensures |rel| == |f| - |dir| - 1
  {
    assert f == f[..|dir| + 1] + f[|dir| + 1..];
    f[|dir| + 1..]
  }

  /** The files a walk of `listing`, opened at `dirPath`, reports. */
  function Flatten(dirPath: string, listing: Listing): Result<seq<string>, Error>
    decreases listing
  {
    match listing
    case Unreadable(e) => Failure(e)
    case Entries(es) => FlattenEntries(dirPath, es)
  }

  /** The files contributed by the entries `es` of directory `dirPath`, in order. */
  function FlattenEntries(dirPath: string, es: seq<Entry>): Result<seq<string>, Error>
    decreases es
  {
    if es == [] then Success([])
    else
      match FlattenEntries(dirPath, es[..|es| - 1])
      case Failure(e) => Failure(e)
      case Success(files) =>
        match es[|es| - 1]
        case RegularFile(n) => Success(files + [PathJoin(dirPath, n)])
        case Directory(n, c) =>
          (match Flatten(PathJoin(dirPath, n), c)
           case Failure(e) => Failure(e)
           case Success(sub) => Success(files + sub))
        case OtherEntry(_) => Success(files)
  }

  /** The walk itself: a loop over the entries, recursing into each subdirectory. */
  method ListDirFiles(dirPath: string, listing: Listing) returns (r: Result<seq<string>, Error>)
    ensures r == Flatten(dirPath, listing)
    decreases listing
  {
    if listing.Unreadable? {
      return Failure(listing.err);
    }
    var es := listing.entries;
    var files: seq<string> := [];
    for i := 0 to |es|
      invariant FlattenEntries(dirPath, es[..i]) == Success(files)
    {
      assert es[..i + 1][..i] == es[..i];
      match es[i]
      case RegularFile(n) =>
        files := files + [PathJoin(dirPath, n)];
      case Directory(n, c) =>
        var sub := ListDirFiles(PathJoin(dirPath, n), c);
        if sub.Failure? {
          assert FlattenEntries(dirPath, es[..i + 1]) == Failure(sub.error);
          FailurePersists(dirPath, es, i + 1, sub.error);
          return Failure(sub.error);
        }
        files := files + sub.value;
      case OtherEntry(_) =>
    }
    assert es[..|es|] == es;
    return Success(files);
  }

  /** Once a prefix of the entries fails, the whole listing fails with the same error. */
  lemma {:induction false} FailurePersists(dirPath: string, es: seq<Entry>, i: int, e: Error)
    requires 0 <= i <= |es| && FlattenEntries(dirPath, es[..i]) == Failure(e)
    ensures FlattenEntries(dirPath, es) == Failure(e)
    decreases |es|
  {
    if i < |es| {
      assert es[..|es| - 1][..i] == es[..i];
      FailurePersists(dirPath, es[..|es| - 1], i, e);
    } else {
      assert es[..i] == es;
    }
  }

  /** Every path a walk reports lies under the directory it started from. */
  lemma {:induction false} FlattenUnderDir(dirPath: string, listing: Listing)
    requires Flatten(dirPath, listing).Success?
    ensures forall p :: p in Flatten(dirPath, listing).value ==> HasPrefix(p, dirPath + "/")
    decreases listing
  {
    FlattenEntriesUnderDir(dirPath, listing.entries);
  }

  lemma {:induction false} FlattenEntriesUnderDir(dirPath: string, es: seq<Entry>)
    requires FlattenEntries(dirPath, es).Success?
    ensures forall p :: p in FlattenEntries(dirPath, es).value ==> HasPrefix(p, dirPath + "/")
    decreases es
  {
    if es != [] {
      FlattenEntriesUnderDir(dirPath, es[..|es| - 1]);
      match es[|es| - 1]
      case RegularFile(n) =>
      case Directory(n, c) =>
        var sub := PathJoin(dirPath, n);
        FlattenUnderDir(sub, c);
        forall p | p in Flatten(sub, c).value
          ensures HasPrefix(p, dirPath + "/")
        {
          assert p[..|sub + "/"|] == sub + "/";
          assert p[..|dirPath + "/"|] == (sub + "/")[..|dirPath + "/"|];
        }
      case OtherEntry(_) =>
    }
  }

  /** An unreadable subdirectory among the entries makes the whole walk fail, wherever it stands. */
  lemma {:induction false} FlattenFailsOnUnreadable(dirPath: string, es: seq<Entry>, k: int)
    requires 0 <= k < |es| && es[k].Directory? && es[k].contents.Unreadable?
    ensures FlattenEntries(dirPath, es).Failure?
    decreases es
  {
    if k < |es| - 1 {
      assert es[..|es| - 1][k] == es[k];
      FlattenFailsOnUnreadable(dirPath, es[..|es| - 1], k);
    }
  }

  /** A directory with no files anywhere below it yields the empty list; regular files are listed by joined path. */
  lemma FlattenShapes(dirPath: string, name: string)
    ensures Flatten(dirPath, Entries([])) == Success([])
    ensures Flatten(dirPath, Entries([RegularFile(name)])) == Success([PathJoin(dirPath, name)])
    ensures Flatten(dirPath, Entries([OtherEntry(name)])) == Success([])
  {
    assert [RegularFile(name)][..0] == [];
    assert [] + [PathJoin(dirPath, name)] == [PathJoin(dirPath, name)];
    assert [OtherEntry(name)][..0] == [];
  }
}
