/** The case chain that classifies a GET request: six stateless rules, each
    a test on the request and an action, tried in a fixed order. */
module Cases {
  import opened Encoding
  import opened Text
  import opened FileSystem
  import opened Pages

  /** The rule kinds, one per case class. */
  datatype Case =
    | NoFile
    | CgiFile
    | ExistingFile
    | DirectoryIndexFile
    | DirectoryNoIndexFile
    | AlwaysFail

  /** `RequestHandler.Cases`, in the order they are tried. */
  const Chain: seq<Case> :=
    [NoFile, CgiFile, ExistingFile, DirectoryIndexFile, DirectoryNoIndexFile, AlwaysFail]

  /** What a case sees of the handler while it classifies one GET: the
      filesystem, the raw request path (query included), the full path
      `os.getcwd() + path`, and what the library's `is_cgi()` answers for
      this request. */
  datatype Request = Request(fs: FileSystem, path: string, fullPath: string, isCgi: bool)

  /** `BaseCase.index_path`: `index.html` joined onto the full path. */
  function IndexPath(fullPath: string): (r: string)
    ensures fullPath <= r
  {
    JoinPath(fullPath, "index.html")
  }

  /** The index path always names a file called `index.html`, whatever the
      full path looks like. */
  lemma IndexPathNamesIndex(fullPath: string)
    ensures Basename(IndexPath(fullPath)) == "index.html"
    ensures EndsWith(IndexPath(fullPath), "index.html")
    ensures fullPath <= IndexPath(fullPath)
    ensures |IndexPath(fullPath)| <= |fullPath| + 1 + |"index.html"|
    ensures fullPath != "" && fullPath[|fullPath| - 1] == '/' ==>
              IndexPath(fullPath) == fullPath + "index.html"
    ensures fullPath != "" && fullPath[|fullPath| - 1] != '/' ==>
              IndexPath(fullPath) == fullPath + "/index.html"
  {
    BasenameOfJoin(fullPath, "index.html");
  }

  /** What a case's `act` does: send content (status 200), call
      `handle_error` itself, raise a `ServerException` that `do_GET`
      catches, or hand the request to the library's CGI runner. */
  datatype Outcome =
    | Send(content: seq<byte>)
    | HandleErr(msg: string)
    | Raise(msg: string)
    | RunCgi

  /** Each case's `test`. */
  predicate Test(c: Case, r: Request)
    ensures c == AlwaysFail ==> Test(c, r)
    ensures Test(c, r) && (c == ExistingFile || c == DirectoryIndexFile || c == DirectoryNoIndexFile) ==>
              Exists(r.fs, r.fullPath)
    ensures Test(c, r) && c == NoFile ==> StripQuery(r.fullPath) !in r.fs
  {
    match c
    case NoFile => !Exists(r.fs, StripQuery(r.fullPath))
    case CgiFile => r.isCgi
    case ExistingFile => IsFile(r.fs, r.fullPath)
    case DirectoryIndexFile => IsDir(r.fs, r.fullPath) && IsFile(r.fs, IndexPath(r.fullPath))
    case DirectoryNoIndexFile => IsDir(r.fs, r.fullPath) && !IsFile(r.fs, IndexPath(r.fullPath))
    case AlwaysFail => true
  }

  /** `BaseCase.handle_file`: send the file's bytes, or report through
      `handle_error` that it cannot be read. */
  function HandleFile(fs: FileSystem, p: string): (o: Outcome)
    ensures o.Send? || o.HandleErr?
    ensures o.Send? <==> ReadFile(fs, p).Ok?
    ensures o.Send? ==> o.content == ReadFile(fs, p).value
    ensures o.HandleErr? ==> o.msg == "'" + p + "' cannot be read: " + ReadFile(fs, p).msg
  {
    match ReadFile(fs, p)
    case Ok(content) => Send(content)
    case IoError(err) => HandleErr("'" + p + "' cannot be read: " + err)
  }

  /** `CaseDirectoryNoIndexFile.list_dir`, with the listing failure reported
      under the directory's path (see `Findings.ListDirAsWritten` for the
      code as written): send the listing page, or report through
      `handle_error` that the directory cannot be listed. */
  function ListDir(fs: FileSystem, p: string): (o: Outcome)
    ensures o.Send? || o.HandleErr?
    ensures o.Send? <==> ListDirectory(fs, p).Ok?
    ensures o.Send? ==> o.content == ListingBody(ListDirectory(fs, p).value)
    ensures o.HandleErr? ==> o.msg == "'" + p + "' cannot be listed: " + ListDirectory(fs, p).msg
  {
    match ListDirectory(fs, p)
    case Ok(entries) => Send(ListingBody(entries))
    case IoError(err) => HandleErr("'" + p + "' cannot be listed: " + err)
  }

  /** Each case's `act`. The two failures name the raw request path. */
  function Act(c: Case, r: Request): (o: Outcome)
    ensures o.Raise? <==> c == NoFile || c == AlwaysFail
    ensures o.RunCgi? <==> c == CgiFile
  {
    match c
    case NoFile => Raise("'" + r.path + "' not found")
    case CgiFile => RunCgi
    case ExistingFile => HandleFile(r.fs, r.fullPath)
    case DirectoryIndexFile => HandleFile(r.fs, IndexPath(r.fullPath))
    case DirectoryNoIndexFile => ListDir(r.fs, r.fullPath)
    case AlwaysFail => Raise("Unknown object '" + r.path + "'")
  }

  /** The position of the first case whose test holds, or `|cases|` when
      none does. */
  function FirstMatch(cases: seq<Case>, r: Request): (i: nat)
    ensures i <= |cases|
    ensures i < |cases| ==> Test(cases[i], r)
    ensures forall j :: 0 <= j < i ==> !Test(cases[j], r)
  {
    if cases == [] then 0
    else if Test(cases[0], r) then 0
    else 1 + FirstMatch(cases[1..], r)
  }

  /** A case whose test holds while no earlier one's does is the first match. */
  lemma FirstMatchIs(cases: seq<Case>, r: Request, i: nat)
    requires i < |cases| && Test(cases[i], r)
    requires forall j :: 0 <= j < i ==> !Test(cases[j], r)
    ensures FirstMatch(cases, r) == i
  {
    assert FirstMatch(cases, r) <= i;
  }

  /** The chain ends with the case whose test always holds, so some case
      always matches and exactly one acts. */
  lemma ChainAlwaysMatches(r: Request)
    ensures Chain[|Chain| - 1] == AlwaysFail && Test(AlwaysFail, r)
    ensures FirstMatch(Chain, r) < |Chain|
  {
    assert Test(Chain[|Chain| - 1], r);
  }

  /** `do_GET`'s loop as a value: the action of the first case whose test
      holds. */
  function Dispatch(r: Request): (o: Outcome)
    ensures !Exists(r.fs, StripQuery(r.fullPath)) ==> o.Raise?
    ensures o.RunCgi? ==> r.isCgi
    ensures o.Send? ==> IsFile(r.fs, r.fullPath) || IsDir(r.fs, r.fullPath)
    ensures o.Raise? ==>
              !Exists(r.fs, StripQuery(r.fullPath)) ||
              (!IsFile(r.fs, r.fullPath) && !IsDir(r.fs, r.fullPath))
  {
    ChainAlwaysMatches(r);
    var i := FirstMatch(Chain, r);
    assert i == 5 ==> !Test(Chain[2], r) && !Test(Chain[3], r) && !Test(Chain[4], r);
    Act(Chain[i], r)
  }

  /** A directory is served by exactly one of the two directory cases,
      chosen by whether `index.html` under it is a regular file; a path that
      is not a directory is served by neither. */
  lemma DirectoryCasesPartition(r: Request)
    ensures IsDir(r.fs, r.fullPath) ==>
              (Test(DirectoryIndexFile, r) <==> !Test(DirectoryNoIndexFile, r))
    ensures IsDir(r.fs, r.fullPath) ==>
              (Test(DirectoryIndexFile, r) <==> IsFile(r.fs, IndexPath(r.fullPath)))
    ensures !IsDir(r.fs, r.fullPath) ==>
              !Test(DirectoryIndexFile, r) && !Test(DirectoryNoIndexFile, r)
  {
  }

  /** A path that does not exist (its query stripped) is reported as not
      found, naming the raw request path, whatever the other cases would
      say: NoFile comes first. */
  lemma NotFoundWins(r: Request)
    requires !Exists(r.fs, StripQuery(r.fullPath))
    ensures Dispatch(r) == Raise("'" + r.path + "' not found")
  {
    FirstMatchIs(Chain, r, 0);
  }

  /** When the working directory itself holds a `?`, the not-found test no
      longer depends on the request path: it holds for every request when
      the part of the directory before the `?` is absent, and for none when
      it exists. */
  lemma NotFoundIgnoresPathUnderQueryRoot(fs: FileSystem, cwd: string, path: string, isCgi: bool)
    requires '?' in cwd
    ensures Test(NoFile, Request(fs, path, cwd + path, isCgi)) <==> !Exists(fs, StripQuery(cwd))
  {
    StripQueryInsidePrefix(cwd, path);
  }

  /** A CGI request for something that exists goes to the CGI runner, before
      any file or directory case is tried. */
  lemma CgiBeforeFiles(r: Request)
    requires Exists(r.fs, StripQuery(r.fullPath)) && r.isCgi
    ensures Dispatch(r) == RunCgi
  {
    FirstMatchIs(Chain, r, 1);
  }

  /** A regular file at the full path is served by `handle_file`: its bytes
      when it is readable, an error naming it when not. */
  lemma ExistingFileServed(r: Request)
    requires Exists(r.fs, StripQuery(r.fullPath)) && !r.isCgi
    requires IsFile(r.fs, r.fullPath)
    ensures Dispatch(r) == HandleFile(r.fs, r.fullPath)
    ensures r.fs[r.fullPath].data.Ok? ==> Dispatch(r) == Send(r.fs[r.fullPath].data.value)
  {
    FirstMatchIs(Chain, r, 2);
  }

  /** A directory with a regular file `index.html` is served that file, not
      a listing. */
  lemma DirectoryIndexServed(r: Request)
    requires Exists(r.fs, StripQuery(r.fullPath)) && !r.isCgi
    requires IsDir(r.fs, r.fullPath) && IsFile(r.fs, IndexPath(r.fullPath))
    ensures Dispatch(r) == HandleFile(r.fs, IndexPath(r.fullPath))
    ensures r.fs[IndexPath(r.fullPath)].data.Ok? ==>
              Dispatch(r) == Send(r.fs[IndexPath(r.fullPath)].data.value)
  {
    FirstMatchIs(Chain, r, 3);
  }

  /** A directory without a regular file `index.html` is served its listing:
      the bullets of exactly its visible entries, in enumeration order. */
  lemma DirectoryListed(r: Request)
    requires Exists(r.fs, StripQuery(r.fullPath)) && !r.isCgi
    requires IsDir(r.fs, r.fullPath) && !IsFile(r.fs, IndexPath(r.fullPath))
    ensures Dispatch(r) == ListDir(r.fs, r.fullPath)
    ensures r.fs[r.fullPath].entries.Ok? ==>
              Dispatch(r) == Send(ListingBody(r.fs[r.fullPath].entries.value))
  {
    FirstMatchIs(Chain, r, 4);
  }

  /** Something that exists once its query is stripped, but whose full path
      (query included) is neither a regular file nor a directory, reaches the
      last case and is an unknown object. */
  lemma UnknownObject(r: Request)
    requires Exists(r.fs, StripQuery(r.fullPath)) && !r.isCgi
    requires !IsFile(r.fs, r.fullPath) && !IsDir(r.fs, r.fullPath)
    ensures Dispatch(r) == Raise("Unknown object '" + r.path + "'")
  {
    FirstMatchIs(Chain, r, 5);
  }
}
