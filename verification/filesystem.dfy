/** The filesystem as the server sees it, as a value: a map from the exact
    path strings the server passes to `os.path.*`, `open` and `os.listdir`
    to what lies there. Also the two `posixpath` operations the server uses
    to build paths, `join` and `basename`. */
module FileSystem {
  import opened Encoding
  import opened Text

  /** The outcome of an I/O call: a value, or the text of the `OSError`
      (`str(exc)`) it raised. */
  datatype IoResult<T> = Ok(value: T) | IoError(msg: string)

  /** What a path names. A file's bytes, and a directory's entries in the
      order `os.listdir` enumerates them, may be unreadable (permission
      denied, an I/O fault): then they hold the error that reading raises.
      `Special` is anything that exists but is neither a regular file nor a
      directory (a socket, a FIFO, a device). */
  datatype Node =
    | File(data: IoResult<seq<byte>>)
    | Dir(entries: IoResult<seq<string>>)
    | Special

  type FileSystem = map<string, Node>

  /** `os.path.exists(p)`. */
  predicate Exists(fs: FileSystem, p: string) { p in fs }

  /** `os.path.isfile(p)`. */
  predicate IsFile(fs: FileSystem, p: string)
    ensures IsFile(fs, p) ==> Exists(fs, p)
  {
    p in fs && fs[p].File?
  }

  /** `os.path.isdir(p)`. */
  predicate IsDir(fs: FileSystem, p: string)
    ensures IsDir(fs, p) ==> Exists(fs, p) && !IsFile(fs, p)
  {
    p in fs && fs[p].Dir?
  }

  /** `str(OSError(errno, strerror, filename))`, e.g.
      `[Errno 2] No such file or directory: '/srv/x'`. */
  function OsErrorText(errno: nat, strerror: string, filename: string): string
  {
    "[Errno " + Decimal(errno) + "] " + strerror + ": '" + filename + "'"
  }

  function NoSuchFile(p: string): string { OsErrorText(2, "No such file or directory", p) }
  function NoSuchDevice(p: string): string { OsErrorText(6, "No such device or address", p) }
  function NotADirectory(p: string): string { OsErrorText(20, "Not a directory", p) }
  function IsADirectory(p: string): string { OsErrorText(21, "Is a directory", p) }

  /** `open(p, 'rb').read()`: the bytes of a readable regular file; every
      other path raises. */
  function ReadFile(fs: FileSystem, p: string): (r: IoResult<seq<byte>>)
    ensures r.Ok? ==> IsFile(fs, p)
    ensures IsFile(fs, p) ==> r == fs[p].data
    ensures !Exists(fs, p) ==> r == IoError(NoSuchFile(p))
  {
    if p !in fs then IoError(NoSuchFile(p))
    else match fs[p]
      case File(data) => data
      case Dir(_) => IoError(IsADirectory(p))
      case Special => IoError(NoSuchDevice(p))
  }

  /** `os.listdir(p)`: the entries of a readable directory; every other path
      raises. */
  function ListDirectory(fs: FileSystem, p: string): (r: IoResult<seq<string>>)
    ensures r.Ok? ==> IsDir(fs, p)
    ensures IsDir(fs, p) ==> r == fs[p].entries
    ensures !Exists(fs, p) ==> r == IoError(NoSuchFile(p))
  {
    if p !in fs then IoError(NoSuchFile(p))
    else match fs[p]
      case Dir(entries) => entries
      case _ => IoError(NotADirectory(p))
  }

  /** `posixpath.join(a, b)`: `b` alone when it is absolute, otherwise `b`
      appended to `a` with one `/` between them unless `a` is empty or
      already ends in `/`. */
  function JoinPath(a: string, b: string): (r: string)
    ensures EndsWith(r, b)
    ensures |b| > 0 && b[0] == '/' ==> r == b
    ensures !(|b| > 0 && b[0] == '/') ==> a <= r && |a| + |b| <= |r| <= |a| + 1 + |b|
    ensures !(|b| > 0 && b[0] == '/') && |r| == |a| + 1 + |b| ==> r[|a|] == '/'
    ensures !(|b| > 0 && b[0] == '/') && a == "" ==> r == b
    ensures !(|b| > 0 && b[0] == '/') && a != "" ==> (|r| == |a| + |b| <==> a[|a| - 1] == '/')
  {
    EndsWithAppended(a, b);
    EndsWithAppended(a + "/", b);
    EndsWithAppended([], b);
    if |b| > 0 && b[0] == '/' then b
    else if a == "" || a[|a| - 1] == '/' then a + b
    else a + "/" + b
  }

  /** `p.rfind('/') + 1`: the position just after the last `/`, or `0`
      when there is none. */
  function AfterLastSlash(p: string): (k: nat)
    ensures k <= |p|
    ensures k > 0 ==> p[k - 1] == '/'
    ensures forall j :: k <= j < |p| ==> p[j] != '/'
  {
    if p == [] then 0
    else if p[|p| - 1] == '/' then |p|
    else AfterLastSlash(p[..|p| - 1])
  }

  /** A position preceded by `/` (or at the start) with no `/` after it is
      the one after the last `/`. */
  lemma AfterLastSlashUnique(p: string, k: nat)
    requires k <= |p| && (k > 0 ==> p[k - 1] == '/')
    requires forall j :: k <= j < |p| ==> p[j] != '/'
    ensures AfterLastSlash(p) == k
  {
  }

  /** `posixpath.basename(p)`: `p[p.rfind('/') + 1:]`. */
  function Basename(p: string): (r: string)
    ensures EndsWith(p, r)
    ensures |r| < |p| ==> EndsWith(p, "/" + r)
  {
    p[AfterLastSlash(p)..]
  }

  /** The base name is the last component of `p`: besides being a suffix
      of `p` that is all of it or follows a `/`, it holds no `/` itself. */
  lemma BasenameIsLastComponent(p: string)
    ensures '/' !in Basename(p)
  {
    var k := AfterLastSlash(p);
    var r := Basename(p);
    forall i | 0 <= i < |r|
      ensures r[i] != '/'
    {
      assert r[i] == p[k + i];
    }
  }

  /** A name appended after a `/`, or at the very start, is the base name. */
  lemma BasenameAfterSlash(pre: string, b: string)
    requires '/' !in b
    requires pre == [] || pre[|pre| - 1] == '/'
    ensures Basename(pre + b) == b
  {
    var p := pre + b;
    assert forall j :: |pre| <= j < |p| ==> p[j] == b[j - |pre|];
    AfterLastSlashUnique(p, |pre|);
    assert p[|pre|..] == b;
  }

  /** The base name of a joined path is the name that was joined on, when
      that name is a single, non-empty path component: `basename` undoes
      `join`, as for `index.html` under a directory. */
  lemma BasenameOfJoin(a: string, b: string)
    requires b != [] && '/' !in b
    ensures Basename(JoinPath(a, b)) == b
  {
    assert b[0] in b;
    if a == "" || a[|a| - 1] == '/' {
      BasenameAfterSlash(a, b);
    } else {
      BasenameAfterSlash(a + "/", b);
      assert a + "/" + b == (a + "/") + b;
    }
  }

  /** Where `open(name, 'wb')` puts a file, `name` being relative to the
      process's working directory `cwd`; or the error it raises: an empty
      name names nothing, `.` and `..` and existing directories cannot be
      opened for writing, and a special file refuses. */
  function WriteTarget(fs: FileSystem, cwd: string, name: string): (r: IoResult<string>)
    ensures name == "" ==> r == IoError(NoSuchFile(name))
    ensures r.Ok? ==> r.value == JoinPath(cwd, name)
    ensures r.Ok? ==> name != "" && !IsDir(fs, r.value) && EndsWith(r.value, name)
    ensures (name != "" && name != "." && name != ".." &&
             (JoinPath(cwd, name) !in fs || IsFile(fs, JoinPath(cwd, name)))) ==> r.Ok?
  {
    var target := JoinPath(cwd, name);
    if name == "" then IoError(NoSuchFile(name))
    else if name == "." || name == ".." || IsDir(fs, target) then IoError(IsADirectory(name))
    else if target in fs && fs[target].Special? then IoError(NoSuchDevice(name))
    else Ok(target)
  }

  /** Whether writing `name` creates a new entry in the listable directory
      `cwd`: a plain name (no `/`) whose target does not exist yet. */
  predicate AddsEntry(fs: FileSystem, cwd: string, name: string)
  {
    '/' !in name && JoinPath(cwd, name) !in fs &&
    cwd in fs && fs[cwd].Dir? && fs[cwd].entries.Ok?
  }

  /** `open(name, 'wb').write(data)`: the filesystem afterwards, in which the
      target holds exactly `data`, a newly created file's name is listed by
      its directory (after the entries it had), and no other path has
      changed. */
  function WriteFile(fs: FileSystem, cwd: string, name: string, data: seq<byte>): (r: IoResult<FileSystem>)
    ensures r.Ok? <==> WriteTarget(fs, cwd, name).Ok?
    ensures r.Ok? ==> ReadFile(r.value, WriteTarget(fs, cwd, name).value) == Ok(data)
    ensures r.Ok? && AddsEntry(fs, cwd, name) ==>
              ListDirectory(r.value, cwd) == Ok(fs[cwd].entries.value + [name])
    ensures r.Ok? ==>
              forall q :: (q != WriteTarget(fs, cwd, name).value && !(q == cwd && AddsEntry(fs, cwd, name))) ==>
                (q in fs <==> q in r.value) && (q in fs ==> r.value[q] == fs[q])
  {
    match WriteTarget(fs, cwd, name)
    case Ok(target) =>
      var written := fs[target := File(Ok(data))];
      if AddsEntry(fs, cwd, name) then
        assert target != cwd by {
          assert name[0] in name;
          assert |target| >= |cwd| + |name| && |name| > 0;
        }
        Ok(written[cwd := Dir(Ok(fs[cwd].entries.value + [name]))])
      else Ok(written)
    case IoError(msg) => IoError(msg)
  }
}
