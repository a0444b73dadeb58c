/** Two places where server.py, as written, does not do what its structure
    evidently intends, modelled as written so that the difference can be
    stated. The rest of the model uses the intended behaviour
    (`Handler.RequestHandler.HandleError`, `Cases.ListDir`). */
module Findings {
  import opened Encoding
  import opened Text
  import opened FileSystem
  import opened Pages
  import opened ContentTypes
  import opened Cases
  import opened Handler

  /** `str(exc)` of the `TypeError` that `wfile.write` raises when handed a
      `str` instead of bytes. */
  const TypeErrorText: string := "a bytes-like object is required, not 'str'"

  /** `str(exc)` of the `AttributeError` raised by `self.path` inside
      `list_dir`, where `self` is the case object, which has no `path`. */
  const AttributeErrorText: string := "'CaseDirectoryNoIndexFile' object has no attribute 'path'"

  /** `handle_error(msg)` as written, up to the failing write: the page stays
      a `str`, so the status and headers go out (Content-Length counting
      characters) and then `wfile.write(content)` raises. */
  function ErrorAttemptAsWritten(path: string, msg: string, ctype: string): (r: seq<Event>)
    ensures |r| == 4 && r[0] == StatusLine(404, DefaultReason) && r[3] == EndHeaders
    ensures forall k :: 0 <= k < |r| ==> !r[k].Write?
  {
    [StatusLine(404, DefaultReason), Header("Content-type", ctype),
     Header("Content-Length", Decimal(|ErrorPage(path, msg)|)), EndHeaders]
  }

  /** What `do_GET` emits for an outcome with `handle_error` as written. A
      raised `ServerException` reaches `handle_error` from the `except`
      clause, whose `TypeError` escapes `do_GET`. A direct `handle_error`
      (an unreadable file) fails inside the `try`, so the `except` clause
      calls `handle_error` a second time with the `TypeError`, which fails
      again and escapes. */
  function RespondAsWritten(o: Outcome, path: string, ctype: string): (r: seq<Event>)
    ensures o.Send? || o.RunCgi? ==> r == Respond(o, path, ctype)
    ensures o.HandleErr? || o.Raise? ==>
              |r| > 4 && r[0] == StatusLine(404, DefaultReason) && r[|r| - 1] == Unhandled(TypeErrorText)
  {
    match o
    case Send(content) => ResponseEvents(200, ctype, content)
    case HandleErr(msg) =>
      ErrorAttemptAsWritten(path, msg, ctype) + ErrorAttemptAsWritten(path, TypeErrorText, ctype)
        + [Unhandled(TypeErrorText)]
    case Raise(msg) => ErrorAttemptAsWritten(path, msg, ctype) + [Unhandled(TypeErrorText)]
    case RunCgi => [CgiHandoff(path)]
  }

  /** `list_dir` as written: a listing failure reaches the `except` clause,
      where `self.path` raises an `AttributeError` that leaves `act` and is
      caught by `do_GET`. */
  function ListDirAsWritten(fs: FileSystem, p: string): (o: Outcome)
    ensures o.Send? <==> ListDirectory(fs, p).Ok?
    ensures o.Send? ==> o == ListDir(fs, p)
    ensures !o.Send? ==> o == Raise(AttributeErrorText)
  {
    match ListDirectory(fs, p)
    case Ok(entries) => Send(ListingBody(entries))
    case IoError(_) => Raise(AttributeErrorText)
  }

  /** A case's `act` with `list_dir` as written; every other case acts as
      in the corrected model. */
  function ActAsWritten(c: Case, r: Request): (o: Outcome)
    ensures c != DirectoryNoIndexFile ==> o == Act(c, r)
    ensures o.Send? ==> o == Act(c, r)
  {
    if c == DirectoryNoIndexFile then ListDirAsWritten(r.fs, r.fullPath) else Act(c, r)
  }

  /** `do_GET`'s loop with `list_dir` as written. */
  function DispatchAsWritten(r: Request): (o: Outcome)
    ensures o.Send? || o.RunCgi? ==> o == Dispatch(r)
    ensures Dispatch(r).Send? || Dispatch(r).RunCgi? ==> o == Dispatch(r)
  {
    ChainAlwaysMatches(r);
    ActAsWritten(Chain[FirstMatch(Chain, r)], r)
  }

  /** `do_GET` as written. */
  function GetResponseAsWritten(fs: FileSystem, cwd: string, path: string, isCgi: bool,
                                guess: string -> string): (r: seq<Event>)
    ensures |r| > 0
    ensures r[0].StatusLine? && r[0].code == 404 ==> r[|r| - 1] == Unhandled(TypeErrorText)
  {
    var full := cwd + path;
    RespondAsWritten(DispatchAsWritten(Request(fs, path, full, isCgi)), path,
                     ContentType(guess(full), full))
  }

  /** As written, no error page is ever delivered: whenever a GET ends in an
      error, the handler writes no body at all and the request ends with the
      `TypeError` escaping `do_GET`. */
  lemma ErrorPageNeverSentAsWritten(o: Outcome, path: string, ctype: string)
    requires o.HandleErr? || o.Raise?
    ensures var r := RespondAsWritten(o, path, ctype);
            r[0] == StatusLine(404, DefaultReason) &&
            (forall k :: 0 <= k < |r| ==> !r[k].Write?) &&
            r[|r| - 1] == Unhandled(TypeErrorText)
  {
    var r := RespondAsWritten(o, path, ctype);
    var a := ErrorAttemptAsWritten(path, o.msg, ctype);
    if o.HandleErr? {
      var b := ErrorAttemptAsWritten(path, TypeErrorText, ctype);
      assert r == a + b + [Unhandled(TypeErrorText)];
      forall k | 0 <= k < |r| ensures !r[k].Write? {
        if k < 4 { assert r[k] == a[k]; } else if k < 8 { assert r[k] == b[k - 4]; }
      }
    } else {
      assert r == a + [Unhandled(TypeErrorText)];
      forall k | 0 <= k < |r| ensures !r[k].Write? {
        if k < 4 { assert r[k] == a[k]; }
      }
    }
  }

  /** The input that shows it: a GET for a path that does not exist (e.g.
      `/gone`). As written the client gets a 404 status and headers but no
      page; with the page encoded (the corrected handler) it gets the page,
      which names the request path. */
  lemma MissingPathAsWritten(fs: FileSystem, cwd: string, path: string, isCgi: bool,
                             guess: string -> string)
    requires '?' !in cwd
    requires !Exists(fs, cwd + StripQuery(path))
    ensures var r := GetResponseAsWritten(fs, cwd, path, isCgi, guess);
            (forall k :: 0 <= k < |r| ==> !r[k].Write?) && |r| > 0 && r[|r| - 1] == Unhandled(TypeErrorText)
    ensures var r := GetResponse(fs, cwd, path, isCgi, guess);
            |r| == 5 && r[4] == Write(Utf8(ErrorPage(path, "'" + path + "' not found")))
  {
    var full := cwd + path;
    var req := Request(fs, path, full, isCgi);
    StripQueryAfterPrefix(cwd, path);
    NotFoundWins(req);
    FirstMatchIs(Chain, req, 0);
    assert DispatchAsWritten(req) == Raise("'" + path + "' not found");
    ErrorPageNeverSentAsWritten(DispatchAsWritten(req), path, ContentType(guess(full), full));
    MissingPathIsNotFound(fs, cwd, path, isCgi, guess);
  }

  /** As written, a directory that cannot be listed is reported with the
      same message whatever the directory and whatever the error; corrected,
      the report names the directory and carries the OS error. */
  lemma ListingFailureAsWritten(fs: FileSystem, p: string)
    requires IsDir(fs, p) && fs[p].entries.IoError?
    ensures ListDirAsWritten(fs, p) == Raise(AttributeErrorText)
    ensures ListDir(fs, p) == HandleErr("'" + p + "' cannot be listed: " + fs[p].entries.msg)
  {
  }

  /** Where nothing fails, the code as written and the corrected model
      agree: the corrections touch only the error paths. */
  lemma AsWrittenAgreesOnSuccess(fs: FileSystem, cwd: string, path: string, isCgi: bool,
                                 guess: string -> string)
    requires Dispatch(Request(fs, path, cwd + path, isCgi)).Send? ||
             Dispatch(Request(fs, path, cwd + path, isCgi)).RunCgi?
    ensures GetResponseAsWritten(fs, cwd, path, isCgi, guess) == GetResponse(fs, cwd, path, isCgi, guess)
  {
    var req := Request(fs, path, cwd + path, isCgi);
    ChainAlwaysMatches(req);
    var c := Chain[FirstMatch(Chain, req)];
    if c == DirectoryNoIndexFile {
      assert ListDir(fs, cwd + path).Send?;
    }
  }
}
