/** The request handler: what it hands to the HTTP library for each request
    (status line, headers, body), its `do_GET` loop over the case chain, and
    its POST and PUT replies. The library's connection plumbing is not
    modelled; each handler records, in order, the calls it makes into it. */
module Handler {
  import opened Encoding
  import opened Text
  import opened FileSystem
  import opened Pages
  import opened ContentTypes
  import opened Cases

  /** The reason phrase given to `send_response`: the library's default for
      the code, or an explicit one. */
  datatype Reason = DefaultReason | Phrase(text: string)

  /** One call into the HTTP library, or an exception escaping the handler
      method (which ends the request without further output). */
  datatype Event =
    | StatusLine(code: int, reason: Reason)   // send_response
    | Header(name: string, value: string)     // send_header
    | EndHeaders                              // end_headers
    | Write(data: seq<byte>)                  // wfile.write
    | CgiHandoff(path: string)                // the library's run_cgi
    | Unhandled(error: string)                // an exception leaving do_GET / do_PUT

  /** What `send_content(content, status)` emits: the status, the content
      type, a Content-Length that reads back as the body's length in bytes,
      the end of the headers, and the body itself, in that order. */
  function ResponseEvents(status: int, ctype: string, content: seq<byte>): (r: seq<Event>)
    ensures |r| == 5 && r[0] == StatusLine(status, DefaultReason) && r[3] == EndHeaders
    ensures r[1] == Header("Content-type", ctype)
    ensures r[2].Header? && r[2].name == "Content-Length" && IsDigits(r[2].value)
    ensures DecimalValue(r[2].value) == |content|
    ensures r[4] == Write(content)
  {
    DecimalRoundTrip(|content|);
    [StatusLine(status, DefaultReason), Header("Content-type", ctype),
     Header("Content-Length", Decimal(|content|)), EndHeaders, Write(content)]
  }

  /** What `handle_error(msg)` emits: the error page for the raw request
      path, UTF-8 encoded, with status 404. */
  function ErrorEvents(path: string, msg: string, ctype: string): (r: seq<Event>)
    ensures |r| == 5 && r[0] == StatusLine(404, DefaultReason)
    ensures r[4] == Write(Utf8(ErrorPage(path, msg)))
  {
    ResponseEvents(404, ctype, Utf8(ErrorPage(path, msg)))
  }

  /** What `do_GET` emits for a case's action: content is sent with status
      200; a direct `handle_error` and a caught `ServerException` both end in
      the error page; a CGI request goes to the library's runner. */
  function Respond(o: Outcome, path: string, ctype: string): (r: seq<Event>)
    ensures o.RunCgi? <==> r == [CgiHandoff(path)]
    ensures o.Send? ==> |r| == 5 && r[0] == StatusLine(200, DefaultReason) && r[4] == Write(o.content)
    ensures (o.HandleErr? || o.Raise?) ==>
              |r| == 5 && r[0] == StatusLine(404, DefaultReason) &&
              r[4] == Write(Utf8(ErrorPage(path, o.msg)))
    ensures !o.RunCgi? ==> r[1] == Header("Content-type", ctype)
  {
    match o
    case Send(content) => ResponseEvents(200, ctype, content)
    case HandleErr(msg) => ErrorEvents(path, msg, ctype)
    case Raise(msg) => ErrorEvents(path, msg, ctype)
    case RunCgi => [CgiHandoff(path)]
  }

  /** Everything `do_GET` emits for a request for `path`, with the server
      rooted at `cwd` and `guess` the library's MIME guess. The content type
      is always guessed from the full path of the request, whichever file or
      page is sent. */
  function GetResponse(fs: FileSystem, cwd: string, path: string, isCgi: bool,
                       guess: string -> string): (r: seq<Event>)
    ensures |r| == 1 || |r| == 5
    ensures |r| == 1 ==> isCgi && r == [CgiHandoff(path)]
    ensures |r| == 5 ==> r[1] == Header("Content-type", ContentType(guess(cwd + path), cwd + path))
  {
    var full := cwd + path;
    Respond(Dispatch(Request(fs, path, full, isCgi)), path, ContentType(guess(full), full))
  }

  /** Every GET ends in exactly one response: a CGI hand-off, or a status
      line with 200 (content) or 404 (an error page) whose Content-Length
      reads back as the length of the body that follows it. */
  lemma GetResponseShape(fs: FileSystem, cwd: string, path: string, isCgi: bool,
                         guess: string -> string)
    ensures var r := GetResponse(fs, cwd, path, isCgi, guess);
            r == [CgiHandoff(path)] ||
            (|r| == 5 && r[0].StatusLine? && (r[0].code == 200 || r[0].code == 404) &&
             r[2].Header? && IsDigits(r[2].value) && r[4].Write? &&
             DecimalValue(r[2].value) == |r[4].data|)
  {
  }

  /** For every path that does not exist once its query is stripped, GET
      answers 404 with the error page naming the raw request path, whatever
      later case would have matched. */
  lemma MissingPathIsNotFound(fs: FileSystem, cwd: string, path: string, isCgi: bool,
                              guess: string -> string)
    requires '?' !in cwd
    requires !Exists(fs, cwd + StripQuery(path))
    ensures GetResponse(fs, cwd, path, isCgi, guess) ==
            ErrorEvents(path, "'" + path + "' not found", ContentType(guess(cwd + path), cwd + path))
  {
    StripQueryAfterPrefix(cwd, path);
    NotFoundWins(Request(fs, path, cwd + path, isCgi));
  }

  /** For every readable regular file requested without a query, GET
      answers 200 with exactly the file's bytes. */
  lemma ExistingFileResponse(fs: FileSystem, cwd: string, path: string,
                             guess: string -> string, data: seq<byte>)
    requires '?' !in cwd && '?' !in path
    requires cwd + path in fs && fs[cwd + path] == File(Ok(data))
    ensures GetResponse(fs, cwd, path, false, guess) ==
            ResponseEvents(200, ContentType(guess(cwd + path), cwd + path), data)
  {
    StripQueryAfterPrefix(cwd, path);
    StripQueryUnique(path, path);
    ExistingFileServed(Request(fs, path, cwd + path, false));
  }

  /** A directory requested without a query, holding a readable regular
      file `index.html`, is answered 200 with that file's bytes. */
  lemma DirectoryIndexResponse(fs: FileSystem, cwd: string, path: string,
                               guess: string -> string, page: seq<byte>)
    requires '?' !in cwd && '?' !in path
    requires IsDir(fs, cwd + path)
    requires IndexPath(cwd + path) in fs && fs[IndexPath(cwd + path)] == File(Ok(page))
    ensures GetResponse(fs, cwd, path, false, guess) ==
            ResponseEvents(200, ContentType(guess(cwd + path), cwd + path), page)
  {
    StripQueryAfterPrefix(cwd, path);
    StripQueryUnique(path, path);
    DirectoryIndexServed(Request(fs, path, cwd + path, false));
  }

  /** A listable directory requested without a query, with no regular file
      `index.html`, is answered 200 with the listing of its visible entries. */
  lemma DirectoryListingResponse(fs: FileSystem, cwd: string, path: string,
                                 guess: string -> string, entries: seq<string>)
    requires '?' !in cwd && '?' !in path
    requires cwd + path in fs && fs[cwd + path] == Dir(Ok(entries))
    requires !IsFile(fs, IndexPath(cwd + path))
    ensures GetResponse(fs, cwd, path, false, guess) ==
            ResponseEvents(200, ContentType(guess(cwd + path), cwd + path), ListingBody(entries))
  {
    StripQueryAfterPrefix(cwd, path);
    StripQueryUnique(path, path);
    DirectoryListed(Request(fs, path, cwd + path, false));
  }

  /** An existing file asked for with a query string (`/f?x`) is not served:
      only the NoFile test strips the query, so every later test looks at a
      path that does not exist and the request ends as an unknown object. */
  lemma QueryFallsThrough(fs: FileSystem, cwd: string, path: string, query: string,
                          guess: string -> string)
    requires '?' !in cwd && '?' !in path
    requires IsFile(fs, cwd + path)
    requires cwd + path + "?" + query !in fs
    ensures var raw := path + "?" + query;
            GetResponse(fs, cwd, raw, false, guess) ==
            ErrorEvents(raw, "Unknown object '" + raw + "'",
                        ContentType(guess(cwd + raw), cwd + raw))
  {
    var raw := path + "?" + query;
    assert cwd + raw == cwd + path + "?" + query;
    StripQueryAfterPrefix(cwd, raw);
    assert StripQuery(raw) == path by {
      StripQueryUnique(raw, path);
    }
    UnknownObject(Request(fs, raw, cwd + raw, false));
  }

  /** A `BytesIO` buffer: bytes appended by `write`, read by `getvalue`. */
  class ByteBuffer {
    var data: seq<byte>

    constructor ()
      ensures data == []
    {
      data := [];
    }

    method Write(b: seq<byte>)
      modifies this
      ensures data == old(data) + b
    {
      data := data + b;
    }
  }

  /** The events `do_PUT` emits after saving `name`: 201 Created, no headers,
      and the confirmation naming the file. */
  function PutEvents(name: string): (r: seq<Event>)
    ensures |r| == 3 && r[0] == StatusLine(201, Phrase("Created")) && r[1] == EndHeaders
    ensures r[2].Write? && r[2].data == Utf8(PutReply(name))
  {
    [StatusLine(201, Phrase("Created")), EndHeaders, Write(Utf8(PutReply(name)))]
  }

  /** One handler serving one request for `path`. `fs` is the filesystem it
      sees (PUT changes it); `sent` is every call made into the HTTP
      library so far, in order. */
  class RequestHandler {
    const path: string
    const cwd: string
    const isCgi: bool
    const guess: string -> string
    var fs: FileSystem
    var fullPath: string
    var sent: seq<Event>
    var closeConnection: bool

    constructor (path: string, cwd: string, isCgi: bool, guess: string -> string, fs: FileSystem)
      ensures this.path == path && this.cwd == cwd && this.isCgi == isCgi && this.guess == guess
      ensures this.fs == fs && fullPath == "" && sent == [] && !closeConnection
    {
      this.path, this.cwd, this.isCgi, this.guess := path, cwd, isCgi, guess;
      this.fs := fs;
      fullPath, sent, closeConnection := "", [], false;
    }

    /** The handler as the cases see it. */
    function CurrentRequest(): Request
      reads this
    {
      Request(fs, path, fullPath, isCgi)
    }

    /** The content type `send_content` would announce now. */
    function CurrentType(): string
      reads this
    {
      ContentType(guess(fullPath), fullPath)
    }

    /** `send_content(content, status)`. */
    method SendContent(content: seq<byte>, status: int)
      modifies this`sent
      ensures sent == old(sent) + ResponseEvents(status, CurrentType(), content)
    {
      sent := sent + [StatusLine(status, DefaultReason)];
      var ctype := GuessType(guess(fullPath), fullPath);
      if ctype == OctetStream {
        ctype := Html;
      }
      sent := sent + [Header("Content-type", ctype)];
      sent := sent + [Header("Content-Length", Decimal(|content|))];
      sent := sent + [EndHeaders];
      sent := sent + [Write(content)];
    }

    /** `handle_error(msg)`, sending the page as UTF-8 bytes. */
    method HandleError(msg: string)
      modifies this`sent
      ensures sent == old(sent) + ErrorEvents(path, msg, CurrentType())
    {
      var content := ErrorPage(path, msg);
      SendContent(Utf8(content), 404);
    }

    /** Carry out a case's action; a raised `ServerException` is caught and
      reported, as `do_GET`'s `except` clause does. */
    method Perform(o: Outcome)
      modifies this`sent
      ensures sent == old(sent) + Respond(o, path, CurrentType())
    {
      match o
      case Send(content) => SendContent(content, 200);
      case HandleErr(msg) => HandleError(msg);
      case Raise(msg) => HandleError(msg);
      case RunCgi => sent := sent + [CgiHandoff(path)];
    }

    /** `do_GET`: set the full path, then run the action of the first case
      whose test holds and stop. */
    method DoGet()
      modifies this`fullPath, this`sent
      ensures fullPath == cwd + path
      ensures sent == old(sent) + GetResponse(fs, cwd, path, isCgi, guess)
    {
      fullPath := cwd + path;
      var request := CurrentRequest();
      ChainAlwaysMatches(request);
      var i := 0;
      while i < |Chain|
        invariant i <= FirstMatch(Chain, request)
        invariant sent == old(sent)
      {
        var c := Chain[i];
        if Test(c, request) {
          assert i == FirstMatch(Chain, request);
          var o := Act(c, request);
          assert o == Dispatch(request);
          Perform(o);
          break;
        }
        i := i + 1;
      }
    }

    /** `do_POST(body)`: 200, no headers, and the body echoed after a fixed
      preamble, assembled in a buffer by three writes. */
    method DoPost(body: seq<byte>)
      modifies this`sent, this`closeConnection
      ensures sent == old(sent) + [StatusLine(200, DefaultReason), EndHeaders, Write(PostReply(body))]
      ensures closeConnection
    {
      sent := sent + [StatusLine(200, DefaultReason), EndHeaders];
      var response := new ByteBuffer();
      response.Write(PostIntro);
      response.Write(PostReceived);
      response.Write(body);
      assert response.data == PostReply(body);
      sent := sent + [Write(response.data)];
      closeConnection := true;
    }

    /** `do_PUT(body)`: save the body under the request path's base name,
      relative to the working directory, then answer 201 naming the file.
      When the file cannot be opened for writing, the exception leaves the
      handler before anything is sent and nothing changes. */
    method DoPut(body: seq<byte>)
      modifies this`fs, this`sent, this`closeConnection
      ensures var written := WriteFile(old(fs), cwd, Basename(path), body);
              if written.Ok? then
                fs == written.value && closeConnection &&
                sent == old(sent) + PutEvents(Basename(path))
              else
                fs == old(fs) && closeConnection == old(closeConnection) &&
                sent == old(sent) + [Unhandled(written.msg)]
    {
      var filename := Basename(path);
      var written := WriteFile(fs, cwd, filename, body);
      Commit(written, filename);
    }

    /** What follows the attempt to write: the new filesystem and the 201
      answer, or the exception leaving the handler with nothing changed. */
    method Commit(written: IoResult<FileSystem>, filename: string)
      modifies this`fs, this`sent, this`closeConnection
      ensures if written.Ok? then
                fs == written.value && closeConnection &&
                sent == old(sent) + PutEvents(filename)
              else
                fs == old(fs) && closeConnection == old(closeConnection) &&
                sent == old(sent) + [Unhandled(written.msg)]
    {
      if written.IoError? {
        sent := sent + [Unhandled(written.msg)];
      } else {
        fs := written.value;
        SendCreated(filename);
        closeConnection := true;
      }
    }

    /** The tail of `do_PUT`: `send_response(201, 'Created')`,
      `end_headers()`, then the encoded confirmation. */
    method SendCreated(filename: string)
      modifies this`sent
      ensures sent == old(sent) + PutEvents(filename)
    {
      sent := sent + [StatusLine(201, Phrase("Created"))];
      sent := sent + [EndHeaders];
      var replyBody := PutReply(filename);
      sent := sent + [Write(Utf8(replyBody))];
    }
  }
}
