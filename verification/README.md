# A model of the webserver's request handler

`server.py` is a small HTTP server. Each GET request is classified by a
chain of six cases. Each case is a `test` on the handler and an `act` that
answers:

- a path that does not exist is reported as not found;
- a CGI request goes to the HTTP library's CGI runner;
- a regular file is served;
- a directory with an `index.html` is served that file;
- any other directory is served a generated listing;
- anything else is an unknown object.

Content goes out through `send_content`. It sends the status, a
`Content-type` guessed from the full path (a generic binary guess becomes
`text/cache-manifest` for names ending in `manifest` and `text/html`
otherwise), the `Content-Length` and then the body. Errors go out through
`handle_error`, which is meant to send a 404 HTML page. As written it sends
the 404 status and headers but never the page (see Findings), and the model
sends the page as intended. POST echoes the body after a fixed
preamble. PUT saves the body under the request path's base name and
confirms with 201.

The model is pure where the source is: the cases, the page builders, the
content type and the path functions. It is imperative where the source
changes state.

- `Handler.RequestHandler` is a class whose fields are the full path, the
  filesystem (PUT writes to it), the close-connection flag and `sent`.
  `sent` is every call made into the HTTP library so far, in order.
- `DoGet` is the source's loop over the case list, proved against
  `GetResponse`, the same dispatch stated as a value.
- `DoPost` assembles the reply in a `BytesIO`-like `ByteBuffer`.

The filesystem is a value: a map from the exact path strings the server
passes to `os.path.*`, `open` and `os.listdir` to a regular file (its bytes,
or the error reading raises), a directory (its entries in enumeration order,
or the error listing raises), or a special file. The working directory, the
library's `is_cgi()` answer and the library's base MIME guess are parameters.

Modules:

- `Encoding`: UTF-8 and decimal.
- `Text`: query stripping, suffixes, line joining.
- `FileSystem`: the map, `join`, `basename`, reads and writes.
- `Pages`: the error page, the listing, the POST and PUT bodies.
- `ContentTypes`: the content type.
- `Cases`: the chain.
- `Handler`: the handler.
- `Findings`: the two defects below, as written.
- `Scenarios`: worked requests.

Points where the code decides and the model follows it:

- The content type is always guessed from the handler's full path, the
  request's path. For a directory served its `index.html`, it is guessed
  from the directory's path, not from `index.html`. For an error page, it is
  guessed from the path that failed.
- Only `CaseNoFile` strips a query string. A request for an existing file
  with a query (`/f?x`) therefore passes the not-found test. The later tests
  look at the full path with its query, so unless that itself names a file
  or directory (a file literally called `f?x`), they fail the file and
  directory tests. Unless it is also a CGI request (the library's `is_cgi`
  looks at the raw path), it then ends as an unknown object
  (`Handler.QueryFallsThrough`).
- A CGI request is handed to the library before any file test, but only
  after the not-found test.
- The query is cut from the full path, `os.getcwd() + path`, not from the
  request path. If the working directory itself contains `?`, `CaseNoFile`
  (server.py:75-77) tests a prefix of the working directory, so the
  not-found test no longer depends on the request path. If that prefix
  exists nothing is reported as not found; otherwise everything is
  (`Text.StripQueryInsidePrefix`, `Cases.NotFoundIgnoresPathUnderQueryRoot`).
  This is why `Text.StripQueryAfterPrefix`, `Handler.MissingPathIsNotFound`,
  `Handler.ExistingFileResponse`, `Handler.DirectoryIndexResponse`,
  `Handler.DirectoryListingResponse`, `Handler.QueryFallsThrough` and
  `Findings.MissingPathAsWritten` require a working directory without `?`.

## Model

| member | source | states |
|---|---|---|
| Text.StripQuery | server.py:75-76 | the result is the longest prefix of the path without `?`: a prefix, free of `?`, and either the whole path or followed by `?` |
| Text.StripQueryUnique | server.py:75-76 | any prefix with those three properties is the stripped path, so the three properties characterise `split("?", 1)[0]` |
| Text.StripQueryAfterPrefix | server.py:74-77 | stripping `cwd + path` when `cwd` has no `?` keeps `cwd` and strips `path`, so the not-found test looks at `cwd` followed by the request path without its query |
| Text.StripQueryInsidePrefix | server.py:75-77 | when the working directory contains `?`, the stripped full path is a proper prefix of the working directory, whatever the request path |
| Text.EndsWith | server.py:216 | `s.endswith(suffix)` holds only when `s` is some prefix followed by `suffix` |
| Text.IsHidden | server.py:150 | `e.startswith('.')`: an entry is hidden exactly when `.` is a prefix of it |
| Text.JoinLines | server.py:151 | joining no lines gives the empty string and joining one line gives that line |
| Text.JoinTwoLines | server.py:151 | two lines are joined with exactly one newline between them |
| Text.SplitJoinLines | server.py:151 | splitting the `'\n'`-joined lines at newlines gives back exactly the lines, when none of them contains a newline |
| Encoding.Utf8Char | server.py:152 | one character encodes to 1 to 4 bytes, and to exactly one byte when it is ASCII |
| Encoding.Utf8 | server.py:152 | the encoding of a string has between one and four bytes per character |
| Encoding.Utf8RoundTrip | server.py:152 | decoding the UTF-8 encoding of a string gives back its code points |
| Encoding.Utf8Append | server.py:152 | encoding a concatenation is the concatenation of the encodings |
| Encoding.Ascii | server.py:258-259 | a `b'...'` literal: one byte per character, each byte equal to the character's code |
| Encoding.Utf8Ascii | server.py:258-259 | for ASCII text the UTF-8 encoding is the byte literal |
| Encoding.Decimal | server.py:297 | `str(n)` for a length: non-empty, decimal digits only, no leading zero unless it is `0` |
| Encoding.DecimalRoundTrip | server.py:297 | the Content-Length text reads back as the number it was made from |
| FileSystem.IsFile | server.py:111 | `os.path.isfile(p)` implies `os.path.exists(p)` |
| FileSystem.IsDir | server.py:158 | `os.path.isdir(p)` implies `os.path.exists(p)` and excludes `os.path.isfile(p)` |
| FileSystem.ReadFile | server.py:39-40 | reading succeeds only on a regular file, gives that file's bytes or error, and a missing path raises ENOENT naming it |
| FileSystem.ListDirectory | server.py:149 | listing succeeds only on a directory, gives its entries or error, and a missing path raises ENOENT naming it |
| FileSystem.JoinPath | server.py:49 | `posixpath.join(a, b)` ends with `b`; an absolute `b` replaces `a`; otherwise an empty `a` gives `b`, and a non-empty `a` is followed by `b` directly when it ends in `/` and by exactly one `/` and then `b` when it does not |
| FileSystem.AfterLastSlash | server.py:268 | `p.rfind('/') + 1`: a position in `p`, preceded by `/` unless it is `0`, with no `/` after it |
| FileSystem.AfterLastSlashUnique | server.py:268 | those properties determine the position, so they characterise the last `/` |
| FileSystem.Basename | server.py:268 | `posixpath.basename(p)` is a suffix of `p`, preceded in `p` by `/` when it is not all of `p` |
| FileSystem.BasenameIsLastComponent | server.py:268 | the base name holds no `/`, so it is the last path component |
| FileSystem.BasenameAfterSlash | server.py:268 | a `/`-free name placed after a `/`, or at the very start, is the base name |
| FileSystem.BasenameOfJoin | server.py:47-49 | `basename` undoes `join` for a single non-empty path component such as `index.html` |
| FileSystem.WriteTarget | server.py:270 | `open(name, 'wb')` opens `name` joined onto the working directory: an empty name raises ENOENT; a successful target is that join, is not a directory and ends with the name; an ordinary name (not empty, `.` or `..`) whose target is absent or a regular file always opens |
| FileSystem.WriteFile | server.py:270-272 | writing succeeds exactly when the target can be opened; the target then reads back as the written bytes; a newly created file's name is added to the working directory's listing, after the names it had; every other path is unchanged |
| Cases.IndexPath | server.py:47-49 | the index path lies under the full path: the full path is a prefix of it |
| Cases.IndexPathNamesIndex | server.py:47-49 | the index path starts with the full path and ends with `index.html`, its base name is `index.html`, and for a non-empty full path it is the full path followed by `index.html` when the full path ends in `/` and by `/index.html` otherwise |
| Cases.NotFoundIgnoresPathUnderQueryRoot | server.py:74-77 | when the working directory holds a `?`, the not-found test holds for every request path exactly when the part of the directory before the `?` is absent |
| Cases.Test | server.py:74-172 | the last case always matches; the file and directory cases match only a path that exists; the not-found case matches only when the path without its query is absent |
| Cases.Act | server.py:79-175 | only the not-found and unknown-object cases raise, and only the CGI case hands off to the CGI runner |
| Cases.HandleFile | server.py:35-44 | a readable file is sent as its exact bytes; otherwise `handle_error` gets `'<path>' cannot be read: <error>` |
| Cases.ListDir | server.py:146-155 | a listable directory is sent its listing page; otherwise `handle_error` gets `'<path>' cannot be listed: <error>` (corrected, see Findings) |
| Cases.FirstMatch | server.py:236-241 | the loop's stopping point: the first case whose test holds, with every earlier test false |
| Cases.FirstMatchIs | server.py:236-241 | a case whose test holds after only failing tests is the one that acts |
| Cases.Dispatch | server.py:236-241 | the loop as a value: a missing path raises; only a CGI request is handed off; content is sent only for a regular file or a directory; a raise means the path is missing or neither a file nor a directory |
| Cases.ChainAlwaysMatches | server.py:195-200 | the chain ends with `CaseAlwaysFail`, whose test always holds, so exactly one case acts on every request |
| Cases.DirectoryCasesPartition | server.py:122-159 | a directory is claimed by exactly one of the two directory cases, chosen by whether `index.html` is a regular file; a non-directory is claimed by neither |
| Cases.NotFoundWins | server.py:74-80 | a path that does not exist without its query raises `'<path>' not found`, whatever later case would match |
| Cases.CgiBeforeFiles | server.py:97-101 | an existing CGI request is handed to the CGI runner before any file or directory case |
| Cases.ExistingFileServed | server.py:110-114 | a regular file that is not CGI is answered by `handle_file`, with its exact bytes when it is readable |
| Cases.DirectoryIndexServed | server.py:122-127 | a directory with a regular `index.html` is served that file's bytes, not a listing |
| Cases.DirectoryListed | server.py:157-162 | a directory without a regular `index.html` is served the listing of its entries |
| Cases.UnknownObject | server.py:171-175 | an existing path that is neither a regular file nor a directory raises `Unknown object '<path>'` |
| ContentTypes.GuessType | server.py:212-218 | the override changes the base guess only when the guess is the generic binary type and the path ends in `manifest`, and then always to `text/cache-manifest` |
| ContentTypes.ContentType | server.py:292-294 | the announced type is never generic binary; a specific base guess is kept; a generic guess becomes the manifest type exactly for `manifest` names and HTML exactly otherwise |
| Pages.ErrorPage | server.py:203-210 | the error page is the template with the request path and the message verbatim at their places, every fixed part of the template kept |
| Pages.ListingPage | server.py:136-144 | the listing page is the template's head, the bullet list, then the template's tail |
| Pages.Bullet | server.py:150 | a bullet is `<li>`, the entry verbatim, then `</li>` |
| Pages.Bullets | server.py:150 | there are never more bullets than entries |
| Pages.ListingBody | server.py:150-152 | the listing body is at least the page's fixed head and tail long, and it decodes back to the code points of the listing page |
| Pages.VisibleMembers | server.py:150 | an entry is shown exactly when it is listed and does not start with `.` |
| Pages.VisibleAppend | server.py:150 | filtering keeps enumeration order |
| Pages.BulletsWrapVisible | server.py:150 | there is one bullet per visible entry, in order, each `<li>entry</li>` |
| Pages.ListingLines | server.py:150-151 | the list in the page splits back into exactly the bullets, one line per visible entry |
| Pages.PostReply | server.py:256-261 | the POST body is the 32-byte preamble followed by exactly the received bytes |
| Pages.PutReply | server.py:275 | the PUT reply is `Saved "`, the file name, then `"` and a newline |
| Handler.ResponseEvents | server.py:288-299 | status, content type, a Content-Length that reads back as the body's byte length, end of headers, then the body |
| Handler.ErrorEvents | server.py:281-285 | an error answers 404 with the UTF-8 error page as its body (corrected, see Findings) |
| Handler.Respond | server.py:240-245 | content is answered 200 with exactly its bytes; a direct or raised error is answered 404 with the error page for its message; a CGI action is a hand-off and nothing else; every answer but the hand-off carries the given content type |
| Handler.GetResponse | server.py:228-245 | every GET gives a single hand-off or a five-call response; the hand-off happens only for a CGI request; the content type is always the one guessed from `cwd + path` |
| Handler.GetResponseShape | server.py:228-245 | every GET ends in a CGI hand-off, or in exactly one 200 or 404 response whose Content-Length matches its body |
| Handler.MissingPathIsNotFound | server.py:232-245 | a missing path is answered with the 404 page for `'<path>' not found` (corrected, see Findings) |
| Handler.ExistingFileResponse | server.py:110-114 | a readable regular file requested without a query is answered 200 with exactly its bytes |
| Handler.DirectoryIndexResponse | server.py:122-127 | a directory with a readable `index.html` is answered 200 with that file's bytes |
| Handler.DirectoryListingResponse | server.py:157-162 | a listable directory without `index.html` is answered 200 with its listing |
| Handler.QueryFallsThrough | server.py:74-111 | an existing file asked for with a query string is answered with the unknown-object 404 page |
| Handler.PutEvents | server.py:273-277 | PUT answers `201 Created`, ends the headers, then writes the UTF-8 confirmation naming the file |
| Handler.ByteBuffer.constructor | server.py:256 | a new buffer is empty |
| Handler.ByteBuffer.Write | server.py:258-260 | a write appends exactly its bytes |
| Handler.RequestHandler.constructor | server.py:184-200 | a fresh handler has sent nothing and holds the request and the filesystem |
| Handler.RequestHandler.SendContent | server.py:288-299 | appends exactly the `send_content` events, with the content type computed from the current full path |
| Handler.RequestHandler.HandleError | server.py:281-285 | appends exactly the 404 error events for the message (corrected, see Findings) |
| Handler.RequestHandler.Perform | server.py:240-245 | carrying out an action appends what `Respond` says, with a raised error reported through `handle_error` |
| Handler.RequestHandler.DoGet | server.py:228-245 | sets the full path to `cwd + path`, and the loop over the cases appends exactly `GetResponse`, the first matching case's answer |
| Handler.RequestHandler.DoPost | server.py:247-262 | appends 200, end of headers and the echoed body, and closes the connection |
| Handler.RequestHandler.SendCreated | server.py:273-277 | appends exactly the 201 status, the end of the headers and the encoded confirmation |
| Handler.RequestHandler.Commit | server.py:270-278 | after a successful write the filesystem is the written one, the 201 answer follows and the connection closes; after a failed open only the escaping error is recorded |
| Handler.RequestHandler.DoPut | server.py:264-278 | on success, the filesystem is the one with the body saved under the base name (a new name also listed by the working directory), then 201 and the confirmation; on failure, the error escapes and nothing else changes |
| Findings.ErrorAttemptAsWritten | server.py:281-285 | as written, an error attempt sends the 404 status and headers but writes no body |
| Findings.RespondAsWritten | server.py:240-245 | as written, content and CGI outcomes are answered as intended, while an error outcome sends a 404 status and ends with the `TypeError` escaping |
| Findings.ListDirAsWritten | server.py:146-155 | as written, a listable directory gets the intended listing, and any listing failure becomes the same `AttributeError` |
| Findings.ActAsWritten | server.py:161-162 | as written, only the listing case acts differently, and never where content is sent |
| Findings.DispatchAsWritten | server.py:236-241 | as written, the loop agrees with the corrected one whenever either sends content or hands off to CGI |
| Findings.GetResponseAsWritten | server.py:228-245 | as written, every GET emits something, and every 404 ends with the `TypeError` escaping `do_GET` |
| Findings.ErrorPageNeverSentAsWritten | server.py:243-245 | as written, every error path sends a 404 status, writes no body, and ends with the `TypeError` escaping |
| Findings.MissingPathAsWritten | server.py:281-285 | for a missing path, the code as written sends no page, while the corrected handler sends the not-found page |
| Findings.ListingFailureAsWritten | server.py:153-155 | as written, a listing failure raises the same `AttributeError` whatever the directory; corrected, the message names the directory and the OS error |
| Findings.AsWrittenAgreesOnSuccess | server.py:228-245 | where no error occurs, the code as written and the corrected model send the same thing |
| Scenarios.ReportFileServed | server.py:110-114 | `GET /data/report.txt` of a file holding `hello` answers 200, Content-Length `5`, body `hello` |
| Scenarios.AssetsBullets | server.py:150 | the entries `a.txt`, `.hidden`, `b.txt` give the bullets for `a.txt` and `b.txt` only |
| Scenarios.AssetsItems | server.py:150-151 | those bullets joined: `<li>a.txt</li>`, a newline, `<li>b.txt</li>` |
| Scenarios.AssetsBody | server.py:150-152 | the listing page of those entries |
| Scenarios.AssetsListed | server.py:157-162 | `GET /assets/` without an index answers 200 with the listing of `a.txt` then `b.txt` |
| Scenarios.AssetsIndexServed | server.py:122-127 | `GET /assets/` with an `index.html` answers 200 with that file's bytes |
| Scenarios.NewFileListed | server.py:270-272 | saving `new.txt` in `/srv`, which listed only `a.txt`, makes the file read back as written and `/srv` list `a.txt` then `new.txt` |

## Left out

- Logging (the log file, `logger.info`, `log_message`), the thread count and the `print` calls. They send nothing to the client. The logging module swallows the bad `%d` format at server.py:276.
- `do_HEAD`, `run` and the socket, threading and HTTP-parsing plumbing of the library's `CGIHTTPRequestHandler` and `ThreadingHTTPServer`.
- The library's `is_cgi()` and `run_cgi()`. The first is the `isCgi` parameter. The second is the `CgiHandoff` event: what the CGI script outputs is not modelled.
- `CaseCgiFile.run_cgi` (server.py:88-95). It is never called, because `act` calls the handler's `run_cgi`, the library's method.
- `forms_path` and `form_get_path` (server.py:51-59) and the base class's `test` and `act` (server.py:61-67). No case uses them.
- The library's base `guess_type` (its extension table). It is the `guess` parameter, and the model states what the override and the fallback do with its answer.
- The `Content-Length` request header and `rfile.read`. The received body is a parameter of `DoPost` and `DoPut`, so a missing or non-numeric header, which raises in `int(...)`, is not modelled.
- FileSystem.WriteFile: a newly created file's name is placed after the directory's existing entries. The position `os.listdir` really reports is the filesystem's choice and is not modelled. A name holding `/`, which `do_PUT`'s base name never does, updates no directory's entries.
- The filesystem is a snapshot that only the handler's own PUT changes. The model does not capture a file changing between a case's `test` and its `act`, or being changed by anything else between two requests. It also does not capture path normalisation, symbolic links, permissions on writes, or surrogate-escaped file names.
- The exact `OSError` text: `str(exc)` is modelled as `[Errno N] text: 'path'` for the error numbers the model raises. A file name that Python would quote with `"`, or escape, is not distinguished.
- Opening a special file is modelled as failing with ENXIO. On a real system a FIFO would block.
- `close_connection` after `do_GET`: the source leaves it to the library.

## Findings

| source | as written | input that shows it | evidently intended | confidence | as-written member | corrected member |
|---|---|---|---|---|---|---|
| server.py:281-285 | `handle_error` passes the formatted page, a `str`, to `send_content`, whose `wfile.write` needs bytes. The status and headers go out (Content-Length counts characters), then the write raises `TypeError`. When the error comes from a raised `ServerException`, this `TypeError` escapes `do_GET`. When an `act` calls `handle_error` itself (an unreadable file), the `except` clause calls it a second time, and that raises again and escapes. | `GET /gone` for a path that does not exist | send the error page UTF-8 encoded, as `list_dir` does for the listing, with a 404 status | high, not executed | Findings.MissingPathAsWritten | Handler.MissingPathIsNotFound |
| server.py:154 | the listing failure message uses `self.path`, but `self` is the `CaseDirectoryNoIndexFile` object, which has no `path`. The `AttributeError` replaces the intended report. | `GET /locked/` for a directory whose listing raises `PermissionError` | report `'<directory>' cannot be listed: <error>` through `handle_error`, as `handle_file` does for unreadable files | high, not executed | Findings.ListingFailureAsWritten | Cases.ListDir |
