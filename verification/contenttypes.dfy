/** The Content-type header: the server's `guess_type` override on top of
    the base MIME guess, and the fallback `send_content` applies after it.
    The base guess (the library's extension table) is not modelled: it is
    the parameter `base`, the type the library guesses for `path`. */
module ContentTypes {
  import opened Text

  const OctetStream: string := "application/octet-stream"
  const CacheManifest: string := "text/cache-manifest"
  const Html: string := "text/html"

  /** `RequestHandler.guess_type(path)`: the base guess, except that a path
      ending in `manifest` whose base guess is the generic binary type is a
      cache manifest. */
  function GuessType(base: string, path: string): (r: string)
    ensures r == base || r == CacheManifest
    ensures r != base ==> base == OctetStream && EndsWith(path, "manifest")
    ensures base == OctetStream && EndsWith(path, "manifest") ==> r == CacheManifest
  {
    if base == OctetStream && EndsWith(path, "manifest") then CacheManifest else base
  }

  /** The type `send_content` announces for content sent while the handler's
      full path is `path`: the guess, with the generic binary type replaced
      by HTML. It is never the generic binary type; any other base guess is
      kept; a generic guess becomes a cache manifest exactly when the path
      ends in `manifest` and HTML otherwise. */
  function ContentType(base: string, path: string): (r: string)
    ensures r != OctetStream
    ensures base != OctetStream ==> r == base
    ensures base == OctetStream ==> (r == CacheManifest <==> EndsWith(path, "manifest"))
    ensures base == OctetStream ==> (r == Html <==> !EndsWith(path, "manifest"))
  {
    var guess := GuessType(base, path);
    if guess == OctetStream then Html else guess
  }
}
