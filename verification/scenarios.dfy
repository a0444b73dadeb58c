/** Concrete requests against small filesystems, worked through the model. */
module Scenarios {
  import opened Encoding
  import opened Text
  import opened FileSystem
  import opened Pages
  import opened ContentTypes
  import opened Cases
  import opened Handler

  /** The Content-Length of a five-byte body. */
  lemma FiveBytesLength()
    ensures Decimal(5) == "5"
  {
    assert Decimal(5) == [DigitChar(5)];
  }

  /** `GET /data/report.txt` for a file holding `hello` is answered by
      `send_content` with exactly those bytes. */
  lemma ReportFileResponse(guess: string -> string)
    ensures var hello: seq<byte> := [104, 101, 108, 108, 111];
            var fs := map["/srv/data/report.txt" := File(Ok(hello))];
            GetResponse(fs, "/srv", "/data/report.txt", false, guess) ==
            ResponseEvents(200, ContentType(guess("/srv/data/report.txt"), "/srv/data/report.txt"), hello)
  {
    var hello: seq<byte> := [104, 101, 108, 108, 111];
    var fs := map["/srv/data/report.txt" := File(Ok(hello))];
    assert "/srv" + "/data/report.txt" == "/srv/data/report.txt";
    ExistingFileResponse(fs, "/srv", "/data/report.txt", guess, hello);
  }

  /** Hence status 200, Content-Length `5` and body `hello`. */
  lemma ReportFileServed(guess: string -> string)
    ensures var hello: seq<byte> := [104, 101, 108, 108, 111];
            var fs := map["/srv/data/report.txt" := File(Ok(hello))];
            var r := GetResponse(fs, "/srv", "/data/report.txt", false, guess);
            r[0] == StatusLine(200, DefaultReason) && r[2] == Header("Content-Length", "5") &&
            r[4] == Write(hello)
  {
    var hello: seq<byte> := [104, 101, 108, 108, 111];
    ReportFileResponse(guess);
    FiveBytesLength();
    var ctype := ContentType(guess("/srv/data/report.txt"), "/srv/data/report.txt");
    assert ResponseEvents(200, ctype, hello)[2] == Header("Content-Length", Decimal(|hello|));
  }

  /** The listing of `a.txt`, `.hidden`, `b.txt` bullets the two visible
      names in order. */
  lemma AssetsBullets()
    ensures Bullets(["a.txt", ".hidden", "b.txt"]) == ["<li>a.txt</li>", "<li>b.txt</li>"]
  {
    var entries := ["a.txt", ".hidden", "b.txt"];
    assert entries[1..] == [".hidden", "b.txt"];
    assert entries[1..][1..] == ["b.txt"];
    assert entries[1..][1..][1..] == [];
    assert !IsHidden("a.txt") && IsHidden(".hidden") && !IsHidden("b.txt");
    assert Bullets(["b.txt"]) == [Bullet("b.txt")] + Bullets([]);
    assert Bullets([".hidden", "b.txt"]) == Bullets(["b.txt"]);
    assert Bullets(entries) == [Bullet("a.txt")] + Bullets([".hidden", "b.txt"]);
    assert Bullet("a.txt") == "<li>a.txt</li>";
    assert Bullet("b.txt") == "<li>b.txt</li>";
  }

  /** The list inside that directory's listing page: the two visible
      bullets on two lines. */
  lemma AssetsItems()
    ensures JoinLines(Bullets(["a.txt", ".hidden", "b.txt"])) == "<li>a.txt</li>\n<li>b.txt</li>"
  {
    AssetsBullets();
    JoinTwoLines("<li>a.txt</li>", "<li>b.txt</li>");
  }

  /** Hence the listing page of that directory. */
  lemma AssetsBody()
    ensures ListingBody(["a.txt", ".hidden", "b.txt"]) ==
            Utf8(ListingPage("<li>a.txt</li>\n<li>b.txt</li>"))
  {
    AssetsItems();
  }

  /** The index path of `/srv/assets/`. */
  lemma AssetsIndexPath()
    ensures IndexPath("/srv/assets/") == "/srv/assets/index.html"
  {
  }

  /** `GET /assets/` for a directory holding `a.txt`, `.hidden` and `b.txt`
      and no `index.html` is answered by `send_content` with its listing. */
  lemma AssetsListingResponse(guess: string -> string)
    ensures var fs := map["/srv/assets/" := Dir(Ok(["a.txt", ".hidden", "b.txt"]))];
            GetResponse(fs, "/srv", "/assets/", false, guess) ==
            ResponseEvents(200, ContentType(guess("/srv/assets/"), "/srv/assets/"),
                           ListingBody(["a.txt", ".hidden", "b.txt"]))
  {
    var fs := map["/srv/assets/" := Dir(Ok(["a.txt", ".hidden", "b.txt"]))];
    assert "/srv" + "/assets/" == "/srv/assets/";
    AssetsIndexPath();
    DirectoryListingResponse(fs, "/srv", "/assets/", guess, ["a.txt", ".hidden", "b.txt"]);
  }

  /** Hence the listing shows `a.txt` then `b.txt`, and not `.hidden`. */
  lemma AssetsListed(guess: string -> string)
    ensures var fs := map["/srv/assets/" := Dir(Ok(["a.txt", ".hidden", "b.txt"]))];
            var r := GetResponse(fs, "/srv", "/assets/", false, guess);
            r[0] == StatusLine(200, DefaultReason) &&
            r[4] == Write(Utf8(ListingPage("<li>a.txt</li>\n<li>b.txt</li>")))
  {
    AssetsListingResponse(guess);
    AssetsBody();
  }

  /** `GET /assets/` for a directory that has `index.html` is answered by
      `send_content` with that file's bytes, not a listing. */
  lemma AssetsIndexResponse(guess: string -> string, page: seq<byte>)
    ensures var fs := map["/srv/assets/" := Dir(Ok(["index.html", "a.txt"])),
                          "/srv/assets/index.html" := File(Ok(page))];
            GetResponse(fs, "/srv", "/assets/", false, guess) ==
            ResponseEvents(200, ContentType(guess("/srv/assets/"), "/srv/assets/"), page)
  {
    var fs := map["/srv/assets/" := Dir(Ok(["index.html", "a.txt"])),
                  "/srv/assets/index.html" := File(Ok(page))];
    assert "/srv" + "/assets/" == "/srv/assets/";
    AssetsIndexPath();
    DirectoryIndexResponse(fs, "/srv", "/assets/", guess, page);
  }

  /** Hence status 200 and exactly the index file's bytes. */
  lemma AssetsIndexServed(guess: string -> string, page: seq<byte>)
    ensures var fs := map["/srv/assets/" := Dir(Ok(["index.html", "a.txt"])),
                          "/srv/assets/index.html" := File(Ok(page))];
            var r := GetResponse(fs, "/srv", "/assets/", false, guess);
            r[0] == StatusLine(200, DefaultReason) && r[4] == Write(page)
  {
    AssetsIndexResponse(guess, page);
  }

  /** Saving `new.txt` with the server rooted at `/srv`, which lists only
      `a.txt`: the file reads back as written, and the directory now lists
      it after `a.txt`. */
  lemma NewFileListed()
    ensures var r := WriteFile(map["/srv" := Dir(Ok(["a.txt"]))], "/srv", "new.txt", [1]);
            r.Ok? && ReadFile(r.value, "/srv/new.txt") == Ok([1]) &&
            ListDirectory(r.value, "/srv") == Ok(["a.txt", "new.txt"])
  {
    var fs := map["/srv" := Dir(Ok(["a.txt"]))];
    assert JoinPath("/srv", "new.txt") == "/srv/new.txt";
    assert '/' !in "new.txt";
    assert "/srv/new.txt" != "/srv";
    assert WriteTarget(fs, "/srv", "new.txt") == Ok("/srv/new.txt");
    assert AddsEntry(fs, "/srv", "new.txt");
    assert fs["/srv"].entries.value + ["new.txt"] == ["a.txt", "new.txt"];
  }
}
