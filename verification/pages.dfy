/** The bodies the server builds: the error page, the directory listing, and
    the replies to POST and PUT. */
module Pages {
  import opened Encoding
  import opened Text

  // The error page template, split around its two `{path}` and `{msg}` holes.
  const ErrorHead: string := "        <html>\n        <body>\n        <h1>Error accessing "
  const ErrorMid: string := "</h1>\n        <p>"
  const ErrorTail: string := "</p>\n        </body>\n        </html>\n        "

  /** `Error_Page.format(path=path, msg=msg)`: the page names the request
      path in its heading and carries the message in a paragraph, both
      verbatim (nothing is escaped). */
  function ErrorPage(path: string, msg: string): (r: string)
    ensures |r| == |ErrorHead| + |path| + |ErrorMid| + |msg| + |ErrorTail|
    ensures r[..|ErrorHead|] == ErrorHead
    ensures r[|ErrorHead|..|ErrorHead| + |path|] == path
    ensures r[|ErrorHead| + |path|..|ErrorHead| + |path| + |ErrorMid|] == ErrorMid
    ensures r[|ErrorHead| + |path| + |ErrorMid|..][..|msg|] == msg
    ensures r[|ErrorHead| + |path| + |ErrorMid| + |msg|..] == ErrorTail
  {
    var r := ErrorHead + path + ErrorMid + msg + ErrorTail;
    assert r[|ErrorHead| + |path| + |ErrorMid|..] == msg + ErrorTail;
    r
  }

  // The listing page template, split around its one `{0}` hole.
  const ListingHead: string := "        <html>\n        <body>\n        <ul>\n        "
  const ListingTail: string := "\n        </ul>\n        </body>\n        </html>\n        "

  /** `Listing_Page.format(items)`. */
  function ListingPage(items: string): (r: string)
    ensures |r| == |ListingHead| + |items| + |ListingTail|
    ensures r[..|ListingHead|] == ListingHead
    ensures r[|ListingHead|..|ListingHead| + |items|] == items
    ensures r[|ListingHead| + |items|..] == ListingTail
  {
    ListingHead + items + ListingTail
  }

  /** `'<li>{0}</li>'.format(e)`. */
  function Bullet(e: string): (r: string)
    ensures |r| == |e| + 9
    ensures r[..4] == "<li>" && r[4..4 + |e|] == e && r[4 + |e|..] == "</li>"
  {
    "<li>" + e + "</li>"
  }

  lemma BulletKeepsLine(e: string)
    requires '\n' !in e
    ensures '\n' !in Bullet(e)
  {
  }

  /** The entries that are not hidden, in the order given: the reference
      that the listing is checked against. */
  function Visible(entries: seq<string>): seq<string>
  {
    if entries == [] then []
    else (if IsHidden(entries[0]) then [] else [entries[0]]) + Visible(entries[1..])
  }

  /** `['<li>{0}</li>'.format(e) for e in entries if not e.startswith('.')]`. */
  function Bullets(entries: seq<string>): (r: seq<string>)
    ensures |r| <= |entries|
  {
    if entries == [] then []
    else if IsHidden(entries[0]) then Bullets(entries[1..])
    else [Bullet(entries[0])] + Bullets(entries[1..])
  }

  /** The listing page of a directory with these entries, UTF-8 encoded:
      `Listing_Page.format('\n'.join(bullets)).encode('utf-8')`. */
  function ListingBody(entries: seq<string>): (r: seq<byte>)
    ensures |ListingHead| + |ListingTail| <= |r|
    ensures Utf8Decode(r) == CodePoints(ListingPage(JoinLines(Bullets(entries))))
  {
    Utf8RoundTrip(ListingPage(JoinLines(Bullets(entries))));
    Utf8(ListingPage(JoinLines(Bullets(entries))))
  }

  /** An entry is shown exactly when it is listed and not hidden. */
  lemma {:induction false} VisibleMembers(entries: seq<string>, e: string)
    ensures e in Visible(entries) <==> e in entries && !IsHidden(e)
  {
    if entries != [] {
      VisibleMembers(entries[1..], e);
      assert entries == [entries[0]] + entries[1..];
    }
  }

  /** Filtering keeps the enumeration order: the visible entries of two runs
      of entries are those of the first run followed by those of the second. */
  lemma {:induction false} VisibleAppend(a: seq<string>, b: seq<string>)
    ensures Visible(a + b) == Visible(a) + Visible(b)
  {
    if a == [] {
      assert a + b == b;
    } else {
      assert (a + b)[0] == a[0];
      assert (a + b)[1..] == a[1..] + b;
      VisibleAppend(a[1..], b);
    }
  }

  /** The bullets are the visible entries, each wrapped in `<li>...</li>`,
      one for one and in the same order. */
  lemma {:induction false} BulletsWrapVisible(entries: seq<string>)
    ensures |Bullets(entries)| == |Visible(entries)|
    ensures forall k :: 0 <= k < |Bullets(entries)| ==> Bullets(entries)[k] == Bullet(Visible(entries)[k])
  {
    if entries != [] {
      BulletsWrapVisible(entries[1..]);
      var bs, vs := Bullets(entries[1..]), Visible(entries[1..]);
      if IsHidden(entries[0]) {
        assert Bullets(entries) == bs && Visible(entries) == vs;
      } else {
        assert Bullets(entries) == [Bullet(entries[0])] + bs;
        assert Visible(entries) == [entries[0]] + vs;
      }
    }
  }

  /** When no entry name holds a newline, the list inside the listing page
      splits back, line by line, into exactly the bullets: one line per
      visible entry. */
  lemma ListingLines(entries: seq<string>)
    requires forall k :: 0 <= k < |entries| ==> '\n' !in entries[k]
    requires Visible(entries) != []
    ensures SplitLines(JoinLines(Bullets(entries))) == Bullets(entries)
  {
    BulletsWrapVisible(entries);
    var bs := Bullets(entries);
    var vs := Visible(entries);
    forall k | 0 <= k < |bs| ensures '\n' !in bs[k] {
      VisibleMembers(entries, vs[k]);
      BulletKeepsLine(vs[k]);
    }
    SplitJoinLines(bs);
  }

  /** The body of the reply to POST: `b'This is POST request. '` and
      `b'Received: '` followed by the received bytes. */
  const PostPreamble: string := "This is POST request. Received: "

  /** The two byte literals `do_POST` writes before the body. */
  const PostIntro: seq<byte> := Ascii("This is POST request. ")
  const PostReceived: seq<byte> := Ascii("Received: ")

  function PostReply(body: seq<byte>): (r: seq<byte>)
    ensures |r| == |PostPreamble| + |body|
    ensures r[|PostPreamble|..] == body
    ensures forall i :: 0 <= i < |PostPreamble| ==> r[i] == PostPreamble[i] as int
  {
    assert PostPreamble == "This is POST request. " + "Received: ";
    PostIntro + PostReceived + body
  }

  /** `'Saved "%s"\n' % name`. */
  function PutReply(name: string): (r: string)
    ensures |r| == |name| + 9
    ensures r[..7] == "Saved \"" && r[7..7 + |name|] == name && r[7 + |name|..] == "\"\n"
  {
    "Saved \"" + name + "\"\n"
  }
}
