// app/api/video-stream/route.ts, `GET`: serves the sales video whole (200) or the byte range
// named by the Range header (206, section 2.1 and section 4.2 of RFC 7233), or 500 when the file
// stream refuses that range. Whether the file
// exists and its size are inputs; the bytes themselves are streamed by the platform and only
// the range asked of the stream is recorded.

module VideoStream {
  import opened Wrappers
  import opened Text

  /** A JavaScript number as the route computes it: an integer, or NaN from a failed `parseInt`. */
  datatype JsNumber = Num(n: int) | NaN

  /** `String(x)` / template interpolation of a number. */
  function NumberText(x: JsNumber): string
  {
    match x
    case Num(n) => IntToString(n)
    case NaN => "NaN"
  }

  /** `(end - start) + 1`: NaN as soon as either side is NaN. */
  function ChunkSize(start: JsNumber, end: JsNumber): (r: JsNumber)
    ensures r.Num? <==> start.Num? && end.Num?
    ensures r.Num? ==> r.n - 1 == end.n - start.n
  {
    if start.Num? && end.Num? then Num(end.n - start.n + 1) else NaN
  }

  /** The longest run of decimal digits at the start of `s`. */
  function LeadingDigits(s: string): (r: string)
    ensures AllDigits(r) && |r| <= |s| && r == s[..|r|]
    ensures |r| < |s| ==> !IsDigit(s[|r|])
  {
    if s != [] && IsDigit(s[0]) then [s[0]] + LeadingDigits(s[1..]) else []
  }

  /**
   * `parseInt(s, 10)`: leading white space is skipped, one sign is allowed, then the digits up
   * to the first non-digit are read; with no digit at all the result is NaN.
   */
  function ParseInt(s: string): (r: JsNumber)
    ensures r.Num? <==> LeadingDigits(Unsigned(TrimStart(s))) != []
  {
    var t := TrimStart(s);
    var d := LeadingDigits(Unsigned(t));
    if d == [] then NaN
    else if t[0] == '-' then Num(-(DigitsValue(d) as int))
    else Num(DigitsValue(d))
  }

  /** The text after an optional leading sign. */
  function Unsigned(t: string): (u: string)
    ensures u == t || (|t| > 0 && u == t[1..] && (t[0] == '-' || t[0] == '+'))
  {
    if |t| > 0 && (t[0] == '-' || t[0] == '+') then t[1..] else t
  }

  /** `s.split("-")[0]`: the text before the first '-', or all of it. */
  function FirstPart(s: string): (r: string)
    ensures '-' !in r && |r| <= |s| && r == s[..|r|]
    ensures |r| < |s| ==> s[|r|] == '-'
  {
    match IndexOf(s, "-")
    case Some(i) =>
      assert forall j :: 0 <= j < i ==> s[j..j + 1] == [s[j]] && !OccursAt(s, "-", j);
      s[..i]
    case None =>
      assert forall j :: 0 <= j < |s| ==> s[j..j + 1] == [s[j]] && !OccursAt(s, "-", j);
      s
  }

  /** `s.split("-")[1]`: the text between the first and the second '-', or undefined without a '-'. */
  function SecondPart(s: string): (r: Option<string>)
    ensures r.None? <==> '-' !in s
  {
    if |FirstPart(s)| < |s| then Some(FirstPart(s[|FirstPart(s)| + 1..])) else None
  }

  /** The start and end the route reads from a Range header value. */
  datatype ByteRange = ByteRange(start: JsNumber, end: JsNumber)

  /**
   * `range.replace(/bytes=/, "").split("-")`, then `parseInt` of the first part, and of the
   * second part when it is a non-empty string, else `fileSize - 1`.
   */
  function ParseRange(range: string, fileSize: nat): (r: ByteRange)
    ensures var parts := ReplaceFirst(range, "bytes=", "");
      r.start == ParseInt(FirstPart(parts))
      && (Truthy(SecondPart(parts)) ==> r.end == ParseInt(SecondPart(parts).value))
      && (!Truthy(SecondPart(parts)) ==> r.end == Num(fileSize - 1))
  {
    var parts := ReplaceFirst(range, "bytes=", "");
    var second := SecondPart(parts);
    ByteRange(ParseInt(FirstPart(parts)), if Truthy(second) then ParseInt(second.value) else Num(fileSize - 1))
  }

  /** What the stream is opened on: the whole file, or `{ start, end }`. */
  datatype StreamRequest = WholeFile | Bytes(range: ByteRange)

  /** A response: status, headers in order, a text body or a stream of the file. */
  datatype Reply = Reply(status: int, headers: seq<(string, string)>, text: Option<string>, stream: Option<StreamRequest>)

  /** The first header of that name, if any. */
  function Header(r: Reply, name: string): Option<string>
  {
    HeaderIn(r.headers, name)
  }

  function HeaderIn(hs: seq<(string, string)>, name: string): Option<string>
  {
    if hs == [] then None
    else if hs[0].0 == name then Some(hs[0].1)
    else HeaderIn(hs[1..], name)
  }

  const VideoType: (string, string) := ("Content-Type", "video/mp4")
  const LongCache: (string, string) := ("Cache-Control", "public, max-age=31536000")

  /** `bytes ${start}-${end}/${fileSize}`. */
  function ContentRange(b: ByteRange, fileSize: nat): string
  {
    "bytes " + NumberText(b.start) + "-" + NumberText(b.end) + "/" + NatToString(fileSize)
  }

  /**
   * `fs.createReadStream` takes `start` and `end` only as integers with 0 <= start <= end; a
   * NaN, a negative position or a start after the end makes it throw before the reply is built.
   */
  predicate StreamAccepts(b: ByteRange)
  {
    b.start.Num? && b.end.Num? && 0 <= b.start.n <= b.end.n
  }

  /**
   * `GET`: 404 without the file; a Range header (present and non-empty) gives 206 with the
   * parsed range passed to the stream as it is, or 500 when the stream refuses that range;
   * otherwise 200 with the whole file.
   */
  function Get(fileExists: bool, fileSize: nat, range: Option<string>): (r: Reply)
    ensures !fileExists <==> r.status == 404
    ensures !fileExists ==> r.text == Some("Video not found") && r.stream.None?
    ensures fileExists && !Truthy(range) ==>
      r.status == 200 && r.stream == Some(WholeFile) && Header(r, "Content-Length") == Some(NatToString(fileSize))
    ensures fileExists && Truthy(range) && !StreamAccepts(ParseRange(range.value, fileSize)) ==>
      r.status == 500 && r.text == Some("Internal Server Error") && r.stream.None?
    ensures fileExists && Truthy(range) && StreamAccepts(ParseRange(range.value, fileSize)) ==>
      var b := ParseRange(range.value, fileSize);
      r.status == 206 && r.stream == Some(Bytes(b))
      && Header(r, "Content-Range") == Some(ContentRange(b, fileSize))
      && Header(r, "Accept-Ranges") == Some("bytes")
      && Header(r, "Content-Length") == Some(NumberText(ChunkSize(b.start, b.end)))
    ensures fileExists && r.status != 500 ==> Header(r, "Content-Type") == Some("video/mp4")
  {
    if !fileExists then Reply(404, [], Some("Video not found"), None)
    else if Truthy(range) then
      var b := ParseRange(range.value, fileSize);
      if !StreamAccepts(b) then Reply(500, [], Some("Internal Server Error"), None)
      else
        PartialHeadersFound(b, fileSize);
        Reply(206, PartialHeaders(b, fileSize), None, Some(Bytes(b)))
    else
      WholeHeadersFound(fileSize);
      Reply(200, WholeHeaders(fileSize), None, Some(WholeFile))
  }

  /** The headers of a 206 reply, in the order the route sets them. */
  function PartialHeaders(b: ByteRange, fileSize: nat): seq<(string, string)>
  {
    [("Content-Range", ContentRange(b, fileSize)), ("Accept-Ranges", "bytes"),
     ("Content-Length", NumberText(ChunkSize(b.start, b.end))), VideoType, LongCache]
  }

  /** The headers of a 200 reply. */
  function WholeHeaders(fileSize: nat): seq<(string, string)>
  {
    [("Content-Length", NatToString(fileSize)), VideoType, LongCache]
  }

  lemma PartialHeadersFound(b: ByteRange, fileSize: nat)
    ensures var hs := PartialHeaders(b, fileSize);
      HeaderIn(hs, "Content-Range") == Some(ContentRange(b, fileSize))
      && HeaderIn(hs, "Accept-Ranges") == Some("bytes")
      && HeaderIn(hs, "Content-Length") == Some(NumberText(ChunkSize(b.start, b.end)))
      && HeaderIn(hs, "Content-Type") == Some("video/mp4")
  {
    var hs := PartialHeaders(b, fileSize);
    assert HeaderIn(hs[3..], "Content-Type") == Some("video/mp4");
    assert HeaderIn(hs[2..], "Content-Type") == Some("video/mp4");
    assert HeaderIn(hs[1..], "Content-Type") == Some("video/mp4");
    assert HeaderIn(hs[1..], "Accept-Ranges") == Some("bytes");
    assert HeaderIn(hs[2..], "Content-Length") == Some(NumberText(ChunkSize(b.start, b.end)));
    assert HeaderIn(hs[1..], "Content-Length") == Some(NumberText(ChunkSize(b.start, b.end)));
  }

  lemma WholeHeadersFound(fileSize: nat)
    ensures HeaderIn(WholeHeaders(fileSize), "Content-Length") == Some(NatToString(fileSize))
    ensures HeaderIn(WholeHeaders(fileSize), "Content-Type") == Some("video/mp4")
  {
    var hs := WholeHeaders(fileSize);
    assert HeaderIn(hs[1..], "Content-Type") == Some("video/mp4");
  }

  // ---- parsing lemmas ----

  lemma {:induction false} LeadingDigitsAppend(d: string, t: string)
    requires AllDigits(d) && (t == [] || !IsDigit(t[0]))
    ensures LeadingDigits(d + t) == d
    decreases |d|
  {
    if d == [] {
      assert d + t == t;
    } else {
      assert (d + t)[1..] == d[1..] + t;
      LeadingDigitsAppend(d[1..], t);
    }
  }

  /** Digits followed by a non-digit (or nothing) parse to the digits' value. */
  lemma ParseIntDigits(d: string, t: string)
    requires |d| > 0 && AllDigits(d) && (t == [] || !IsDigit(t[0]))
    ensures ParseInt(d + t) == Num(DigitsValue(d))
  {
    var s := d + t;
    assert s[0] == d[0];
    assert !IsSpace(s[0]) by {
      assert IsDigit(s[0]);
    }
    assert TrimStart(s) == s;
    assert Unsigned(s) == s;
    LeadingDigitsAppend(d, t);
  }

  /** A decimal numeral followed by a non-digit (or nothing) parses to its value. */
  lemma ParseIntNumeral(n: nat, t: string)
    requires t == [] || !IsDigit(t[0])
    ensures ParseInt(NatToString(n) + t) == Num(n)
  {
    ParseIntDigits(NatToString(n), t);
    NatToStringRoundTrip(n);
  }

  /** Without a digit after the optional sign there is no number. */
  lemma ParseIntEmpty()
    ensures ParseInt("") == NaN
  {
  }

  lemma DigitsHaveNoDash(d: string)
    requires AllDigits(d)
    ensures '-' !in d
  {
    forall k | 0 <= k < |d|
      ensures d[k] != '-'
    {
      assert IsDigit(d[k]);
    }
  }

  /** The parts on either side of the first '-'. */
  lemma SplitAtDash(a: string, rest: string)
    requires '-' !in a
    ensures FirstPart(a + "-" + rest) == a
    ensures SecondPart(a + "-" + rest) == Some(FirstPart(rest))
  {
    var s := a + "-" + rest;
    forall j | 0 <= j < |a|
      ensures !OccursAt(s, "-", j)
    {
      assert s[j..j + 1] == [a[j]];
    }
    assert s[|a|..|a| + 1] == "-";
    assert OccursAt(s, "-", |a|);
    assert IndexOf(s, "-") == Some(|a|);
    assert s[..|a|] == a;
    assert s[|a| + 1..] == rest;
  }

  /** The "bytes=" unit at the front is dropped. */
  lemma UnitDropped(spec: string)
    ensures ReplaceFirst("bytes=" + spec, "bytes=", "") == spec
  {
    var s := "bytes=" + spec;
    assert OccursAt(s, "bytes=", 0);
    assert s[6..] == spec;
  }

  /** A header value "bytes=" + a + "-" + rest is read as a, and the text of rest up to its own '-'. */
  lemma ParseRangeSplit(a: string, rest: string, fileSize: nat)
    requires '-' !in a
    ensures ParseRange("bytes=" + a + "-" + rest, fileSize)
      == ByteRange(ParseInt(a), if FirstPart(rest) != "" then ParseInt(FirstPart(rest)) else Num(fileSize - 1))
  {
    assert "bytes=" + a + "-" + rest == "bytes=" + (a + "-" + rest);
    UnitDropped(a + "-" + rest);
    SplitAtDash(a, rest);
  }

  /** With the file present, a non-empty header is answered with the range it parses to. */
  lemma RangeReply(range: string, fileSize: nat, b: ByteRange)
    requires range != "" && ParseRange(range, fileSize) == b && StreamAccepts(b)
    ensures var r := Get(true, fileSize, Some(range));
      r.status == 206 && r.stream == Some(Bytes(b))
      && Header(r, "Content-Length") == Some(NumberText(ChunkSize(b.start, b.end)))
      && Header(r, "Content-Range") == Some(ContentRange(b, fileSize))
  {
  }

  /**
   * "bytes=start-end" with start <= end is served as exactly that range, with Content-Length
   * end - start + 1. The end is passed on even when it lies past the last byte.
   */
  lemma ClosedRangeServed(start: nat, end: nat, fileSize: nat)
    requires start <= end
    ensures var r := Get(true, fileSize, Some("bytes=" + NatToString(start) + "-" + NatToString(end)));
      r.status == 206
      && r.stream == Some(Bytes(ByteRange(Num(start), Num(end))))
      && Header(r, "Content-Length") == Some(IntToString(end - start + 1))
  {
    ClosedRangeParsed(start, end, fileSize);
    ServedAsParsed("bytes=" + NatToString(start) + "-" + NatToString(end), fileSize, start, end);
  }

  lemma ServedAsParsed(range: string, fileSize: nat, start: int, end: int)
    requires range != "" && ParseRange(range, fileSize) == ByteRange(Num(start), Num(end)) && 0 <= start <= end
    ensures var r := Get(true, fileSize, Some(range));
      r.status == 206
      && r.stream == Some(Bytes(ByteRange(Num(start), Num(end))))
      && Header(r, "Content-Length") == Some(IntToString(end - start + 1))
  {
    RangeReplyLength(range, fileSize, start, end, end - start + 1);
  }

  /** "bytes=start-end" with start after end is refused by the stream: 500. */
  lemma ReversedRangeFails(start: nat, end: nat, fileSize: nat)
    requires end < start
    ensures var r := Get(true, fileSize, Some("bytes=" + NatToString(start) + "-" + NatToString(end)));
      r.status == 500 && r.stream.None?
  {
    ClosedRangeParsed(start, end, fileSize);
  }

  /** The reply names the range it serves as "bytes start-end/size". */
  lemma ClosedRangeContentRange(start: nat, end: nat, fileSize: nat)
    requires start <= end
    ensures Header(Get(true, fileSize, Some("bytes=" + NatToString(start) + "-" + NatToString(end))), "Content-Range")
      == Some("bytes " + NatToString(start) + "-" + NatToString(end) + "/" + NatToString(fileSize))
  {
    var b := ByteRange(Num(start), Num(end));
    ClosedRangeParsed(start, end, fileSize);
    RangeReply("bytes=" + NatToString(start) + "-" + NatToString(end), fileSize, b);
  }

  lemma ClosedRangeParsed(start: nat, end: nat, fileSize: nat)
    ensures ParseRange("bytes=" + NatToString(start) + "-" + NatToString(end), fileSize) == ByteRange(Num(start), Num(end))
  {
    NumeralParts(start);
    NumeralParts(end);
    ParseRangeSplit(NatToString(start), NatToString(end), fileSize);
  }

  /** A numeral has no '-', is its own first part and parses to its value. */
  lemma NumeralParts(n: nat)
    ensures '-' !in NatToString(n) && NatToString(n) != ""
    ensures FirstPart(NatToString(n)) == NatToString(n)
    ensures ParseInt(NatToString(n)) == Num(n)
  {
    var e := NatToString(n);
    DigitsHaveNoDash(e);
    ParseIntNumeral(n, []);
    assert e + [] == e;
  }

  /** "bytes=start-" with start inside the file runs to its last byte. */
  lemma OpenRangeRunsToEnd(start: nat, fileSize: nat)
    requires start < fileSize
    ensures var r := Get(true, fileSize, Some("bytes=" + NatToString(start) + "-"));
      r.stream == Some(Bytes(ByteRange(Num(start), Num(fileSize - 1))))
      && Header(r, "Content-Length") == Some(IntToString(fileSize - start))
  {
    OpenRangeStream(start, fileSize);
    OpenRangeLength(start, fileSize);
  }

  lemma OpenRangeStream(start: nat, fileSize: nat)
    requires start < fileSize
    ensures Get(true, fileSize, Some("bytes=" + NatToString(start) + "-")).stream
      == Some(Bytes(ByteRange(Num(start), Num(fileSize - 1))))
  {
    OpenRangeParsed(start, fileSize);
    RangeReply("bytes=" + NatToString(start) + "-", fileSize, ByteRange(Num(start), Num(fileSize - 1)));
  }

  lemma OpenRangeLength(start: nat, fileSize: nat)
    requires start < fileSize
    ensures Header(Get(true, fileSize, Some("bytes=" + NatToString(start) + "-")), "Content-Length")
      == Some(IntToString(fileSize - start))
  {
    OpenRangeParsed(start, fileSize);
    ToEndLength("bytes=" + NatToString(start) + "-", fileSize, start);
  }

  lemma ToEndLength(range: string, fileSize: nat, start: int)
    requires range != "" && ParseRange(range, fileSize) == ByteRange(Num(start), Num(fileSize - 1))
    requires 0 <= start < fileSize
    ensures Header(Get(true, fileSize, Some(range)), "Content-Length") == Some(IntToString(fileSize - start))
  {
    RangeReply(range, fileSize, ByteRange(Num(start), Num(fileSize - 1)));
    ChunkText(start, fileSize - 1, fileSize - start);
  }

  /** "bytes=start-" from the end of the file on (every such range of an empty file) is refused: 500. */
  lemma OpenRangePastEndFails(start: nat, fileSize: nat)
    requires fileSize <= start
    ensures var r := Get(true, fileSize, Some("bytes=" + NatToString(start) + "-"));
      r.status == 500 && r.stream.None?
  {
    OpenRangeParsed(start, fileSize);
  }

  lemma OpenRangeParsed(start: nat, fileSize: nat)
    ensures ParseRange("bytes=" + NatToString(start) + "-", fileSize) == ByteRange(Num(start), Num(fileSize - 1))
  {
    var a := NatToString(start);
    NumeralParts(start);
    ParseRangeSplit(a, "", fileSize);
    assert "bytes=" + a + "-" + "" == "bytes=" + a + "-";
  }

  /** A range read as two numbers is served with Content-Length end - start + 1. */
  lemma RangeReplyLength(range: string, fileSize: nat, start: int, end: int, length: int)
    requires range != "" && ParseRange(range, fileSize) == ByteRange(Num(start), Num(end)) && 0 <= start <= end
    requires length == end - start + 1
    ensures var r := Get(true, fileSize, Some(range));
      r.status == 206 && r.stream == Some(Bytes(ByteRange(Num(start), Num(end))))
      && Header(r, "Content-Length") == Some(IntToString(length))
  {
    RangeReply(range, fileSize, ByteRange(Num(start), Num(end)));
    ChunkText(start, end, length);
  }

  lemma ChunkText(start: int, end: int, length: int)
    requires length == end - start + 1
    ensures NumberText(ChunkSize(Num(start), Num(end))) == IntToString(length)
  {
  }

  /**
   * Of several ranges only the first is served: "bytes=a-b,..." reads b up to the comma and
   * ignores the rest.
   */
  lemma FirstOfSeveralRanges(a: nat, b: nat, more: string, fileSize: nat)
    requires a <= b
    ensures Get(true, fileSize, Some("bytes=" + NatToString(a) + "-" + NatToString(b) + "," + more)).stream
      == Some(Bytes(ByteRange(Num(a), Num(b))))
  {
    var x := NatToString(a);
    var y := NatToString(b);
    var rest := y + "," + more;
    assert "bytes=" + x + "-" + y + "," + more == "bytes=" + x + "-" + rest;
    DigitsHaveNoDash(x);
    ParseRangeSplit(x, rest, fileSize);
    var tail := FirstDigitsThenComma(y, more);
    ParseIntNumeral(a, []);
    ParseIntNumeral(b, tail);
    assert x + [] == x;
    RangeReply("bytes=" + x + "-" + rest, fileSize, ByteRange(Num(a), Num(b)));
  }

  /** The first part of digits, a comma and more text is the digits and a tail from the comma. */
  lemma FirstDigitsThenComma(y: string, more: string) returns (tail: string)
    requires AllDigits(y) && |y| > 0
    ensures FirstPart(y + "," + more) == y + tail && (tail == [] || tail[0] == ',')
  {
    var rest := y + "," + more;
    var f := FirstPart(rest);
    DigitsHaveNoDash(y);
    assert rest[|y|] == ',';
    forall k | 0 <= k < |y|
      ensures rest[k] != '-' && f[k] == rest[k]
    {
      assert rest[k] == y[k];
    }
    assert |f| >= |y|;
    tail := f[|y|..];
    assert f == y + tail;
    if tail != [] {
      assert tail[0] == rest[|y|];
    }
  }

  /**
   * A suffix range "bytes=-n" (section 2.1 of RFC 7233: the last n bytes) has no start: the
   * start parses to NaN, the stream refuses it, and the reply is 500.
   */
  lemma SuffixRangeHasNoStart(n: nat, fileSize: nat)
    ensures ParseRange("bytes=-" + NatToString(n), fileSize).start == NaN
    ensures var r := Get(true, fileSize, Some("bytes=-" + NatToString(n)));
      r.status == 500 && r.text == Some("Internal Server Error") && r.stream.None?
  {
    SuffixRangeParsed(n, fileSize);
  }

  lemma SuffixRangeParsed(n: nat, fileSize: nat)
    ensures ParseRange("bytes=-" + NatToString(n), fileSize) == ByteRange(NaN, Num(n))
  {
    var e := NatToString(n);
    EmptyStartSpelled(e);
    NumeralParts(n);
    ParseIntEmpty();
    ParseRangeSplit("", e, fileSize);
  }

  lemma EmptyStartSpelled(e: string)
    ensures "bytes=-" + e == "bytes=" + "" + "-" + e
  {
  }
}
