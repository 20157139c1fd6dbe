/** The cranker wire protocol, version 1.0 (protocol/cranker_protocol.go): request and
    response messages, their builders, parsers and printers. A parser that would
    panic on an index out of range returns `None`. */
module CrankerProtocol {
  import opened Text

  const BODY_PENDING := "_1"
  const HAS_NO_BODY := "_2"
  const BODY_ENDED := "_3"

  // ---------- headers ----------

  /** The text `AppendHeader` accumulates for a list of (name, value) pairs. */
  function HeaderText(headers: seq<(string, string)>): string
  {
    if headers == [] then ""
    else HeaderText(headers[..|headers| - 1]) + HeaderLine(headers[|headers| - 1]) + "\n"
  }

  function HeaderLine(h: (string, string)): string { h.0 + ":" + h.1 }

  class HeadersBuilder {
    var headers: string

    constructor ()
      ensures headers == ""
    {
      headers := "";
    }

    method AppendHeader(header: string, value: string)
      modifies this
      ensures headers == old(headers) + HeaderLine((header, value)) + "\n"
    {
      headers := headers + header + ":" + value + "\n";
    }
  }

  /** Every line followed by a newline, as both printers emit their header lists. */
  function Lines(lines: seq<string>): string
  {
    if lines == [] then "" else Lines(lines[..|lines| - 1]) + lines[|lines| - 1] + "\n"
  }

  // ---------- requests ----------

  predicate Token(s: string) { ' ' !in s && '\n' !in s }

  datatype Request = Request(httpMethod: string, dest: string, headers: seq<string>,
                             endMarker: string, requestLine: string)
  {
    predicate BodyPending() { endMarker == BODY_PENDING }
    predicate BodyEnded() { endMarker == BODY_ENDED }
    predicate HasNoBody() { endMarker == HAS_NO_BODY }
  }

  /** `CrankerProtocolRequestBuilder.Build`; `headers` is None when never set. */
  function BuildRequest(reqLine: string, headers: Option<string>, endMarker: string): string
  {
    if reqLine != "" && headers.Some? then reqLine + "\n" + headers.value + "\n" + endMarker
    else endMarker
  }

  function ParseRequest(msg: string): Option<Request>
  {
    if msg == BODY_ENDED then Some(Request("", "", [], msg, ""))
    else
      var lines := Split(msg, '\n');
      var bits := Split(lines[0], ' ');
      if |bits| < 2 || |lines| < 2 then None
      else Some(Request(bits[0], bits[1], lines[1..|lines| - 1], lines[|lines| - 1], lines[0]))
  }

  function PrintRequest(req: Request): string
  {
    if req.requestLine != "" then req.requestLine + "\n" + Lines(req.headers) + req.endMarker
    else req.endMarker
  }

  method ToProtocolMessage(req: Request) returns (msg: string)
    ensures msg == PrintRequest(req)
  {
    if req.requestLine != "" {
      var headersStr := "";
      for i := 0 to |req.headers|
        invariant headersStr == Lines(req.headers[..i])
      {
        assert req.headers[..i + 1][..i] == req.headers[..i];
        headersStr := headersStr + req.headers[i] + "\n";
      }
      assert req.headers[..|req.headers|] == req.headers;
      msg := req.requestLine + "\n" + headersStr + req.endMarker;
    } else {
      msg := req.endMarker;
    }
  }

  lemma SplitSpace(s: string)
    ensures |Split(s, ' ')| >= 2 <==> ' ' in s
  {
    JoinSplit(s, ' ');
    SplitParts(s, ' ', 0);
    if ' ' !in s { SplitNone(s, ' '); }
  }

  /** Exactly the messages the parser accepts without panicking. */
  lemma ParseRequestDefined(msg: string)
    ensures ParseRequest(msg).Some? <==>
            msg == BODY_ENDED || (|Split(msg, '\n')| >= 2 && ' ' in Split(msg, '\n')[0])
  {
    SplitSpace(Split(msg, '\n')[0]);
  }

  lemma {:induction false} JoinIsLines(first: string, mid: seq<string>, last: string)
    ensures Join([first] + mid + [last], '\n') == first + "\n" + Lines(mid) + last
    decreases |mid|
  {
    var all := [first] + mid + [last];
    if mid == [] {
      assert all[1..] == [last];
    } else {
      assert all[1..] == [mid[0]] + mid[1..] + [last];
      JoinIsLines(mid[0], mid[1..], last);
      LinesFront(mid);
    }
  }

  lemma {:induction false} LinesFront(lines: seq<string>)
    requires lines != []
    ensures Lines(lines) == lines[0] + "\n" + Lines(lines[1..])
  {
    var n := |lines| - 1;
    if n == 0 {
      assert lines[..0] == [] && lines[1..] == [];
    } else {
      LinesFront(lines[..n]);
      assert lines[..n][1..] == lines[1..][..n - 1];
      var mid, end := Lines(lines[1..][..n - 1]), lines[n] + "\n";
      assert lines[0] + "\n" + mid + end == lines[0] + "\n" + (mid + end);
      assert Lines(lines[1..]) == mid + end;
    }
  }

  /** Printing what was parsed gives back the very message, for every message the
      parser accepts. */
  lemma RequestRoundTrip(msg: string)
    requires ParseRequest(msg).Some?
    ensures PrintRequest(ParseRequest(msg).value) == msg
  {
    if msg != BODY_ENDED {
      var lines := Split(msg, '\n');
      var n := |lines| - 1;
      if lines[0] == "" { SplitNone("", ' '); }
      JoinSplit(msg, '\n');
      assert lines == [lines[0]] + lines[1..n] + [lines[n]];
      JoinIsLines(lines[0], lines[1..n], lines[n]);
    }
  }

  ghost predicate WellFormed(req: Request)
  {
    if req.requestLine == "" then req == Request("", "", [], BODY_ENDED, "")
    else
      && ' ' in req.requestLine && '\n' !in req.requestLine && '\n' !in req.endMarker
      && (forall i :: 0 <= i < |req.headers| ==> '\n' !in req.headers[i])
      && req.httpMethod == Split(req.requestLine, ' ')[0]
      && (|Split(req.requestLine, ' ')| >= 2 ==> req.dest == Split(req.requestLine, ' ')[1])
  }

  /** The parser's image is exactly the well-formed requests, and parsing undoes printing. */
  lemma ParsePrintRequest(req: Request)
    ensures WellFormed(req) <==> ParseRequest(PrintRequest(req)) == Some(req)
  {
    var msg := PrintRequest(req);
    if WellFormed(req) && req.requestLine != "" {
      var lines := [req.requestLine] + req.headers + [req.endMarker];
      JoinIsLines(req.requestLine, req.headers, req.endMarker);
      SplitJoin(lines, '\n');
      SplitSpace(req.requestLine);
      assert lines[1..|lines| - 1] == req.headers;
      assert '\n' in msg;
    }
    if ParseRequest(msg) == Some(req) && msg != BODY_ENDED {
      var lines := Split(msg, '\n');
      SplitSpace(lines[0]);
      SplitParts(msg, '\n', 0);
      SplitParts(msg, '\n', |lines| - 1);
      forall i | 0 <= i < |req.headers| ensures '\n' !in req.headers[i] {
        SplitParts(msg, '\n', i + 1);
      }
    }
  }

  /** `createReqLine` of router/reverse_proxy.go. */
  function CreateReqLine(httpMethod: string, path: string, rawQuery: string): string
  {
    httpMethod + " " + path + (if rawQuery != "" then "?" + rawQuery else "") + " HTTP/1.1"
  }

  function HeaderLines(headers: seq<(string, string)>): seq<string>
  {
    seq(|headers|, i requires 0 <= i < |headers| => HeaderLine(headers[i]))
  }

  lemma {:induction false} HeaderTextIsLines(headers: seq<(string, string)>)
    ensures HeaderText(headers) == Lines(HeaderLines(headers))
  {
    var n := |headers|;
    if n == 0 {
    } else {
      HeaderTextIsLines(headers[..n - 1]);
      assert HeaderLines(headers)[..n - 1] == HeaderLines(headers[..n - 1]);
    }
  }

  predicate CleanHeaders(headers: seq<(string, string)>)
  {
    forall i :: 0 <= i < |headers| ==>
      '\n' !in headers[i].0 && ':' !in headers[i].0 && '\n' !in headers[i].1
  }

  /** A built message is the lines of its request line, the header lines, the empty line that
      closes the header block, and the marker. */
  lemma BuiltLines(reqLine: string, headers: seq<(string, string)>, marker: string)
    requires reqLine != "" && '\n' !in marker && CleanHeaders(headers)
    ensures Split(BuildRequest(reqLine, Some(HeaderText(headers)), marker), '\n')
         == Split(reqLine, '\n') + HeaderLines(headers) + ["", marker]
  {
    var block := HeaderText(headers) + "\n" + marker;
    HeaderTextIsLines(headers);
    BlockLines("", HeaderLines(headers), marker);
    assert "" + "\n" + Lines(HeaderLines(headers)) + "\n" + marker == "" + ['\n'] + block;
    SplitCons("", block, '\n');
    assert Split(block, '\n') == ([""] + Split(block, '\n'))[1..] == HeaderLines(headers) + ["", marker];
    assert reqLine + "\n" + HeaderText(headers) + "\n" + marker == reqLine + ['\n'] + block;
    SplitAppend(reqLine, block, '\n');
    assert Split(reqLine, '\n') + (HeaderLines(headers) + ["", marker])
        == Split(reqLine, '\n') + HeaderLines(headers) + ["", marker];
  }

  lemma BlockLines(first: string, lines: seq<string>, last: string)
    requires '\n' !in first && '\n' !in last && forall l :: l in lines ==> '\n' !in l
    ensures Split(first + "\n" + Lines(lines) + "\n" + last, '\n') == [first] + lines + ["", last]
  {
    var mid := lines + [""];
    assert mid[..|mid| - 1] == lines;
    assert first + "\n" + Lines(mid) + last == first + "\n" + Lines(lines) + "\n" + last;
    JoinIsLines(first, mid, last);
    SplitJoin([first] + mid + [last], '\n');
    assert [first] + mid + [last] == [first] + lines + ["", last];
  }

  /** The path and query that the router writes; the path is the decoded one. */
  function RequestUri(path: string, rawQuery: string): string
  {
    path + (if rawQuery != "" then "?" + rawQuery else "")
  }

  /** What is left of it at the receiver: the text before the first newline or space. */
  function Destination(uri: string): string { Split(Split(uri, '\n')[0], ' ')[0] }

  /** The destination arrives whole exactly when it is free of spaces and newlines. */
  lemma DestinationWholeIff(uri: string)
    ensures Destination(uri) == uri <==> Token(uri)
  {
    PartsAreTokens(uri, 0, 0);
    if Token(uri) {
      SplitNone(uri, '\n');
      SplitNone(uri, ' ');
    }
  }

  lemma ReqLineParses(httpMethod: string, path: string, rawQuery: string)
    requires Token(httpMethod)
    ensures var first := Split(CreateReqLine(httpMethod, path, rawQuery), '\n')[0];
            && |Split(first, ' ')| >= 2 && Split(first, ' ')[0] == httpMethod
            && Split(first, ' ')[1] == Destination(RequestUri(path, rawQuery))
  {
    assert CreateReqLine(httpMethod, path, rawQuery) == httpMethod + [' '] + RequestUri(path, rawQuery) + " HTTP/1.1";
    FirstLine(httpMethod, RequestUri(path, rawQuery));
  }

  lemma FirstLine(httpMethod: string, uri: string)
    requires Token(httpMethod)
    ensures var first := Split(httpMethod + [' '] + uri + " HTTP/1.1", '\n')[0];
            && |Split(first, ' ')| >= 2 && Split(first, ' ')[0] == httpMethod
            && Split(first, ' ')[1] == Destination(uri)
  {
    var i := IndexOf(uri, '\n');
    if i < 0 {
      OneLine(httpMethod, uri);
    } else {
      assert uri == uri[..i] + ['\n'] + uri[i + 1..];
      FirstOfLines(httpMethod, uri[..i], uri[i + 1..]);
    }
  }

  lemma OneLine(httpMethod: string, uri: string)
    requires Token(httpMethod) && '\n' !in uri
    ensures var line := httpMethod + [' '] + uri + " HTTP/1.1";
            && Split(line, '\n') == [line]
            && Split(line, ' ') == [httpMethod] + Split(uri, ' ') + ["HTTP/1.1"]
            && Destination(uri) == Split(uri, ' ')[0]
  {
    var line := httpMethod + [' '] + uri + " HTTP/1.1";
    VersionBehind(httpMethod + [' '] + uri);
    ThreeWords(httpMethod, uri, "HTTP/1.1");
    SplitNone(line, '\n');
    SplitNone(uri, '\n');
  }

  lemma VersionBehind(s: string)
    ensures s + " HTTP/1.1" == s + [' '] + "HTTP/1.1"
  {
  }

  lemma ThreeWords(a: string, b: string, c: string)
    requires ' ' !in a && ' ' !in c
    ensures Split(a + [' '] + b + [' '] + c, ' ') == [a] + Split(b, ' ') + [c]
  {
    assert a + [' '] + b + [' '] + c == a + [' '] + (b + [' '] + c);
    SplitCons(a, b + [' '] + c, ' ');
    SplitSnoc(b, c, ' ');
  }

  lemma FirstOfLines(httpMethod: string, front: string, back: string)
    requires Token(httpMethod) && '\n' !in front
    ensures var first := Split(httpMethod + [' '] + (front + ['\n'] + back) + " HTTP/1.1", '\n')[0];
            && Split(first, ' ') == [httpMethod] + Split(front, ' ')
            && Destination(front + ['\n'] + back) == Split(front, ' ')[0]
  {
    var start := httpMethod + [' '] + front;
    assert httpMethod + [' '] + (front + ['\n'] + back) + " HTTP/1.1" == start + ['\n'] + (back + " HTTP/1.1");
    SplitCons(start, back + " HTTP/1.1", '\n');
    SplitCons(front, back, '\n');
    SplitCons(httpMethod, front, ' ');
  }

  /** Builder, wire and parser agree on method and marker for every path and query; the
      destination is cut, and what follows a newline in the request line is read as headers. */
  lemma BuilderRoundTrip(httpMethod: string, path: string, rawQuery: string,
                         headers: seq<(string, string)>, marker: string)
    requires Token(httpMethod) && CleanHeaders(headers) && '\n' !in marker
    ensures var line := CreateReqLine(httpMethod, path, rawQuery);
            var lines := Split(line, '\n');
            ParseRequest(BuildRequest(line, Some(HeaderText(headers)), marker))
            == Some(Request(httpMethod, Destination(RequestUri(path, rawQuery)),
                            lines[1..] + HeaderLines(headers) + [""], marker, lines[0]))
  {
    ReqLineParses(httpMethod, path, rawQuery);
    BuiltParses(CreateReqLine(httpMethod, path, rawQuery), httpMethod, Destination(RequestUri(path, rawQuery)), headers, marker);
  }

  lemma BuiltParses(line: string, httpMethod: string, dest: string, headers: seq<(string, string)>, marker: string)
    requires line != "" && CleanHeaders(headers) && '\n' !in marker
    requires var bits := Split(Split(line, '\n')[0], ' '); |bits| >= 2 && bits[0] == httpMethod && bits[1] == dest
    ensures var lines := Split(line, '\n');
            ParseRequest(BuildRequest(line, Some(HeaderText(headers)), marker))
            == Some(Request(httpMethod, dest, lines[1..] + HeaderLines(headers) + [""], marker, lines[0]))
  {
    var lines := Split(line, '\n');
    BuiltLines(line, headers, marker);
    EndsSplitOff(lines, HeaderLines(headers), "", marker);
    FramedLines(BuildRequest(line, Some(HeaderText(headers)), marker), lines[0], lines[1..] + HeaderLines(headers) + [""], marker);
  }

  lemma EndsSplitOff<T>(a: seq<T>, b: seq<T>, x: T, last: T)
    requires a != []
    ensures a + b + [x, last] == [a[0]] + (a[1..] + b + [x]) + [last]
  {
  }

  /** A decoded space in the path cuts the destination. */
  lemma SpaceCutsDestination(httpMethod: string, front: string, back: string, rawQuery: string, marker: string)
    requires Token(httpMethod) && Token(front) && '\n' !in marker
    ensures var parsed := ParseRequest(BuildRequest(CreateReqLine(httpMethod, front + " " + back, rawQuery), Some(""), marker));
            parsed.Some? && parsed.value.dest == front
  {
    assert HeaderText([]) == "";
    BuilderRoundTrip(httpMethod, front + " " + back, rawQuery, [], marker);
    var uri := RequestUri(front + " " + back, rawQuery);
    var behind := RequestUri(back, rawQuery);
    assert uri == front + [' '] + behind;
    var i := IndexOf(behind, '\n');
    if i < 0 {
      SplitNone(uri, '\n');
      SplitCons(front, behind, ' ');
    } else {
      assert uri == (front + [' '] + behind[..i]) + ['\n'] + behind[i + 1..];
      SplitCons(front + [' '] + behind[..i], behind[i + 1..], '\n');
      SplitCons(front, behind[..i], ' ');
    }
  }

  lemma FramedLines(msg: string, first: string, mid: seq<string>, last: string)
    requires Split(msg, '\n') == [first] + mid + [last] && |Split(first, ' ')| >= 2
    ensures ParseRequest(msg) == Some(Request(Split(first, ' ')[0], Split(first, ' ')[1], mid, last, first))
  {
    var lines := Split(msg, '\n');
    assert lines[1..|lines| - 1] == mid;
    if msg == BODY_ENDED { SplitNone(msg, '\n'); }
  }

  /** Whatever the request line and headers contain (spaces, newlines), the receiver
      reads the marker the builder was given, and never takes the message for the
      body-ended one; the parse cannot panic as long as the method has no newline. */
  lemma MarkerSurvives(httpMethod: string, path: string, rawQuery: string, headers: string, marker: string)
    requires '\n' !in httpMethod && marker in [BODY_PENDING, HAS_NO_BODY]
    ensures var msg := BuildRequest(CreateReqLine(httpMethod, path, rawQuery), Some(headers), marker);
            && msg != BODY_ENDED
            && ParseRequest(msg).Some? && ParseRequest(msg).value.endMarker == marker
            && !ParseRequest(msg).value.BodyEnded()
  {
    var line := CreateReqLine(httpMethod, path, rawQuery);
    var msg := BuildRequest(line, Some(headers), marker);
    var front := line + "\n" + headers;
    assert msg == front + ['\n'] + marker;
    SplitSnoc(front, marker, '\n');
    assert '\n' in msg;
    FirstLineKeeps(httpMethod + " ", msg[|httpMethod| + 1..]);
    assert msg == httpMethod + " " + msg[|httpMethod| + 1..];
    assert (httpMethod + " ")[|httpMethod|] == ' ';
    SplitSpace(Split(msg, '\n')[0]);
  }

  /** Its destination is the one of the request line. */
  lemma HeadDestination(httpMethod: string, path: string, rawQuery: string, headers: string, marker: string)
    requires Token(httpMethod) && marker in [BODY_PENDING, HAS_NO_BODY]
    ensures var parsed := ParseRequest(BuildRequest(CreateReqLine(httpMethod, path, rawQuery), Some(headers), marker));
            parsed.Some? && parsed.value.dest == Destination(RequestUri(path, rawQuery))
  {
    var line := CreateReqLine(httpMethod, path, rawQuery);
    var rest := headers + "\n" + marker;
    MarkerSurvives(httpMethod, path, rawQuery, headers, marker);
    assert line + "\n" + headers + "\n" + marker == line + ['\n'] + rest;
    SplitAppend(line, rest, '\n');
    ReqLineParses(httpMethod, path, rawQuery);
  }

  /** A newline-free beginning stays in the first line. */
  lemma {:induction false} FirstLineKeeps(a: string, b: string)
    requires '\n' !in a
    ensures a <= Split(a + b, '\n')[0]
  {
    if a == "" {
    } else {
      assert (a + b)[1..] == a[1..] + b;
      FirstLineKeeps(a[1..], b);
    }
  }

  // ---------- responses ----------

  datatype Response = Response(headers: seq<string>, status: int, reason: string,
                               sourceUrl: string, httpMethod: string)

  /** `CrankerProtocolResponseBuilder.Build`. */
  function BuildResponse(status: int, reason: string, httpMethod: string, sourceUrl: string, headers: string): string
  {
    "HTTP/1.1 " + PrintInt(status) + " " + reason + " \n" + httpMethod + " " + sourceUrl + "\n" + headers
  }

  /** The header lines are copied into a slice of length zero, so none survives. */
  function ParseResponse(msg: string): Option<Response>
  {
    var lines := Split(msg, '\n');
    var bits := Split(lines[0], ' ');
    if |bits| < 2 || |lines| < 2 then None
    else
      var requestBits := Split(lines[1], ' ');
      Some(Response([], Atoi(bits[1]).0, if |bits| >= 3 then bits[2] else "",
                    if |requestBits| >= 2 then requestBits[1] else "", requestBits[0]))
  }

  /** Exactly the responses the parser accepts without panicking. */
  lemma ParseResponseDefined(msg: string)
    ensures ParseResponse(msg).Some? <==> |Split(msg, '\n')| >= 2 && ' ' in Split(msg, '\n')[0]
  {
    SplitSpace(Split(msg, '\n')[0]);
  }

  function PrintResponse(resp: Response): string
  {
    BuildResponse(resp.status, resp.reason, resp.httpMethod, resp.sourceUrl, Lines(resp.headers))
  }

  /** What a receiver reads from a built response: the status survives decimal printing
      and parsing, method and URL survive, the reason is cut at its first space, and the
      headers are lost. */
  lemma ParseBuiltResponse(status: int, reason: string, httpMethod: string, sourceUrl: string, headers: string)
    requires MIN_INT64 <= status <= MAX_INT64
    requires '\n' !in reason && Token(httpMethod) && Token(sourceUrl)
    ensures ParseResponse(BuildResponse(status, reason, httpMethod, sourceUrl, headers))
         == Some(Response([], status, Split(reason, ' ')[0], sourceUrl, httpMethod))
  {
    BuiltResponseLines(status, reason, httpMethod, sourceUrl, headers);
    StatusLineBits(status, reason);
    SplitCons(httpMethod, sourceUrl, ' ');
    SplitNone(sourceUrl, ' ');
    AtoiPrintInt(status);
    ParsedParts(BuildResponse(status, reason, httpMethod, sourceUrl, headers),
                StatusLine(status, reason), httpMethod + [' '] + sourceUrl, Split(headers, '\n'),
                "HTTP/1.1", PrintInt(status), Split(reason, ' '), httpMethod, sourceUrl);
  }

  lemma ParsedParts(msg: string, first: string, second: string, rest: seq<string>,
                    version: string, digits: string, reason: seq<string>, httpMethod: string, sourceUrl: string)
    requires Split(msg, '\n') == [first, second] + rest
    requires Split(first, ' ') == [version, digits] + reason + [""] && |reason| >= 1
    requires Split(second, ' ') == [httpMethod, sourceUrl]
    ensures ParseResponse(msg) == Some(Response([], Atoi(digits).0, reason[0], sourceUrl, httpMethod))
  {
  }

  lemma BuiltResponseLines(status: int, reason: string, httpMethod: string, sourceUrl: string, headers: string)
    requires '\n' !in reason && '\n' !in httpMethod && '\n' !in sourceUrl
    ensures Split(BuildResponse(status, reason, httpMethod, sourceUrl, headers), '\n')
         == [StatusLine(status, reason), httpMethod + [' '] + sourceUrl] + Split(headers, '\n')
  {
    var first, second := StatusLine(status, reason), httpMethod + [' '] + sourceUrl;
    assert BuildResponse(status, reason, httpMethod, sourceUrl, headers) == first + "\n" + second + "\n" + headers;
    TwoLines(first, second, headers);
  }

  function StatusLine(status: int, reason: string): string
  {
    "HTTP/1.1 " + PrintInt(status) + " " + reason + " "
  }

  lemma StatusLineBits(status: int, reason: string)
    ensures Split(StatusLine(status, reason), ' ') == ["HTTP/1.1", PrintInt(status)] + Split(reason, ' ') + [""]
  {
    FourBits("HTTP/1.1", PrintInt(status), reason);
    assert "HTTP/1.1" + [' '] + PrintInt(status) + [' '] + reason + [' '] == StatusLine(status, reason);
  }

  lemma FourBits(a: string, b: string, c: string)
    requires ' ' !in a && ' ' !in b
    ensures Split(a + [' '] + b + [' '] + c + [' '], ' ') == [a, b] + Split(c, ' ') + [""]
  {
    var tail := c + [' '] + "";
    SplitSnoc(c, "", ' ');
    SplitTwo(a, b, tail, ' ');
    assert a + [' '] + b + [' '] + c + [' '] == a + [' '] + (b + [' '] + tail);
    assert [a, b] + Split(tail, ' ') == [a, b] + Split(c, ' ') + [""];
  }

  lemma SplitTwo(a: string, b: string, rest: string, sep: char)
    requires sep !in a && sep !in b
    ensures Split(a + [sep] + (b + [sep] + rest), sep) == [a, b] + Split(rest, sep)
  {
    SplitCons(b, rest, sep);
    SplitCons(a, b + [sep] + rest, sep);
    assert [a] + ([b] + Split(rest, sep)) == [a, b] + Split(rest, sep);
  }

  lemma TwoLines(a: string, b: string, c: string)
    requires '\n' !in a && '\n' !in b
    ensures Split(a + "\n" + b + "\n" + c, '\n') == [a, b] + Split(c, '\n')
  {
    SplitTwo(a, b, c, '\n');
    assert a + "\n" + b + "\n" + c == a + ['\n'] + (b + ['\n'] + c);
  }

  lemma PartsAreTokens(msg: string, line: nat, bit: nat)
    requires line < |Split(msg, '\n')| && bit < |Split(Split(msg, '\n')[line], ' ')|
    ensures Token(Split(Split(msg, '\n')[line], ' ')[bit])
  {
    var l := Split(msg, '\n')[line];
    SplitParts(msg, '\n', line);
    SplitParts(l, ' ', bit);
    SplitKeepsOut(l, ' ', '\n', bit);
  }

  lemma {:induction false} SplitKeepsOut(s: string, sep: char, c: char, k: nat)
    requires c !in s && k < |Split(s, sep)|
    ensures c !in Split(s, sep)[k]
  {
    if s == "" {
    } else {
      if s[0] == sep {
        if k > 0 { SplitKeepsOut(s[1..], sep, c, k - 1); }
      } else {
        SplitKeepsOut(s[1..], sep, c, k);
      }
    }
  }

  /** Decoding and re-encoding a response is a projection: doing it twice is doing it
      once, and the second decode reads the same response. */
  lemma ResponseReencodingProjects(msg: string)
    requires ParseResponse(msg).Some?
    ensures ParseResponse(PrintResponse(ParseResponse(msg).value)) == ParseResponse(msg)
    ensures var once := PrintResponse(ParseResponse(msg).value);
            ParseResponse(once).Some? && PrintResponse(ParseResponse(once).value) == once
  {
    var r := ParseResponse(msg).value;
    var lines := Split(msg, '\n');
    var bits := Split(lines[0], ' ');
    PartsAreTokens(msg, 1, 0);
    if |Split(lines[1], ' ')| >= 2 { PartsAreTokens(msg, 1, 1); }
    if |bits| >= 3 { PartsAreTokens(msg, 0, 2); }
    AtoiInRange(bits[1]);
    assert Token(r.reason);
    SplitNone(r.reason, ' ');
    ParseBuiltResponse(r.status, r.reason, r.httpMethod, r.sourceUrl, Lines(r.headers));
  }

  /** The connector decodes the message it built and sends the re-encoding; the router
      decodes that. Status, method and URL reach the router unchanged. */
  function ConnectorResponseText(status: int, reason: string, httpMethod: string, sourceUrl: string, headers: string): Option<string>
  {
    var decoded := ParseResponse(BuildResponse(status, reason, httpMethod, sourceUrl, headers));
    if decoded.None? then None else Some(PrintResponse(decoded.value))
  }

  lemma ResponseSurvivesBothDecodes(status: int, reason: string, httpMethod: string, sourceUrl: string, headers: string)
    requires MIN_INT64 <= status <= MAX_INT64
    requires '\n' !in reason && Token(httpMethod) && Token(sourceUrl)
    ensures var wire := ConnectorResponseText(status, reason, httpMethod, sourceUrl, headers);
            && wire.Some?
            && ParseResponse(wire.value) == Some(Response([], status, Split(reason, ' ')[0], sourceUrl, httpMethod))
  {
    ParseBuiltResponse(status, reason, httpMethod, sourceUrl, headers);
    ResponseReencodingProjects(BuildResponse(status, reason, httpMethod, sourceUrl, headers));
  }
}
