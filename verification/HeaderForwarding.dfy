/** Client headers on their way to the target: `setTargetReqHeaders` of
    router/reverse_proxy.go writes them on the wire, `putHeadersTo` of
    connector/connector_socket.go reads them back.
    A Go header map is a sequence of (name, values) in one of its iteration orders. */
module HeaderForwarding {
  import opened Text
  import opened CrankerProtocol

  type Header = (string, string)
  type HeaderMap = seq<(string, seq<string>)>

  const HOP_BY_HOP: set<string> :=
    {"Connection", "Keep-Alive", "Proxy-Authenticate", "Proxy-Authorization",
     "TE", "Trailer", "Transfer-Encoding", "Upgrade"}

  // ---------- router side ----------

  function LowerChar(c: char): char { if 'A' <= c <= 'Z' then c + 32 as char else c }

  function ToLower(s: string): string { seq(|s|, i requires 0 <= i < |s| => LowerChar(s[i])) }

  /** `Header.Values(name)` for a canonical name. */
  function Values(headers: HeaderMap, name: string): seq<string>
  {
    if headers == [] then []
    else if headers[0].0 == name then headers[0].1 else Values(headers[1..], name)
  }

  predicate Absent(headers: HeaderMap, name: string)
  {
    var vs := Values(headers, name);
    vs == [] || vs[0] == ""
  }

  /** `shouldSendHeaderFromClientToTarget`: a Connection value is compared whole. */
  predicate ShouldSend(name: string, connHeaders: seq<string>)
  {
    name !in HOP_BY_HOP && name !in connHeaders
  }

  function Pairs(name: string, values: seq<string>): seq<Header>
  {
    seq(|values|, i requires 0 <= i < |values| => (name, values[i]))
  }

  function Copied(headers: HeaderMap, connHeaders: seq<string>): seq<Header>
  {
    if headers == [] then []
    else
      var last := headers[|headers| - 1];
      Copied(headers[..|headers| - 1], connHeaders)
      + (if ShouldSend(last.0, connHeaders) then Pairs(last.0, last.1) else [])
  }

  function IfAbsent(headers: HeaderMap, name: string, value: string): seq<Header>
  {
    if Absent(headers, name) then [(name, value)] else []
  }

  function ForwardedValue(remoteAddr: string, proto: string, host: string, via: string): string
  {
    "for=" + remoteAddr + ";proto=" + proto + ";host=" + host + ";by=" + via
  }

  function Forwarding(headers: HeaderMap, remoteAddr: string, proto: string, host: string, via: string): seq<Header>
  {
    [("Forwarded", ForwardedValue(remoteAddr, proto, host, via))]
    + IfAbsent(headers, "X-Forwarded-For", remoteAddr)
    + IfAbsent(headers, "X-Forwarded-Proto", proto)
    + IfAbsent(headers, "X-Forwarded-Host", host)
    + IfAbsent(headers, "X-Forwarded-Server", via)
  }

  function SentHeaders(headers: HeaderMap, remoteAddr: string, proto: string, host: string, via: string): seq<Header>
  {
    Copied(headers, Values(headers, "Connection")) + Forwarding(headers, remoteAddr, proto, host, via)
  }

  predicate HasName(headers: HeaderMap, lowerName: string)
  {
    exists i :: 0 <= i < |headers| && ToLower(headers[i].0) == lowerName
  }

  /** The answer of `setTargetReqHeaders`: the transfer-encoding flag is overwritten in every
      round, so without a Content-Length only the last header decides. */
  predicate BodyTest(headers: HeaderMap)
  {
    HasName(headers, "content-length")
    || (headers != [] && ToLower(headers[|headers| - 1].0) == "transfer-encoding")
  }

  /** Appends headers to a builder that holds `base` followed by the headers `sofar`. */
  method AppendAll(hb: HeadersBuilder, name: string, values: seq<string>, ghost base: string, ghost sofar: seq<Header>)
    requires hb.headers == base + HeaderText(sofar)
    modifies hb
    ensures hb.headers == base + HeaderText(sofar + Pairs(name, values))
  {
    ghost var pairs := Pairs(name, values);
    assert sofar + pairs[..0] == sofar;
    for i := 0 to |values|
      invariant hb.headers == base + HeaderText(sofar + pairs[..i])
    {
      OneMorePair(base, sofar, pairs, i);
      hb.AppendHeader(name, values[i]);
    }
    assert pairs[..|values|] == pairs;
  }

  lemma OneMorePair(base: string, sofar: seq<Header>, pairs: seq<Header>, i: nat)
    requires i < |pairs|
    ensures base + HeaderText(sofar + pairs[..i + 1]) == base + HeaderText(sofar + pairs[..i]) + HeaderLine(pairs[i]) + "\n"
  {
    assert sofar + pairs[..i + 1] == sofar + pairs[..i] + [pairs[i]];
    HeaderTextSnoc(sofar + pairs[..i], pairs[i]);
  }

  method AppendIfAbsent(hb: HeadersBuilder, headers: HeaderMap, name: string, value: string, ghost base: string, ghost sofar: seq<Header>)
    returns (ghost now: seq<Header>)
    requires hb.headers == base + HeaderText(sofar)
    modifies hb
    ensures now == sofar + IfAbsent(headers, name, value)
    ensures hb.headers == base + HeaderText(now)
  {
    now := sofar + IfAbsent(headers, name, value);
    if Absent(headers, name) {
      HeaderTextSnoc(sofar, (name, value));
      hb.AppendHeader(name, value);
    } else {
      assert now == sofar;
    }
  }

  method AddProxyForwardingHeaders(hb: HeadersBuilder, headers: HeaderMap, remoteAddr: string, proto: string, host: string, via: string,
                                   ghost base: string, ghost sofar: seq<Header>)
    requires hb.headers == base + HeaderText(sofar)
    modifies hb
    ensures hb.headers == base + HeaderText(sofar + Forwarding(headers, remoteAddr, proto, host, via))
  {
    var forwarded := ForwardedValue(remoteAddr, proto, host, via);
    hb.AppendHeader("Forwarded", forwarded);
    ghost var now := sofar + [("Forwarded", forwarded)];
    HeaderTextSnoc(sofar, ("Forwarded", forwarded));
    now := AppendIfAbsent(hb, headers, "X-Forwarded-For", remoteAddr, base, now);
    now := AppendIfAbsent(hb, headers, "X-Forwarded-Proto", proto, base, now);
    now := AppendIfAbsent(hb, headers, "X-Forwarded-Host", host, base, now);
    now := AppendIfAbsent(hb, headers, "X-Forwarded-Server", via, base, now);
    assert now == sofar + Forwarding(headers, remoteAddr, proto, host, via) by {
      Regroup(sofar, [("Forwarded", forwarded)], IfAbsent(headers, "X-Forwarded-For", remoteAddr),
              IfAbsent(headers, "X-Forwarded-Proto", proto), IfAbsent(headers, "X-Forwarded-Host", host),
              IfAbsent(headers, "X-Forwarded-Server", via));
    }
  }

  lemma Regroup<T>(a: seq<T>, b: seq<T>, c: seq<T>, d: seq<T>, e: seq<T>, f: seq<T>)
    ensures a + b + c + d + e + f == a + (b + c + d + e + f)
  {
  }

  lemma HeaderTextSnoc(a: seq<Header>, h: Header)
    ensures HeaderText(a + [h]) == HeaderText(a) + HeaderLine(h) + "\n"
  {
    assert (a + [h])[..|a|] == a;
  }

  /** The loop of `setTargetReqHeaders`, over one iteration order of the header map. */
  method SetTargetReqHeaders(headers: HeaderMap, remoteAddr: string, proto: string, host: string, via: string, hb: HeadersBuilder)
    returns (hasBody: bool)
    modifies hb
    ensures hb.headers == old(hb.headers) + HeaderText(SentHeaders(headers, remoteAddr, proto, host, via))
    ensures hasBody <==> BodyTest(headers)
    ensures (exists i :: 0 <= i < |headers| && headers[i].0 == "Content-Length") ==> hasBody
    ensures |headers| == 1 && headers[0].0 == "Transfer-Encoding" ==> hasBody
    ensures hasBody ==> exists i :: 0 <= i < |headers| && ToLower(headers[i].0) in ["content-length", "transfer-encoding"]
  {
    var connHeaders := Values(headers, "Connection");
    var hasContentLength, hasTransferEncoding := false, false;
    ghost var base := hb.headers;
    for i := 0 to |headers|
      invariant hb.headers == base + HeaderText(Copied(headers[..i], connHeaders))
      invariant hasContentLength <==> HasName(headers[..i], "content-length")
      invariant hasTransferEncoding <==> i > 0 && (hasContentLength || ToLower(headers[i - 1].0) == "transfer-encoding")
    {
      var (name, values) := headers[i];
      assert headers[..i + 1] == headers[..i] + [headers[i]];
      HasNameSnoc(headers[..i], headers[i], "content-length");
      hasContentLength := hasContentLength || ToLower(name) == "content-length";
      hasTransferEncoding := hasContentLength || ToLower(name) == "transfer-encoding";
      CopiedSnoc(headers[..i], headers[i], connHeaders);
      if ShouldSend(name, connHeaders) {
        AppendAll(hb, name, values, base, Copied(headers[..i], connHeaders));
      }
    }
    assert headers[..|headers|] == headers;
    AddProxyForwardingHeaders(hb, headers, remoteAddr, proto, host, via, base, Copied(headers, connHeaders));
    hasBody := hasContentLength || hasTransferEncoding;
    SpellingsMeanBody(headers);
  }

  lemma CopiedSnoc(front: HeaderMap, h: (string, seq<string>), connHeaders: seq<string>)
    ensures ShouldSend(h.0, connHeaders) ==> Copied(front + [h], connHeaders) == Copied(front, connHeaders) + Pairs(h.0, h.1)
    ensures !ShouldSend(h.0, connHeaders) ==> Copied(front + [h], connHeaders) == Copied(front, connHeaders)
  {
    assert (front + [h])[..|front|] == front;
  }

  lemma HasNameSnoc(front: HeaderMap, h: (string, seq<string>), lowerName: string)
    ensures HasName(front + [h], lowerName) <==> HasName(front, lowerName) || ToLower(h.0) == lowerName
  {
    var all := front + [h];
    assert all[|front|] == h;
    forall i | 0 <= i < |front| ensures all[i] == front[i] {}
    if HasName(front, lowerName) {
      var i :| 0 <= i < |front| && ToLower(front[i].0) == lowerName;
      assert ToLower(all[i].0) == lowerName;
    }
  }

  // ---------- the body test and the iteration order ----------

  ghost predicate SameInEveryOrder(headers: HeaderMap)
  {
    forall p: HeaderMap :: multiset(p) == multiset(headers) ==> (BodyTest(p) <==> BodyTest(headers))
  }

  lemma SameMembers(p: HeaderMap, q: HeaderMap, x: (string, seq<string>))
    requires multiset(p) == multiset(q)
    ensures x in p <==> x in q
  {
    assert x in multiset(p) <==> x in multiset(q);
  }

  lemma HasNameInAnyOrder(p: HeaderMap, q: HeaderMap, lowerName: string)
    requires multiset(p) == multiset(q) && HasName(p, lowerName)
    ensures HasName(q, lowerName)
  {
    var i :| 0 <= i < |p| && ToLower(p[i].0) == lowerName;
    SameMembers(p, q, p[i]);
    var j :| 0 <= j < |q| && q[j] == p[i];
    assert ToLower(q[j].0) == lowerName;
  }

  function MovedToEnd(headers: HeaderMap, i: nat): HeaderMap
    requires i < |headers|
  {
    headers[..i] + headers[i + 1..] + [headers[i]]
  }

  lemma MovedKeepsMembers(headers: HeaderMap, i: nat)
    requires i < |headers|
    ensures multiset(MovedToEnd(headers, i)) == multiset(headers)
  {
    assert headers == headers[..i] + [headers[i]] + headers[i + 1..];
  }

  /** The body test gives one answer for all iteration orders of a header map if and only if
      there is a Content-Length, or no Transfer-Encoding, or nothing else. */
  lemma BodyTestOrderIff(headers: HeaderMap)
    ensures SameInEveryOrder(headers) <==>
            || HasName(headers, "content-length") || !HasName(headers, "transfer-encoding")
            || forall i :: 0 <= i < |headers| ==> ToLower(headers[i].0) == "transfer-encoding"
  {
    if HasName(headers, "content-length") || !HasName(headers, "transfer-encoding")
       || forall i :: 0 <= i < |headers| ==> ToLower(headers[i].0) == "transfer-encoding" {
      forall p: HeaderMap | multiset(p) == multiset(headers) ensures BodyTest(p) <==> BodyTest(headers) {
        BodyTestSettled(headers, p);
      }
    } else {
      var i :| 0 <= i < |headers| && ToLower(headers[i].0) == "transfer-encoding";
      var j :| 0 <= j < |headers| && ToLower(headers[j].0) != "transfer-encoding";
      LastDecides(headers, i);
      LastDecides(headers, j);
      assert BodyTest(MovedToEnd(headers, i)) && !BodyTest(MovedToEnd(headers, j));
    }
  }

  lemma LastDecides(headers: HeaderMap, i: nat)
    requires i < |headers| && !HasName(headers, "content-length")
    ensures multiset(MovedToEnd(headers, i)) == multiset(headers)
    ensures BodyTest(MovedToEnd(headers, i)) <==> ToLower(headers[i].0) == "transfer-encoding"
  {
    var p := MovedToEnd(headers, i);
    MovedKeepsMembers(headers, i);
    if HasName(p, "content-length") { HasNameInAnyOrder(p, headers, "content-length"); }
    assert p[|p| - 1] == headers[i];
  }

  lemma BodyTestSettled(headers: HeaderMap, p: HeaderMap)
    requires multiset(p) == multiset(headers)
    requires HasName(headers, "content-length") || !HasName(headers, "transfer-encoding")
             || forall i :: 0 <= i < |headers| ==> ToLower(headers[i].0) == "transfer-encoding"
    ensures BodyTest(p) <==> BodyTest(headers)
  {
    if HasName(headers, "content-length") {
      HasNameInAnyOrder(headers, p, "content-length");
    } else {
      if HasName(p, "content-length") { HasNameInAnyOrder(p, headers, "content-length"); }
      assert |p| == |multiset(p)| == |multiset(headers)| == |headers|;
      if p != [] {
        var last := |p| - 1;
        SameMembers(p, headers, p[last]);
        var k :| 0 <= k < |headers| && headers[k] == p[last];
        if !HasName(headers, "transfer-encoding") {
          assert ToLower(headers[k].0) != "transfer-encoding" && ToLower(headers[last].0) != "transfer-encoding";
        }
      }
    }
  }

  /** A header whose name is "content-length" but for case means a body, wherever it stands. */
  lemma ContentLengthMeansBody(headers: HeaderMap, i: nat)
    requires i < |headers| && ToLower(headers[i].0) == "content-length"
    ensures forall p: HeaderMap :: multiset(p) == multiset(headers) ==> BodyTest(p)
  {
    assert HasName(headers, "content-length");
    forall p: HeaderMap | multiset(p) == multiset(headers) ensures BodyTest(p) {
      HasNameInAnyOrder(headers, p, "content-length");
    }
  }

  /** Without a header of either name there is no body in any order. */
  lemma NeitherMeansNoBody(headers: HeaderMap)
    requires forall i :: 0 <= i < |headers| ==> ToLower(headers[i].0) !in ["content-length", "transfer-encoding"]
    ensures forall p: HeaderMap :: multiset(p) == multiset(headers) ==> !BodyTest(p)
  {
    forall p: HeaderMap | multiset(p) == multiset(headers) ensures !BodyTest(p) {
      if HasName(p, "content-length") { HasNameInAnyOrder(p, headers, "content-length"); }
      if HasName(p, "transfer-encoding") { HasNameInAnyOrder(p, headers, "transfer-encoding"); }
      if p != [] { assert !HasName(p, "transfer-encoding"); }
    }
  }

  /** Transfer-Encoding and nothing else means a body in any order. */
  lemma OnlyTransferEncodingMeansBody(headers: HeaderMap)
    requires headers != [] && forall i :: 0 <= i < |headers| ==> ToLower(headers[i].0) == "transfer-encoding"
    ensures forall p: HeaderMap :: multiset(p) == multiset(headers) ==> BodyTest(p)
  {
    forall p: HeaderMap | multiset(p) == multiset(headers) ensures BodyTest(p) {
      assert |p| == |multiset(p)| == |multiset(headers)| == |headers|;
      SameMembers(p, headers, p[|p| - 1]);
    }
  }

  /** The spelling of net/http and the one in capitals. */
  lemma Spellings()
    ensures ToLower("Content-Length") == "content-length" == ToLower("CONTENT-LENGTH")
    ensures ToLower("Transfer-Encoding") == "transfer-encoding" == ToLower("TRANSFER-ENCODING")
  {
    LengthSpellings();
    EncodingSpellings();
  }

  lemma LengthSpellings()
    ensures ToLower("Content-Length") == "content-length" == ToLower("CONTENT-LENGTH")
  {
  }

  lemma EncodingSpellings()
    ensures ToLower("Transfer-Encoding") == "transfer-encoding" == ToLower("TRANSFER-ENCODING")
  {
  }

  lemma SpellingsMeanBody(headers: HeaderMap)
    ensures (exists i :: 0 <= i < |headers| && headers[i].0 == "Content-Length") ==> BodyTest(headers)
    ensures |headers| == 1 && headers[0].0 == "Transfer-Encoding" ==> BodyTest(headers)
    ensures BodyTest(headers) ==> exists i :: 0 <= i < |headers| && ToLower(headers[i].0) in ["content-length", "transfer-encoding"]
  {
    Spellings();
    if i :| 0 <= i < |headers| && headers[i].0 == "Content-Length" { ContentLengthMeansBody(headers, i); }
    if |headers| == 1 && headers[0].0 == "Transfer-Encoding" { OnlyTransferEncodingMeansBody(headers); }
    if forall i :: 0 <= i < |headers| ==> ToLower(headers[i].0) !in ["content-length", "transfer-encoding"] {
      NeitherMeansNoBody(headers);
    }
  }

  /** Two orders of one map, two answers. */
  lemma BodyTestDependsOnOrder()
    ensures var te, accept := ("Transfer-Encoding", ["chunked"]), ("Accept", ["*/*"]);
            multiset([te, accept]) == multiset([accept, te]) && !BodyTest([te, accept]) && BodyTest([accept, te])
  {
    LowerNames();
    var te, accept := ("Transfer-Encoding", ["chunked"]), ("Accept", ["*/*"]);
    assert [accept, te] == MovedToEnd([te, accept], 0);
    MovedKeepsMembers([te, accept], 0);
  }

  lemma LowerNames()
    ensures ToLower("Transfer-Encoding") == "transfer-encoding" && |ToLower("Accept")| == 6
  {
  }

  // ---------- what is read and added by name ----------

  /** Copying goes header by header and value by value, in order, once each. */
  lemma {:induction false} CopiedConcat(a: HeaderMap, b: HeaderMap, connHeaders: seq<string>)
    ensures Copied(a + b, connHeaders) == Copied(a, connHeaders) + Copied(b, connHeaders)
  {
    if b == [] {
      assert a + b == a;
    } else {
      var n := |b| - 1;
      assert a + b == a + b[..n] + [b[n]] && b == b[..n] + [b[n]];
      CopiedConcat(a, b[..n], connHeaders);
      CopiedSnoc(a + b[..n], b[n], connHeaders);
      CopiedSnoc(b[..n], b[n], connHeaders);
    }
  }

  lemma CopiedValues(name: string, value: string, more: seq<string>, connHeaders: seq<string>)
    ensures Copied([(name, [value] + more)], connHeaders)
         == Copied([(name, [value])], connHeaders) + Copied([(name, more)], connHeaders)
    ensures Copied([(name, [value])], connHeaders) == if name in HOP_BY_HOP || name in connHeaders then [] else [(name, value)]
    ensures Copied([(name, [])], connHeaders) == []
  {
    CopiedOne(name, [value] + more, connHeaders);
    CopiedOne(name, [value], connHeaders);
    CopiedOne(name, more, connHeaders);
    CopiedOne(name, [], connHeaders);
    assert Pairs(name, [value] + more) == Pairs(name, [value]) + Pairs(name, more);
  }

  lemma CopiedOne(name: string, values: seq<string>, connHeaders: seq<string>)
    ensures Copied([(name, values)], connHeaders) == if ShouldSend(name, connHeaders) then Pairs(name, values) else []
  {
    assert [(name, values)][..0] == [];
  }

  predicate FirstNamed(headers: HeaderMap, name: string, i: int)
  {
    0 <= i < |headers| && headers[i].0 == name && forall j :: 0 <= j < i ==> headers[j].0 != name
  }

  /** `Values` answers with the values stored under the name, if it is there. */
  lemma {:induction false} ValuesOfName(headers: HeaderMap, name: string)
    ensures (forall i :: 0 <= i < |headers| ==> headers[i].0 != name) ==> Values(headers, name) == []
    ensures forall i :: FirstNamed(headers, name, i) ==> Values(headers, name) == headers[i].1
  {
    if headers == [] {
    } else {
      ValuesOfName(headers[1..], name);
      forall i | FirstNamed(headers, name, i) ensures Values(headers, name) == headers[i].1 {
        if i > 0 { assert FirstNamed(headers[1..], name, i - 1); }
      }
    }
  }

  /** The client has sent the header, and its first value is not empty. */
  ghost predicate Given(headers: HeaderMap, name: string)
  {
    exists i :: FirstNamed(headers, name, i) && headers[i].1 != [] && headers[i].1[0] != ""
  }

  lemma GivenOrAbsent(headers: HeaderMap, name: string)
    ensures Absent(headers, name) <==> !Given(headers, name)
  {
    ValuesOfName(headers, name);
    if !Absent(headers, name) {
      var i :| 0 <= i < |headers| && headers[i].0 == name;
      var first := FirstIndex(headers, name, i);
      assert FirstNamed(headers, name, first);
    }
  }

  lemma {:induction false} FirstIndex(headers: HeaderMap, name: string, i: nat) returns (first: nat)
    requires i < |headers| && headers[i].0 == name
    ensures FirstNamed(headers, name, first)
  {
    if headers[0].0 == name {
      first := 0;
    } else {
      first := FirstIndex(headers[1..], name, i - 1);
      first := first + 1;
    }
  }

  /** A client that gives none of the X- headers gets all five, in this order. */
  lemma ForwardingOfPlainClient(headers: HeaderMap, remoteAddr: string, proto: string, host: string, via: string)
    requires var names := ["X-Forwarded-For", "X-Forwarded-Proto", "X-Forwarded-Host", "X-Forwarded-Server"];
             forall i :: 0 <= i < |headers| ==> headers[i].0 !in names
    ensures Forwarding(headers, remoteAddr, proto, host, via) ==
            [("Forwarded", "for=" + remoteAddr + ";proto=" + proto + ";host=" + host + ";by=" + via),
             ("X-Forwarded-For", remoteAddr), ("X-Forwarded-Proto", proto), ("X-Forwarded-Host", host), ("X-Forwarded-Server", via)]
  {
    ValuesOfName(headers, "X-Forwarded-For");
    ValuesOfName(headers, "X-Forwarded-Proto");
    ValuesOfName(headers, "X-Forwarded-Host");
    ValuesOfName(headers, "X-Forwarded-Server");
  }

  lemma IfAbsentAdds(headers: HeaderMap, name: string, value: string, h: Header)
    ensures h in IfAbsent(headers, name, value) <==> h == (name, value) && !Given(headers, name)
  {
    GivenOrAbsent(headers, name);
  }

  /** Any client: a line is added if and only if it is the Forwarded line, or one of the four
      X- lines that the client has not given. */
  lemma ForwardingAddsIff(headers: HeaderMap, remoteAddr: string, proto: string, host: string, via: string, h: Header)
    ensures h in Forwarding(headers, remoteAddr, proto, host, via) <==>
            || h == ("Forwarded", "for=" + remoteAddr + ";proto=" + proto + ";host=" + host + ";by=" + via)
            || (!Given(headers, h.0) &&
                h in [("X-Forwarded-For", remoteAddr), ("X-Forwarded-Proto", proto),
                      ("X-Forwarded-Host", host), ("X-Forwarded-Server", via)])
  {
    IfAbsentAdds(headers, "X-Forwarded-For", remoteAddr, h);
    IfAbsentAdds(headers, "X-Forwarded-Proto", proto, h);
    IfAbsentAdds(headers, "X-Forwarded-Host", host, h);
    IfAbsentAdds(headers, "X-Forwarded-Server", via, h);
  }

  /** Exactly the client's permitted lines are copied. */
  lemma {:induction false} CopiedExactly(headers: HeaderMap, connHeaders: seq<string>, h: Header)
    ensures h in Copied(headers, connHeaders) <==>
            ShouldSend(h.0, connHeaders) && exists i :: 0 <= i < |headers| && headers[i].0 == h.0 && h.1 in headers[i].1
  {
    if headers == [] {
    } else {
      var n := |headers| - 1;
      var front, last := headers[..n], headers[n];
      CopiedExactly(front, connHeaders, h);
      assert h in Pairs(last.0, last.1) <==> last.0 == h.0 && h.1 in last.1 by {
        if last.0 == h.0 && h.1 in last.1 {
          var k :| 0 <= k < |last.1| && last.1[k] == h.1;
          assert Pairs(last.0, last.1)[k] == h;
        }
      }
      if i :| 0 <= i < |headers| && headers[i].0 == h.0 && h.1 in headers[i].1 {
        if i < n { assert front[i] == headers[i]; }
      }
      if i :| 0 <= i < |front| && front[i].0 == h.0 && h.1 in front[i].1 {
        assert headers[i] == front[i];
      }
    }
  }

  // ---------- connector side ----------

  /** The (name, value) pairs `putHeadersTo` adds, in order: a line is cut at its first
      colon, a line without a name is dropped. */
  function AddedHeaders(lines: seq<string>): seq<Header>
  {
    if lines == [] then [] else AddedHeaders(lines[..|lines| - 1]) + AddedBy(lines[|lines| - 1])
  }

  function AddedBy(line: string): seq<Header>
  {
    var pos := IndexOf(line, ':');
    if pos > 0 then [(line[..pos], line[pos + 1..])] else []
  }

  /** A line without a colon past its start adds nothing. */
  predicate NoHeader(line: string) { IndexOf(line, ':') <= 0 }

  const AGENT: Header := ("User-Agent", "")

  const VIA: Header := ("Via", "1.1 crnk")

  /** `Agent("")` followed by `putHeadersTo`. */
  function TargetHeaders(lines: seq<string>): seq<Header>
  {
    [AGENT] + AddedHeaders(lines) + [VIA]
  }

  method PutHeadersTo(lines: seq<string>, agent: seq<Header>) returns (added: seq<Header>)
    requires agent == [AGENT]
    ensures added == TargetHeaders(lines)
  {
    added := agent;
    for i := 0 to |lines|
      invariant added == agent + AddedHeaders(lines[..i])
    {
      OneMoreLine(agent, lines, i);
      var line := lines[i];
      var pos := IndexOf(line, ':');
      if pos > 0 {
        added := added + [(line[..pos], line[pos + 1..])];
      } else {
        assert added + [] == added;
      }
    }
    assert lines[..|lines|] == lines;
    added := added + [VIA];
  }

  lemma OneMoreLine(agent: seq<Header>, lines: seq<string>, i: nat)
    requires i < |lines|
    ensures agent + AddedHeaders(lines[..i + 1]) == agent + AddedHeaders(lines[..i]) + AddedBy(lines[i])
  {
    assert lines[..i + 1][..i] == lines[..i];
  }

  function Named(headers: seq<Header>): seq<Header>
  {
    if headers == [] then []
    else
      var h := headers[|headers| - 1];
      Named(headers[..|headers| - 1]) + (if h.0 != "" then [h] else [])
  }

  lemma {:induction false} AddedFromLines(headers: seq<Header>)
    requires CleanHeaders(headers)
    ensures AddedHeaders(HeaderLines(headers)) == Named(headers)
  {
    if headers == [] {
    } else {
      var n := |headers| - 1;
      var h := headers[n];
      AddedFromLines(headers[..n]);
      assert HeaderLines(headers)[..n] == HeaderLines(headers[..n]);
      var line := HeaderLine(h);
      assert line[..|h.0|] == h.0 && line[|h.0| + 1..] == h.1;
      FirstColon(h.0, h.1);
    }
  }

  lemma FirstColon(name: string, value: string)
    requires ':' !in name
    ensures IndexOf(name + ":" + value, ':') == |name|
  {
    var line := name + ":" + value;
    assert line[|name|] == ':' && line[..|name|] == name;
  }

  /** The headers of the target request for what the router has appended. */
  function AtTarget(httpMethod: string, path: string, rawQuery: string, headers: seq<Header>, marker: string): seq<Header>
  {
    var parsed := ParseRequest(BuildRequest(CreateReqLine(httpMethod, path, rawQuery), Some(HeaderText(headers)), marker));
    if parsed.Some? then TargetHeaders(parsed.value.headers) else []
  }

  lemma {:induction false} AddedConcat(a: seq<string>, b: seq<string>)
    ensures AddedHeaders(a + b) == AddedHeaders(a) + AddedHeaders(b)
  {
    if b == [] {
      assert a + b == a;
    } else {
      var n := |b| - 1;
      assert (a + b)[..|a + b| - 1] == a + b[..n] && (a + b)[|a + b| - 1] == b[n];
      AddedConcat(a, b[..n]);
    }
  }

  predicate NoHeaders(lines: seq<string>)
  {
    lines == [] || (NoHeader(lines[|lines| - 1]) && NoHeaders(lines[..|lines| - 1]))
  }

  lemma {:induction false} NoHeadersMeans(lines: seq<string>)
    ensures NoHeaders(lines) <==> forall k :: 0 <= k < |lines| ==> NoHeader(lines[k])
  {
    if lines == [] {
    } else {
      var n := |lines| - 1;
      NoHeadersMeans(lines[..n]);
      assert forall k :: 0 <= k < n ==> lines[..n][k] == lines[k];
    }
  }

  lemma {:induction false} AddedNothing(lines: seq<string>)
    ensures AddedHeaders(lines) == [] <==> NoHeaders(lines)
  {
    if lines == [] {
    } else {
      var n := |lines| - 1;
      AddedNothing(lines[..n]);
      BothEmpty(AddedHeaders(lines[..n]), AddedBy(lines[n]));
      AddedByNothing(lines[n]);
    }
  }

  lemma AddedByNothing(line: string)
    ensures AddedBy(line) == [] <==> NoHeader(line)
  {
  }

  lemma BothEmpty<T>(a: seq<T>, b: seq<T>)
    ensures a + b == [] <==> a == [] && b == []
  {
    assert |a + b| == |a| + |b|;
  }

  /** What follows a newline in the request line, read as headers. */
  function Stray(httpMethod: string, path: string, rawQuery: string): seq<Header>
  {
    AddedHeaders(Split(CreateReqLine(httpMethod, path, rawQuery), '\n')[1..])
  }

  /** What the target request gets, for every path and query: between `User-Agent` and `Via`
      what follows a newline in the request line, then what the router appended, in order,
      but for pairs without a name. */
  lemma HeadersAtTarget(httpMethod: string, path: string, rawQuery: string, headers: seq<Header>, marker: string)
    requires Token(httpMethod) && CleanHeaders(headers) && '\n' !in marker
    ensures AtTarget(httpMethod, path, rawQuery, headers, marker)
         == [("User-Agent", "")] + Stray(httpMethod, path, rawQuery) + Named(headers) + [("Via", "1.1 crnk")]
  {
    var later := Split(CreateReqLine(httpMethod, path, rawQuery), '\n')[1..];
    ReadAtTarget(httpMethod, path, rawQuery, headers, marker);
    ClosedBlock(headers);
    TargetConcat(later, HeaderLines(headers) + [""]);
  }

  lemma ReadAtTarget(httpMethod: string, path: string, rawQuery: string, headers: seq<Header>, marker: string)
    requires Token(httpMethod) && CleanHeaders(headers) && '\n' !in marker
    ensures AtTarget(httpMethod, path, rawQuery, headers, marker)
         == TargetHeaders(Split(CreateReqLine(httpMethod, path, rawQuery), '\n')[1..] + (HeaderLines(headers) + [""]))
  {
    var later := Split(CreateReqLine(httpMethod, path, rawQuery), '\n')[1..];
    BuilderRoundTrip(httpMethod, path, rawQuery, headers, marker);
    assert later + HeaderLines(headers) + [""] == later + (HeaderLines(headers) + [""]);
  }

  lemma TargetConcat(a: seq<string>, b: seq<string>)
    ensures TargetHeaders(a + b) == [AGENT] + AddedHeaders(a) + AddedHeaders(b) + [VIA]
  {
    var x, y := AddedHeaders(a), AddedHeaders(b);
    AddedConcat(a, b);
    InMiddle([AGENT], x, y, [VIA]);
  }

  lemma InMiddle<T>(a: seq<T>, b: seq<T>, c: seq<T>, d: seq<T>)
    ensures a + (b + c) + d == a + b + c + d
  {
  }

  /** Header fidelity: the target request gets exactly what the router appended, in order,
      between `User-Agent` and `Via`, if and only if no part of the request line behind a
      newline has a colon past its start. */
  lemma HeaderFidelityIff(httpMethod: string, path: string, rawQuery: string, headers: seq<Header>, marker: string)
    requires Token(httpMethod) && CleanHeaders(headers) && '\n' !in marker
    ensures AtTarget(httpMethod, path, rawQuery, headers, marker) == [AGENT] + Named(headers) + [VIA]
       <==> var lines := Split(CreateReqLine(httpMethod, path, rawQuery), '\n');
            LaterLinesPlain(lines)
  {
    var stray, named := Stray(httpMethod, path, rawQuery), Named(headers);
    HeadersAtTarget(httpMethod, path, rawQuery, headers, marker);
    StrayNothing(httpMethod, path, rawQuery);
    Inserted([AGENT], stray, named, [VIA]);
  }

  lemma Inserted<T>(a: seq<T>, mid: seq<T>, b: seq<T>, c: seq<T>)
    ensures a + mid + b + c == a + b + c <==> mid == []
  {
    if mid == [] { assert a + mid == a; } else { assert |a + mid + b + c| > |a + b + c|; }
  }

  /** No line after the first adds a header. */
  predicate LaterLinesPlain(lines: seq<string>) { forall k :: 1 <= k < |lines| ==> NoHeader(lines[k]) }

  lemma StrayNothing(httpMethod: string, path: string, rawQuery: string)
    ensures Stray(httpMethod, path, rawQuery) == [] <==> LaterLinesPlain(Split(CreateReqLine(httpMethod, path, rawQuery), '\n'))
  {
    var lines := Split(CreateReqLine(httpMethod, path, rawQuery), '\n');
    AddedNothing(lines[1..]);
    FromSecond(lines);
  }

  lemma FromSecond(lines: seq<string>)
    requires lines != []
    ensures NoHeaders(lines[1..]) <==> LaterLinesPlain(lines)
  {
    NoHeadersMeans(lines[1..]);
    if NoHeaders(lines[1..]) {
      forall k | 1 <= k < |lines| ensures NoHeader(lines[k]) { assert lines[1..][k - 1] == lines[k]; }
    }
  }

  /** So it holds for every path and query without a newline. */
  lemma NothingStray(httpMethod: string, path: string, rawQuery: string)
    requires '\n' !in httpMethod && '\n' !in path && '\n' !in rawQuery
    ensures Stray(httpMethod, path, rawQuery) == []
  {
    SplitNone(CreateReqLine(httpMethod, path, rawQuery), '\n');
  }

  /** A decoded newline in the path adds a header that nobody appended. */
  lemma NewlineAddsHeader(httpMethod: string, front: string, name: string, value: string, marker: string)
    requires Token(httpMethod) && '\n' !in marker
    requires name != "" && ':' !in name && '\n' !in name && '\n' !in value
    ensures var path := front + "\n" + name + ":" + value;
            (name, value + " HTTP/1.1") in AtTarget(httpMethod, path, "", [], marker)
  {
    var path, version := front + "\n" + name + ":" + value, " HTTP/1.1";
    var line := CreateReqLine(httpMethod, path, "");
    var start := httpMethod + " " + front;
    assert line == start + ['\n'] + (name + ":" + (value + version));
    assert '\n' !in version;
    LastLineAdded(start, name, value + version);
    HeadersAtTarget(httpMethod, path, "", [], marker);
  }

  /** A last line with a name and a colon is read as a header. */
  lemma LastLineAdded(start: string, name: string, value: string)
    requires name != "" && ':' !in name && '\n' !in name && '\n' !in value
    ensures (name, value) in AddedHeaders(Split(start + ['\n'] + (name + ":" + value), '\n')[1..])
  {
    var last := name + ":" + value;
    SplitSnoc(start, last, '\n');
    LineAdds(name, value);
    var later := Split(start + ['\n'] + last, '\n')[1..];
    assert later[|later| - 1] == last;
    LastAdded(later, (name, value));
  }

  lemma LineAdds(name: string, value: string)
    requires name != "" && ':' !in name
    ensures AddedBy(name + ":" + value) == [(name, value)]
  {
    var line := name + ":" + value;
    FirstColon(name, value);
    assert line[..|name|] == name && line[|name| + 1..] == value;
  }

  lemma LastAdded(lines: seq<string>, h: Header)
    requires lines != [] && AddedBy(lines[|lines| - 1]) == [h]
    ensures h in AddedHeaders(lines)
  {
    assert AddedHeaders(lines) == AddedHeaders(lines[..|lines| - 1]) + [h];
  }

  /** The empty line that closes the header block adds nothing. */
  lemma ClosedBlock(headers: seq<Header>)
    requires CleanHeaders(headers)
    ensures AddedHeaders(HeaderLines(headers) + [""]) == Named(headers)
  {
    AddedFromLines(headers);
    var lines := HeaderLines(headers) + [""];
    assert lines[..|lines| - 1] == HeaderLines(headers);
  }

  lemma {:induction false} NamedIsFilter(headers: seq<Header>, h: Header)
    ensures h in Named(headers) <==> h in headers && h.0 != ""
  {
    if headers == [] {
    } else {
      NamedIsFilter(headers[..|headers| - 1], h);
      assert headers == headers[..|headers| - 1] + [headers[|headers| - 1]];
    }
  }

  // ---------- what ought to stop at the router ----------

  /** The names of section 13.5.1 of RFC 2616 (Trailer for its "Trailers"), compared without
      case (section 3.2 of RFC 7230). */
  predicate IsHopByHop(name: string)
  {
    ToLower(name) in {"connection", "keep-alive", "proxy-authenticate", "proxy-authorization",
                      "te", "trailer", "transfer-encoding", "upgrade"}
  }

  /** Without case, they are the names of the router's set. */
  lemma SetWithoutCase(name: string)
    ensures IsHopByHop(name) <==> exists h :: h in HOP_BY_HOP && ToLower(h) == ToLower(name)
  {
    LowerShort();
    LowerUpgrade();
    LowerProxyNames();
    EncodingSpellings();
    var lower := ToLower(name);
    if IsHopByHop(name) {
      var h := if lower == "connection" then "Connection" else if lower == "keep-alive" then "Keep-Alive"
               else if lower == "proxy-authenticate" then "Proxy-Authenticate"
               else if lower == "proxy-authorization" then "Proxy-Authorization" else if lower == "te" then "TE"
               else if lower == "trailer" then "Trailer"
               else if lower == "transfer-encoding" then "Transfer-Encoding" else "Upgrade";
      assert h in HOP_BY_HOP && ToLower(h) == lower;
    }
  }

  lemma LowerShort()
    ensures ToLower("TE") == "te" && ToLower("Connection") == "connection" && ToLower("Keep-Alive") == "keep-alive"
  {
  }

  lemma LowerUpgrade()
    ensures ToLower("Upgrade") == "upgrade" && ToLower("Trailer") == "trailer"
  {
  }

  lemma LowerProxyNames()
    ensures ToLower("Proxy-Authenticate") == "proxy-authenticate"
    ensures ToLower("Proxy-Authorization") == "proxy-authorization"
  {
  }

  function TrimLeft(s: string): string { if s != "" && s[0] in " \t" then TrimLeft(s[1..]) else s }

  function TrimRight(s: string): string
  {
    if s != "" && s[|s| - 1] in " \t" then TrimRight(s[..|s| - 1]) else s
  }

  function ConnOption(value: string, j: nat): string
    requires j < |Split(value, ',')|
  {
    ToLower(TrimRight(TrimLeft(Split(value, ',')[j])))
  }

  /** A Connection value is a comma-separated list of options (section 6.1 of RFC 7230). */
  predicate NamedByConnection(name: string, connHeaders: seq<string>)
  {
    exists i, j :: 0 <= i < |connHeaders| && 0 <= j < |Split(connHeaders[i], ',')| && ConnOption(connHeaders[i], j) == ToLower(name)
  }

  predicate OughtToStop(name: string, connHeaders: seq<string>) { IsHopByHop(name) || NamedByConnection(name, connHeaders) }

  predicate Sends(headers: HeaderMap, h: Header)
  {
    exists i :: 0 <= i < |headers| && headers[i].0 == h.0 && h.1 in headers[i].1
  }

  /** Everything the router appends: the client's permitted lines and what it adds itself. */
  lemma SentIff(headers: HeaderMap, remoteAddr: string, proto: string, host: string, via: string, h: Header)
    ensures h in SentHeaders(headers, remoteAddr, proto, host, via) <==>
            || (Sends(headers, h) && h.0 !in HOP_BY_HOP && h.0 !in Values(headers, "Connection"))
            || h == ("Forwarded", "for=" + remoteAddr + ";proto=" + proto + ";host=" + host + ";by=" + via)
            || (!Given(headers, h.0) &&
                h in [("X-Forwarded-For", remoteAddr), ("X-Forwarded-Proto", proto),
                      ("X-Forwarded-Host", host), ("X-Forwarded-Server", via)])
  {
    CopiedExactly(headers, Values(headers, "Connection"), h);
    ForwardingAddsIff(headers, remoteAddr, proto, host, via, h);
  }

  /** For a client that gives none of the X- headers the last five lines are the router's. */
  lemma SentEndsForwarding(headers: HeaderMap, remoteAddr: string, proto: string, host: string, via: string)
    requires var names := ["X-Forwarded-For", "X-Forwarded-Proto", "X-Forwarded-Host", "X-Forwarded-Server"];
             forall i :: 0 <= i < |headers| ==> headers[i].0 !in names
    ensures var sent := SentHeaders(headers, remoteAddr, proto, host, via);
            |sent| >= 5 && sent[|sent| - 5..] ==
              [("Forwarded", "for=" + remoteAddr + ";proto=" + proto + ";host=" + host + ";by=" + via),
               ("X-Forwarded-For", remoteAddr), ("X-Forwarded-Proto", proto), ("X-Forwarded-Host", host), ("X-Forwarded-Server", via)]
  {
    ForwardingOfPlainClient(headers, remoteAddr, proto, host, via);
    BehindCopied(Copied(headers, Values(headers, "Connection")), Forwarding(headers, remoteAddr, proto, host, via));
  }

  lemma BehindCopied<T>(a: seq<T>, b: seq<T>)
    ensures (a + b)[|a + b| - |b|..] == b
  {
  }

  /** Names and values that fit on one line each. */
  predicate CleanRequest(headers: HeaderMap, remoteAddr: string, proto: string, host: string, via: string)
  {
    && (forall i :: 0 <= i < |headers| ==>
         '\n' !in headers[i].0 && ':' !in headers[i].0 && forall v :: v in headers[i].1 ==> '\n' !in v)
    && '\n' !in remoteAddr && '\n' !in proto && '\n' !in host && '\n' !in via
  }

  predicate CleanHeader(h: Header) { '\n' !in h.0 && ':' !in h.0 && '\n' !in h.1 }

  lemma ForwardedIsClean(remoteAddr: string, proto: string, host: string, via: string)
    requires '\n' !in remoteAddr && '\n' !in proto && '\n' !in host && '\n' !in via
    ensures '\n' !in ForwardedValue(remoteAddr, proto, host, via)
  {
    assert '\n' !in "for=" && '\n' !in ";proto=" && '\n' !in ";host=" && '\n' !in ";by=";
  }

  lemma ForwardingIsClean(headers: HeaderMap, remoteAddr: string, proto: string, host: string, via: string, h: Header)
    requires CleanRequest(headers, remoteAddr, proto, host, via) && h in Forwarding(headers, remoteAddr, proto, host, via)
    ensures CleanHeader(h)
  {
    ForwardedIsClean(remoteAddr, proto, host, via);
    ForwardingNames(h.0);
  }

  lemma ForwardingNames(name: string)
    requires name in ["Forwarded", "X-Forwarded-For", "X-Forwarded-Proto", "X-Forwarded-Host", "X-Forwarded-Server"]
    ensures '\n' !in name && ':' !in name
  {
  }

  lemma SentIsClean(headers: HeaderMap, remoteAddr: string, proto: string, host: string, via: string)
    requires CleanRequest(headers, remoteAddr, proto, host, via)
    ensures CleanHeaders(SentHeaders(headers, remoteAddr, proto, host, via))
  {
    var sent := SentHeaders(headers, remoteAddr, proto, host, via);
    forall k | 0 <= k < |sent| ensures CleanHeader(sent[k]) {
      CopiedExactly(headers, Values(headers, "Connection"), sent[k]);
      if sent[k] in Forwarding(headers, remoteAddr, proto, host, via) {
        ForwardingIsClean(headers, remoteAddr, proto, host, via, sent[k]);
      }
    }
  }

  /** What the two proxies add themselves. */
  function Added(headers: HeaderMap, remoteAddr: string, proto: string, host: string, via: string): seq<Header>
  {
    [AGENT, VIA] + Forwarding(headers, remoteAddr, proto, host, via)
  }

  /** A line of the client that is not one the proxies add themselves, nor read from the
      request line, is kept from the target if and only if its name is empty, is spelled as in
      the set, or is a whole value of Connection: neither another spelling nor an option in a
      list is noticed. */
  lemma HopByHopStopsIff(httpMethod: string, path: string, rawQuery: string, headers: HeaderMap,
                         remoteAddr: string, proto: string, host: string, via: string, marker: string, h: Header)
    requires Token(httpMethod)
    requires CleanRequest(headers, remoteAddr, proto, host, via) && '\n' !in marker
    requires Sends(headers, h) && h !in Added(headers, remoteAddr, proto, host, via)
    ensures h !in AtTarget(httpMethod, path, rawQuery, SentHeaders(headers, remoteAddr, proto, host, via), marker)
       <==> h !in Stray(httpMethod, path, rawQuery) && (h.0 == "" || h.0 in HOP_BY_HOP || h.0 in Values(headers, "Connection"))
  {
    var sent := SentHeaders(headers, remoteAddr, proto, host, via);
    SentIsClean(headers, remoteAddr, proto, host, via);
    HeadersAtTarget(httpMethod, path, rawQuery, sent, marker);
    NamedIsFilter(sent, h);
    CopiedExactly(headers, Values(headers, "Connection"), h);
    assert h !in [AGENT] && h !in [VIA];
  }

  predicate Plain(name: string) { name != "" && forall c :: c in name ==> c !in ", \t:\n" }

  /** Nothing else is stopped: what is spelled as in the set or is a whole value of Connection
      ought to stop. */
  lemma StopsOnlyWhatOught(name: string, connHeaders: seq<string>)
    requires Plain(name) && !ShouldSend(name, connHeaders)
    ensures OughtToStop(name, connHeaders)
  {
    SetWithoutCase(name);
    if name !in HOP_BY_HOP {
      var i :| 0 <= i < |connHeaders| && connHeaders[i] == name;
      WholeOption(name);
      assert ConnOption(connHeaders[i], 0) == ToLower(name);
    }
  }

  lemma WholeOption(name: string)
    requires Plain(name)
    ensures ConnOption(name, 0) == ToLower(name)
  {
    assert ',' !in name by { assert ',' in ", \t:\n"; }
    SplitNone(name, ',');
    PlainIsTrimmed(name);
  }

  lemma PlainIsTrimmed(name: string)
    requires Plain(name)
    ensures TrimLeft(name) == name && TrimRight(name) == name
  {
    assert name[0] in name && name[|name| - 1] in name;
    assert ' ' in ", \t:\n" && '\t' in ", \t:\n";
  }

  /** No header that the proxies add is hop-by-hop. */
  lemma AddedIsEndToEnd(headers: HeaderMap, remoteAddr: string, proto: string, host: string, via: string, h: Header)
    requires h in Added(headers, remoteAddr, proto, host, via)
    ensures !IsHopByHop(h.0)
  {
    var names := ["User-Agent", "Via", "Forwarded", "X-Forwarded-For", "X-Forwarded-Proto", "X-Forwarded-Host", "X-Forwarded-Server"];
    assert h.0 in names;
    EndToEndName(h.0);
  }

  lemma EndToEndName(name: string)
    requires name in ["User-Agent", "Via", "Forwarded", "X-Forwarded-For", "X-Forwarded-Proto", "X-Forwarded-Host", "X-Forwarded-Server"]
    ensures !IsHopByHop(name)
  {
    SetWithoutCase(name);
    forall h | h in HOP_BY_HOP ensures ToLower(h) != ToLower(name) {
      assert |ToLower(h)| == |h| && |ToLower(name)| == |name|;
      assert ToLower(h)[0] == LowerChar(h[0]) && ToLower(name)[0] == LowerChar(name[0]);
    }
  }

  // ---------- canonical names ----------

  function UpperChar(c: char): char { if 'a' <= c <= 'z' then c - 32 as char else c }

  function CanonicalFrom(s: string, upper: bool): string
  {
    if s == "" then ""
    else [if upper then UpperChar(s[0]) else LowerChar(s[0])] + CanonicalFrom(s[1..], s[0] == '-')
  }

  /** The spelling under which net/http stores a header. */
  function Canonical(name: string): string { CanonicalFrom(name, true) }

  lemma {:induction false} CanonicalIgnoresCase(s: string, upper: bool)
    ensures CanonicalFrom(ToLower(s), upper) == CanonicalFrom(s, upper)
  {
    if s == "" {
    } else {
      assert ToLower(s)[1..] == ToLower(s[1..]);
      CanonicalIgnoresCase(s[1..], s[0] == '-');
    }
  }

  lemma {:induction false} CanonicalAt(s: string, upper: bool, k: nat)
    requires k < |s|
    ensures |CanonicalFrom(s, upper)| == |s|
    ensures CanonicalFrom(s, upper)[k]
         == if (if k == 0 then upper else s[k - 1] == '-') then UpperChar(s[k]) else LowerChar(s[k])
  {
    if k == 0 {
      CanonicalLength(s, upper);
    } else {
      CanonicalAt(s[1..], s[0] == '-', k - 1);
    }
  }

  lemma {:induction false} CanonicalLength(s: string, upper: bool)
    ensures |CanonicalFrom(s, upper)| == |s|
  {
    if s == "" {
    } else {
      CanonicalLength(s[1..], s[0] == '-');
    }
  }

  predicate CapitalisedAt(s: string, k: nat)
    requires k < |s|
  {
    if k == 0 || s[k - 1] == '-' then !('a' <= s[k] <= 'z') else !('A' <= s[k] <= 'Z')
  }

  /** Each word starts with the only capital letter in it. */
  predicate IsCapitalised(s: string) { forall k :: 0 <= k < |s| ==> CapitalisedAt(s, k) }

  lemma CapitalisedIsCanonical(s: string)
    ensures IsCapitalised(s) <==> s == Canonical(s)
  {
    CanonicalLength(s, true);
    forall k | 0 <= k < |s| ensures CapitalisedAt(s, k) <==> Canonical(s)[k] == s[k] { CanonicalAt(s, true, k); }
    if IsCapitalised(s) {
      forall k | 0 <= k < |s| ensures Canonical(s)[k] == s[k] { assert CapitalisedAt(s, k); }
    }
  }

  lemma ConnectionIsCapitalised() ensures IsCapitalised("Connection") {}

  lemma KeepAliveIsCapitalised() ensures IsCapitalised("Keep-Alive") {}

  lemma TrailerIsCapitalised() ensures IsCapitalised("Trailer") {}

  lemma UpgradeIsCapitalised() ensures IsCapitalised("Upgrade") {}

  lemma ProxyAuthenticateIsCapitalised() ensures IsCapitalised("Proxy-Authenticate") {}

  lemma ProxyAuthorizationIsCapitalised() ensures IsCapitalised("Proxy-Authorization") {}

  lemma TransferEncodingIsCapitalised() ensures IsCapitalised("Transfer-Encoding") {}

  lemma CanonicalOfSet(h: string)
    requires h in HOP_BY_HOP
    ensures Canonical(h) == if h == "TE" then "Te" else h
  {
    if h == "TE" {
      CanonicalAt(h, true, 0);
      CanonicalAt(h, true, 1);
    } else {
      SetIsCapitalised(h);
      CapitalisedIsCanonical(h);
    }
  }

  lemma SetIsCapitalised(h: string)
    requires h in HOP_BY_HOP && h != "TE"
    ensures IsCapitalised(h)
  {
    ConnectionIsCapitalised();
    KeepAliveIsCapitalised();
    TrailerIsCapitalised();
    UpgradeIsCapitalised();
    ProxyAuthenticateIsCapitalised();
    ProxyAuthorizationIsCapitalised();
    TransferEncodingIsCapitalised();
  }

  /** Of the names as net/http stores them, exactly "Te" is hop-by-hop and not in the set,
      which has it as "TE". */
  lemma OnlyTeIsMissed(name: string)
    requires name == Canonical(name)
    ensures IsHopByHop(name) && name !in HOP_BY_HOP <==> name == "Te"
  {
    SetWithoutCase(name);
    if IsHopByHop(name) {
      var h :| h in HOP_BY_HOP && ToLower(h) == ToLower(name);
      CanonicalIgnoresCase(h, true);
      CanonicalIgnoresCase(name, true);
      CanonicalOfSet(h);
    }
    if name == "Te" {
      assert ToLower("TE") == ToLower("Te");
      forall h | h in HOP_BY_HOP ensures h != "Te" { assert |h| != 2 || h[1] == 'E'; }
    }
  }

  /** So of the hop-by-hop lines that net/http hands over, and that are not read from the
      request line, those named "Te" reach the target, unless Connection has the value "Te",
      and no others. */
  lemma HopByHopReachesIffTe(httpMethod: string, path: string, rawQuery: string, headers: HeaderMap,
                             remoteAddr: string, proto: string, host: string, via: string, marker: string, h: Header)
    requires Token(httpMethod)
    requires CleanRequest(headers, remoteAddr, proto, host, via) && '\n' !in marker
    requires Sends(headers, h) && h.0 == Canonical(h.0) && IsHopByHop(h.0)
    ensures h in AtTarget(httpMethod, path, rawQuery, SentHeaders(headers, remoteAddr, proto, host, via), marker)
       <==> h in Stray(httpMethod, path, rawQuery) || (h.0 == "Te" && "Te" !in Values(headers, "Connection"))
  {
    HopByHopIsNotAdded(headers, remoteAddr, proto, host, via, h);
    HopByHopStopsIff(httpMethod, path, rawQuery, headers, remoteAddr, proto, host, via, marker, h);
    OnlyTeIsMissed(h.0);
    HopByHopHasName(h.0);
  }

  lemma HopByHopIsNotAdded(headers: HeaderMap, remoteAddr: string, proto: string, host: string, via: string, h: Header)
    requires IsHopByHop(h.0)
    ensures h !in Added(headers, remoteAddr, proto, host, via)
  {
    if h in Added(headers, remoteAddr, proto, host, via) { AddedIsEndToEnd(headers, remoteAddr, proto, host, via, h); }
  }

  lemma HopByHopHasName(name: string)
    requires IsHopByHop(name)
    ensures name != ""
  {
    assert |ToLower(name)| == |name|;
  }

  /** A client's `TE: trailers`, as net/http stores it, is sent to the target. */
  lemma TeReachesTarget(httpMethod: string, path: string, rawQuery: string, remoteAddr: string, proto: string, host: string,
                        via: string, marker: string)
    requires Token(httpMethod)
    requires '\n' !in remoteAddr && '\n' !in proto && '\n' !in host && '\n' !in via && '\n' !in marker
    ensures IsHopByHop("Te")
    ensures var headers := [("Te", ["trailers"])];
            ("Te", "trailers") in AtTarget(httpMethod, path, rawQuery, SentHeaders(headers, remoteAddr, proto, host, via), marker)
  {
    var headers: HeaderMap := [("Te", ["trailers"])];
    CapitalisedIsCanonical("Te");
    OnlyTeIsMissed("Te");
    assert "Te" != "Connection";
    assert headers[0].0 == "Te" && "trailers" in headers[0].1;
    assert Values(headers, "Connection") == [];
    HopByHopReachesIffTe(httpMethod, path, rawQuery, headers, remoteAddr, proto, host, via, marker, ("Te", "trailers"));
  }

  /** A header named in a list of Connection options is sent to the target. */
  lemma ListedOptionReachesTarget(httpMethod: string, path: string, rawQuery: string, remoteAddr: string, proto: string,
                                  host: string, via: string, marker: string, option: string, ws: string,
                                  name: string, value: string)
    requires Token(httpMethod) && '\n' !in marker
    requires ',' !in option && Blank(ws) && Plain(name)
    requires var headers := [("Connection", [option + [','] + (ws + name)]), (name, [value])];
             && CleanRequest(headers, remoteAddr, proto, host, via)
             && (name, value) !in Added(headers, remoteAddr, proto, host, via) && name !in HOP_BY_HOP
    ensures var headers := [("Connection", [option + [','] + (ws + name)]), (name, [value])];
            && NamedByConnection(name, Values(headers, "Connection"))
            && (name, value) in AtTarget(httpMethod, path, rawQuery, SentHeaders(headers, remoteAddr, proto, host, via), marker)
  {
    var headers: HeaderMap := [("Connection", [option + [','] + (ws + name)]), (name, [value])];
    var conn := Values(headers, "Connection");
    assert conn == [option + [','] + (ws + name)];
    LastOption(option, ws, name);
    assert ConnOption(conn[0], 1) == ToLower(name);
    assert headers[1].0 == name && value in headers[1].1;
    assert |conn[0]| > |name|;
    HopByHopStopsIff(httpMethod, path, rawQuery, headers, remoteAddr, proto, host, via, marker, (name, value));
  }

  predicate Blank(ws: string) { forall c :: c in ws ==> c in " \t" }

  lemma {:induction false} BlankIsTrimmed(ws: string, name: string)
    requires Blank(ws) && Plain(name)
    ensures TrimLeft(ws + name) == name
  {
    if ws == "" {
      PlainIsTrimmed(name);
      assert ws + name == name;
    } else {
      assert (ws + name)[1..] == ws[1..] + name;
      BlankIsTrimmed(ws[1..], name);
    }
  }

  lemma LastOption(option: string, ws: string, name: string)
    requires ',' !in option && Blank(ws) && Plain(name)
    ensures |Split(option + [','] + (ws + name), ',')| == 2 && ConnOption(option + [','] + (ws + name), 1) == ToLower(name)
  {
    SplitCons(option, ws + name, ',');
    assert ',' !in name by { assert ',' in ", \t:\n"; }
    assert ',' !in ws by { assert ',' !in " \t"; }
    SplitNone(ws + name, ',');
    BlankIsTrimmed(ws, name);
    PlainIsTrimmed(name);
  }
}
