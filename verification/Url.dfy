/** Which references `url.Parse` of Go's net/url accepts. The connector ignores its error and
    then dereferences the missing result. */
module Url {
  import opened Text

  /** The text before the first `c`, and the text behind it. */
  function Cut(s: string, c: char): (string, string)
  {
    var i := IndexOf(s, c);
    if i < 0 then (s, "") else (s[..i], s[i + 1..])
  }

  function LastIndexOf(s: string, c: char): (i: int)
    ensures -1 <= i < |s|
    ensures i >= 0 ==> s[i] == c
  {
    if s == "" then -1 else if s[|s| - 1] == c then |s| - 1 else LastIndexOf(s[..|s| - 1], c)
  }

  predicate IsAlpha(c: char) { 'a' <= c <= 'z' || 'A' <= c <= 'Z' }

  predicate IsHex(c: char) { IsDigit(c) || 'a' <= c <= 'f' || 'A' <= c <= 'F' }

  predicate IsControl(c: char) { c < ' ' || c == '\U{7F}' }

  predicate HasControl(s: string) { exists i :: 0 <= i < |s| && IsControl(s[i]) }

  /** Two hexadecimal digits follow. */
  predicate EscapeAt(s: string, i: nat) { i + 2 < |s| && IsHex(s[i + 1]) && IsHex(s[i + 2]) }

  /** Every '%' starts an escape. */
  predicate WellEscaped(s: string) { forall i :: 0 <= i < |s| && s[i] == '%' ==> EscapeAt(s, i) }

  // ---------- scheme ----------

  predicate IsSchemeChar(c: char) { IsAlpha(c) || IsDigit(c) || c in "+-." }

  function SchemeEnd(s: string): (i: nat)
    ensures i <= |s|
  {
    if s == "" || !IsSchemeChar(s[0]) then 0 else 1 + SchemeEnd(s[1..])
  }

  /** The scheme, if any, and what follows it; None for a missing one before a colon. */
  function Scheme(s: string): Option<(string, string)>
  {
    var i := SchemeEnd(s);
    if i == |s| || s[i] != ':' then Some(("", s))
    else if i == 0 then None
    else if !IsAlpha(s[0]) then Some(("", s))
    else Some((s[..i], s[i + 1..]))
  }

  // ---------- authority ----------

  predicate IsUserChar(c: char) { IsAlpha(c) || IsDigit(c) || c in "-._:~!$&'()*+,;=%@" }

  predicate IsHostChar(c: char)
  {
    c >= '\U{80}' || IsAlpha(c) || IsDigit(c) || c in "!$&'()*+,;=:[]<>\"-_.~"
  }

  function HexValue(c: char): nat
    requires IsHex(c)
  {
    if IsDigit(c) then c as nat - '0' as nat
    else if 'a' <= c then c as nat - 'a' as nat + 10
    else c as nat - 'A' as nat + 10
  }

  /** An escape in a host stands for a non-ASCII byte or is "%25"; in a zone it may also
      stand for a space or a character of a host. */
  predicate HostEscapeAt(s: string, i: nat, zone: bool)
    requires i < |s|
  {
    && EscapeAt(s, i)
    && (s[i + 1..i + 3] == "25" ||
        var v := 16 * HexValue(s[i + 1]) + HexValue(s[i + 2]);
        if zone then v == 0x20 || (v < 0x80 && IsHostChar(v as char)) else v >= 0x80)
  }

  predicate HostText(s: string, zone: bool)
  {
    forall i :: 0 <= i < |s| ==> if s[i] == '%' then HostEscapeAt(s, i, zone) else IsHostChar(s[i])
  }

  predicate IsPort(s: string) { s == "" || (s[0] == ':' && AllDigits(s[1..])) }

  /** The first "%25", or the length. */
  function ZoneStart(s: string): (i: nat)
    ensures i <= |s|
  {
    if |s| < 3 then |s| else if s[..3] == "%25" then 0 else 1 + ZoneStart(s[1..])
  }

  predicate HostParses(host: string)
  {
    if host != "" && host[0] == '[' then
      var i := LastIndexOf(host, ']');
      && i >= 0 && IsPort(host[i + 1..])
      && var zone := ZoneStart(host[..i]);
         if zone < i then HostText(host[..zone], false) && HostText(host[zone..i], true) && HostText(host[i..], false)
         else HostText(host, false)
    else
      var i := LastIndexOf(host, ':');
      (i >= 0 ==> IsPort(host[i..])) && HostText(host, false)
  }

  predicate AuthorityParses(authority: string)
  {
    var i := LastIndexOf(authority, '@');
    && HostParses(authority[i + 1..])
    && (i >= 0 ==> (forall c :: c in authority[..i] ==> IsUserChar(c)) && WellEscaped(authority[..i]))
  }

  // ---------- the whole reference ----------

  predicate StartsWith(s: string, prefix: string) { prefix <= s }

  /** The part before the fragment. */
  predicate BaseParses(u: string)
  {
    !HasControl(u) &&
    (u == "*" ||
     match Scheme(u)
     case None => false
     case Some((scheme, afterScheme)) =>
       var rest := Cut(afterScheme, '?').0;
       if !StartsWith(rest, "/") then scheme != "" || (':' !in Cut(rest, '/').0 && WellEscaped(rest))
       else if StartsWith(rest, "//") && (scheme != "" || !StartsWith(rest, "///")) then
         var i := IndexOf(rest[2..], '/');
         if i < 0 then AuthorityParses(rest[2..])
         else AuthorityParses(rest[2..2 + i]) && WellEscaped(rest[2 + i..])
       else WellEscaped(rest))
  }

  predicate Parses(raw: string)
  {
    BaseParses(Cut(raw, '#').0) && WellEscaped(Cut(raw, '#').1)
  }

  /** What that means for a path on the same host: no control character before the fragment,
      and every '%' of the path and of the fragment starts an escape. */
  lemma PathParsesIff(raw: string)
    requires StartsWith(raw, "/") && !StartsWith(raw, "//")
    ensures Parses(raw) <==>
            var (base, fragment) := Cut(raw, '#');
            !HasControl(base) && WellEscaped(Cut(base, '?').0) && WellEscaped(fragment)
  {
    var base := Cut(raw, '#').0;
    assert raw[0] == '/' && base != "" && base[0] == '/';
    NoScheme(base);
    var rest := Cut(base, '?').0;
    assert rest != "" && rest[0] == '/';
    TwoSlashes(raw);
    assert |rest| >= 2 ==> rest[1] == raw[1];
  }

  const HEX_DIGITS: string := "0123456789abcdefABCDEF"

  lemma HexIff(c: char)
    ensures IsHex(c) <==> c in HEX_DIGITS
  {
    if IsHex(c) {
      var d := HexValue(c);
      assert HEX_DIGITS[if 'A' <= c <= 'F' then d + 6 else d] == c;
    }
  }

  lemma CutNothing(s: string, c: char)
    requires c !in s
    ensures Cut(s, c) == (s, "")
  {
  }

  /** In characters: a path on the same host without query and fragment parses if and only if
      no code is below 32 or 127, and behind every '%' stand two hexadecimal digits. */
  lemma PlainPathParsesIff(raw: string)
    requires StartsWith(raw, "/") && !StartsWith(raw, "//") && '#' !in raw && '?' !in raw
    ensures Parses(raw) <==>
            && (forall i :: 0 <= i < |raw| ==> raw[i] as int >= 32 && raw[i] as int != 127)
            && (forall i :: 0 <= i < |raw| && raw[i] == '%' ==>
                  i + 2 < |raw| && raw[i + 1] in HEX_DIGITS && raw[i + 2] in HEX_DIGITS)
  {
    PathParsesIff(raw);
    CutNothing(raw, '#');
    CutNothing(raw, '?');
    forall c: char { HexIff(c); }
    assert HasControl(raw) <==> exists i :: 0 <= i < |raw| && (raw[i] as int < 32 || raw[i] as int == 127);
    assert WellEscaped(raw) <==>
           forall i :: 0 <= i < |raw| && raw[i] == '%' ==>
             i + 2 < |raw| && raw[i + 1] in HEX_DIGITS && raw[i + 2] in HEX_DIGITS;
  }

  /** So every path of letters, digits, '/' and the like parses. */
  lemma UsualPathParses(raw: string)
    requires StartsWith(raw, "/") && !StartsWith(raw, "//")
    requires forall i :: 0 <= i < |raw| ==> IsAlpha(raw[i]) || '0' <= raw[i] <= '9' || raw[i] in "/-._~"
    ensures Parses(raw)
  {
    assert '#' !in "/-._~" && '?' !in "/-._~" && '%' !in "/-._~";
    PlainPathParsesIff(raw);
  }

  lemma NoScheme(s: string)
    requires s != "" && s[0] == '/'
    ensures Scheme(s) == Some(("", s)) && s != "*"
  {
    assert SchemeEnd(s) == 0;
  }

  lemma TwoSlashes(s: string)
    ensures |s| >= 2 && s[0] == '/' && s[1] == '/' ==> StartsWith(s, "//")
  {
  }
}
