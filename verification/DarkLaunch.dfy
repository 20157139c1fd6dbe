/** Which ips and services may be marked dark
    (router/darklaunch_manager/darklaunch_manager.go). */
module DarkLaunch {
  import opened Text

  // ---------- services: ^[a-zA-Z]+((-|_)?\w*)*$ ----------

  datatype Regex =
    | Alpha | WordChar | Lit(c: char)
    | Cat(l: Regex, r: Regex) | Alt(l: Regex, r: Regex) | Opt(r: Regex) | Star(r: Regex)

  predicate IsAlpha(c: char) { 'a' <= c <= 'z' || 'A' <= c <= 'Z' }

  predicate IsWordChar(c: char) { IsAlpha(c) || IsDigit(c) || c == '_' }

  /** The language of a regular expression. */
  ghost predicate Matches(re: Regex, s: string)
    decreases re, |s|
  {
    match re
    case Alpha => |s| == 1 && IsAlpha(s[0])
    case WordChar => |s| == 1 && IsWordChar(s[0])
    case Lit(c) => s == [c]
    case Cat(l, r) => exists i :: 0 <= i <= |s| && Matches(l, s[..i]) && Matches(r, s[i..])
    case Alt(l, r) => Matches(l, s) || Matches(r, s)
    case Opt(r) => s == "" || Matches(r, s)
    case Star(r) => s == "" || exists i :: 0 < i <= |s| && Matches(r, s[..i]) && Matches(re, s[i..])
  }

  const LETTERS: Regex := Cat(Alpha, Star(Alpha))
  const GROUP: Regex := Cat(Opt(Alt(Lit('-'), Lit('_'))), Star(WordChar))
  const SERVICE: Regex := Cat(LETTERS, Star(GROUP))

  predicate IsNameChar(c: char) { IsWordChar(c) || c == '-' }

  predicate NameChars(s: string) { forall i :: 0 <= i < |s| ==> IsNameChar(s[i]) }

  predicate IsValidService(s: string) { s != "" && IsAlpha(s[0]) && NameChars(s) }

  lemma OptionalMark(s: string)
    ensures Matches(GROUP.l, s) <==> s == "" || s == "-" || s == "_"
  {
    assert Matches(GROUP.l.r, s) <==> Matches(Lit('-'), s) || Matches(Lit('_'), s);
  }

  lemma {:induction false} StarOfWord(r: Regex, s: string)
    requires (r == Alpha || r == WordChar) && Matches(Star(r), s)
    ensures NameChars(s)
    decreases |s|
  {
    if s == "" {
    } else {
      var i :| 0 < i <= |s| && Matches(r, s[..i]) && Matches(Star(r), s[i..]);
      StarOfWord(r, s[i..]);
      assert s == s[..i] + s[i..];
    }
  }

  lemma GroupOfNameChars(s: string)
    requires Matches(GROUP, s)
    ensures NameChars(s)
  {
    var j :| 0 <= j <= |s| && Matches(GROUP.l, s[..j]) && Matches(GROUP.r, s[j..]);
    StarOfWord(WordChar, s[j..]);
    OptionalMark(s[..j]);
    assert s == s[..j] + s[j..];
  }

  lemma {:induction false} StarOfGroups(s: string)
    requires Matches(Star(GROUP), s)
    ensures NameChars(s)
    decreases |s|
  {
    if s == "" {
    } else {
      var i :| 0 < i <= |s| && Matches(GROUP, s[..i]) && Matches(Star(GROUP), s[i..]);
      GroupOfNameChars(s[..i]);
      StarOfGroups(s[i..]);
      assert s == s[..i] + s[i..];
    }
  }

  lemma GroupTakesOne(c: char)
    requires IsNameChar(c)
    ensures Matches(GROUP, [c])
  {
    var s := [c];
    if c == '-' {
      assert s[..1] == "-" && s[1..] == "";
      OptionalMark(s[..1]);
      assert Matches(GROUP.l, s[..1]) && Matches(GROUP.r, s[1..]);
    } else {
      assert s[..0] == "" && s[0..] == s;
      assert s[..1] == s && s[1..] == "";
      assert Matches(WordChar, s[..1]) && Matches(Star(WordChar), s[1..]);
      OptionalMark(s[..0]);
      assert Matches(GROUP.l, s[..0]) && Matches(GROUP.r, s[0..]);
    }
  }

  lemma {:induction false} GroupsTakeAll(s: string)
    requires NameChars(s)
    ensures Matches(Star(GROUP), s)
  {
    if s == "" {
    } else {
      assert s[..1] == [s[0]];
      GroupTakesOne(s[0]);
      GroupsTakeAll(s[1..]);
    }
  }

  /** The nested-star expression accepts exactly the names that start with an ASCII letter
      and go on with letters, digits, '_' and '-'. */
  lemma ServiceLanguage(s: string)
    ensures Matches(SERVICE, s) <==> IsValidService(s)
  {
    if Matches(SERVICE, s) { OnlyValidMatch(s); }
    if IsValidService(s) { ValidMatches(s); }
  }

  lemma OnlyValidMatch(s: string)
    requires Matches(SERVICE, s)
    ensures IsValidService(s)
  {
    var i :| 0 <= i <= |s| && Matches(LETTERS, s[..i]) && Matches(Star(GROUP), s[i..]);
    StarOfGroups(s[i..]);
    var t := s[..i];
    var j :| 0 <= j <= |t| && Matches(Alpha, t[..j]) && Matches(Star(Alpha), t[j..]);
    StarOfWord(Alpha, t[j..]);
    assert t == t[..j] + t[j..] && s == t + s[i..];
  }

  lemma ValidMatches(s: string)
    requires IsValidService(s)
    ensures Matches(SERVICE, s)
  {
    var t := s[..1];
    assert t[..1] == t && t[1..] == "";
    assert Matches(Alpha, t[..1]) && Matches(Star(Alpha), t[1..]);
    assert Matches(LETTERS, t);
    GroupsTakeAll(s[1..]);
  }

  // ---------- ips ----------

  predicate IsValidIp(ip: string)
  {
    var groups := Split(ip, '.');
    ip != "" && |groups| == 4 &&
    forall i :: 0 <= i < 4 ==> groups[i] != "" && Atoi(groups[i]).1 && 0 <= Atoi(groups[i]).0 <= 255
  }

  predicate IsDecimal(s: string, max: nat) { s != "" && AllDigits(s) && DigitsValue(s) <= max }

  /** At most 255 in decimal, perhaps with leading zeros and a sign; only zero may be negative. */
  predicate IsOctet(s: string)
  {
    || IsDecimal(s, 255)
    || (s != "" && s[0] == '+' && IsDecimal(s[1..], 255))
    || (s != "" && s[0] == '-' && IsDecimal(s[1..], 0))
  }

  lemma OctetIff(s: string)
    ensures IsOctet(s) <==> s != "" && Atoi(s).1 && 0 <= Atoi(s).0 <= 255
  {
    if s != "" && (s[0] == '-' || s[0] == '+') { assert !IsDigit(s[0]) && !AllDigits(s); }
  }

  lemma OctetHasNoDot(s: string)
    requires IsOctet(s)
    ensures '.' !in s
  {
    OctetIff(s);
    AtoiAccepts(s, '.');
  }

  function Dotted(a: string, b: string, c: string, d: string): string { a + "." + b + "." + c + "." + d }

  lemma DottedParts(a: string, b: string, c: string, d: string)
    requires '.' !in a && '.' !in b && '.' !in c && '.' !in d
    ensures Split(Dotted(a, b, c, d), '.') == [a, b, c, d]
  {
    SplitSnoc(a + "." + b + "." + c, d, '.');
    SplitSnoc(a + "." + b, c, '.');
    SplitSnoc(a, b, '.');
    SplitNone(a, '.');
  }

  lemma DottedJoins(ip: string)
    requires |Split(ip, '.')| == 4
    ensures var g := Split(ip, '.'); ip == Dotted(g[0], g[1], g[2], g[3])
  {
    JoinSplit(ip, '.');
    var g := Split(ip, '.');
    assert g[1..][1..] == g[2..] && g[2..][1..] == g[3..];
    assert Join(g[3..], '.') == g[3];
    assert Join(g[2..], '.') == g[2] + "." + g[3];
    assert Join(g[1..], '.') == g[1] + "." + (g[2] + "." + g[3]);
  }

  /** Valid ips are exactly the four-part dotted ones. */
  lemma ValidIpIff(ip: string)
    ensures IsValidIp(ip) <==>
            exists a, b, c, d :: ip == Dotted(a, b, c, d) && IsOctet(a) && IsOctet(b) && IsOctet(c) && IsOctet(d)
  {
    if IsValidIp(ip) {
      var g := Split(ip, '.');
      DottedJoins(ip);
      OctetIff(g[0]);
      OctetIff(g[1]);
      OctetIff(g[2]);
      OctetIff(g[3]);
    }
    if a, b, c, d :| ip == Dotted(a, b, c, d) && IsOctet(a) && IsOctet(b) && IsOctet(c) && IsOctet(d) {
      OctetsAreValid(a, b, c, d);
    }
  }

  lemma OctetsAreValid(a: string, b: string, c: string, d: string)
    requires IsOctet(a) && IsOctet(b) && IsOctet(c) && IsOctet(d)
    ensures IsValidIp(Dotted(a, b, c, d))
  {
    var parts := [a, b, c, d];
    forall i | 0 <= i < 4 ensures '.' !in parts[i] && parts[i] != "" && Atoi(parts[i]).1 && 0 <= Atoi(parts[i]).0 <= 255 {
      OctetHasNoDot(parts[i]);
      OctetIff(parts[i]);
    }
    assert '.' !in parts[0] && '.' !in parts[1] && '.' !in parts[2] && '.' !in parts[3];
    DottedParts(a, b, c, d);
    assert |Dotted(a, b, c, d)| >= 3;
  }

  /** So every address in the usual notation is. */
  lemma UsualIpIsValid(a: nat, b: nat, c: nat, d: nat)
    requires a < 256 && b < 256 && c < 256 && d < 256
    ensures IsValidIp(Dotted(PrintNat(a), PrintNat(b), PrintNat(c), PrintNat(d)))
  {
    OctetsAreValid(PrintNat(a), PrintNat(b), PrintNat(c), PrintNat(d));
  }

  lemma {:induction false} SplitCovers(s: string, sep: char, c: char) returns (k: nat)
    requires c in s && c != sep
    ensures k < |Split(s, sep)| && c in Split(s, sep)[k]
  {
    if s[0] == c {
      k := 0;
    } else {
      assert s == [s[0]] + s[1..];
      k := SplitCovers(s[1..], sep, c);
      if s[0] == sep { k := k + 1; }
    }
  }

  /** A valid dark ip holds only digits, dots and signs, so it never equals the
      "host:port" remote address a socket is registered with. */
  lemma ValidIpHasNoPort(ip: string)
    requires IsValidIp(ip)
    ensures ':' !in ip
  {
    if ':' in ip {
      var k := SplitCovers(ip, '.', ':');
      AtoiAccepts(Split(ip, '.')[k], ':');
      assert false;
    }
  }
}
