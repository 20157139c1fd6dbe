/** The string operations of Go's standard library that crank4go relies on:
    `strings.Index`, `strings.Split`, `strconv.Atoi` and decimal printing. */
module Text {

  datatype Option<+T> = None | Some(value: T)

  // ---------- splitting on a one-character separator ----------

  /** `strings.Index(s, c)` for a one-character needle. */
  function IndexOf(s: string, c: char): (i: int)
    ensures -1 <= i < |s|
    ensures i == -1 <==> c !in s
    ensures i >= 0 ==> s[i] == c && c !in s[..i]
  {
    if s == "" then -1
    else if s[0] == c then 0
    else
      var i := IndexOf(s[1..], c);
      assert s == [s[0]] + s[1..];
      if i < 0 then -1 else assert s[..i + 1] == [s[0]] + s[1..][..i]; i + 1
  }

  /** `strings.Split(s, sep)`: always at least one part. */
  function Split(s: string, sep: char): (parts: seq<string>)
    ensures |parts| >= 1
  {
    if s == "" then [""]
    else
      var rest := Split(s[1..], sep);
      if s[0] == sep then [""] + rest else [[s[0]] + rest[0]] + rest[1..]
  }

  function Join(parts: seq<string>, sep: char): string
    requires |parts| >= 1
  {
    if |parts| == 1 then parts[0] else parts[0] + [sep] + Join(parts[1..], sep)
  }

  lemma {:induction false} SplitParts(s: string, sep: char, k: nat)
    requires k < |Split(s, sep)|
    ensures sep !in Split(s, sep)[k]
  {
    if s == "" {
    } else {
      var rest := Split(s[1..], sep);
      if s[0] == sep {
        if k > 0 { SplitParts(s[1..], sep, k - 1); }
      } else {
        SplitParts(s[1..], sep, k);
      }
    }
  }

  lemma {:induction false} JoinSplit(s: string, sep: char)
    ensures Join(Split(s, sep), sep) == s
  {
    if s == "" {
    } else {
      JoinSplit(s[1..], sep);
      var rest := Split(s[1..], sep);
      if s[0] == sep {
        assert ([""] + rest)[1..] == rest;
      } else {
        assert ([[s[0]] + rest[0]] + rest[1..])[1..] == rest[1..];
      }
    }
  }

  /** Splitting around any separator. */
  lemma {:induction false} SplitAppend(a: string, b: string, sep: char)
    ensures Split(a + [sep] + b, sep) == Split(a, sep) + Split(b, sep)
  {
    var s := a + [sep] + b;
    if a == "" {
      assert s[1..] == b;
    } else {
      assert s[1..] == a[1..] + [sep] + b;
      SplitAppend(a[1..], b, sep);
    }
  }

  /** Splitting after a separator-free first part. */
  lemma SplitCons(a: string, b: string, sep: char)
    requires sep !in a
    ensures Split(a + [sep] + b, sep) == [a] + Split(b, sep)
  {
    SplitAppend(a, b, sep);
    SplitNone(a, sep);
  }

  /** Splitting before a separator-free last part. */
  lemma SplitSnoc(a: string, b: string, sep: char)
    requires sep !in b
    ensures Split(a + [sep] + b, sep) == Split(a, sep) + [b]
  {
    SplitAppend(a, b, sep);
    SplitNone(b, sep);
  }

  lemma {:induction false} SplitNone(s: string, sep: char)
    requires sep !in s
    ensures Split(s, sep) == [s]
  {
    if s == "" {
    } else {
      SplitNone(s[1..], sep);
      assert s == [s[0]] + s[1..];
    }
  }

  lemma {:induction false} SplitJoin(parts: seq<string>, sep: char)
    requires |parts| >= 1
    requires forall p :: p in parts ==> sep !in p
    ensures Split(Join(parts, sep), sep) == parts
  {
    if |parts| == 1 {
      SplitNone(parts[0], sep);
    } else {
      SplitJoin(parts[1..], sep);
      SplitCons(parts[0], Join(parts[1..], sep), sep);
    }
  }

  // ---------- decimal integers ----------

  const MAX_INT64: int := 0x7FFF_FFFF_FFFF_FFFF
  const MIN_INT64: int := -0x8000_0000_0000_0000

  predicate IsDigit(c: char) { '0' <= c <= '9' }

  predicate AllDigits(s: string) { forall i :: 0 <= i < |s| ==> IsDigit(s[i]) }

  function DigitsValue(s: string): (n: nat)
    requires AllDigits(s)
  {
    if s == "" then 0 else DigitsValue(s[..|s| - 1]) * 10 + (s[|s| - 1] as int - '0' as int)
  }

  /** The `%d` verb for a non-negative number. */
  function PrintNat(n: nat): (s: string)
    ensures s != "" && AllDigits(s) && DigitsValue(s) == n
  {
    var last := (n % 10 + '0' as int) as char;
    if n < 10 then
      assert DigitsValue("") == 0;
      assert [last][..0] == "";
      [last]
    else
      var front := PrintNat(n / 10);
      var s := front + [last];
      assert s[..|s| - 1] == front;
      s
  }

  /** `%d` and `strconv.Itoa`. */
  function PrintInt(i: int): (s: string)
    ensures s != ""
    ensures ' ' !in s && '\n' !in s
  {
    if i < 0 then ['-'] + PrintNat(-i) else PrintNat(i)
  }

  /** `strconv.Atoi`: the value (0 on a syntax error, the nearest 64-bit
      integer on a range error) and whether it succeeded. */
  function Atoi(s: string): (int, bool)
  {
    var signed := s != "" && (s[0] == '-' || s[0] == '+');
    var digits := if signed then s[1..] else s;
    if digits == "" || !AllDigits(digits) then (0, false)
    else
      var magnitude: int := DigitsValue(digits);
      var v := if signed && s[0] == '-' then -magnitude else magnitude;
      if v > MAX_INT64 then (MAX_INT64, false)
      else if v < MIN_INT64 then (MIN_INT64, false)
      else (v, true)
  }

  lemma AtoiPrintInt(i: int)
    requires MIN_INT64 <= i <= MAX_INT64
    ensures Atoi(PrintInt(i)) == (i, true)
  {
    var s := PrintInt(i);
    if i < 0 {
      assert s[1..] == PrintNat(-i);
    } else {
      assert IsDigit(s[0]);
    }
  }

  /** What `Atoi` returns always fits the 64-bit integer it is stored in. */
  lemma AtoiInRange(s: string)
    ensures MIN_INT64 <= Atoi(s).0 <= MAX_INT64
  {
  }

  /** An accepted text holds nothing but an optional sign and digits. */
  lemma AtoiAccepts(s: string, c: char)
    requires Atoi(s).1 && !IsDigit(c) && c != '-' && c != '+'
    ensures c !in s
  {
    var digits := if s[0] == '-' || s[0] == '+' then s[1..] else s;
    assert s == s[..|s| - |digits|] + digits;
  }
}
