/**
 * The string formatting the harness relies on: Go's `fmt.Sprintf("%d", n)`,
 * `"127.0.0.1:%d"` host-port text, `strings.Join` and `path.Join`, each with
 * the inverse that shows no information is lost (decimal parsing, splitting).
 */
module Text {
  import opened Wrappers

  /** The loopback address every node binds to and is reached on. */
  const Loopback: string := "127.0.0.1"

  predicate IsDigit(c: char) {
    '0' <= c <= '9'
  }

  predicate AllDigits(s: string) {
    forall i :: 0 <= i < |s| ==> IsDigit(s[i])
  }

  function DigitChar(d: nat): (c: char)
    requires d < 10
    ensures IsDigit(c) && c as int - '0' as int == d
  {
    ('0' as int + d) as char
  }

  function DigitValue(c: char): (d: nat)
    requires IsDigit(c)
    ensures d < 10 && DigitChar(d) == c
  {
    c as int - '0' as int
  }

  /** Decimal digits of a natural number, most significant first. */
  function NatToDecimal(n: nat): (s: string)
    ensures |s| > 0 && AllDigits(s)
    ensures |s| > 1 ==> s[0] != '0'
  {
    if n < 10 then [DigitChar(n)] else NatToDecimal(n / 10) + [DigitChar(n % 10)]
  }

  /** Go's `%d` verb on an integer: an optional minus sign, then the digits. */
  function Decimal(n: int): (s: string)
    ensures |s| > 0
    ensures forall i :: 0 <= i < |s| ==> IsDigit(s[i]) || (i == 0 && s[i] == '-')
  {
    if n < 0 then "-" + NatToDecimal(-n) else NatToDecimal(n)
  }

  /** The value of a string of decimal digits. */
  function ParseNat(s: string): nat
    requires AllDigits(s)
  {
    if |s| == 0 then 0 else ParseNat(s[..|s| - 1]) * 10 + DigitValue(s[|s| - 1])
  }

  /** Reads back what `Decimal` writes; `None` for text that is not a decimal integer. */
  function ParseDecimal(s: string): Option<int> {
    if |s| > 1 && s[0] == '-' && AllDigits(s[1..]) then Some(-(ParseNat(s[1..]) as int))
    else if |s| > 0 && AllDigits(s) then Some(ParseNat(s))
    else None
  }

  lemma {:induction false} ParseNatToDecimal(n: nat)
    ensures ParseNat(NatToDecimal(n)) == n
  {
    if n >= 10 {
      var s := NatToDecimal(n);
      assert s[..|s| - 1] == NatToDecimal(n / 10);
      ParseNatToDecimal(n / 10);
    }
  }

  /** Decimal rendering loses nothing: parsing it gives the number back. */
  lemma DecimalRoundTrip(n: int)
    ensures ParseDecimal(Decimal(n)) == Some(n)
  {
    if n < 0 {
      assert Decimal(n)[1..] == NatToDecimal(-n);
      ParseNatToDecimal(-n);
    } else {
      ParseNatToDecimal(n);
    }
  }

  /** Two numbers print the same exactly when they are equal. */
  lemma DecimalInjective(a: int, b: int)
    ensures Decimal(a) == Decimal(b) <==> a == b
  {
    DecimalRoundTrip(a);
    DecimalRoundTrip(b);
  }

  /** `fmt.Sprintf("%s:%d", host, port)`: the host, a colon and at least one more character. */
  function HostPort(host: string, port: int): (address: string)
    ensures |address| > |host| + 1 && address[..|host| + 1] == host + ":"
  {
    host + ":" + Decimal(port)
  }

  /** The port reads back from the text after the host and the colon. */
  lemma HostPortRoundTrip(host: string, port: int)
    ensures |HostPort(host, port)| > |host|
    ensures HostPort(host, port)[..|host| + 1] == host + ":"
    ensures ParseDecimal(HostPort(host, port)[|host| + 1..]) == Some(port)
  {
    var s := HostPort(host, port);
    assert s[|host| + 1..] == Decimal(port);
    DecimalRoundTrip(port);
  }

  /** On one host, two addresses are the same exactly when their ports are. */
  lemma HostPortInjective(host: string, p: int, q: int)
    ensures HostPort(host, p) == HostPort(host, q) <==> p == q
  {
    HostPortRoundTrip(host, p);
    HostPortRoundTrip(host, q);
  }

  /** `strings.Join` with a one-character separator: the first part is a prefix of the result. */
  function Join(parts: seq<string>, sep: char): (joined: string)
    ensures |parts| > 0 ==> |joined| >= |parts[0]| && joined[..|parts[0]|] == parts[0]
  {
    if |parts| == 0 then ""
    else if |parts| == 1 then parts[0]
    else parts[0] + [sep] + Join(parts[1..], sep)
  }

  /** `strings.Split` with a one-character separator: the pieces between separators. */
  function Split(s: string, sep: char): (pieces: seq<string>)
    ensures |pieces| > 0
  {
    if |s| == 0 then [""]
    else
      var rest := Split(s[1..], sep);
      if s[0] == sep then [""] + rest else [[s[0]] + rest[0]] + rest[1..]
  }

  lemma {:induction false} SplitWithoutSeparator(p: string, sep: char)
    requires sep !in p
    ensures Split(p, sep) == [p]
  {
    if |p| > 0 {
      SplitWithoutSeparator(p[1..], sep);
      assert [p[0]] + p[1..] == p;
    }
  }

  lemma {:induction false} SplitAfterPiece(p: string, t: string, sep: char)
    requires sep !in p
    ensures Split(p + [sep] + t, sep) == [p] + Split(t, sep)
  {
    var s := p + [sep] + t;
    if |p| == 0 {
      assert s[1..] == t;
    } else {
      assert s[1..] == p[1..] + [sep] + t;
      SplitAfterPiece(p[1..], t, sep);
      assert [p[0]] + p[1..] == p;
    }
  }

  /** Splitting a join gives the parts back when no part holds the separator. */
  lemma {:induction false} SplitJoin(parts: seq<string>, sep: char)
    requires |parts| > 0
    requires forall i :: 0 <= i < |parts| ==> sep !in parts[i]
    ensures Split(Join(parts, sep), sep) == parts
  {
    if |parts| == 1 {
      SplitWithoutSeparator(parts[0], sep);
    } else {
      SplitJoin(parts[1..], sep);
      SplitAfterPiece(parts[0], Join(parts[1..], sep), sep);
      assert [parts[0]] + parts[1..] == parts;
    }
  }

  /**
   * `path.Join(dir, elem)` for a clean directory and a single clean element:
   * the element alone under an empty directory, otherwise one slash between them.
   */
  function JoinPath(dir: string, elem: string): (p: string)
    ensures |p| >= |elem| && p[|p| - |elem|..] == elem
    ensures dir != "" ==> |p| >= |dir| + |elem| && p[..|dir|] == dir && p[|p| - |elem| - 1] == '/'
  {
    if dir == "" then elem
    else if dir[|dir| - 1] == '/' then dir + elem
    else dir + "/" + elem
  }

  /**
   * A single path element that `path.Join` keeps as it is: not empty, not
   * `.` or `..`, and without a slash.
   */
  predicate IsPlainElement(e: string) {
    e != "" && e != "." && e != ".." && '/' !in e
  }

  /** Decimal text is a plain path element. */
  lemma DecimalIsPlainElement(n: int)
    ensures IsPlainElement(Decimal(n))
  {
    var d := Decimal(n);
    assert d[0] != '.';
    forall j | 0 <= j < |d| ensures d[j] != '/' {
    }
  }

  /** Within one directory, distinct plain elements give distinct paths. */
  lemma JoinPathInjective(dir: string, a: string, b: string)
    requires IsPlainElement(a) && IsPlainElement(b)
    ensures JoinPath(dir, a) == JoinPath(dir, b) <==> a == b
  {
  }
}
