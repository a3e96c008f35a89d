/** Endpoint texts. An orderer endpoint is stored as `host:port`; the operator parses it with
    Go's `net.SplitHostPort` and `strconv.Atoi`, and the channel library prints the address
    back with `%s:%d`. */
module HostPort {
  import opened Collections

  datatype Address = Address(host: string, port: int)

  datatype Parts = Parts(host: string, port: string)

  const MIN_INT64: int := -0x8000_0000_0000_0000
  const MAX_INT64: int := 0x7FFF_FFFF_FFFF_FFFF

  // ----- Decimal numbers -----

  predicate IsDigit(c: char) {
    '0' <= c <= '9'
  }

  function DigitChar(d: nat): char
    requires d < 10
  {
    '0' + d as char
  }

  /** `%d` of a non-negative number. */
  function Decimal(n: nat): string {
    if n < 10 then [DigitChar(n)] else Decimal(n / 10) + [DigitChar(n % 10)]
  }

  function Itoa(n: int): string {
    if n < 0 then "-" + Decimal(-n) else Decimal(n)
  }

  function DigitsValue(s: string): nat
    requires forall c :: c in s ==> IsDigit(c)
  {
    if s == [] then 0
    else
      assert IsDigit(s[|s| - 1]);
      DigitsValue(s[..|s| - 1]) * 10 + (s[|s| - 1] as int - '0' as int)
  }

  /** `strconv.Atoi` on a 64-bit platform. */
  function Atoi(s: string): Option<int> {
    var signed := s != [] && (s[0] == '-' || s[0] == '+');
    var digits := if signed then s[1..] else s;
    if digits == [] || exists c :: c in digits && !IsDigit(c) then None
    else
      var n: int := DigitsValue(digits);
      var v: int := if signed && s[0] == '-' then -n else n;
      if MIN_INT64 <= v <= MAX_INT64 then Some(v) else None
  }

  lemma {:induction false} DecimalRoundTrip(n: nat)
    ensures Decimal(n) != [] && forall c :: c in Decimal(n) ==> IsDigit(c)
    ensures DigitsValue(Decimal(n)) == n
  {
    if n < 10 {
      assert Decimal(n)[..0] == [];
    } else {
      DecimalRoundTrip(n / 10);
      assert Decimal(n)[..|Decimal(n)| - 1] == Decimal(n / 10);
    }
  }

  lemma AtoiItoa(n: int)
    requires MIN_INT64 <= n <= MAX_INT64
    ensures Atoi(Itoa(n)) == Some(n)
    ensures forall c :: c in Itoa(n) ==> IsDigit(c) || c == '-'
  {
    var digits := Decimal(if n < 0 then -n else n);
    DecimalRoundTrip(if n < 0 then -n else n);
    assert digits[0] in digits && IsDigit(digits[0]);
    if n < 0 {
      assert Itoa(n)[1..] == digits;
    }
  }

  // ----- Splitting -----

  function LastIndexOf(s: string, c: char): (i: int)
    ensures -1 <= i < |s|
    ensures i >= 0 ==> s[i] == c
    ensures forall j :: i < j < |s| ==> s[j] != c
  {
    if s == [] then -1
    else if s[|s| - 1] == c then |s| - 1
    else LastIndexOf(s[..|s| - 1], c)
  }

  function FirstIndexOf(s: string, c: char): (i: int)
    ensures -1 <= i < |s|
    ensures i >= 0 ==> s[i] == c && c !in s[..i]
    ensures i < 0 ==> c !in s
  {
    if s == [] then -1
    else if s[0] == c then 0
    else
      var i := FirstIndexOf(s[1..], c);
      assert i >= 0 ==> s[..i + 1] == [s[0]] + s[1..][..i];
      if i < 0 then -1 else i + 1
  }

  /** `net.SplitHostPort`, with its five error cases. */
  function SplitHostPort(s: string): Result<Parts> {
    var i := LastIndexOf(s, ':');
    if i < 0 then Err("missing port in address")
    else if s[0] == '[' then
      var end := FirstIndexOf(s, ']');
      if end < 0 then Err("missing ']' in address")
      else if end + 1 == |s| then Err("missing port in address")
      else if end + 1 != i then
        Err(if s[end + 1] == ':' then "too many colons in address" else "missing port in address")
      else if '[' in s[1..] then Err("unexpected '[' in address")
      else if ']' in s[end + 1..] then Err("unexpected ']' in address")
      else Ok(Parts(s[1..end], s[i + 1..]))
    else if ':' in s[..i] then Err("too many colons in address")
    else if '[' in s then Err("unexpected '[' in address")
    else if ']' in s then Err("unexpected ']' in address")
    else Ok(Parts(s[..i], s[i + 1..]))
  }

  /** The two parsing steps the reconciler applies to every endpoint. */
  function ParseEndpoint(s: string): Result<Address> {
    match SplitHostPort(s)
    case Err(e) => Err(e)
    case Ok(parts) =>
      match Atoi(parts.port)
      case None => Err("port is not a number")
      case Some(port) => Ok(Address(parts.host, port))
  }

  /** `fmt.Sprintf("%s:%d", host, port)`. */
  function PrintAddress(a: Address): string {
    a.host + ":" + Itoa(a.port)
  }

  predicate PlainHost(host: string) {
    ':' !in host && '[' !in host && ']' !in host
  }

  /** An endpoint that parses and prints back to itself. */
  predicate Canonical(s: string) {
    var a := ParseEndpoint(s);
    a.Ok? && PrintAddress(a.value) == s
  }

  lemma {:induction false} LastColon(host: string, digits: string)
    requires ':' !in digits
    ensures LastIndexOf(host + ":" + digits, ':') == |host|
  {
    var s := host + ":" + digits;
    assert s[|host|] == ':';
    forall j | |host| < j < |s|
      ensures s[j] != ':'
    {
      assert s[j] == digits[j - |host| - 1];
    }
  }

  /** Splitting and then reading the port inverts printing, for every host without a colon or
      bracket and every 64-bit port. */
  lemma {:induction false} ParsePrinted(a: Address)
    requires PlainHost(a.host) && MIN_INT64 <= a.port <= MAX_INT64
    ensures ParseEndpoint(PrintAddress(a)) == Ok(a)
  {
    var digits := Itoa(a.port);
    AtoiItoa(a.port);
    var s := PrintAddress(a);
    LastColon(a.host, digits);
    assert s[..|a.host|] == a.host && s[|a.host| + 1..] == digits;
    NoBrackets(a.host, digits);
    assert s[0] in s;
  }

  lemma NoBrackets(host: string, digits: string)
    requires PlainHost(host)
    requires forall c :: c in digits ==> IsDigit(c) || c == '-'
    ensures '[' !in host + ":" + digits && ']' !in host + ":" + digits
  {
  }

  /** What a successful parse says about its parts. */
  lemma {:induction false} ParsedParts(s: string)
    requires ParseEndpoint(s).Ok?
    ensures var a := ParseEndpoint(s).value;
      '[' !in a.host && ']' !in a.host && MIN_INT64 <= a.port <= MAX_INT64
      && (PlainHost(a.host) || s[0] == '[')
  {
    var i := LastIndexOf(s, ':');
    var a := ParseEndpoint(s).value;
    if s[0] == '[' {
      var end := FirstIndexOf(s, ']');
      assert forall c :: c in s[1..end] ==> c in s[1..] && c in s[..end];
    } else {
      assert forall c :: c in s[..i] ==> c in s;
    }
  }

  /** Printing a parsed endpoint gives a canonical text exactly when the host holds no colon:
      an IPv6 literal loses its brackets and no longer parses. */
  lemma {:induction false} PrintedIsCanonical(s: string)
    requires ParseEndpoint(s).Ok?
    ensures var p := PrintAddress(ParseEndpoint(s).value);
      Canonical(p) == ParseEndpoint(p).Ok? == (':' !in ParseEndpoint(s).value.host)
  {
    var a := ParseEndpoint(s).value;
    ParsedParts(s);
    if ':' in a.host {
      var p := PrintAddress(a);
      AtoiItoa(a.port);
      var digits := Itoa(a.port);
      LastColon(a.host, digits);
      assert p[..|a.host|] == a.host;
      assert p[0] == a.host[0] && a.host[0] in a.host;
    } else {
      ParsePrinted(a);
    }
  }

  /** A bracketed host may hold colons, and comes back without its brackets. */
  lemma {:induction false} SplitBracketed(host: string, port: string)
    requires '[' !in host && ']' !in host
    requires ':' !in port && '[' !in port && ']' !in port
    ensures SplitHostPort("[" + host + "]:" + port) == Ok(Parts(host, port))
  {
    var s := "[" + host + "]:" + port;
    LastColon("[" + host + "]", port);
    assert s == ("[" + host + "]") + ":" + port;
    var end := |host| + 1;
    assert s[end] == ']' && s[..end] == "[" + host;
    assert FirstIndexOf(s, ']') == end;
    assert s[1..end] == host && s[end + 2..] == port;
    assert s[1..] == host + "]:" + port && s[end + 1..] == ":" + port;
  }

  /** Exactly which texts parse, and to what: a plain host, a colon and a number, or a host in brackets,
      which may hold colons, a colon and a number. */
  lemma {:induction false} ParsesExactly(s: string, a: Address)
    ensures ParseEndpoint(s) == Ok(a) <==>
            exists digits :: Atoi(digits) == Some(a.port) && (PlainText(s, a.host, digits) || BracketedText(s, a.host, digits))
  {
    if ParseEndpoint(s) == Ok(a) {
      var digits := ParsedText(s, a);
    }
    if digits :| Atoi(digits) == Some(a.port) && (PlainText(s, a.host, digits) || BracketedText(s, a.host, digits)) {
      DigitsPlain(digits);
      if PlainText(s, a.host, digits) {
        LastColon(a.host, digits);
        assert s[..|a.host|] == a.host && s[|a.host| + 1..] == digits;
        assert s[0] in s;
        assert '[' !in s && ']' !in s;
      } else {
        SplitBracketed(a.host, digits);
      }
    }
  }

  ghost predicate PlainText(s: string, host: string, digits: string) {
    s == host + ":" + digits && ':' !in host && '[' !in host && ']' !in host
  }

  ghost predicate BracketedText(s: string, host: string, digits: string) {
    s == "[" + host + "]:" + digits && '[' !in host && ']' !in host
  }

  lemma DigitsPlain(digits: string)
    requires Atoi(digits).Some?
    ensures ':' !in digits && '[' !in digits && ']' !in digits
  {
    var signed := digits[0] == '-' || digits[0] == '+';
    var rest := if signed then digits[1..] else digits;
    forall c | c in digits
      ensures c != ':' && c != '[' && c != ']'
    {
      if c in rest {
        assert IsDigit(c);
      } else {
        assert c == digits[0];
      }
    }
  }

  lemma {:induction false} ParsedText(s: string, a: Address) returns (digits: string)
    requires ParseEndpoint(s) == Ok(a)
    ensures Atoi(digits) == Some(a.port) && (PlainText(s, a.host, digits) || BracketedText(s, a.host, digits))
  {
    var i := LastIndexOf(s, ':');
    digits := s[i + 1..];
    DigitsPlain(digits);
    if s[0] == '[' {
      BracketedParts(s, a.host, digits);
    } else {
      assert s == s[..i] + s[i..i + 1] + s[i + 1..] && s[i..i + 1] == ":";
      assert forall c :: c in s[..i] ==> c in s;
    }
  }

  lemma {:induction false} BracketedParts(s: string, host: string, digits: string)
    requires s != "" && s[0] == '[' && SplitHostPort(s) == Ok(Parts(host, digits))
    ensures BracketedText(s, host, digits)
  {
    var i, end := LastIndexOf(s, ':'), FirstIndexOf(s, ']');
    assert end + 1 == i && s[end] == ']';
    assert s == s[..1] + s[1..end] + s[end..i + 1] + s[i + 1..];
    assert s[..1] == "[" && s[end..i + 1] == "]:";
    assert forall c :: c in s[1..end] ==> c in s[1..] && c in s[..end];
  }
}
