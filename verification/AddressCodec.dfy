/** The h1,h2,h3,h4,p1,p2 form of section 4.1.2 of RFC 959: printed by PASV, parsed for PORT. */
module AddressCodec {
  import opened Base

  const UINT_MAX := 0xFFFF_FFFF

  predicate IsDigit(c: char) { '0' <= c <= '9' }
  predicate IsSpace(c: char) { c == ' ' || '\t' <= c <= '\r' }

  function Digit(n: nat): char
    requires n < 10
  {
    "0123456789"[n]
  }

  function DigitValue(c: char): nat
    requires IsDigit(c)
  {
    c as int - '0' as int
  }

  /** printf's %u */
  function Decimal(n: nat): string {
    if n < 10 then [Digit(n)] else Decimal(n / 10) + [Digit(n % 10)]
  }

  predicate AllDigits(s: string) {
    forall i :: 0 <= i < |s| ==> IsDigit(s[i])
  }

  function Value(s: string): nat
    requires AllDigits(s)
  {
    if s == "" then 0 else 10 * Value(s[..|s| - 1]) + DigitValue(s[|s| - 1])
  }

  /** Length of the digits at the front. */
  function Digits(s: string): (n: nat)
    ensures n <= |s| && AllDigits(s[..n]) && (n < |s| ==> !IsDigit(s[n]))
  {
    if s == "" || !IsDigit(s[0]) then 0
    else
      var n := Digits(s[1..]);
      assert s[..n + 1] == [s[0]] + s[1..][..n];
      n + 1
  }

  function Spaces(s: string): (n: nat)
    ensures n <= |s|
  {
    if s == "" || !IsSpace(s[0]) then 0 else 1 + Spaces(s[1..])
  }

  /** istream >> unsigned: what is stored (None if nothing is), what is left, and whether the
      stream is still usable. */
  datatype Extraction = Extraction(value: Option<nat>, rest: string, ok: bool)

  function Extract(s: string): Extraction {
    var t := s[Spaces(s)..];
    if t == "" then Extraction(None, "", false)
    else
      var sign := if t[0] == '-' || t[0] == '+' then 1 else 0;
      var u := t[sign..];
      var n := Digits(u);
      if n == 0 then Extraction(Some(0), u, false)
      else if Value(u[..n]) > UINT_MAX then Extraction(Some(UINT_MAX), u[n..], false)
      else
        var v := Value(u[..n]);
        Extraction(Some(if t[0] == '-' && v > 0 then UINT_MAX + 1 - v else v), u[n..], true)
  }

  /** istream::ignore() of one character; at the end the stream becomes unusable. */
  function Ignore(e: Extraction): Extraction {
    if e.ok && e.rest != "" then e.(rest := e.rest[1..]) else e.(ok := false)
  }

  /** The numbers from place `i` on; `v` starts as whatever the uninitialised array held. */
  function Numbers(s: string, ok: bool, i: nat, v: seq<nat>): (r: seq<nat>)
    requires |v| == 6 && i <= 6
    ensures |r| == 6
    decreases 6 - i
  {
    if i == 6 || !ok then v
    else
      var e := Extract(s);
      var f := if i <= 4 then Ignore(e) else e;
      Numbers(f.rest, f.ok, i + 1, if e.value.Some? then v[i := e.value.value] else v)
  }

  method ParseNumbers(arg: string, garbage: seq<nat>) returns (v: seq<nat>)
    requires |garbage| == 6
    ensures v == Numbers(arg, true, 0, garbage)
  {
    v := garbage;
    var s, ok := arg, true;
    for i := 0 to 6
      invariant |v| == 6 && Numbers(s, ok, i, v) == Numbers(arg, true, 0, garbage)
    {
      if ok {
        var e := Extract(s);
        if e.value.Some? { v := v[i := e.value.value]; }
        if i <= 4 { e := Ignore(e); }
        s, ok := e.rest, e.ok;
      }
    }
  }

  /** struct sockaddr_in as get_port_addr fills it: family, port and address byte by byte. */
  function SockAddr(v: seq<nat>): (a: seq<Byte>)
    requires |v| == 6
    ensures |a| == 16
  {
    [2, 0, v[4] % 256, v[5] % 256, v[0] % 256, v[1] % 256, v[2] % 256, v[3] % 256, 0, 0, 0, 0, 0, 0, 0, 0]
  }

  /** Six numbers with one character between each two. */
  function Printed(v: seq<nat>, seps: string): string
    requires |v| == |seps| + 1
  {
    if seps == "" then Decimal(v[0]) else Decimal(v[0]) + [seps[0]] + Printed(v[1..], seps[1..])
  }

  /** The body of the 227 reply for an address and the listener's port. */
  function PasvBody(ip: seq<Byte>, port: nat): string
    requires |ip| == 4
  {
    Printed([ip[0], ip[1], ip[2], ip[3], port / 256, port % 256], ",,,,,")
  }

  lemma {:induction false} DecimalValue(n: nat)
    ensures Decimal(n) != "" && AllDigits(Decimal(n)) && Value(Decimal(n)) == n
  {
    if n >= 10 {
      DecimalValue(n / 10);
      assert Decimal(n)[..|Decimal(n)| - 1] == Decimal(n / 10);
    } else {
      assert Decimal(n)[..0] == "";
    }
  }

  lemma DigitsThen(d: string, rest: string)
    requires AllDigits(d) && (rest != "" ==> !IsDigit(rest[0]))
    ensures Digits(d + rest) == |d|
  {
    if d == "" {
      assert d + rest == rest;
    } else {
      DigitsThen(d[1..], rest);
      assert (d + rest)[1..] == d[1..] + rest;
    }
  }

  /** A printed number followed by anything but a digit is read back. */
  lemma ExtractDecimal(n: nat, rest: string)
    requires n <= UINT_MAX && (rest != "" ==> !IsDigit(rest[0]))
    ensures Extract(Decimal(n) + rest) == Extraction(Some(n), rest, true)
  {
    var d, s := Decimal(n), Decimal(n) + rest;
    DecimalValue(n);
    DigitsThen(d, rest);
    assert IsDigit(s[0]) && s[0..] == s && Spaces(s) == 0;
    assert s[..|d|] == d && s[|d|..] == rest;
  }

  lemma {:induction false} SpacesThen(blank: string, more: string)
    requires forall i :: 0 <= i < |blank| ==> blank[i] == ' ' || '\t' <= blank[i] <= '\r'
    requires more != "" ==> more[0] != ' ' && !('\t' <= more[0] <= '\r')
    ensures Spaces(blank + more) == |blank|
  {
    if blank == "" {
      assert blank + more == more;
    } else {
      assert (blank + more)[1..] == blank[1..] + more;
      SpacesThen(blank[1..], more);
    }
  }

  /** A number as a client may write it: white space, a sign, digits, and then anything but a digit. */
  lemma {:induction false} Written(blank: string, sign: string, d: string, rest: string)
    requires forall i :: 0 <= i < |blank| ==> blank[i] == ' ' || '\t' <= blank[i] <= '\r'
    requires sign == "" || sign == "-" || sign == "+"
    requires d != "" && AllDigits(d) && (rest != "" ==> !('0' <= rest[0] <= '9'))
    ensures var s := blank + sign + d + rest;
            Spaces(s) == |blank| && s[|blank|..] == sign + d + rest
    ensures var t := sign + d + rest;
            && (t[0] == '-' <==> sign == "-") && (t[0] == '-' || t[0] == '+' <==> sign != "")
            && t[|sign|..] == d + rest && Digits(d + rest) == |d| && (d + rest)[..|d|] == d && (d + rest)[|d|..] == rest
  {
    DigitsThen(d, rest);
    assert IsDigit(d[0]);
    hide Spaces, Digits;
    var t := sign + d + rest;
    assert blank + sign + d + rest == blank + t;
    assert t[0] == if sign == "" then d[0] else sign[0];
    SpacesThen(blank, t);
  }

  /** istream >> unsigned: a number too large is stored as the largest, a negative one wraps. */
  lemma {:induction false} ExtractWritten(blank: string, sign: string, d: string, rest: string)
    requires forall i :: 0 <= i < |blank| ==> blank[i] == ' ' || '\t' <= blank[i] <= '\r'
    requires sign == "" || sign == "-" || sign == "+"
    requires d != "" && AllDigits(d) && (rest != "" ==> !('0' <= rest[0] <= '9'))
    ensures var n := Value(d);
            Extract(blank + sign + d + rest)
            == if n > 4294967295 then Extraction(Some(4294967295), rest, false)
               else Extraction(Some(if sign == "-" && n > 0 then 4294967296 - n else n), rest, true)
  {
    Written(blank, sign, d, rest);
    hide Spaces, Digits, Value, AllDigits;
  }

  /** Without digits a 0 is stored, and at the end of the text nothing. */
  lemma {:induction false} ExtractNothing(blank: string, sign: string, rest: string)
    requires forall i :: 0 <= i < |blank| ==> blank[i] == ' ' || '\t' <= blank[i] <= '\r'
    requires sign == "" || sign == "-" || sign == "+"
    requires rest != "" ==> !('0' <= rest[0] <= '9')
    requires rest != "" && sign == "" ==> rest[0] != '-' && rest[0] != '+' && rest[0] != ' ' && !('\t' <= rest[0] <= '\r')
    ensures Extract(blank + sign + rest) == Extraction(if sign + rest == "" then None else Some(0), rest, false)
  {
    var t := sign + rest;
    assert blank + sign + rest == blank + t;
    if t != "" { assert t[0] == if sign == "" then rest[0] else sign[0]; }
    SpacesThen(blank, t);
    NoDigit(rest);
    hide Spaces, Digits, Value;
    assert (blank + t)[|blank|..] == t && t[|sign|..] == rest;
  }

  lemma NoDigit(rest: string)
    requires rest != "" ==> !('0' <= rest[0] <= '9')
    ensures Digits(rest) == 0
  {
  }

  /** One round of the parsing loop over a printed number and the character after it. */
  lemma NumbersRound(n: nat, rest: string, i: nat, g: seq<nat>)
    requires i < 6 && |g| == 6 && n <= UINT_MAX && (rest != "" ==> !IsDigit(rest[0]))
    ensures i <= 4 && rest != "" ==>
              Numbers(Decimal(n) + rest, true, i, g) == Numbers(rest[1..], true, i + 1, g[i := n])
    ensures i == 5 ==> Numbers(Decimal(n) + rest, true, i, g) == g[i := n]
  {
    ExtractDecimal(n, rest);
  }

  /** Parsing what was printed, from place `i` on. */
  lemma {:induction false} NumbersPrinted(v: seq<nat>, seps: string, i: nat, garbage: seq<nat>)
    requires i < 6 && |v| == 6 - i && |seps| == 5 - i && |garbage| == 6
    requires forall k :: 0 <= k < |v| ==> v[k] <= UINT_MAX
    requires forall k :: 0 <= k < |seps| ==> !IsDigit(seps[k])
    ensures Numbers(Printed(v, seps), true, i, garbage) == garbage[..i] + v
    decreases 6 - i
  {
    hide Numbers, Extract, Decimal;
    var g := garbage[i := v[0]];
    if i == 5 {
      NumbersRound(v[0], "", i, garbage);
      assert Printed(v, seps) == Decimal(v[0]) + "";
      assert g == garbage[..5] + v;
    } else {
      var more := Printed(v[1..], seps[1..]);
      var rest := [seps[0]] + more;
      NumbersRound(v[0], rest, i, garbage);
      assert Printed(v, seps) == Decimal(v[0]) + rest && rest[1..] == more;
      NumbersPrinted(v[1..], seps[1..], i + 1, g);
      assert g[..i + 1] + v[1..] == garbage[..i] + v;
    }
  }

  /** PORT: six numbers with any one non-digit between them are stored modulo 256, the last two
      as the port in network order, whatever the array held before. */
  lemma PortParsed(v: seq<nat>, seps: string, garbage: seq<nat>)
    requires |v| == 6 && |seps| == 5 && |garbage| == 6
    requires forall k :: 0 <= k < 6 ==> v[k] <= UINT_MAX
    requires forall k :: 0 <= k < 5 ==> !IsDigit(seps[k])
    ensures SockAddr(Numbers(Printed(v, seps), true, 0, garbage)) == SockAddr(v)
  {
    NumbersPrinted(v, seps, 0, garbage);
    assert garbage[..0] + v == v;
  }

  lemma PortBytes(port: nat)
    requires port < 0x1_0000
    ensures port / 256 < 256 && port / 256 * 256 + port % 256 == port
  {
  }

  lemma AddressBytes(v: seq<nat>)
    requires |v| == 6 && forall k :: 0 <= k < 6 ==> v[k] < 256
    ensures SockAddr(v)[2..8] == [v[4], v[5], v[0], v[1], v[2], v[3]]
  {
  }

  /** A number too large or missing ends the parsing: the array keeps what it held from the next place on. */
  lemma {:induction false} NumbersStop(blank: string, sign: string, d: string, rest: string, i: nat, g: seq<nat>)
    requires i < 6 && |g| == 6 && forall i :: 0 <= i < |blank| ==> blank[i] == ' ' || '\t' <= blank[i] <= '\r'
    requires sign == "" || sign == "-" || sign == "+"
    requires AllDigits(d) && (rest != "" ==> !('0' <= rest[0] <= '9'))
    requires d == "" && sign == "" && rest != "" ==>
               rest[0] != '-' && rest[0] != '+' && rest[0] != ' ' && !('\t' <= rest[0] <= '\r')
    ensures d == "" ==>
              Numbers(blank + sign + rest, true, i, g) == if sign + rest == "" then g else g[i := 0]
    ensures d != "" && Value(d) > 4294967295 ==>
              Numbers(blank + sign + d + rest, true, i, g) == g[i := 4294967295]
  {
    if d == "" {
      ExtractNothing(blank, sign, rest);
    } else {
      ExtractWritten(blank, sign, d, rest);
    }
    hide Extract, Value, AllDigits;
  }

  /** Round trip: parsing the 227 body gives back the address bytes and the listener's port, high
      byte first, for every address and 16-bit port. */
  lemma AddressRoundTrip(ip: seq<Byte>, port: nat, garbage: seq<nat>)
    requires |ip| == 4 && port < 0x1_0000 && |garbage| == 6
    ensures var a := SockAddr(Numbers(PasvBody(ip, port), true, 0, garbage));
            a[4..8] == ip && Word16(a[3], a[2]) == port
  {
    hide *;
    PortBytes(port);
    var v: seq<nat> := [ip[0], ip[1], ip[2], ip[3], port / 256, port % 256];
    assert PasvBody(ip, port) == Printed(v, ",,,,,") by { PasvBodyIs(ip, port); }
    PortParsed(v, ",,,,,", garbage) by { NoDigits(); }
    AddressBytes(v);
    var a := SockAddr(v);
    assert a[2] == a[2..8][0] && a[3] == a[2..8][1];
    assert a[4..8] == a[2..8][2..] == ip;
    WordOf(a[3], a[2]);
  }

  /** The address as PORT stores it, and the body of a 227, written out. */
  lemma {:induction false} AddressIs(ip: seq<Byte>, port: nat, garbage: seq<nat>)
    requires |ip| == 4 && port < 0x1_0000 && |garbage| == 6
    ensures PasvBody(ip, port)
            == Decimal(ip[0]) + "," + Decimal(ip[1]) + "," + Decimal(ip[2]) + "," + Decimal(ip[3]) + ","
               + Decimal(port / 256) + "," + Decimal(port % 256)
    ensures SockAddr(Numbers(PasvBody(ip, port), true, 0, garbage))
            == [2, 0, port / 256, port % 256, ip[0], ip[1], ip[2], ip[3], 0, 0, 0, 0, 0, 0, 0, 0]
  {
    hide *;
    PortBytes(port);
    var v: seq<nat> := [ip[0], ip[1], ip[2], ip[3], port / 256, port % 256];
    assert PasvBody(ip, port) == Printed(v, ",,,,,") by { PasvBodyIs(ip, port); }
    PortParsed(v, ",,,,,", garbage) by { NoDigits(); }
    PrintedSix(v);
    StoredBytes(v);
  }

  lemma StoredBytes(v: seq<nat>)
    requires |v| == 6 && forall k :: 0 <= k < 6 ==> v[k] < 256
    ensures SockAddr(v) == [2, 0, v[4], v[5], v[0], v[1], v[2], v[3], 0, 0, 0, 0, 0, 0, 0, 0]
  {
  }

  lemma {:induction false} PrintedSix(v: seq<nat>)
    requires |v| == 6
    ensures Printed(v, ",,,,,")
            == Decimal(v[0]) + "," + Decimal(v[1]) + "," + Decimal(v[2]) + "," + Decimal(v[3]) + ","
               + Decimal(v[4]) + "," + Decimal(v[5])
  {
    hide Decimal;
    var a, b, c, d, e := v[1..], v[2..], v[3..], v[4..], v[5..];
    assert a[1..] == b && b[1..] == c && c[1..] == d && d[1..] == e;
    assert ",,,,,"[1..] == ",,,," && ",,,,"[1..] == ",,," && ",,,"[1..] == ",," && ",,"[1..] == "," && ","[1..] == "";
    assert Printed(e, "") == Decimal(v[5]);
    assert Printed(d, ",") == Decimal(v[4]) + "," + Decimal(v[5]);
    assert Printed(c, ",,") == Decimal(v[3]) + "," + Printed(d, ",");
    assert Printed(b, ",,,") == Decimal(v[2]) + "," + Printed(c, ",,");
    assert Printed(a, ",,,,") == Decimal(v[1]) + "," + Printed(b, ",,,");
    assert Printed(v, ",,,,,") == Decimal(v[0]) + "," + Printed(a, ",,,,");
  }

  lemma PasvBodyIs(ip: seq<Byte>, port: nat)
    requires |ip| == 4
    ensures PasvBody(ip, port) == Printed([ip[0], ip[1], ip[2], ip[3], port / 256, port % 256], ",,,,,")
  {
  }

  lemma NoDigits()
    ensures 256 <= UINT_MAX
    ensures forall k :: 0 <= k < 5 ==> !IsDigit(",,,,,"[k])
  {
  }

  lemma WordOf(lo: Byte, hi: Byte)
    ensures Word16(lo, hi) == lo + 256 * hi as int
  {
  }
}
