/** Vocabulary shared by the other modules. */
module Base {
  datatype Option<+T> = None | Some(value: T)

  /** An octet, as an int so that arithmetic on it is ordinary arithmetic. */
  type Byte = x: int | 0 <= x < 256

  const NUL: Byte := 0
  const NEWLINE: Byte := 10

  function Min(a: int, b: int): (m: int)
    ensures m <= a && m <= b && (m == a || m == b)
  {
    if a <= b then a else b
  }

  function Max(a: int, b: int): (m: int)
    ensures m >= a && m >= b && (m == a || m == b)
  {
    if a >= b then a else b
  }

  function Flatten<T>(parts: seq<seq<T>>): seq<T> {
    if parts == [] then [] else parts[0] + Flatten(parts[1..])
  }

  /** Little-endian words, as integers lie in memory on the machines the server is built for. */
  function Word16(lo: Byte, hi: Byte): nat {
    (lo as int) + 0x100 * (hi as int)
  }

  function Word32(b: seq<Byte>): nat
    requires |b| >= 4
  {
    Word16(b[0], b[1]) + 0x1_0000 * Word16(b[2], b[3])
  }

  function Bytes16(n: nat): (b: seq<Byte>)
    ensures |b| == 2
  {
    [n % 0x100, n / 0x100 % 0x100]
  }

  function Bytes32(n: nat): (b: seq<Byte>)
    ensures |b| == 4
  {
    Bytes16(n % 0x1_0000) + Bytes16(n / 0x1_0000 % 0x1_0000)
  }

  lemma Word16RoundTrip(n: nat)
    requires n < 0x1_0000
    ensures Word16(Bytes16(n)[0], Bytes16(n)[1]) == n
  {
  }

  lemma Word32RoundTrip(n: nat)
    requires n < 0x1_0000_0000
    ensures Word32(Bytes32(n)) == n
  {
    var lo, hi := n % 0x1_0000, n / 0x1_0000;
    Word16RoundTrip(lo);
    Word16RoundTrip(hi);
    assert Bytes32(n)[0] == Bytes16(lo)[0] && Bytes32(n)[1] == Bytes16(lo)[1];
    assert Bytes32(n)[2] == Bytes16(hi)[0] && Bytes32(n)[3] == Bytes16(hi)[1];
  }

  lemma {:induction false} FlattenSnoc<T>(parts: seq<seq<T>>, last: seq<T>)
    ensures Flatten(parts + [last]) == Flatten(parts) + last
  {
    if parts == [] {
      assert [] + [last] == [last] && [last][1..] == [] && last + [] == last;
    } else {
      assert (parts + [last])[1..] == parts[1..] + [last];
      FlattenSnoc(parts[1..], last);
    }
  }
}
