/** Primitive wire encodings: what ReadStream and WriteStream put on the byte stream. */
module Wire {

  datatype Option<+T> = None | Some(value: T)

  type Byte = b: int | 0 <= b < 0x100

  /** A C++ `short`. */
  type Short = s: int | -0x8000 <= s < 0x8000

  function Least(a: nat, b: nat): (m: nat)
    ensures m <= a && m <= b && (m == a || m == b)
  {
    if a < b then a else b
  }

  /** Conversion of an `int` to `short`: keep the low sixteen bits and sign-extend. */
  function ToShort(x: int): (s: Short)
    ensures (s - x) % 0x10000 == 0
  {
    var m := x % 0x10000;
    if m < 0x8000 then m else m - 0x10000
  }

  /** Conversion to `uint16_t`, which is what `htons` sees of a port. */
  function ToPort(x: int): nat {
    x % 0x10000
  }

  function PutShort(x: int): (bs: seq<Byte>)
    ensures |bs| == 2
  {
    [(x / 0x100) % 0x100, x % 0x100]
  }

  function GetShort(bs: seq<Byte>): Short
    requires |bs| >= 2
  {
    var hi: int, lo: int := bs[0], bs[1];
    ToShort(hi * 0x100 + lo)
  }

  /** The intended four-byte big-endian field of `htonl`. */
  function PutLong(x: int): (bs: seq<Byte>)
    ensures |bs| == 4
  {
    [(x / 0x100_0000) % 0x100, (x / 0x1_0000) % 0x100, (x / 0x100) % 0x100, x % 0x100]
  }

  function GetLong(bs: seq<Byte>): (n: nat)
    requires |bs| >= 4
    ensures n < 0x1_0000_0000
  {
    var b0: int, b1: int, b2: int, b3: int := bs[0], bs[1], bs[2], bs[3];
    b0 * 0x100_0000 + b1 * 0x1_0000 + b2 * 0x100 + b3
  }

  function PutString(s: seq<Byte>): seq<Byte> {
    PutLong(|s|) + s
  }

  /** None when the C++ code would run past the end of its queue, which is undefined there. */
  function GetString(bs: seq<Byte>): Option<(seq<Byte>, seq<Byte>)> {
    if |bs| < 4 || |bs| < 4 + GetLong(bs) then None
    else Some((bs[4..4 + GetLong(bs)], bs[4 + GetLong(bs)..]))
  }

  lemma ToShortIdentity(x: Short)
    ensures ToShort(x) == x
  {}

  /** readShort undoes writeShort up to the conversion to `short`, for every argument. */
  lemma ShortRoundTrip(x: int, rest: seq<Byte>)
    ensures GetShort(PutShort(x) + rest) == ToShort(x)
    ensures (PutShort(x) + rest)[2..] == rest
  {
    var hi, lo := x / 0x100, x % 0x100;
    assert x == hi * 0x100 + lo;
    assert hi == (hi / 0x100) * 0x100 + hi % 0x100;
    SameLowBits(hi % 0x100 * 0x100 + lo, x, hi / 0x100);
  }

  /** Numbers that differ by a multiple of 2^16 are the same `short`. */
  lemma SameLowBits(a: int, b: int, k: int)
    requires b == a + k * 0x10000
    ensures ToShort(a) == ToShort(b) && a % 0x10000 == b % 0x10000
  {}

  lemma LongRoundTrip(n: nat, rest: seq<Byte>)
    requires n < 0x1_0000_0000
    ensures GetLong(PutLong(n) + rest) == n
    ensures (PutLong(n) + rest)[4..] == rest
  {
    var q3 := n / 0x100_0000;
    var q2 := n / 0x1_0000;
    var q1 := n / 0x100;
    assert q2 / 0x100 == q3 && q1 / 0x100 == q2;
    assert n == q1 * 0x100 + n % 0x100;
    assert q1 == q2 * 0x100 + q1 % 0x100;
    assert q2 == q3 * 0x100 + q2 % 0x100;
    assert q3 < 0x100;
  }

  lemma StringRoundTrip(s: seq<Byte>, rest: seq<Byte>)
    requires |s| < 0x1_0000_0000
    ensures GetString(PutString(s) + rest) == Some((s, rest))
  {
    var bs := PutString(s) + rest;
    assert bs == PutLong(|s|) + (s + rest);
    LongRoundTrip(|s|, s + rest);
    assert bs[4..] == s + rest;
    assert bs[4..4 + |s|] == s && bs[4 + |s|..] == rest;
  }

  /** Byte strings in the order of a dictionary. */
  predicate Below(a: seq<Byte>, b: seq<Byte>) {
    b != [] && (a == [] || a[0] < b[0] || (a[0] == b[0] && Below(a[1..], b[1..])))
  }

  /** The fields are big-endian: the order of numbers is the order of their bytes. */
  lemma LongBigEndian(n: nat, m: nat)
    requires n < m < 0x1_0000_0000
    ensures Below(PutLong(n), PutLong(m))
  {
    LongRoundTrip(n, []);
    LongRoundTrip(m, []);
    assert PutLong(n) + [] == PutLong(n) && PutLong(m) + [] == PutLong(m);
    hide PutLong;
    FourBytesBelow(PutLong(n), PutLong(m));
  }

  lemma FourBytesBelow(a: seq<Byte>, b: seq<Byte>)
    requires |a| == 4 && |b| == 4 && GetLong(a) < GetLong(b)
    ensures Below(a, b)
  {
    assert a[1..] == [a[1], a[2], a[3]] && b[1..] == [b[1], b[2], b[3]];
    assert a[1..][1..] == [a[2], a[3]] && b[1..][1..] == [b[2], b[3]];
    assert a[1..][1..][1..] == [a[3]] && b[1..][1..][1..] == [b[3]];
    assert a[3] < b[3] ==> Below([a[3]], [b[3]]);
    assert Below([a[2], a[3]], [b[2], b[3]]) <==> a[2] < b[2] || (a[2] == b[2] && Below([a[3]], [b[3]]));
  }

  lemma ShortBigEndian(x: int, y: int)
    requires 0 <= x < y < 0x1_0000
    ensures Below(PutShort(x), PutShort(y))
  {
    assert PutShort(x)[1..] == [x % 0x100] && PutShort(y)[1..] == [y % 0x100];
  }
}
