/** MAC addresses derived from a base address and an offset. */
module Mac {
  type Byte = b: int | 0 <= b < 256

  const Base: seq<Byte> := [0x12, 32, 34, 0, 0, 0]
  const ChassisBase: seq<Byte> := [2, 0xcc, 0, 0, 0, 0]

  const Two24: nat := 0x100_0000
  const Two48: nat := 0x1_0000_0000_0000
  const Two64: nat := 0x1_0000_0000_0000_0000

  /** binary.BigEndian. */
  function Number(bytes: seq<Byte>): nat {
    if bytes == [] then 0 else 256 * Number(bytes[..|bytes| - 1]) + bytes[|bytes| - 1]
  }

  /** The n low bytes of x, most significant first. */
  function Bytes(x: nat, n: nat): (bytes: seq<Byte>)
    ensures |bytes| == n
  {
    if n == 0 then [] else Bytes(x / 256, n - 1) + [x % 256]
  }

  /** DeriveMac: the base in the low six of eight bytes, a 64-bit addition, and the low six bytes of the sum. */
  function DeriveMac(base: seq<Byte>, offset: nat): (mac: seq<Byte>)
    requires |base| == 6
    ensures |mac| == 6
  {
    Bytes((Number([0, 0] + base) + offset) % Two64, 8)[2..8]
  }

  function Power256(n: nat): (p: nat)
    ensures p > 0
  {
    if n == 0 then 1 else 256 * Power256(n - 1)
  }

  lemma {:induction false} NumberOfBytes(x: nat, n: nat)
    ensures Number(Bytes(x, n)) == x % Power256(n)
  {
    if n > 0 {
      var high := Bytes(x / 256, n - 1);
      assert Bytes(x, n)[..n - 1] == high;
      NumberOfBytes(x / 256, n - 1);
      var p := Power256(n - 1);
      ModProduct(x, p);
    }
  }

  lemma ModProduct(x: nat, p: nat)
    requires p > 0
    ensures x % (256 * p) == 256 * ((x / 256) % p) + x % 256
  {
    var q, r := x / 256, x % 256;
    var k, m := q / p, q % p;
    assert q == k * p + m;
    assert x == (256 * p) * k + (256 * m + r) by {
      assert 256 * (k * p) == (256 * p) * k;
    }
    assert m <= p - 1;
    assert 256 * m + r < 256 * p;
    QuotientUnique(x, 256 * p, k, 256 * m + r);
  }

  lemma QuotientUnique(x: nat, d: nat, k: int, r: nat)
    requires r < d && x == d * k + r
    ensures x % d == r
  {
    var k', r' := x / d, x % d;
    assert x == d * k' + r';
    var t := k - k';
    assert d * t == d * k - d * k';
    if t >= 1 {
      Monotone(d, 1, t);
    } else if t <= -1 {
      Monotone(d, t, -1);
    }
  }

  lemma Monotone(d: nat, a: int, b: int)
    requires a <= b
    ensures d * a <= d * b
  {
  }

  lemma ModShift(x: nat, y: nat, d: nat, t: int)
    requires d > 0 && y == x + d * t
    ensures y % d == x % d
  {
    var k := x / d;
    assert x == d * k + x % d;
    assert d * (k + t) == d * k + d * t;
    QuotientUnique(y, d, k + t, x % d);
  }

  lemma ModOfMod(x: nat, p: nat, q: nat)
    requires p > 0 && q > 0
    ensures x % (q * p) % p == x % p
  {
    var k := x / (q * p);
    assert x == (q * p) * k + x % (q * p);
    assert (q * p) * k == p * (q * k);
    ModShift(x % (q * p), x, p, q * k);
  }

  lemma AddModSame(base: nat, a: nat, b: nat, m: nat)
    requires m > 0
    ensures (base + a) % m == (base + b) % m <==> a % m == b % m
  {
    if a % m == b % m {
      assert a == m * (a / m) + a % m && b == m * (b / m) + b % m;
      assert m * (b / m - a / m) == m * (b / m) - m * (a / m);
      ModShift(base + a, base + b, m, b / m - a / m);
    }
    if (base + a) % m == (base + b) % m {
      var j, k := (base + a) / m, (base + b) / m;
      assert base + a == m * j + (base + a) % m && base + b == m * k + (base + b) % m;
      assert m * (k - j) == m * k - m * j;
      ModShift(a, b, m, k - j);
    }
  }

  lemma {:induction false} BytesOfNumber(bytes: seq<Byte>)
    ensures Bytes(Number(bytes), |bytes|) == bytes
  {
    if bytes != [] {
      var n := |bytes| - 1;
      BytesOfNumber(bytes[..n]);
      assert Number(bytes) / 256 == Number(bytes[..n]) && Number(bytes) % 256 == bytes[n];
    }
  }

  lemma {:induction false} NumberBound(bytes: seq<Byte>)
    ensures Number(bytes) < Power256(|bytes|)
  {
    if bytes != [] {
      NumberBound(bytes[..|bytes| - 1]);
    }
  }

  /** The low bytes of a longer big-endian number. */
  lemma {:induction false} BytesSuffix(x: nat, m: nat, n: nat)
    requires m <= n
    ensures Bytes(x, n)[n - m..] == Bytes(x, m)
  {
    if m > 0 {
      BytesSuffix(x / 256, m - 1, n - 1);
      var high := Bytes(x / 256, n - 1);
      assert Bytes(x, n) == high + [x % 256];
      assert (high + [x % 256])[n - m..] == high[n - m..] + [x % 256];
    } else {
      assert Bytes(x, n)[n..] == [];
    }
  }

  lemma {:induction false} ZerosInFront(bytes: seq<Byte>)
    ensures Number([0, 0] + bytes) == Number(bytes)
  {
    if bytes == [] {
      assert ([0, 0] + bytes)[..1] == [0];
      assert [0][..0] == [];
    } else {
      ZerosInFront(bytes[..|bytes| - 1]);
      assert ([0, 0] + bytes)[..|bytes| + 1] == [0, 0] + bytes[..|bytes| - 1];
    }
  }

  lemma PowerValues()
    ensures Power256(3) == Two24 && Power256(6) == Two48
  {
    assert Power256(1) == 256;
    assert Power256(2) == 0x1_0000;
    assert Power256(3) == 0x100_0000;
    assert Power256(4) == 0x1_0000_0000;
    assert Power256(5) == 0x100_0000_0000;
  }

  /** Deriving is adding the offset modulo 2^48: what the 64-bit sum carries beyond six bytes is lost. */
  lemma DeriveMacAdds(base: seq<Byte>, offset: nat)
    requires |base| == 6
    ensures Number(DeriveMac(base, offset)) == (Number(base) + offset) % Two48
  {
    ZerosInFront(base);
    LowSixBytes(Number(base) + offset);
  }

  lemma LowSixBytes(x: nat)
    ensures Number(Bytes(x % Two64, 8)[2..8]) == x % Two48
  {
    PowerValues();
    var bytes := Bytes(x % Two64, 8);
    BytesSuffix(x % Two64, 6, 8);
    assert bytes[2..] == bytes[2..8];
    NumberOfBytes(x % Two64, 6);
    ModOfMod(x, Two48, 0x1_0000);
  }

  /** Two offsets give the same address exactly when they differ by a multiple of 2^48. */
  lemma DeriveMacSame(base: seq<Byte>, a: nat, b: nat)
    requires |base| == 6
    ensures DeriveMac(base, a) == DeriveMac(base, b) <==> a % Two48 == b % Two48
  {
    DeriveMacAdds(base, a);
    DeriveMacAdds(base, b);
    AddModSame(Number(base), a, b, Two48);
    BytesOfNumber(DeriveMac(base, a));
    BytesOfNumber(DeriveMac(base, b));
  }

  lemma {:induction false} NumberConcat(x: seq<Byte>, y: seq<Byte>)
    ensures Number(x + y) == Power256(|y|) * Number(x) + Number(y)
  {
    if y == [] {
      assert x + y == x;
    } else {
      var n := |y| - 1;
      assert (x + y)[..|x + y| - 1] == x + y[..n];
      NumberConcat(x, y[..n]);
      assert 256 * (Power256(n) * Number(x)) == Power256(n + 1) * Number(x);
    }
  }

  /** A number splits into its top three and low three bytes. */
  lemma SplitNumber(x: seq<Byte>)
    requires |x| == 6
    ensures Number(x) == Two24 * Number(x[..3]) + Number(x[3..]) && Number(x[3..]) < Two24
  {
    assert x == x[..3] + x[3..];
    NumberConcat(x[..3], x[3..]);
    NumberBound(x[3..]);
    PowerValues();
  }

  lemma NumberInjective(a: seq<Byte>, b: seq<Byte>)
    requires |a| == |b| && Number(a) == Number(b)
    ensures a == b
  {
    BytesOfNumber(a);
    BytesOfNumber(b);
  }

  lemma ThreeZeros()
    ensures Number([0, 0, 0]) == 0
  {
    ZerosInFront([0]);
    assert [0, 0] + [0] == [0, 0, 0] && [0][..0] == [];
  }

  /** An offset below 2^48 keeps the top three octets of a base whose low three are 0 exactly when it is below
      2^24. Both bases are of that kind. */
  lemma DeriveMacKeepsPrefix(base: seq<Byte>, offset: nat)
    requires |base| == 6 && base[3..] == [0, 0, 0] && offset < Two48
    ensures DeriveMac(base, offset)[..3] == base[..3] <==> offset < Two24
  {
    var mac := DeriveMac(base, offset);
    var top, high, low := Number(base[..3]), Number(mac[..3]), Number(mac[3..]);
    DeriveMacAdds(base, offset);
    SplitNumber(base);
    SplitNumber(mac);
    ThreeZeros();
    PowerValues();
    NumberBound(base);
    PrefixKept(Two24 * top, offset, Two24 * high + low, top, high, low);
    if high == top {
      NumberInjective(mac[..3], base[..3]);
    }
  }

  lemma PrefixKept(b: nat, offset: nat, sum: nat, top: nat, high: nat, low: nat)
    requires b == Two24 * top && b < Two48 && offset < Two48 && low < Two24
    requires sum == (b + offset) % Two48 && sum == Two24 * high + low
    ensures high == top <==> offset < Two24
  {
    if b + offset < Two48 {
      assert sum == b + offset;
    } else {
      assert sum == b + offset - Two48;
    }
  }

  // ---- the printed form ----

  function HexDigit(d: nat): (c: char)
    requires d < 16
    ensures c != ':'
  {
    if d < 10 then ('0' as int + d) as char else ('a' as int + d - 10) as char
  }

  /** net.HardwareAddr.String: two hex digits an octet, with ':' in between. */
  function Print(mac: seq<Byte>): string {
    if mac == [] then ""
    else
      var n := |mac| - 1;
      var octet := [HexDigit(mac[n] / 16), HexDigit(mac[n] % 16)];
      if n == 0 then octet else Print(mac[..n]) + ":" + octet
  }

  lemma {:induction false} PrintInjective(a: seq<Byte>, b: seq<Byte>)
    requires |a| == |b| && Print(a) == Print(b)
    ensures a == b
  {
    if a != [] {
      var n := |a| - 1;
      var s, t := Print(a), Print(b);
      assert s[|s| - 2..] == [HexDigit(a[n] / 16), HexDigit(a[n] % 16)];
      assert t[|t| - 2..] == [HexDigit(b[n] / 16), HexDigit(b[n] % 16)];
      assert s[|s| - 2] == t[|t| - 2] && s[|s| - 1] == t[|t| - 1];
      assert a[n] == b[n];
      if n > 0 {
        assert s[..|s| - 3] == Print(a[..n]) && t[..|t| - 3] == Print(b[..n]);
        PrintInjective(a[..n], b[..n]);
      }
      assert a == a[..n] + [a[n]] && b == b[..n] + [b[n]];
    }
  }

  /** The address filled in for offset n, as it is stored. */
  function Derived(base: seq<Byte>, n: nat): string
    requires |base| == 6
  {
    Print(DeriveMac(base, n))
  }

  lemma PrintDiffers(a: seq<Byte>, b: seq<Byte>)
    requires |a| == |b| && a != b
    ensures Print(a) != Print(b)
  {
    if Print(a) == Print(b) {
      PrintInjective(a, b);
    }
  }

  lemma SmallOffset(a: nat)
    requires a < Two48
    ensures a % Two48 == a
  {
  }

  /** Addresses filled in for different offsets differ. */
  lemma DerivedDiffer(base: seq<Byte>, a: nat, b: nat)
    requires |base| == 6 && a < Two48 && b < Two48 && a != b
    ensures Derived(base, a) != Derived(base, b)
  {
    SmallOffset(a);
    SmallOffset(b);
    DeriveMacSame(base, a, b);
    PrintDiffers(DeriveMac(base, a), DeriveMac(base, b));
  }

  // ---- the two ranges ----

  lemma {:induction false} NumberOfSix(a: Byte, b: Byte, c: Byte)
    ensures Number([a, b, c, 0, 0, 0]) == ((a * 256 + b) * 256 + c) * Two24
  {
    assert [a, b, c, 0, 0, 0] == [a, b, c] + [0, 0, 0];
    NumberConcat([a, b, c], [0, 0, 0]);
    ThreeZeros();
    PowerValues();
    NumberOfThree(a, b, c);
  }

  lemma NumberOfThree(a: Byte, b: Byte, c: Byte)
    ensures Number([a, b, c]) == (a * 256 + b) * 256 + c
  {
    assert [a, b, c][..2] == [a, b] && [a, b][..1] == [a] && [a][..0] == [];
    assert Number([]) == 0;
    assert Number([a]) == a;
    assert Number([a, b]) == 256 * a + b;
  }

  const ConnectorFirst: nat := 0x1220_2200_0000
  const ChassisFirst: nat := 0x02cc_0000_0000

  lemma BaseNumbers()
    ensures Number(Base) == ConnectorFirst && Number(ChassisBase) == ChassisFirst
  {
    NumberOfSix(0x12, 32, 34);
    NumberOfSix(2, 0xcc, 0);
  }

  /** Connector and chassis addresses never meet, for up to 2^43 of each. */
  lemma RangesApart(a: nat, b: nat)
    requires a < 0x800_0000_0000 && b < 0x800_0000_0000
    ensures Derived(Base, a) != Derived(ChassisBase, b)
  {
    BaseNumbers();
    DeriveMacAdds(Base, a);
    DeriveMacAdds(ChassisBase, b);
    SmallOffset(ConnectorFirst + a);
    SmallOffset(ChassisFirst + b);
    PrintDiffers(DeriveMac(Base, a), DeriveMac(ChassisBase, b));
  }

  lemma DerivedBytes(base: seq<Byte>, offset: nat, mac: seq<Byte>)
    requires |base| == 6 && |mac| == 6 && Number(base) + offset < Two48 && Number(mac) == Number(base) + offset
    ensures Derived(base, offset) == Print(mac)
  {
    DeriveMacAdds(base, offset);
    SmallOffset(Number(base) + offset);
    NumberInjective(DeriveMac(base, offset), mac);
  }

  lemma PrintMore(mac: seq<Byte>, b: Byte)
    requires mac != []
    ensures Print(mac + [b]) == Print(mac) + ":" + [HexDigit(b / 16), HexDigit(b % 16)]
  {
    assert (mac + [b])[..|mac|] == mac;
  }

  lemma PrintSix(a: Byte, b: Byte, c: Byte, d: Byte, e: Byte, f: Byte)
    ensures Print([a, b, c, d, e, f]) ==
            Hex(a) + ":" + Hex(b) + ":" + Hex(c) + ":" + Hex(d) + ":" + Hex(e) + ":" + Hex(f)
  {
    assert Print([a]) == Hex(a);
    PrintMore([a], b);
    PrintMore([a, b], c);
    PrintMore([a, b, c], d);
    PrintMore([a, b, c, d], e);
    PrintMore([a, b, c, d, e], f);
    assert [a] + [b] == [a, b] && [a, b] + [c] == [a, b, c] && [a, b, c] + [d] == [a, b, c, d];
    assert [a, b, c, d] + [e] == [a, b, c, d, e] && [a, b, c, d, e] + [f] == [a, b, c, d, e, f];
  }

  function Hex(b: Byte): string { [HexDigit(b / 16), HexDigit(b % 16)] }

  /** The printed form: two hex digits an octet, most significant first. */
  lemma HexInFull()
    ensures Hex(0x12) == "12" && Hex(0xcc) == "cc" && Hex(0x0f) == "0f"
  {
  }

  lemma FirstNumber()
    ensures Number([0x12, 0x20, 0x22, 0, 0, 1]) == ConnectorFirst + 1
  {
    BaseNumbers();
    var mac: seq<Byte> := [0x12, 0x20, 0x22, 0, 0, 1];
    assert mac[..5] == Base[..5];
    assert Number(mac) == 256 * Number(mac[..5]) + 1 && Number(Base) == 256 * Number(Base[..5]) + 0;
  }

  /** The first addresses filled in: 12:20:22:00:00:01 for a connector, 02:cc:00:00:00:00 for a chassis. */
  lemma FirstAddresses()
    ensures Derived(Base, 1) == Print([0x12, 0x20, 0x22, 0, 0, 1])
    ensures Derived(ChassisBase, 0) == Print([0x02, 0xcc, 0, 0, 0, 0])
  {
    BaseNumbers();
    FirstNumber();
    DerivedBytes(Base, 1, [0x12, 0x20, 0x22, 0, 0, 1]);
    DerivedBytes(ChassisBase, 0, ChassisBase);
  }
}
