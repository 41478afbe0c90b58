// The checksum of the DNS seeder (dnsseeder/seeder.go) and the address it goes into.

module Crc16 {
  import opened Common

  type Byte = bv8

  const POLYNOMIAL: bv16 := 0x1021
  const INITIAL: bv16 := 0xFFFF

  // ---------------------------------------------------------------------------
  // The checksum by its definition: a shift register fed one bit at a time.

  /** One shift: a bit that falls out at the top feeds the polynomial back. */
  function Shift(register: bv16): bv16 {
    if register & 0x8000 == 0 then register << 1 else (register << 1) ^ POLYNOMIAL
  }

  function Shift4(register: bv16): bv16 {
    Shift(Shift(Shift(Shift(register))))
  }

  function Shift8(register: bv16): bv16 {
    Shift4(Shift4(register))
  }

  /** Feeds one byte, most significant bit first. */
  function Feed(register: bv16, b: Byte): bv16 {
    Shift8(register ^ ((b as bv16) << 8))
  }

  function Register(bs: seq<Byte>): bv16 {
    if bs == [] then INITIAL else Feed(Register(bs[..|bs| - 1]), bs[|bs| - 1])
  }

  // ---------------------------------------------------------------------------
  // Four shifts without a branch: the bits that fall out come back at the three places
  // the polynomial names.

  lemma TopBit(r: bv16)
    ensures r & 0x8000 == 0 ==> r >> 15 == 0
    ensures r & 0x8000 != 0 ==> r >> 15 == 1
  {
  }

  lemma NothingComesBack(r: bv16)
    ensures r ^ (0 << 12) ^ (0 << 5) ^ 0 == r
  {
  }

  lemma PolynomialComesBack(r: bv16)
    ensures r ^ (1 << 12) ^ (1 << 5) ^ 1 == r ^ POLYNOMIAL
  {
  }

  lemma ShiftIsXor(r: bv16)
    ensures Shift(r) == (r << 1) ^ ((r >> 15) << 12) ^ ((r >> 15) << 5) ^ (r >> 15)
  {
    TopBit(r);
    NothingComesBack(r << 1);
    PolynomialComesBack(r << 1);
  }

  lemma FourXors(r: bv16)
    ensures (var a := (r << 1) ^ ((r >> 15) << 12) ^ ((r >> 15) << 5) ^ (r >> 15);
             var b := (a << 1) ^ ((a >> 15) << 12) ^ ((a >> 15) << 5) ^ (a >> 15);
             var c := (b << 1) ^ ((b >> 15) << 12) ^ ((b >> 15) << 5) ^ (b >> 15);
             (c << 1) ^ ((c >> 15) << 12) ^ ((c >> 15) << 5) ^ (c >> 15))
         == (r << 4) ^ ((r >> 12) << 12) ^ ((r >> 12) << 5) ^ (r >> 12)
  {
  }

  lemma Shift4IsXor(r: bv16, shifted: bv16)
    requires shifted == Shift4(r)
    ensures shifted == (r << 4) ^ ((r >> 12) << 12) ^ ((r >> 12) << 5) ^ (r >> 12)
  {
    var a := Shift(r);
    var b := Shift(a);
    var c := Shift(b);
    ShiftIsXor(r);
    ShiftIsXor(a);
    ShiftIsXor(b);
    ShiftIsXor(c);
    FourXors(r);
  }

  // ---------------------------------------------------------------------------
  // One turn of the fast loop, in the parts it is computed in.

  function Mix(crc: bv16, b: Byte): bv16 {
    (crc >> 8) ^ (b as bv16)
  }

  function Fold(x: bv16): bv16 {
    x ^ (x >> 4)
  }

  function Join(top: bv16, y: bv16): bv16 {
    top ^ (y << 12) ^ (y << 5) ^ y
  }

  function Turn(crc: bv16, b: Byte): bv16 {
    Join(crc << 8, Fold(Mix(crc, b)))
  }

  lemma MixIs(crc: bv16, b: Byte, x: bv16)
    requires x == (crc >> 8) ^ (b as bv16)
    ensures x == Mix(crc, b)
  {
  }

  lemma FoldIs(x: bv16, y: bv16)
    ensures y == x ^ (x >> 4) <==> y == Fold(x)
  {
  }

  lemma JoinIs(top: bv16, y: bv16, crc: bv16)
    requires crc == top ^ (y << 12) ^ (y << 5) ^ y
    ensures crc == Join(top, y)
  {
  }

  // ---------------------------------------------------------------------------
  // Eight shifts are one turn.

  lemma TwoFours(r: bv16, a: bv16, b: bv16, x: bv16, y: bv16, top: bv16)
    requires a == (r << 4) ^ ((r >> 12) << 12) ^ ((r >> 12) << 5) ^ (r >> 12)
    requires b == (a << 4) ^ ((a >> 12) << 12) ^ ((a >> 12) << 5) ^ (a >> 12)
    requires x == r >> 8 && top == r << 8
    requires y == x ^ (x >> 4)
    ensures b == top ^ (y << 12) ^ (y << 5) ^ y
  {
  }

  lemma Shift8Joins(r: bv16, a: bv16, b: bv16, x: bv16, y: bv16, top: bv16)
    requires a == Shift4(r) && b == Shift4(a)
    requires x == r >> 8 && top == r << 8
    requires y == Fold(x)
    ensures b == Join(top, y)
  {
    Shift4IsXor(r, a);
    Shift4IsXor(a, b);
    FoldIs(x, y);
    TwoFours(r, a, b, x, y, top);
    JoinIs(top, y, b);
  }

  lemma Shift8IsJoin(r: bv16)
    ensures Shift8(r) == Join(r << 8, Fold(r >> 8))
  {
    Shift8Joins(r, Shift4(r), Shift8(r), r >> 8, Fold(r >> 8), r << 8);
  }

  /** The byte reaches the top half of the register only. */
  lemma ByteGoesOnTop(crc: bv16, b: Byte)
    ensures (crc ^ ((b as bv16) << 8)) << 8 == crc << 8
    ensures (crc ^ ((b as bv16) << 8)) >> 8 == Mix(crc, b)
  {
  }

  /** Feeding a byte bit by bit is one turn of the fast loop. */
  lemma FeedIsTurn(crc: bv16, b: Byte)
    ensures Feed(crc, b) == Turn(crc, b)
  {
    Shift8IsJoin(crc ^ ((b as bv16) << 8));
    ByteGoesOnTop(crc, b);
  }

  lemma RegisterNext(bs: seq<Byte>, next: Byte)
    ensures Register(bs + [next]) == Turn(Register(bs), next)
  {
    assert (bs + [next])[..|bs|] == bs;
    FeedIsTurn(Register(bs), next);
  }

  lemma TurnIs(was: bv16, b: Byte, mixed: bv16, x: bv16, crc: bv16)
    requires mixed == (was >> 8) ^ (b as bv16)
    requires x == mixed ^ (mixed >> 4)
    requires crc == (was << 8) ^ (x << 12) ^ (x << 5) ^ x
    ensures crc == Turn(was, b)
  {
    MixIs(was, b, mixed);
    FoldIs(mixed, x);
    JoinIs(was << 8, x, crc);
  }

  lemma TurnGoesOn(bs: seq<Byte>, i: nat, was: bv16, crc: bv16)
    requires i < |bs| && was == Register(bs[..i]) && crc == Turn(was, bs[i])
    ensures crc == Register(bs[..i + 1])
  {
    RegisterNext(bs[..i], bs[i]);
    assert bs[..i + 1] == bs[..i] + [bs[i]];
  }

  /** crc16, a byte at a time, computes the checksum. */
  method Crc16(bs: seq<Byte>) returns (crc: bv16)
    ensures crc == Register(bs)
  {
    var x: bv16;
    crc := 0xFFFF;
    for i := 0 to |bs|
      invariant crc == Register(bs[..i])
    {
      ghost var was := crc;
      x := (crc >> 8) ^ (bs[i] as bv16);
      ghost var mixed := x;
      x := x ^ (x >> 4);
      crc := (crc << 8) ^ (x << 12) ^ (x << 5) ^ x;
      TurnIs(was, bs[i], mixed, x, crc);
      TurnGoesOn(bs, i, was, crc);
    }
    assert bs[..|bs|] == bs;
  }

  // ---------------------------------------------------------------------------
  // What the checksum tells apart.

  function High(w: bv16): Byte {
    (w >> 8) as Byte
  }

  function Low(w: bv16): Byte {
    (w & 0xFF) as Byte
  }

  function Word(high: Byte, low: Byte): bv16 {
    ((high as bv16) << 8) | (low as bv16)
  }

  lemma WordOfHalves(w: bv16)
    ensures Word(High(w), Low(w)) == w
  {
  }

  lemma HalvesAre(w: bv16)
    ensures High(w) as bv16 == w >> 8 && Low(w) as bv16 == w & 0xFF
  {
  }

  lemma LowOfJoin(crc: bv16, y: bv16, f: bv16)
    requires f == Join(crc << 8, y)
    ensures f & 0xFF == ((y << 5) ^ y) & 0xFF
  {
  }

  lemma LowTells(y: bv16, z: bv16)
    requires y < 0x100 && z < 0x100 && ((y << 5) ^ y) & 0xFF == ((z << 5) ^ z) & 0xFF
    ensures y == z
  {
  }

  lemma FoldTells(x: bv16, y: bv16)
    requires x < 0x100 && y < 0x100 && Fold(x) == Fold(y)
    ensures x == y
  {
  }

  lemma JoinTells(p: bv16, q: bv16, y: bv16)
    requires Join(p, y) == Join(q, y)
    ensures p == q
  {
  }

  lemma HalvesTell(a: bv16, b: bv16, x: Byte)
    requires a << 8 == b << 8 && Mix(a, x) == Mix(b, x)
    ensures a == b
  {
  }

  lemma MixIsByte(a: bv16, x: Byte)
    ensures Mix(a, x) < 0x100 && Fold(Mix(a, x)) < 0x100
  {
  }

  lemma MixTells(a: bv16, x: Byte, y: Byte)
    requires Mix(a, x) == Mix(a, y)
    ensures x == y
  {
  }

  lemma SameLowByte(a: bv16, b: bv16)
    ensures a << 8 == b << 8 <==> a & 0xFF == b & 0xFF
  {
  }

  /** The low byte of a turned register tells what was folded into it. */
  lemma LowTellsFolded(a: bv16, b: bv16, p: bv16, q: bv16, y: bv16, z: bv16, f: bv16, g: bv16)
    requires y == Fold(p) && z == Fold(q) && p < 0x100 && q < 0x100 && y < 0x100 && z < 0x100
    requires f == Join(a << 8, y) && g == Join(b << 8, z) && f & 0xFF == g & 0xFF
    ensures p == q && y == z
  {
    LowOfJoin(a, y, f);
    LowOfJoin(b, z, g);
    LowTells(y, z);
    FoldTells(p, q);
  }

  lemma JoinTellsHalves(a: bv16, b: bv16, p: bv16, q: bv16, y: bv16, z: bv16, f: bv16)
    requires y == Fold(p) && z == Fold(q) && p < 0x100 && q < 0x100 && y < 0x100 && z < 0x100
    requires f == Join(a << 8, y) && f == Join(b << 8, z)
    ensures p == q && a << 8 == b << 8
  {
    LowTellsFolded(a, b, p, q, y, z, f, f);
    JoinTells(a << 8, b << 8, y);
  }

  /** A turn tells the low half of the register, and the byte mixed with the high half. */
  lemma TurnTellsHalves(a: bv16, b: bv16, x: Byte, y: Byte)
    requires Turn(a, x) == Turn(b, y)
    ensures a << 8 == b << 8 && Mix(a, x) == Mix(b, y)
  {
    MixIsByte(a, x);
    MixIsByte(b, y);
    JoinTellsHalves(a, b, Mix(a, x), Mix(b, y), Fold(Mix(a, x)), Fold(Mix(b, y)), Turn(a, x));
  }

  lemma TurnTellsRegisters(a: bv16, b: bv16, x: Byte)
    requires Turn(a, x) == Turn(b, x)
    ensures a == b
  {
    TurnTellsHalves(a, b, x, x);
    HalvesTell(a, b, x);
  }

  lemma TwoTurnsTellPairs(r: bv16, b0: Byte, b1: Byte, c0: Byte, c1: Byte)
    requires Turn(Turn(r, b0), b1) == Turn(Turn(r, c0), c1)
    ensures b0 == c0 && b1 == c1
  {
    var f, g := Turn(r, b0), Turn(r, c0);
    TurnTellsHalves(f, g, b1, c1);
    SameLowByte(f, g);
    MixIsByte(r, b0);
    MixIsByte(r, c0);
    LowTellsFolded(r, r, Mix(r, b0), Mix(r, c0), Fold(Mix(r, b0)), Fold(Mix(r, c0)), f, g);
    MixTells(r, b0, c0);
    MixTells(f, b1, c1);
  }

  // Three neighbouring bytes.

  lemma LastByteDiffers(f: bv16, g: bv16, y: bv16, one: bv16, other: bv16, b: Byte, c: Byte)
    requires one == Join(f << 8, y)
    requires other == Join(g << 8, y)
    requires Mix(one, b) == Mix(other, c)
    ensures b ^ c == Low(f) ^ Low(g)
  {
  }

  /** If two registers meet after two more bytes, the last bytes differ by the low halves the
      registers had. */
  lemma MeetingTellsLast(f: bv16, g: bv16, b1: Byte, b2: Byte, c1: Byte, c2: Byte)
    requires Turn(Turn(f, b1), b2) == Turn(Turn(g, c1), c2)
    ensures b2 ^ c2 == Low(f) ^ Low(g)
  {
    var one, other := Turn(f, b1), Turn(g, c1);
    TurnTellsHalves(one, other, b2, c2);
    SameLowByte(one, other);
    MixIsByte(f, b1);
    MixIsByte(g, c1);
    LowTellsFolded(f, g, Mix(f, b1), Mix(g, c1), Fold(Mix(f, b1)), Fold(Mix(g, c1)), one, other);
    LastByteDiffers(f, g, Fold(Mix(f, b1)), one, other, b2, c2);
  }

  /** Three neighbouring bytes differ within sixteen bits in a row: in the low bits of the
      first, which are the ones of `mask`, in the second, and in the other bits of the
      third. */
  predicate WithinSixteenBits(d0: Byte, d2: Byte, mask: Byte) {
    mask & (mask + 1) == 0 && d0 & mask == d0 && d2 & mask == 0
  }

  lemma LowBitsTell(p: bv16, q: bv16, y: bv16, z: bv16, l: bv16, m: bv16, mask: bv16)
    requires p < 0x100 && q < 0x100 && mask < 0x100 && mask & (mask + 1) == 0
    requires y == Fold(p) && z == Fold(q) && l == ((y << 5) ^ y) & 0xFF && m == ((z << 5) ^ z) & 0xFF
    requires (p ^ q) & mask == p ^ q && (l ^ m) & mask == 0
    ensures p == q
  {
  }

  lemma WideMask(r: bv16, b: Byte, c: Byte, mask: Byte, wide: bv16, p: bv16, q: bv16)
    requires mask & (mask + 1) == 0 && (b ^ c) & mask == b ^ c && wide == mask as bv16
    requires p == Mix(r, b) && q == Mix(r, c)
    ensures wide < 0x100 && wide & (wide + 1) == 0 && (p ^ q) & wide == p ^ q
  {
  }

  lemma WideLow(f: bv16, g: bv16, mask: Byte, wide: bv16, l: bv16, m: bv16)
    requires (Low(f) ^ Low(g)) & mask == 0 && wide == mask as bv16
    requires l == f & 0xFF && m == g & 0xFF
    ensures (l ^ m) & wide == 0
  {
  }

  lemma LowsTell(r: bv16, p: bv16, q: bv16, y: bv16, z: bv16, f: bv16, g: bv16, l: bv16, m: bv16, mask: bv16)
    requires y == Fold(p) && z == Fold(q) && p < 0x100 && q < 0x100 && mask < 0x100 && mask & (mask + 1) == 0
    requires f == Join(r << 8, y) && g == Join(r << 8, z) && l == f & 0xFF && m == g & 0xFF
    requires (p ^ q) & mask == p ^ q && (l ^ m) & mask == 0
    ensures p == q
  {
    LowOfJoin(r, y, f);
    LowOfJoin(r, z, g);
    LowBitsTell(p, q, y, z, l, m, mask);
  }

  lemma MixesTell(r: bv16, b: Byte, c: Byte, mask: Byte, wide: bv16, p: bv16, q: bv16, y: bv16, z: bv16,
                  f: bv16, g: bv16, l: bv16, m: bv16)
    requires WithinSixteenBits(b ^ c, Low(f) ^ Low(g), mask) && wide == mask as bv16
    requires p == Mix(r, b) && q == Mix(r, c) && p < 0x100 && q < 0x100 && y == Fold(p) && z == Fold(q)
    requires f == Join(r << 8, y) && g == Join(r << 8, z) && l == f & 0xFF && m == g & 0xFF
    ensures p == q
  {
    WideMask(r, b, c, mask, wide, p, q);
    WideLow(f, g, mask, wide, l, m);
    LowsTell(r, p, q, y, z, f, g, l, m, wide);
  }

  /** A first byte that differs in low bits only shows in these bits of the register. */
  lemma FirstByteShowsLow(r: bv16, b: Byte, c: Byte, mask: Byte)
    requires WithinSixteenBits(b ^ c, Low(Turn(r, b)) ^ Low(Turn(r, c)), mask)
    ensures b == c
  {
    var p, q, f, g := Mix(r, b), Mix(r, c), Turn(r, b), Turn(r, c);
    MixIsByte(r, b);
    MixIsByte(r, c);
    MixesTell(r, b, c, mask, mask as bv16, p, q, Fold(p), Fold(q), f, g, f & 0xFF, g & 0xFF);
    MixTells(r, b, c);
  }

  lemma ThreeTurnsTell(r: bv16, b0: Byte, b1: Byte, b2: Byte, c0: Byte, c1: Byte, c2: Byte, mask: Byte)
    requires WithinSixteenBits(b0 ^ c0, b2 ^ c2, mask)
    requires Turn(Turn(Turn(r, b0), b1), b2) == Turn(Turn(Turn(r, c0), c1), c2)
    ensures b0 == c0 && b1 == c1 && b2 == c2
  {
    MeetingTellsLast(Turn(r, b0), Turn(r, c0), b1, b2, c1, c2);
    FirstByteShowsLow(r, b0, c0, mask);
    TwoTurnsTellPairs(Turn(r, b0), b1, b2, c1, c2);
  }

  lemma RegisterOfTail(a: seq<Byte>, tail: seq<Byte>)
    requires tail != []
    ensures var n := |tail| - 1; Register(a + tail) == Turn(Register(a + tail[..n]), tail[n])
  {
    var n := |tail| - 1;
    RegisterNext(a + tail[..n], tail[n]);
    assert a + tail == (a + tail[..n]) + [tail[n]];
  }

  lemma {:induction false} TailKeepsApart(a: seq<Byte>, b: seq<Byte>, tail: seq<Byte>)
    requires Register(a) != Register(b)
    ensures Register(a + tail) != Register(b + tail)
  {
    if tail == [] {
      assert a + tail == a && b + tail == b;
    } else {
      var n := |tail| - 1;
      TailKeepsApart(a, b, tail[..n]);
      RegisterOfTail(a, tail);
      RegisterOfTail(b, tail);
      if Register(a + tail) == Register(b + tail) {
        TurnTellsRegisters(Register(a + tail[..n]), Register(b + tail[..n]), tail[n]);
      }
    }
  }

  /** Strings that differ in two neighbouring bytes only have different checksums. */
  lemma TwoBytesShow(a: seq<Byte>, b0: Byte, b1: Byte, c0: Byte, c1: Byte, tail: seq<Byte>)
    requires b0 != c0 || b1 != c1
    ensures Register(a + [b0] + [b1] + tail) != Register(a + [c0] + [c1] + tail)
  {
    RegisterNext(a, b0);
    RegisterNext(a, c0);
    RegisterNext(a + [b0], b1);
    RegisterNext(a + [c0], c1);
    if Register(a + [b0] + [b1]) == Register(a + [c0] + [c1]) {
      TwoTurnsTellPairs(Register(a), b0, b1, c0, c1);
    }
    TailKeepsApart(a + [b0] + [b1], a + [c0] + [c1], tail);
  }

  lemma ThreeMore(a: seq<Byte>, b0: Byte, b1: Byte, b2: Byte)
    ensures Register(a + [b0] + [b1] + [b2]) == Turn(Turn(Turn(Register(a), b0), b1), b2)
  {
    RegisterNext(a, b0);
    RegisterNext(a + [b0], b1);
    RegisterNext(a + [b0] + [b1], b2);
  }

  /** Every difference within sixteen bits in a row shows, wherever in its byte it starts. */
  lemma BurstsShow(a: seq<Byte>, b0: Byte, b1: Byte, b2: Byte, c0: Byte, c1: Byte, c2: Byte, mask: Byte,
                   tail: seq<Byte>)
    requires WithinSixteenBits(b0 ^ c0, b2 ^ c2, mask) && (b0 != c0 || b1 != c1 || b2 != c2)
    ensures Register(a + [b0] + [b1] + [b2] + tail) != Register(a + [c0] + [c1] + [c2] + tail)
  {
    ThreeMore(a, b0, b1, b2);
    ThreeMore(a, c0, c1, c2);
    if Register(a + [b0] + [b1] + [b2]) == Register(a + [c0] + [c1] + [c2]) {
      ThreeTurnsTell(Register(a), b0, b1, b2, c0, c1, c2, mask);
    }
    TailKeepsApart(a + [b0] + [b1] + [b2], a + [c0] + [c1] + [c2], tail);
  }

  lemma ByteInTheMiddleShows(a: seq<Byte>, b: Byte, c: Byte, tail: seq<Byte>)
    requires b != c
    ensures Register(a + [b] + tail) != Register(a + [c] + tail)
  {
    RegisterNext(a, b);
    RegisterNext(a, c);
    if Register(a + [b]) == Register(a + [c]) {
      TurnTellsHalves(Register(a), Register(a), b, c);
      MixTells(Register(a), b, c);
    }
    TailKeepsApart(a + [b], a + [c], tail);
  }

  /** Strings of equal length that differ in exactly one byte have different checksums. */
  lemma OneByteShows(a: seq<Byte>, b: seq<Byte>, i: nat)
    requires |a| == |b| && i < |a| && a[i] != b[i]
    requires forall k | 0 <= k < |a| && k != i :: a[k] == b[k]
    ensures Register(a) != Register(b)
  {
    var start, tail := a[..i], a[i + 1..];
    ByteInTheMiddleShows(start, a[i], b[i], tail);
    assert a == start + [a[i]] + tail && b == start + [b[i]] + tail;
  }

  // ---------------------------------------------------------------------------
  // The address that carries a checksum and a port.

  /** The four bytes of an IPv4 address, also when it is written as an IPv6 one. */
  function To4(ip: seq<Byte>): (r: Option<seq<Byte>>)
    ensures r.Some? ==> |r.value| == 4
  {
    if |ip| == 4 then Some(ip)
    else if |ip| == 16 && (forall k | 0 <= k < 10 :: ip[k] == 0) && ip[10] == 0xFF && ip[11] == 0xFF then Some(ip[12..])
    else None
  }

  /** An IPv4 address is held as its four bytes, or as these after ten zeros and two ones'
      bytes; nothing else is one. */
  lemma To4Iff(ip: seq<Byte>, v4: seq<Byte>)
    ensures To4(ip) == Some(v4)
      <==> |v4| == 4 && (ip == v4 || ip == [0, 0, 0, 0, 0, 0, 0, 0, 0, 0, 0xFF, 0xFF] + v4)
  {
    var mapped: seq<Byte> := [0, 0, 0, 0, 0, 0, 0, 0, 0, 0, 0xFF, 0xFF] + v4;
    if To4(ip) == Some(v4) && |ip| == 16 {
      assert forall k | 0 <= k < 16 :: ip[k] == mapped[k];
    }
    if |v4| == 4 && ip == mapped {
      assert ip[12..] == v4;
    }
  }

  /** What a fake address says of an address: the checksum of its IPv4 form, and of nothing
      if it has none. */
  function Checksum(ip: seq<Byte>): bv16 {
    if To4(ip).Some? then Register(To4(ip).value) else INITIAL
  }

  function FakeIP(ip: seq<Byte>, port: bv16): seq<Byte> {
    [High(Checksum(ip)), Low(Checksum(ip)), High(port), Low(port)]
  }

  /** getNonStdIP: the checksum of the address, if it is an IPv4 one, and the port. */
  method GetNonStdIP(ip: seq<Byte>, port: bv16) returns (fake: seq<Byte>)
    ensures fake == FakeIP(ip, port)
    ensures Word(fake[0], fake[1]) == if To4(ip).Some? then Register(To4(ip).value) else INITIAL
    ensures Word(fake[2], fake[3]) == port
    ensures fake[2] as bv16 == port >> 8 && fake[3] as bv16 == port & 0xFF
  {
    HalvesAre(port);
    var v4 := To4(ip);
    var crc := Crc16(if v4.Some? then v4.value else []);
    WordOfHalves(crc);
    WordOfHalves(port);
    fake := [High(crc), Low(crc), High(port), Low(port)];
  }

  /** Two addresses on one port share a fake address exactly if their checksums agree; on
      different ports they never do. */
  lemma FakesAgreeIff(ip: seq<Byte>, jp: seq<Byte>, port: bv16, other: bv16)
    ensures FakeIP(ip, port) == FakeIP(jp, other) <==> Checksum(ip) == Checksum(jp) && port == other
  {
    WordOfHalves(Checksum(ip));
    WordOfHalves(Checksum(jp));
    WordOfHalves(port);
    WordOfHalves(other);
    var f, g := FakeIP(ip, port), FakeIP(jp, other);
    assert Word(f[0], f[1]) == Checksum(ip) && Word(g[0], g[1]) == Checksum(jp);
    assert Word(f[2], f[3]) == port && Word(g[2], g[3]) == other;
  }

  /** Within a network of 65536 IPv4 addresses the fake address tells them all apart. */
  lemma NeighboursHaveTheirOwnFakes(ip: seq<Byte>, jp: seq<Byte>, port: bv16)
    requires To4(ip).Some? && To4(jp).Some? && To4(ip).value[..2] == To4(jp).value[..2]
    ensures FakeIP(ip, port) == FakeIP(jp, port) <==> To4(ip) == To4(jp)
  {
    FakesAgreeIff(ip, jp, port, port);
    var a, b := To4(ip).value, To4(jp).value;
    assert a == a[..2] + [a[2]] + [a[3]] + [] && b == a[..2] + [b[2]] + [b[3]] + [];
    if a[2] != b[2] || a[3] != b[3] {
      TwoBytesShow(a[..2], a[2], a[3], b[2], b[3], []);
    }
  }

  /** Across networks it need not: 10.0.0.1 and 10.1.16.32 share theirs on every port. */
  lemma NetworksShareFakes(port: bv16)
    ensures FakeIP([10, 0, 0, 1], port) == FakeIP([10, 1, 16, 32], port)
  {
    FirstNetwork();
    SecondNetwork();
  }

  lemma OneTurnOn(bs: seq<Byte>, was: bv16, next: Byte, crc: bv16, longer: seq<Byte>)
    requires Register(bs) == was && Turn(was, next) == crc && longer == bs + [next]
    ensures Register(longer) == crc
  {
    RegisterNext(bs, next);
  }

  lemma FirstNetwork()
    ensures Register([10, 0, 0, 1]) == 0xFC4A
  {
    OneTurnOn([], 0xFFFF, 10, 0x40BA, [10]);
    OneTurnOn([10], 0x40BA, 0, 0xF2C4, [10, 0]);
    OneTurnOn([10, 0], 0xF2C4, 0, 0x0B5D, [10, 0, 0]);
    OneTurnOn([10, 0, 0], 0x0B5D, 1, 0xFC4A, [10, 0, 0, 1]);
  }

  lemma SecondNetwork()
    ensures Register([10, 1, 16, 32]) == 0xFC4A
  {
    OneTurnOn([], 0xFFFF, 10, 0x40BA, [10]);
    OneTurnOn([10], 0x40BA, 1, 0xE2E5, [10, 1]);
    OneTurnOn([10, 1], 0xE2E5, 16, 0x2A5D, [10, 1, 16]);
    OneTurnOn([10, 1, 16], 0x2A5D, 32, 0xFC4A, [10, 1, 16, 32]);
  }

  /** An IPv6 address shares its fake address with every other one on its port, and with an
      IPv4 address exactly if that one's checksum is the one of nothing. */
  lemma Ipv6AddressesShareAFake(ip: seq<Byte>, jp: seq<Byte>, port: bv16)
    requires To4(ip).None?
    ensures FakeIP(ip, port) == FakeIP(jp, port) <==> To4(jp).None? || Register(To4(jp).value) == INITIAL
  {
    FakesAgreeIff(ip, jp, port, port);
  }

  /** 2001:db8::1 and 2001:db8::2. */
  lemma TwoIpv6Addresses(port: bv16)
    ensures var ip: seq<Byte> := [0x20, 1, 0xD, 0xB8, 0, 0, 0, 0, 0, 0, 0, 0, 0, 0, 0, 1];
      var jp := ip[15 := 2];
      ip != jp && To4(ip).None? && To4(jp).None? && FakeIP(ip, port) == FakeIP(jp, port)
  {
    var ip: seq<Byte> := [0x20, 1, 0xD, 0xB8, 0, 0, 0, 0, 0, 0, 0, 0, 0, 0, 0, 1];
    var jp := ip[15 := 2];
    assert ip[15] != jp[15] && ip[0] != 0 && jp[0] != 0;
    Ipv6AddressesShareAFake(ip, jp, port);
  }
}
