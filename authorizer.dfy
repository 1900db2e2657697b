/**
 * The Lambda authorizer: the allow-list of IPv4 networks read from
 * `ALLOWED_IP_RANGES`, membership of an address in it, and the
 * authorisation decision for a request.
 *
 * Addresses and networks are parsed as Python's `ipaddress` parses them:
 * four dot-separated decimal octets of one to three ASCII digits, no leading
 * zero, at most 255; a network is an address, optionally followed by `/`
 * and a prefix length (ASCII digits, leading zeros allowed, at most 32) or
 * a dotted netmask or hostmask; a network with host bits set is refused.
 * Membership is `address & netmask == network address` (section 3.1 of
 * RFC 4632).
 */
module Authorizer {
  import opened Wrappers
  import opened Text

  /** An IPv4 address as the integer `int(IPv4Address(...))`. */
  type Address = a: nat | a < 0x1_0000_0000

  /** One octet: `_parse_octet`. */
  predicate IsOctet(o: string)
  {
    1 <= |o| <= 3 && AllDigits(o) && (o == "0" || o[0] != '0') && DigitsValue(o) <= 255
  }

  predicate AllOctets(octets: seq<string>)
  {
    octets == [] || (AllOctets(octets[..|octets| - 1]) && IsOctet(octets[|octets| - 1]))
  }

  function Pow256(n: nat): (r: nat)
    ensures r >= 1
  {
    if n == 0 then 1 else 256 * Pow256(n - 1)
  }

  /** The number the octets denote, most significant first (`_ip_int_from_string`). */
  function OctetsValue(octets: seq<string>): (v: nat)
    requires AllOctets(octets)
    ensures v < Pow256(|octets|)
  {
    if octets == [] then 0
    else 256 * OctetsValue(octets[..|octets| - 1]) + DigitsValue(octets[|octets| - 1])
  }

  /** `IPv4Address(s)`: `None` where the constructor raises `AddressValueError`. */
  function ParseIPv4(s: string): (a: Option<Address>)
  {
    var octets := Split(s, '.');
    if |octets| == 4 && AllOctets(octets) then
      assert Pow256(4) == 0x1_0000_0000;
      Some(OctetsValue(octets))
    else None
  }

  // Bit operations on the 32-bit integer, as `ipaddress` performs them.

  /** `x >> k`. */
  function Shr(x: nat, k: nat): (r: nat)
    ensures r <= x
  {
    if k == 0 then x else Shr(x / 2, k - 1)
  }

  /** The low `k` bits of `x` are all zero. */
  predicate LowBitsClear(x: nat, k: nat)
  {
    k == 0 || (x % 2 == 0 && LowBitsClear(x / 2, k - 1))
  }

  /** `_count_righthand_zero_bits(x, bits)`: trailing zero bits, at most `bits`. */
  function TrailingZeros(x: nat, bits: nat): (r: nat)
    ensures r <= bits
    ensures r < bits ==> !LowBitsClear(x, r + 1)
  {
    if bits == 0 || x % 2 == 1 then 0 else 1 + TrailingZeros(x / 2, bits - 1)
  }

  /** `x == (1 << n) - 1`. */
  predicate AllOnes(x: nat, n: nat)
  {
    if n == 0 then x == 0 else x % 2 == 1 && AllOnes(x / 2, n - 1)
  }

  /**
   * `_prefix_from_ip_int`: the prefix length of a netmask, `None` where the
   * integer is not ones followed by zeros.
   */
  function PrefixFromInt(x: Address): (p: Option<nat>)
    ensures p.Some? ==> p.value <= 32
  {
    var zeros := TrailingZeros(x, 32);
    if AllOnes(Shr(x, zeros), 32 - zeros) then Some(32 - zeros) else None
  }

  /** `x ^ 0xFFFFFFFF`, which turns a hostmask into a netmask. */
  function Invert(x: Address): Address
  {
    0xFFFF_FFFF - x
  }

  /**
   * `_make_netmask` for the text after `/`: a prefix length of ASCII digits
   * up to 32; failing that, a dotted netmask; failing that, a dotted hostmask.
   */
  function ParsePrefix(m: string): (p: Option<nat>)
    ensures p.Some? ==> p.value <= 32
  {
    if |m| >= 1 && AllDigits(m) && DigitsValue(m) <= 32 then Some(DigitsValue(m))
    else
      match ParseIPv4(m)
      case None => None
      case Some(x) =>
        match PrefixFromInt(x)
        case Some(p) => Some(p)
        case None => PrefixFromInt(Invert(x))
  }

  /** An address and a prefix length, as written after `/`. */
  datatype Cidr = Cidr(address: Address, prefix: nat)

  /** No host bits set: `address & netmask == address`. */
  predicate ValidNetwork(c: Cidr)
  {
    c.prefix <= 32 && LowBitsClear(c.address, 32 - c.prefix)
  }

  /** What `IPv4Network` accepts in strict mode. */
  type Network = c: Cidr | ValidNetwork(c) witness Cidr(0, 32)

  /** `IPv4Network(s)` with `strict=True`: `None` where the constructor raises. */
  function ParseNetwork(s: string): Option<Network>
  {
    var parts := Split(s, '/');
    if |parts| > 2 then None
    else
      match ParseIPv4(parts[0])
      case None => None
      case Some(a) =>
        var prefix := if |parts| == 1 then Some(32) else ParsePrefix(parts[1]);
        if prefix.None? || !LowBitsClear(a, 32 - prefix.value) then None
        else Some(Cidr(a, prefix.value))
  }

  /**
   * `ip_addr in network`: `address & netmask == network address`. The
   * network's own host bits are clear, so this says the two agree on the
   * `prefix` high bits.
   */
  predicate Contains(n: Network, a: Address)
  {
    Shr(a, 32 - n.prefix) == Shr(n.address, 32 - n.prefix)
  }

  /** The whole address space. */
  function AllNetwork(): Network
  {
    LowBitsClearZero(32);
    Cidr(0, 0)
  }

  const AllowAll := "0.0.0.0/0"

  /** One comma-separated piece, trimmed and parsed. */
  function ParseCidr(piece: string): Option<Network>
  {
    ParseNetwork(StripSpace(piece))
  }

  /** Whitespace around a piece is ignored: `" 10.0.0.0/8 "` parses as `"10.0.0.0/8"`. */
  lemma ParseCidrIgnoresSpace(pre: string, piece: string, post: string)
    requires forall k :: 0 <= k < |pre| ==> IsSpace(pre[k])
    requires forall k :: 0 <= k < |post| ==> IsSpace(post[k])
    requires piece == [] || (!IsSpace(piece[0]) && !IsSpace(piece[|piece| - 1]))
    ensures ParseCidr(pre + piece + post) == ParseNetwork(piece)
  {
    StripSpaceCore(pre, piece, post);
  }

  /** The results `parse` gives for the pieces, without the failures, in order. */
  function KeepParsed(pieces: seq<string>, parse: string -> Option<Network>): (ns: seq<Network>)
    ensures |ns| <= |pieces|
  {
    if pieces == [] then []
    else
      var last := parse(pieces[|pieces| - 1]);
      KeepParsed(pieces[..|pieces| - 1], parse) + (if last.Some? then [last.value] else [])
  }

  /** One more piece: its result is appended when it parses. */
  lemma KeepParsedStep(pieces: seq<string>, i: nat, parse: string -> Option<Network>)
    requires i < |pieces|
    ensures KeepParsed(pieces[..i + 1], parse) ==
            KeepParsed(pieces[..i], parse) + (if parse(pieces[i]).Some? then [parse(pieces[i]).value] else [])
  {
    assert pieces[..i + 1][..i] == pieces[..i];
  }

  /** `get_allowed_ip_ranges` for the value of `ALLOWED_IP_RANGES` (absent: `0.0.0.0/0`). */
  function AllowedIpRanges(setting: Option<string>): seq<Network>
  {
    var s := if setting.Some? then setting.value else AllowAll;
    if s == AllowAll then [AllNetwork()] else KeepParsed(Split(s, ','), ParseCidr)
  }

  /**
   * The loop of `get_allowed_ip_ranges`: split on `,`, trim each piece, keep
   * the networks that parse, in order, and drop the others.
   */
  method GetAllowedIpRanges(setting: Option<string>) returns (ranges: seq<Network>)
    ensures ranges == AllowedIpRanges(setting)
  {
    var s := if setting.Some? then setting.value else AllowAll;
    if s == AllowAll {
      return [AllNetwork()];
    }
    ranges := [];
    var pieces := Split(s, ',');
    for i := 0 to |pieces|
      invariant ranges == KeepParsed(pieces[..i], ParseCidr)
    {
      KeepParsedStep(pieces, i, ParseCidr);
      var cidr := StripSpace(pieces[i]);
      var network := ParseNetwork(cidr);
      assert network == ParseCidr(pieces[i]);
      if network.Some? {
        ranges := ranges + [network.value];
      }
    }
    assert pieces[..|pieces|] == pieces;
  }

  /** Whether some network of `ranges` contains `a`: the loop of `is_ip_allowed`. */
  function AnyContains(ranges: seq<Network>, a: Address): bool
  {
    if ranges == [] then false
    else Contains(ranges[0], a) || AnyContains(ranges[1..], a)
  }

  /** `is_ip_allowed`: false for a string that is not an IPv4 address. */
  function IsIpAllowed(sourceIp: string, ranges: seq<Network>): bool
  {
    match ParseIPv4(sourceIp)
    case None => false
    case Some(a) => AnyContains(ranges, a)
  }

  /** Allowed exactly when the string is an address and some network of the list contains it. */
  lemma {:induction false} IsIpAllowedIff(sourceIp: string, ranges: seq<Network>)
    ensures IsIpAllowed(sourceIp, ranges) <==>
              ParseIPv4(sourceIp).Some? && exists i :: 0 <= i < |ranges| && Contains(ranges[i], ParseIPv4(sourceIp).value)
  {
    if ParseIPv4(sourceIp).Some? {
      AnyContainsIff(ranges, ParseIPv4(sourceIp).value);
    }
  }

  lemma {:induction false} AnyContainsIff(ranges: seq<Network>, a: Address)
    ensures AnyContains(ranges, a) <==> exists i :: 0 <= i < |ranges| && Contains(ranges[i], a)
  {
    if ranges != [] {
      AnyContainsIff(ranges[1..], a);
      if exists i :: 0 <= i < |ranges| && Contains(ranges[i], a) {
        var i :| 0 <= i < |ranges| && Contains(ranges[i], a);
        if i > 0 {
          assert Contains(ranges[1..][i - 1], a);
        }
      }
      if AnyContains(ranges[1..], a) {
        var i :| 0 <= i < |ranges[1..]| && Contains(ranges[1..][i], a);
        assert Contains(ranges[i + 1], a);
      }
    }
  }

  /** An empty allow-list lets nothing in. */
  lemma EmptyListAllowsNothing(sourceIp: string)
    ensures !IsIpAllowed(sourceIp, [])
  {
  }

  function Pow2(k: nat): (r: nat)
    ensures r >= 1
  {
    if k == 0 then 1 else 2 * Pow2(k - 1)
  }

  lemma {:induction false} Pow2Add(j: nat, k: nat)
    ensures Pow2(j + k) == Pow2(j) * Pow2(k)
  {
    if k > 0 {
      Pow2Add(j, k - 1);
      assert Pow2(j + k) == 2 * Pow2(j + k - 1);
    }
  }

  lemma Pow2Of32()
    ensures Pow2(32) == 0x1_0000_0000
  {
    assert Pow2(8) == 256;
    Pow2Add(8, 8);
    Pow2Add(16, 16);
  }

  /** Shifting a number below `2^k` right by `k` leaves zero. */
  lemma {:induction false} ShrBelow(x: nat, k: nat)
    requires x < Pow2(k)
    ensures Shr(x, k) == 0
  {
    if k > 0 {
      ShrBelow(x / 2, k - 1);
    }
  }

  /** `m * (q + d)` is at least `m * q + m` when `d >= 1`. */
  lemma MulSplit(m: nat, q: nat, d: nat)
    requires d >= 1
    ensures m * (q + d) >= m * q + m
  {
    assert m * (q + d) == m * q + m * d;
    assert m * d == m + m * (d - 1);
  }

  /** `x >> k` is the quotient of `x` by `2^k`: the block of size `2^k` that holds `x`. */
  lemma {:induction false} ShrBounds(x: nat, k: nat)
    ensures Shr(x, k) * Pow2(k) <= x < Shr(x, k) * Pow2(k) + Pow2(k)
  {
    if k > 0 {
      ShrBounds(x / 2, k - 1);
      ShrBlockStep(x, k);
      HalfInBlock(x, Shr(x / 2, k - 1) * Pow2(k - 1), Pow2(k - 1));
      assert Pow2(k) == 2 * Pow2(k - 1);
    }
  }

  /** `x >> k == x // 2**k`, stated with division. */
  lemma ShrIsQuotient(x: nat, k: nat)
    ensures Shr(x, k) == x / Pow2(k)
  {
    ShrBounds(x, k);
    QuotientUnique(x, Pow2(k), Shr(x, k));
  }

  /** The quotient is the one `q` whose block of size `m` holds `x`. */
  lemma QuotientUnique(x: nat, m: nat, q: nat)
    requires m >= 1 && q * m <= x < q * m + m
    ensures x / m == q
  {
    var d := x / m;
    assert x == m * d + x % m && 0 <= x % m < m;
    assert q * m == m * q;
    if d > q {
      MulSplit(m, q, d - q);
    } else if d < q {
      MulSplit(m, d, q - d);
    }
  }

  /** The low `k` bits are clear exactly when `x` is a whole number of blocks of size `2^k`. */
  lemma {:induction false} LowBitsClearMultiple(x: nat, k: nat)
    ensures LowBitsClear(x, k) <==> x == Shr(x, k) * Pow2(k)
  {
    if k > 0 {
      LowBitsClearMultiple(x / 2, k - 1);
      ShrBlockStep(x, k);
      Halving(x, Shr(x / 2, k - 1) * Pow2(k - 1));
    }
  }

  /** One shift step: the block of size `2^k` is twice the block of `x / 2` of size `2^(k-1)`. */
  lemma ShrBlockStep(x: nat, k: nat)
    requires k > 0
    ensures Shr(x, k) * Pow2(k) == 2 * (Shr(x / 2, k - 1) * Pow2(k - 1))
  {
    var y, m := Shr(x / 2, k - 1), Pow2(k - 1);
    assert Pow2(k) == 2 * m;
    assert y * (2 * m) == 2 * (y * m);
  }

  /** When `x / 2` lies in the block of size `m` from `p`, `x` lies in the block of size `2 * m` from `2 * p`. */
  lemma HalfInBlock(x: nat, p: nat, m: nat)
    requires p <= x / 2 < p + m
    ensures 2 * p <= x < 2 * p + 2 * m
  {
  }

  /** `x` is twice `p` exactly when it is even and its half is `p`. */
  lemma Halving(x: nat, p: nat)
    ensures x == 2 * p <==> x % 2 == 0 && x / 2 == p
  {
  }

  /** `x == (1 << n) - 1`, arithmetically. */
  lemma {:induction false} AllOnesValue(x: nat, n: nat)
    ensures AllOnes(x, n) <==> x + 1 == Pow2(n)
  {
    if n > 0 {
      AllOnesValue(x / 2, n - 1);
    }
  }

  /** The size of the block of addresses a prefix length leaves to the host part. */
  function BlockSize(prefix: nat): nat
    requires prefix <= 32
  {
    Pow2(32 - prefix)
  }

  /**
   * A network contains exactly the addresses from its own address up to the
   * end of its block: the block of section 3.1 of RFC 4632.
   */
  lemma ContainsRange(n: Network, a: Address)
    ensures Contains(n, a) <==> n.address <= a < n.address + BlockSize(n.prefix)
  {
    var k := 32 - n.prefix;
    ShrBounds(a, k);
    LowBitsClearMultiple(n.address, k);
    SameBlock(n.address, a, Shr(n.address, k), Shr(a, k), Pow2(k));
  }

  /** Two numbers are in the same block of size `p` exactly when the second lies within the block the first starts. */
  lemma SameBlock(start: nat, a: nat, y: nat, z: nat, p: nat)
    requires p >= 1 && start == y * p && z * p <= a < z * p + p
    ensures z == y <==> start <= a < start + p
  {
    if start <= a < start + p {
      if z > y {
        MulSplit(p, y, z - y);
      } else if z < y {
        MulSplit(p, z, y - z);
      }
    }
  }

  /**
   * `_prefix_from_ip_int` accepts only a netmask: the integer it maps to
   * prefix length `p` has `p` one bits above `32 - p` zero bits.
   */
  lemma PrefixFromIntNetmask(x: Address)
    requires PrefixFromInt(x).Some?
    ensures x + BlockSize(PrefixFromInt(x).value) == 0x1_0000_0000
  {
    var zeros := TrailingZeros(x, 32);
    TrailingZerosClear(x, 32);
    LowBitsClearMultiple(x, zeros);
    AllOnesValue(Shr(x, zeros), 32 - zeros);
    Pow2Add(zeros, 32 - zeros);
    Pow2Of32();
    OnesThenZeros(x, Shr(x, zeros), Pow2(zeros), Pow2(32 - zeros));
  }

  /** `(q - 1) * p`, plus `p`, is `p * q`. */
  lemma OnesThenZeros(x: nat, y: nat, p: nat, q: nat)
    requires x == y * p && y + 1 == q
    ensures x + p == p * q
  {
    assert q * p == y * p + p;
  }

  /**
   * The text after `/` is accepted in three forms only: a prefix length in
   * digits, a netmask of that length, or the hostmask of that length.
   */
  lemma ParsePrefixForms(m: string)
    requires ParsePrefix(m).Some?
    ensures var p := ParsePrefix(m).value;
            || (|m| >= 1 && AllDigits(m) && DigitsValue(m) == p)
            || (ParseIPv4(m).Some? && ParseIPv4(m).value + BlockSize(p) == 0x1_0000_0000)
            || (ParseIPv4(m).Some? && ParseIPv4(m).value + 1 == BlockSize(p))
  {
    if !(|m| >= 1 && AllDigits(m) && DigitsValue(m) <= 32) {
      var x := ParseIPv4(m).value;
      if PrefixFromInt(x).Some? {
        PrefixFromIntNetmask(x);
      } else {
        PrefixFromIntNetmask(Invert(x));
      }
    }
  }

  /** The trailing zeros counted are zero bits. */
  lemma {:induction false} TrailingZerosClear(x: nat, bits: nat)
    ensures LowBitsClear(x, TrailingZeros(x, bits))
  {
    if bits > 0 && x % 2 == 0 {
      TrailingZerosClear(x / 2, bits - 1);
    }
  }

  /** `0.0.0.0/0` contains every address. */
  lemma AllNetworkContainsEverything(a: Address)
    ensures Contains(AllNetwork(), a)
  {
    Pow2Of32();
    ShrBelow(a, 32);
    ShrBelow(0, 32);
  }

  lemma {:induction false} LowBitsClearZero(k: nat)
    ensures LowBitsClear(0, k)
  {
    if k > 0 {
      LowBitsClearZero(k - 1);
    }
  }

  // ---------------------------------------------------------------------
  // The canonical spelling of an address
  // ---------------------------------------------------------------------

  function DigitChar(d: nat): (c: char)
    requires d < 10
    ensures IsDigit(c) && DigitValue(c) == d
  {
    ('0' as int + d) as char
  }

  /** `str(n)`: the decimal digits of `n`, without leading zeros. */
  function DecimalString(n: nat): (r: string)
    ensures 1 <= |r| && AllDigits(r)
  {
    if n < 10 then [DigitChar(n)] else DecimalString(n / 10) + [DigitChar(n % 10)]
  }

  /** The four octet spellings of an address, most significant first. */
  function OctetStrings(a: Address): (o: seq<string>)
    ensures |o| == 4
  {
    var q1 := a / 256;
    var q2 := q1 / 256;
    [DecimalString(q2 / 256), DecimalString(q2 % 256), DecimalString(q1 % 256), DecimalString(a % 256)]
  }

  /** `str(IPv4Address(a))`: the four octets in decimal joined by dots. */
  function FormatIPv4(a: Address): string
  {
    Join(OctetStrings(a), '.')
  }

  /** The decimal spelling reads back as the number; below 256 it is an accepted octet. */
  lemma {:induction false} DecimalStringValue(n: nat)
    ensures DigitsValue(DecimalString(n)) == n
    ensures |DecimalString(n)| == 1 || DecimalString(n)[0] != '0'
    ensures n < 10 ==> |DecimalString(n)| == 1
    ensures n < 100 ==> |DecimalString(n)| <= 2
    ensures n < 1000 ==> |DecimalString(n)| <= 3
  {
    var r := DecimalString(n);
    if n >= 10 {
      DecimalStringValue(n / 10);
      assert r[..|r| - 1] == DecimalString(n / 10);
    } else {
      assert r[..0] == [];
    }
  }

  lemma OctetSpelling(n: nat)
    requires n <= 255
    ensures IsOctet(DecimalString(n)) && DigitsValue(DecimalString(n)) == n && '.' !in DecimalString(n)
  {
    DecimalStringValue(n);
    var r := DecimalString(n);
    if |r| == 1 && r[0] == '0' {
      assert r == "0";
    }
  }

  /** A run of digits with a non-zero first digit denotes at least 1. */
  lemma {:induction false} LeadingDigitPositive(o: string)
    requires |o| >= 1 && AllDigits(o) && o[0] != '0'
    ensures DigitsValue(o) >= 1
  {
    if |o| > 1 {
      var init := o[..|o| - 1];
      assert init[0] == o[0];
      LeadingDigitPositive(init);
    } else {
      assert o[..0] == [];
    }
  }

  /** A digit run without a leading zero is the decimal spelling of its value. */
  lemma {:induction false} CanonicalDigits(o: string)
    requires |o| >= 1 && AllDigits(o) && (|o| == 1 || o[0] != '0')
    ensures DecimalString(DigitsValue(o)) == o
  {
    var n := DigitsValue(o);
    var last := o[|o| - 1];
    if |o| == 1 {
      assert o[..0] == [];
      assert n == DigitValue(last) && n < 10;
      assert DecimalString(n) == [DigitChar(n)];
      assert DigitChar(DigitValue(last)) == last;
    } else {
      var init := o[..|o| - 1];
      assert init[0] == o[0];
      LeadingDigitPositive(init);
      CanonicalDigits(init);
      assert n / 10 == DigitsValue(init) && n % 10 == DigitValue(last);
      assert DigitChar(DigitValue(last)) == last;
      assert o == init + [last];
    }
  }

  /** Four octets: accepted exactly when each is, and their value in base 256. */
  lemma FourOctets(o: seq<string>)
    requires |o| == 4
    ensures AllOctets(o) <==> IsOctet(o[0]) && IsOctet(o[1]) && IsOctet(o[2]) && IsOctet(o[3])
    ensures AllOctets(o) ==>
              OctetsValue(o) == ((DigitsValue(o[0]) * 256 + DigitsValue(o[1])) * 256 + DigitsValue(o[2])) * 256 + DigitsValue(o[3])
  {
    var o3, o2, o1 := o[..3], o[..2], o[..1];
    assert o3[..2] == o2 && o2[..1] == o1 && o1[..0] == [];
    assert o3[2] == o[2] && o2[1] == o[1] && o1[0] == o[0];
    if IsOctet(o[0]) && IsOctet(o[1]) && IsOctet(o[2]) && IsOctet(o[3]) {
      assert AllOctets(o1);
      assert AllOctets(o2);
      assert AllOctets(o3);
    }
    if AllOctets(o) {
      assert AllOctets(o3);
      assert AllOctets(o2);
      assert AllOctets(o1);
      assert OctetsValue(o1) == DigitsValue(o[0]);
      assert OctetsValue(o2) == DigitsValue(o[0]) * 256 + DigitsValue(o[1]);
      assert OctetsValue(o3) == (DigitsValue(o[0]) * 256 + DigitsValue(o[1])) * 256 + DigitsValue(o[2]);
    }
  }

  /** Base-256 digits below 256 are recovered by dividing by 256. */
  lemma BaseDigits(a: nat, v0: nat, v1: nat, v2: nat, v3: nat)
    requires v0 <= 255 && v1 <= 255 && v2 <= 255 && v3 <= 255
    requires a == ((v0 * 256 + v1) * 256 + v2) * 256 + v3
    ensures a % 256 == v3 && a / 256 % 256 == v2 && a / 256 / 256 % 256 == v1 && a / 256 / 256 / 256 == v0
  {
  }

  /** Dividing out base-256 digits and multiplying them back gives the number. */
  lemma Base256(a: nat)
    ensures var q1 := a / 256; var q2 := q1 / 256;
            ((q2 / 256 * 256 + q2 % 256) * 256 + q1 % 256) * 256 + a % 256 == a
  {
  }

  /** The spelling of an address splits at its dots into its four octets. */
  lemma FormatSplits(a: Address)
    ensures Split(FormatIPv4(a), '.') == OctetStrings(a)
  {
    var o := OctetStrings(a);
    OctetSpelling(a / 256 / 256 / 256);
    OctetSpelling(a / 256 / 256 % 256);
    OctetSpelling(a / 256 % 256);
    OctetSpelling(a % 256);
    assert forall i :: 0 <= i < |o| ==> '.' !in o[i];
    SplitJoin(o, '.');
  }

  /** The octets of an address are accepted and denote the address. */
  lemma OctetStringsValue(a: Address)
    ensures AllOctets(OctetStrings(a)) && OctetsValue(OctetStrings(a)) == a
  {
    var o := OctetStrings(a);
    OctetSpelling(a / 256 / 256 / 256);
    OctetSpelling(a / 256 / 256 % 256);
    OctetSpelling(a / 256 % 256);
    OctetSpelling(a % 256);
    FourOctets(o);
    Base256(a);
  }

  /** Parsing the canonical spelling of an address gives the address back. */
  lemma ParseFormat(a: Address)
    ensures ParseIPv4(FormatIPv4(a)) == Some(a)
  {
    FormatSplits(a);
    OctetStringsValue(a);
  }

  /** The number four accepted octets denote, in base 256. */
  lemma AcceptedValue(s: string)
    requires ParseIPv4(s).Some?
    ensures var o := Split(s, '.');
            |o| == 4 && IsOctet(o[0]) && IsOctet(o[1]) && IsOctet(o[2]) && IsOctet(o[3]) &&
            ParseIPv4(s).value == ((DigitsValue(o[0]) * 256 + DigitsValue(o[1])) * 256 + DigitsValue(o[2])) * 256 + DigitsValue(o[3])
  {
    FourOctets(Split(s, '.'));
  }

  /** An accepted address is written in exactly one way: its canonical spelling. */
  lemma FormatParse(s: string)
    requires ParseIPv4(s).Some?
    ensures FormatIPv4(ParseIPv4(s).value) == s
  {
    AcceptedValue(s);
    var o := Split(s, '.');
    var a := ParseIPv4(s).value;
    var v0, v1, v2, v3 := DigitsValue(o[0]), DigitsValue(o[1]), DigitsValue(o[2]), DigitsValue(o[3]);
    assert OctetStrings(a) == [DecimalString(v0), DecimalString(v1), DecimalString(v2), DecimalString(v3)] by {
      BaseDigits(a, v0, v1, v2, v3);
    }
    assert [DecimalString(v0), DecimalString(v1), DecimalString(v2), DecimalString(v3)] == o by {
      OctetIsCanonical(o[0]);
      OctetIsCanonical(o[1]);
      OctetIsCanonical(o[2]);
      OctetIsCanonical(o[3]);
    }
  }

  lemma OctetIsCanonical(o: string)
    requires IsOctet(o)
    ensures DecimalString(DigitsValue(o)) == o
  {
    CanonicalDigits(o);
  }

  /** With no setting, or the setting `0.0.0.0/0`, the list is the one network of all addresses. */
  lemma DefaultIsAllowAll()
    ensures AllowedIpRanges(None) == [AllNetwork()] && AllowedIpRanges(Some(AllowAll)) == [AllNetwork()]
  {
  }

  /** A network is kept exactly when some piece parses to it. */
  lemma {:induction false} KeepParsedMembers(pieces: seq<string>, parse: string -> Option<Network>, n: Network)
    ensures n in KeepParsed(pieces, parse) <==> exists i :: 0 <= i < |pieces| && parse(pieces[i]) == Some(n)
  {
    if pieces != [] {
      var k := |pieces| - 1;
      KeepParsedMembers(pieces[..k], parse, n);
      if exists i :: 0 <= i < |pieces| && parse(pieces[i]) == Some(n) {
        var i :| 0 <= i < |pieces| && parse(pieces[i]) == Some(n);
        if i < k {
          assert pieces[..k][i] == pieces[i];
        }
      }
      if n in KeepParsed(pieces[..k], parse) {
        var i :| 0 <= i < k && parse(pieces[..k][i]) == Some(n);
        assert pieces[i] == pieces[..k][i];
      }
    }
  }

  /** When every piece parses, the list holds the pieces' networks, one for one and in order. */
  lemma {:induction false} KeepParsedAll(pieces: seq<string>, parse: string -> Option<Network>)
    requires forall i :: 0 <= i < |pieces| ==> parse(pieces[i]).Some?
    ensures |KeepParsed(pieces, parse)| == |pieces|
    ensures forall i :: 0 <= i < |pieces| ==> KeepParsed(pieces, parse)[i] == parse(pieces[i]).value
  {
    if pieces != [] {
      var k := |pieces| - 1;
      assert forall i :: 0 <= i < k ==> pieces[..k][i] == pieces[i];
      KeepParsedAll(pieces[..k], parse);
    }
  }

  // ---------------------------------------------------------------------
  // The handler
  // ---------------------------------------------------------------------

  /** The parts of the API Gateway event the handler reads; a missing key is `None`. */
  datatype Http = Http(sourceIp: Option<string>)
  datatype RequestContext = RequestContext(http: Option<Http>)
  datatype Event = Event(requestContext: Option<RequestContext>)

  /** `event.get("requestContext", {}).get("http", {}).get("sourceIp", "")`. */
  function SourceIp(event: Event): string
  {
    if event.requestContext.None? || event.requestContext.value.http.None? then ""
    else if event.requestContext.value.http.value.sourceIp.None? then ""
    else event.requestContext.value.http.value.sourceIp.value
  }

  /** The authorizer's answer: the decision and its context entries. */
  datatype AuthResponse = AuthResponse(isAuthorized: bool, context: map<string, string>)

  /** Python's `str` of a boolean. */
  function BoolString(b: bool): string
  {
    if b then "True" else "False"
  }

  /** `handler`, for the event and the value of `ALLOWED_IP_RANGES`. */
  function Handler(event: Event, setting: Option<string>): (r: AuthResponse)
  {
    var sourceIp := SourceIp(event);
    if sourceIp == "" then AuthResponse(false, map["reason" := "No source IP"])
    else
      var allowed := IsIpAllowed(sourceIp, AllowedIpRanges(setting));
      AuthResponse(allowed, map["sourceIp" := sourceIp, "allowed" := BoolString(allowed)])
  }

  /** `a` lies in the block of addresses `n` covers. */
  predicate InBlock(n: Network, a: Address)
  {
    n.address <= a < n.address + BlockSize(n.prefix)
  }

  /**
   * The request is authorised exactly when its source IP is an IPv4 address
   * inside the block of one of the allowed networks. A refusal for a missing
   * source IP gives the reason; any other answer reports the address and the
   * decision.
   */
  lemma HandlerDecision(event: Event, setting: Option<string>)
    ensures var r := Handler(event, setting);
            var ranges := AllowedIpRanges(setting);
            r.isAuthorized <==> ParseIPv4(SourceIp(event)).Some?
                                && exists i :: 0 <= i < |ranges| && InBlock(ranges[i], ParseIPv4(SourceIp(event)).value)
    ensures SourceIp(event) == "" ==> Handler(event, setting).context == map["reason" := "No source IP"]
    ensures SourceIp(event) != "" ==>
              var r := Handler(event, setting);
              r.context == map["sourceIp" := SourceIp(event), "allowed" := if r.isAuthorized then "True" else "False"]
  {
    var ip := SourceIp(event);
    var ranges := AllowedIpRanges(setting);
    if ip != "" {
      IsIpAllowedIff(ip, ranges);
      if ParseIPv4(ip).Some? {
        forall i | 0 <= i < |ranges| ensures Contains(ranges[i], ParseIPv4(ip).value) <==> InBlock(ranges[i], ParseIPv4(ip).value) {
          ContainsRange(ranges[i], ParseIPv4(ip).value);
        }
      }
    } else {
      assert ParseIPv4(ip).None?;
    }
  }

  /** With no setting, every well-formed address is authorised. */
  lemma DefaultAllowsEveryAddress(event: Event)
    requires ParseIPv4(SourceIp(event)).Some?
    ensures Handler(event, None).isAuthorized
  {
    AllNetworkContainsEverything(ParseIPv4(SourceIp(event)).value);
    assert SourceIp(event) != "";
  }
}
