/** The packed socket address sent to clients: an IPv4 address and port mixed with a
    time-derived salt in one little-endian number, or the plain 18 bytes of IPv6. */
module SocketAddress {
  import opened Bits

  type Port = n: int | 0 <= n < 0x1_0000
  type Salt = n: int | 0 <= n < 0x1_0000_0000

  datatype Address = V4(ip: seq<Byte>, port: Port) | V6(ip: seq<Byte>, port: Port)

  predicate WellFormed(a: Address) {
    match a case V4(ip, _) => |ip| == 4 case V6(ip, _) => |ip| == 16
  }

  predicate AllZero(bytes: seq<Byte>) {
    forall i :: 0 <= i < |bytes| ==> bytes[i] == 0
  }

  predicate IsLoopback6(ip: seq<Byte>)
    requires |ip| == 16
  {
    AllZero(ip[..15]) && ip[15] == 1
  }

  /** An IPv4-compatible or IPv4-mapped IPv6 address. */
  predicate EmbedsV4(ip: seq<Byte>)
    requires |ip| == 16
  {
    AllZero(ip[..10]) && ((ip[10] == 0 && ip[11] == 0) || (ip[10] == 255 && ip[11] == 255))
  }

  function Canonical(a: Address): (r: Address)
    requires WellFormed(a)
    ensures WellFormed(r)
  {
    if a.V6? && !IsLoopback6(a.ip) && EmbedsV4(a.ip) then V4(a.ip[12..], a.port) else a
  }

  /** The three fields: 33 bits of address plus salt, 32 bits of salt, 17 bits of port plus low salt. */
  function Packed(ip: nat, port: Port, salt: Salt): nat {
    Or(Or(Shl(ip + salt, 49), Shl(salt, 17)), port + salt % 0x1_0000)
  }

  function Trimmed(bytes: seq<Byte>): seq<Byte> {
    if bytes != [] && bytes[|bytes| - 1] == 0 then Trimmed(bytes[..|bytes| - 1]) else bytes
  }

  function Encode(a: Address, salt: Salt): seq<Byte>
    requires WellFormed(a)
  {
    match Canonical(a)
    case V4(ip, port) => Trimmed(ToLittleEndian(Packed(LittleEndian(ip), port, salt), 16))
    case V6(ip, port) => ip + ToLittleEndian(port, 2)
  }

  // ---------- reading it back ----------

  /** The fields of a packed number, for a reader that knows only the layout. */
  function UnpackedSalt(n: nat): int {
    n / 0x2_0000 % 0x1_0000_0000
  }

  function UnpackedIp(n: nat): int {
    n / 0x2_0000 / 0x1_0000_0000 - UnpackedSalt(n)
  }

  function UnpackedPort(n: nat): int {
    n % 0x2_0000 - UnpackedSalt(n) % 0x1_0000
  }

  lemma Power16()
    ensures Pow2(16) == 0x1_0000
  {
    assert Pow2(8) == 256;
    Pow2Adds(8, 8);
  }

  lemma Power32()
    ensures Pow2(17) == 0x2_0000 && Pow2(32) == 0x1_0000_0000
  {
    Power16();
    Pow2Adds(16, 1);
    Pow2Adds(16, 16);
  }

  lemma Power49()
    ensures Pow2(49) == 0x2_0000_0000_0000
  {
    Power32();
    Pow2Adds(32, 17);
  }

  lemma Power88()
    ensures Pow2(88) == 0x100_0000_0000_0000_0000_0000
  {
    Power49();
    Pow2Adds(49, 32);
    assert Pow2(7) == 128;
    Pow2Adds(81, 7);
    Power32();
  }

  lemma ShiftsByConstants(a: nat, b: nat)
    ensures Shl(a, 49) == a * 0x2_0000_0000_0000 && Shl(b, 17) == b * 0x2_0000
  {
    Power32();
    Power49();
  }

  lemma DivideBack(q: nat, low: nat, high: nat)
    ensures low < 0x2_0000 ==> (q * 0x2_0000 + low) / 0x2_0000 == q && (q * 0x2_0000 + low) % 0x2_0000 == low
    ensures high < 0x1_0000_0000 ==> (q * 0x1_0000_0000 + high) / 0x1_0000_0000 == q && (q * 0x1_0000_0000 + high) % 0x1_0000_0000 == high
  {
  }

  lemma OrAdds49(a: nat, b: nat)
    requires a < 0x2_0000_0000_0000
    ensures Or(b * 0x2_0000_0000_0000, a) == b * 0x2_0000_0000_0000 + a
  {
    Power49();
    OrDisjoint(a, b, 49);
  }

  lemma OrAdds17(a: nat, b: nat)
    requires a < 0x2_0000
    ensures Or(b * 0x2_0000, a) == b * 0x2_0000 + a
  {
    Power32();
    OrDisjoint(a, b, 17);
  }

  lemma PackedByConstants(ip: nat, port: Port, salt: Salt)
    ensures Packed(ip, port, salt) == Or(Or((ip + salt) * 0x2_0000_0000_0000, salt * 0x2_0000), port + salt % 0x1_0000)
  {
    ShiftsByConstants(ip + salt, salt);
  }

  lemma OrsAdd(sum: nat, salt: Salt, low: nat)
    requires low < 0x2_0000
    ensures Or(Or(sum * 0x2_0000_0000_0000, salt * 0x2_0000), low) == (sum * 0x1_0000_0000 + salt) * 0x2_0000 + low
  {
    OrAdds49(salt * 0x2_0000, sum);
    assert sum * 0x2_0000_0000_0000 + salt * 0x2_0000 == (sum * 0x1_0000_0000 + salt) * 0x2_0000;
    OrAdds17(low, sum * 0x1_0000_0000 + salt);
  }

  lemma FieldsFit(sum: nat, salt: Salt, low: nat)
    requires sum < 0x2_0000_0000 && low < 0x2_0000
    ensures (sum * 0x1_0000_0000 + salt) * 0x2_0000 + low < 0x100_0000_0000_0000_0000_0000
  {
  }

  /** The fields never overlap: the ors are sums. */
  lemma FieldsAreDisjoint(ip: nat, port: Port, salt: Salt)
    requires ip < 0x1_0000_0000
    ensures Packed(ip, port, salt) == ((ip + salt) * 0x1_0000_0000 + salt) * 0x2_0000 + (port + salt % 0x1_0000)
    ensures port + salt % 0x1_0000 < 0x2_0000
    ensures Packed(ip, port, salt) < 0x100_0000_0000_0000_0000_0000
  {
    var low := port + salt % 0x1_0000;
    PackedByConstants(ip, port, salt);
    OrsAdd(ip + salt, salt, low);
    FieldsFit(ip + salt, salt, low);
  }

  lemma UnpackNumber(n: nat, sum: nat, salt: Salt, low: nat)
    requires n == (sum * 0x1_0000_0000 + salt) * 0x2_0000 + low && low < 0x2_0000
    ensures n % 0x2_0000 == low && UnpackedSalt(n) == salt && n / 0x2_0000 / 0x1_0000_0000 == sum
  {
    DivideBack(sum * 0x1_0000_0000 + salt, low, 0);
    DivideBack(sum, 0, salt);
  }

  lemma UnpackIsInverse(ip: nat, port: Port, salt: Salt)
    requires ip < 0x1_0000_0000
    ensures var n := Packed(ip, port, salt);
            UnpackedSalt(n) == salt && UnpackedIp(n) == ip && UnpackedPort(n) == port
  {
    FieldsAreDisjoint(ip, port, salt);
    UnpackNumber(Packed(ip, port, salt), ip + salt, salt, port + salt % 0x1_0000);
  }

  // ---------- trimming ----------

  lemma {:induction false} TrimKeepsValue(bytes: seq<Byte>)
    ensures LittleEndian(Trimmed(bytes)) == LittleEndian(bytes)
    decreases |bytes|
  {
    if bytes != [] && bytes[|bytes| - 1] == 0 {
      var init := bytes[..|bytes| - 1];
      assert bytes == init + [0];
      LittleEndianSnoc(init, 0);
      TrimKeepsValue(init);
    }
  }

  lemma {:induction false} HighBytesAreZero(n: nat, width: nat, k: nat)
    requires k <= width && n < Pow2(8 * k)
    ensures AllZero(ToLittleEndian(n, width)[k..])
    decreases width
  {
    if k == 0 {
      if width > 0 {
        HighBytesAreZero(0, width - 1, 0);
        assert ToLittleEndian(0, width - 1)[0..] == ToLittleEndian(0, width - 1);
      }
    } else {
      Pow2Adds(8 * (k - 1), 8);
      assert Pow2(8) == 256;
      HighBytesAreZero(n / 256, width - 1, k - 1);
      assert ToLittleEndian(n, width)[k..] == ToLittleEndian(n / 256, width - 1)[k - 1..];
    }
  }

  lemma {:induction false} TrimShortens(bytes: seq<Byte>, k: nat)
    requires k <= |bytes| && AllZero(bytes[k..])
    ensures |Trimmed(bytes)| <= k
    decreases |bytes|
  {
    if |bytes| > k {
      assert bytes[|bytes| - 1] == bytes[k..][|bytes| - 1 - k];
      assert bytes[..|bytes| - 1][k..] == bytes[k..][..|bytes| - 1 - k];
      TrimShortens(bytes[..|bytes| - 1], k);
    } else {
      TrimAtMost(bytes);
    }
  }

  lemma {:induction false} TrimAtMost(bytes: seq<Byte>)
    ensures |Trimmed(bytes)| <= |bytes|
    decreases |bytes|
  {
    if bytes != [] && bytes[|bytes| - 1] == 0 {
      TrimAtMost(bytes[..|bytes| - 1]);
    }
  }

  // ---------- the guarantees ----------

  lemma PackedBytes(n: nat)
    requires n < 0x100_0000_0000_0000_0000_0000
    ensures LittleEndian(Trimmed(ToLittleEndian(n, 16))) == n
    ensures |Trimmed(ToLittleEndian(n, 16))| <= 11
  {
    Power88();
    Pow2Adds(88, 40);
    LittleEndianRoundTrip(n, 16);
    TrimKeepsValue(ToLittleEndian(n, 16));
    HighBytesAreZero(n, 16, 11);
    TrimShortens(ToLittleEndian(n, 16), 11);
  }

  /** An IPv6 address that stands for an IPv4 one: ten zero bytes, two more that are both 0 or both 255, and
      not the loopback address ::1. */
  predicate StandsForV4(ip: seq<Byte>)
    requires |ip| == 16
  {
    && (forall i :: 0 <= i < 10 ==> ip[i] == 0)
    && ((ip[10] == 0 && ip[11] == 0) || (ip[10] == 255 && ip[11] == 255))
    && !((forall i :: 0 <= i < 15 ==> ip[i] == 0) && ip[15] == 1)
  }

  /** Which inputs take which form, from their bytes. */
  lemma CanonicalForms(a: Address)
    requires WellFormed(a)
    ensures a.V4? ==> Canonical(a) == a
    ensures a.V6? && StandsForV4(a.ip) ==> Canonical(a) == V4(a.ip[12..], a.port)
    ensures a.V6? && !StandsForV4(a.ip) ==> Canonical(a) == a
  {
    if a.V6? {
      assert AllZero(a.ip[..10]) <==> forall i :: 0 <= i < 10 ==> a.ip[i] == 0 by {
        assert forall i :: 0 <= i < 10 ==> a.ip[..10][i] == a.ip[i];
      }
      assert AllZero(a.ip[..15]) <==> forall i :: 0 <= i < 15 ==> a.ip[i] == 0 by {
        assert forall i :: 0 <= i < 15 ==> a.ip[..15][i] == a.ip[i];
      }
    }
  }

  lemma PackedFormReads(ip: seq<Byte>, port: Port, salt: Salt)
    requires |ip| == 4
    ensures var bytes := Trimmed(ToLittleEndian(Packed(LittleEndian(ip), port, salt), 16));
            && |bytes| <= 11
            && UnpackedIp(LittleEndian(bytes)) == LittleEndian(ip) && UnpackedPort(LittleEndian(bytes)) == port
  {
    LittleEndianBound(ip);
    assert LittleEndian(ip) < 0x1_0000_0000 by { Power32(); }
    FieldsAreDisjoint(LittleEndian(ip), port, salt);
    UnpackIsInverse(LittleEndian(ip), port, salt);
    PackedBytes(Packed(LittleEndian(ip), port, salt));
  }

  /** For every port and salt the client recovers the port and the address's own octets: all four of an IPv4
      address, the last four of an IPv6 address that stands for one; in at most 11 bytes. */
  lemma V4RoundTrip(a: Address, salt: Salt)
    requires WellFormed(a) && (a.V4? || StandsForV4(a.ip))
    ensures var n := LittleEndian(Encode(a, salt));
            && UnpackedIp(n) == LittleEndian(if a.V4? then a.ip else a.ip[12..])
            && UnpackedPort(n) == a.port
    ensures |Encode(a, salt)| <= 11
  {
    CanonicalForms(a);
    PackedFormReads(if a.V4? then a.ip else a.ip[12..], a.port, salt);
  }

  /** The number of an address gives back its octets, so recovering it recovers them. */
  lemma {:induction false} OctetsRecovered(a: seq<Byte>, b: seq<Byte>)
    requires |a| == |b| && LittleEndian(a) == LittleEndian(b)
    ensures a == b
  {
    if a != [] {
      assert LittleEndian(a) % 256 == a[0] && LittleEndian(b) % 256 == b[0];
      OctetsRecovered(a[1..], b[1..]);
    }
  }

  /** The length tells the forms apart: every other IPv6 address is its 16 bytes and the port, and only those
      have 18 bytes. */
  lemma FormsNeverMix(a: Address, salt: Salt)
    requires WellFormed(a)
    ensures |Encode(a, salt)| == 18 <==> a.V6? && !StandsForV4(a.ip)
    ensures a.V6? && !StandsForV4(a.ip) ==>
              && Encode(a, salt)[..16] == a.ip
              && LittleEndian(Encode(a, salt)[16..]) == a.port
  {
    if a.V4? || StandsForV4(a.ip) {
      V4RoundTrip(a, salt);
    } else {
      CanonicalForms(a);
      Power16();
      LittleEndianRoundTrip(a.port, 2);
      assert Encode(a, salt)[16..] == ToLittleEndian(a.port, 2);
    }
  }
}
