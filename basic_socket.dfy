/** Argument conversion for the Ruby socket bindings: the `shutdown` range
    check, host-name and address-integer normalisation, integer narrowing,
    port and service-name lookup in the fixed service table, and the mapping
    between address-family names and values.  The socket calls themselves
    are not part of this model. */
module BasicSocket {
  import opened Wrappers
  import Decimal

  const Int32Min := -0x8000_0000
  const Int32Max := 0x7FFF_FFFF
  const UInt32Max := 0xFFFF_FFFF
  const UInt64Max := 0xFFFF_FFFF_FFFF_FFFF

  type Int32 = x: int | Int32Min <= x <= Int32Max
  type UInt32 = x: int | 0 <= x <= UInt32Max
  type Byte = b: int | 0 <= b < 256

  /** A Ruby object as the conversion helpers see it: nil, a Fixnum, a
      Bignum (a `BigInteger`, which may hold a small value too), a String,
      or any other object. */
  datatype RubyValue = Nil | Fixnum(n: Int32) | Bignum(b: int) | RString(s: string) | RObject(id: nat)

  /** The exceptions these helpers raise. */
  datatype SocketError =
    | ArgumentError(message: string)
    | RangeError(message: string)
    | HostNotFound                    // SocketException(SocketError.HostNotFound)
    | AddressFamilyNotSupported       // SocketException(SocketError.AddressFamilyNotSupported)
    | InvalidIPAddress                // ArgumentException from `new IPAddress(bytes)`
    | ConversionError(message: string) // whatever a to_str / to_int conversion raises

  /** The conversion protocols `Protocols.CastToString` and
      `Protocols.CastToFixnum`, which call back into Ruby. */
  datatype Conversions = Conversions(
    castToString: RubyValue -> Result<string, SocketError>,
    castToFixnum: RubyValue -> Result<Int32, SocketError>)

  // ---------------------------------------------------------------------------
  // shutdown and socket flags

  /** `SocketShutdown`. */
  datatype SocketShutdown = Receive | Send | Both

  function ShutdownValue(m: SocketShutdown): int {
    match m
    case Receive => 0
    case Send => 1
    case Both => 2
  }

  /** The mode handed to `Socket.Shutdown` and the value returned to Ruby. */
  datatype ShutdownCall = ShutdownCall(mode: SocketShutdown, returned: int)

  const ShutdownHowMessage := "`how' should be either 0, 1, 2"

  /** `BasicSocket#shutdown(how)`: the range check, then the shutdown. */
  function Shutdown(how: Int32): (r: Result<ShutdownCall, SocketError>)
    ensures r.Err? <==> how < 0 || 2 < how
    ensures r.Err? ==> r.error == ArgumentError(ShutdownHowMessage)
    ensures r.Ok? ==> ShutdownValue(r.value.mode) == how && r.value.returned == 0
  {
    if how < 0 || 2 < how then Err(ArgumentError(ShutdownHowMessage))
    else Ok(ShutdownCall(if how == 0 then Receive else if how == 1 then Send else Both, 0))
  }

  const SocketFlagsNone: Int32 := 0

  /** `ConvertToSocketFlag`: nil means no flags, anything else goes through `to_int`. */
  function ConvertToSocketFlag(conv: Conversions, flags: RubyValue): (r: Result<Int32, SocketError>)
    ensures flags == Nil ==> r == Ok(SocketFlagsNone)
    ensures flags != Nil ==> r == conv.castToFixnum(flags)
  {
    if flags == Nil then Ok(SocketFlagsNone) else conv.castToFixnum(flags)
  }

  // ---------------------------------------------------------------------------
  // Address families

  /** The `System.Net.Sockets.AddressFamily` values the tables use. */
  const Unspecified: Int32 := 0
  const Unix: Int32 := 1
  const InterNetwork: Int32 := 2
  const ImpLink: Int32 := 3
  const Pup: Int32 := 4
  const Chaos: Int32 := 5
  const NS: Int32 := 6
  const Ipx: Int32 := 6
  const Iso: Int32 := 7
  const Osi: Int32 := 7
  const Ecma: Int32 := 8
  const DataKit: Int32 := 9
  const Ccitt: Int32 := 10
  const Sna: Int32 := 11
  const DecNet: Int32 := 12
  const DataLink: Int32 := 13
  const Lat: Int32 := 14
  const HyperChannel: Int32 := 15
  const AppleTalk: Int32 := 16
  const NetBios: Int32 := 17
  const Banyan: Int32 := 21
  const Atm: Int32 := 22
  const InterNetworkV6: Int32 := 23
  const Ieee12844: Int32 := 25
  const NetworkDesigners: Int32 := 28
  const Max: Int32 := 29

  datatype FamilyName = FamilyName(name: string, family: Int32)

  /** `FamilyNames`, in table order. */
  const FamilyNames: seq<FamilyName> := [
    FamilyName("AF_INET", InterNetwork),
    FamilyName("AF_UNIX", Unix),
    FamilyName("AF_IPX", Ipx),
    FamilyName("AF_APPLETALK", AppleTalk),
    FamilyName("AF_UNSPEC", Unspecified),
    FamilyName("AF_INET6", InterNetworkV6),
    FamilyName("AF_IMPLINK", ImpLink),
    FamilyName("AF_PUP", Pup),
    FamilyName("AF_CHAOS", Chaos),
    FamilyName("AF_NS", NS),
    FamilyName("AF_ISO", Iso),
    FamilyName("AF_OSI", Osi),
    FamilyName("AF_ECMA", Ecma),
    FamilyName("AF_DATAKIT", DataKit),
    FamilyName("AF_CCITT", Ccitt),
    FamilyName("AF_SNA", Sna),
    FamilyName("AF_DEC", DecNet),
    FamilyName("AF_DLI", DataLink),
    FamilyName("AF_LAT", Lat),
    FamilyName("AF_HYLINK", HyperChannel),
    FamilyName("AF_NETBIOS", NetBios),
    FamilyName("AF_ATM", Atm),
    FamilyName("AF_MAX", Max)
  ]

  /** The index of the first entry of `t` that `matches`: the first match
      of an early-return scan over a table. */
  function FirstMatch<T>(t: seq<T>, matches: T -> bool): (r: Option<nat>)
    ensures r.Some? ==> r.value < |t| && matches(t[r.value]) &&
                        forall j :: 0 <= j < r.value ==> !matches(t[j])
    ensures r.None? ==> forall j :: 0 <= j < |t| ==> !matches(t[j])
    decreases |t|
  {
    if t == [] then None
    else if matches(t[0]) then Some(0)
    else match FirstMatch(t[1..], matches)
      case None => None
      case Some(k) => Some(k + 1)
  }

  /** An entry preceded by no match is the first match. */
  lemma FirstMatchAt<T>(t: seq<T>, matches: T -> bool, i: nat)
    requires i < |t| && matches(t[i])
    requires forall j :: 0 <= j < i ==> !matches(t[j])
    ensures FirstMatch(t, matches) == Some(i)
  {
    var k := FirstMatch(t, matches);
    assert k.Some?;
  }

  /** Index of the first table entry for `f`. */
  function FirstFamilyIndex(t: seq<FamilyName>, f: Int32): Option<nat> {
    FirstMatch(t, (e: FamilyName) => e.family == f)
  }

  /** Index of the first table entry named `name`. */
  function FirstFamilyIndexByName(t: seq<FamilyName>, name: string): Option<nat> {
    FirstMatch(t, (e: FamilyName) => e.name == name)
  }

  /** `ToAddressFamilyString`: the name of the first table entry for the family. */
  method ToAddressFamilyString(family: Int32) returns (r: Result<string, SocketError>)
    ensures var k := FirstFamilyIndex(FamilyNames, family);
      r == if k.Some? then Ok(FamilyNames[k.value].name) else Err(AddressFamilyNotSupported)
  {
    var i := 0;
    while i < |FamilyNames|
      invariant 0 <= i <= |FamilyNames|
      invariant forall j :: 0 <= j < i ==> FamilyNames[j].family != family
    {
      if FamilyNames[i].family == family {
        FirstFamilyEntryAt(FamilyNames, family, i);
        return Ok(FamilyNames[i].name);
      }
      i := i + 1;
    }
    return Err(AddressFamilyNotSupported);
  }

  /** `ConvertToAddressFamily`: nil is AF_INET, a Fixnum is the value itself,
      anything else is converted with `to_str` and looked up by name, and a
      name the table lacks is converted with `to_int`. */
  method ConvertToAddressFamily(conv: Conversions, family: RubyValue) returns (r: Result<Int32, SocketError>)
    ensures family == Nil ==> r == Ok(InterNetwork)
    ensures family.Fixnum? ==> r == Ok(family.n)
    ensures family != Nil && !family.Fixnum? ==>
      r == match conv.castToString(family)
        case Err(e) => Err(e)
        case Ok(s) =>
          var k := FirstFamilyIndexByName(FamilyNames, s);
          if k.Some? then Ok(FamilyNames[k.value].family) else conv.castToFixnum(RString(s))
  {
    if family == Nil {
      return Ok(InterNetwork);
    }
    if family.Fixnum? {
      return Ok(family.n);
    }
    var str := conv.castToString(family);
    if str.Err? {
      return Err(str.error);
    }
    var strFamily := str.value;
    var i := 0;
    while i < |FamilyNames|
      invariant 0 <= i <= |FamilyNames|
      invariant forall j :: 0 <= j < i ==> FamilyNames[j].name != strFamily
    {
      if FamilyNames[i].name == strFamily {
        FirstMatchAt(FamilyNames, (e: FamilyName) => e.name == strFamily, i);
        return Ok(FamilyNames[i].family);
      }
      i := i + 1;
    }
    return conv.castToFixnum(RString(strFamily));
  }

  /** No name appears twice in `FamilyNames`. */
  lemma FamilyNamesDistinct()
    ensures forall i, j :: 0 <= i < j < |FamilyNames| ==> FamilyNames[i].name != FamilyNames[j].name
  {
  }

  /** Looking up the name `ToAddressFamilyString` gives for a family yields
      that family again. */
  lemma FamilyNameRoundTrip(f: Int32)
    requires FirstFamilyIndex(FamilyNames, f).Some?
    ensures var name := FamilyNames[FirstFamilyIndex(FamilyNames, f).value].name;
      var k := FirstFamilyIndexByName(FamilyNames, name);
      k.Some? && FamilyNames[k.value].family == f
  {
    var i := FirstFamilyIndex(FamilyNames, f).value;
    var k := FirstFamilyIndexByName(FamilyNames, FamilyNames[i].name);
    FamilyNamesDistinct();
    assert k.Some? && k.value <= i;
  }

  /** A family entry preceded by no entry for the same value is the one
      `ToAddressFamilyString` picks. */
  lemma FirstFamilyEntryAt(t: seq<FamilyName>, f: Int32, i: nat)
    requires i < |t| && t[i].family == f
    requires forall j :: 0 <= j < i ==> t[j].family != f
    ensures FirstFamilyIndex(t, f) == Some(i)
  {
    FirstMatchAt(t, (e: FamilyName) => e.family == f, i);
  }

  /** The first entry of `FamilyNames` for `f` is `name` at `i`, for the
      entries the two lemmas below name. */
  lemma FirstFamilyAt(name: string, f: Int32, i: nat)
    requires || (name, f, i) == ("AF_IPX", NS, 2)
             || (name, f, i) == ("AF_ISO", Osi, 10)
             || (name, f, i) == ("AF_INET", InterNetwork, 0)
             || (name, f, i) == ("AF_DLI", DataLink, 17)
             || (name, f, i) == ("AF_HYLINK", HyperChannel, 19)
             || (name, f, i) == ("AF_INET6", InterNetworkV6, 5)
    ensures i < |FamilyNames| && FamilyNames[i].name == name
    ensures FirstFamilyIndex(FamilyNames, f) == Some(i)
  {
    FirstFamilyEntryAt(FamilyNames, f, i);
  }

  /** Values shared by two enum names are named by the earlier table entry:
      6 (NS and Ipx) is AF_IPX and 7 (Iso and Osi) is AF_ISO. */
  lemma SharedFamilyValuesUseFirstName(f: Int32)
    requires f == NS || f == Osi
    ensures var k := FirstFamilyIndex(FamilyNames, f);
      k.Some? && FamilyNames[k.value].name == if f == NS then "AF_IPX" else "AF_ISO"
  {
    if f == NS {
      FirstFamilyAt("AF_IPX", NS, 2);
    } else {
      FirstFamilyAt("AF_ISO", Osi, 10);
    }
  }

  /** `AddressFamilyToString`: seven explicit names, then `AF_` and the
      upper-cased enum member name (`enumName` is `Enum.GetName`), then
      `unknown:` and the number. */
  function AddressFamilyToString(af: Int32, enumName: Int32 -> Option<string>): (r: string)
    ensures af == InterNetwork ==> r == "AF_INET"
    ensures af == DataLink ==> r == "AF_DLI"
    ensures af == HyperChannel ==> r == "AF_HYLINK"
    ensures af == Banyan ==> r == "AF_BAN"
    ensures af == InterNetworkV6 ==> r == "AF_INET6"
    ensures af == Ieee12844 ==> r == "AF_12844"
    ensures af == NetworkDesigners ==> r == "AF_NETDES"
    ensures af !in {InterNetwork, DataLink, HyperChannel, Banyan, InterNetworkV6, Ieee12844, NetworkDesigners} ==>
      r == if enumName(af).Some? then "AF_" + Decimal.AsciiUpper(enumName(af).value)
           else "unknown:" + Decimal.IntToString(af)
  {
    if af == InterNetwork then "AF_INET"
    else if af == DataLink then "AF_DLI"
    else if af == HyperChannel then "AF_HYLINK"
    else if af == Banyan then "AF_BAN"
    else if af == InterNetworkV6 then "AF_INET6"
    else if af == Ieee12844 then "AF_12844"
    else if af == NetworkDesigners then "AF_NETDES"
    else
      var name := enumName(af);
      if name.Some? then "AF_" + Decimal.AsciiUpper(name.value)
      else "unknown:" + Decimal.IntToString(af)
  }

  /** Where both name a family explicitly, `AddressFamilyToString` and
      `ToAddressFamilyString` agree, whatever `Enum.GetName` says. */
  lemma ExplicitNamesAgreeWithTable(af: Int32, enumName: Int32 -> Option<string>)
    requires af == InterNetwork || af == DataLink || af == HyperChannel || af == InterNetworkV6
    ensures var k := FirstFamilyIndex(FamilyNames, af);
      k.Some? && FamilyNames[k.value].name == AddressFamilyToString(af, enumName)
  {
    if af == InterNetwork {
      FirstFamilyAt("AF_INET", InterNetwork, 0);
    } else if af == DataLink {
      FirstFamilyAt("AF_DLI", DataLink, 17);
    } else if af == HyperChannel {
      FirstFamilyAt("AF_HYLINK", HyperChannel, 19);
    } else {
      FirstFamilyAt("AF_INET6", InterNetworkV6, 5);
    }
  }

  // ---------------------------------------------------------------------------
  // Host strings

  /** `256^k`. */
  function Pow256(k: nat): (p: nat)
    ensures p >= 1
  {
    if k == 0 then 1 else 256 * Pow256(k - 1)
  }

  /** The number a big-endian byte string denotes: the sum of
      `bytes[i] * 256^(|bytes| - 1 - i)`. */
  function BigEndianValue(bytes: seq<Byte>): nat {
    if bytes == [] then 0 else BigEndianValue(bytes[..|bytes| - 1]) * 256 + bytes[|bytes| - 1]
  }

  /** The `width` low bytes of `value`, most significant first. */
  function ToBigEndian(value: nat, width: nat): (r: seq<Byte>)
    ensures |r| == width
  {
    if width == 0 then [] else ToBigEndian(value / 256, width - 1) + [value % 256]
  }

  /** Recombining the bytes gives back every value that fits in them. */
  lemma {:induction false} ToBigEndianRoundTrip(value: nat, width: nat)
    requires value < Pow256(width)
    ensures BigEndianValue(ToBigEndian(value, width)) == value
  {
    if width > 0 {
      var s := ToBigEndian(value, width);
      assert s[..|s| - 1] == ToBigEndian(value / 256, width - 1);
      ToBigEndianRoundTrip(value / 256, width - 1);
    }
  }

  /** A byte string is the split of the number it denotes: the split is the
      only byte string of its width with that value. */
  lemma {:induction false} BigEndianDecodeEncode(bytes: seq<Byte>)
    ensures ToBigEndian(BigEndianValue(bytes), |bytes|) == bytes
    decreases |bytes|
  {
    if bytes != [] {
      var prefix := bytes[..|bytes| - 1];
      BigEndianDecodeEncode(prefix);
      var v := BigEndianValue(bytes);
      assert v / 256 == BigEndianValue(prefix);
      assert v % 256 == bytes[|bytes| - 1];
      assert bytes == prefix + [bytes[|bytes| - 1]];
    }
  }

  /** The four bytes of an IPv4 address: `bytes[3]` is the lowest byte of the
      value and `bytes[0]` the highest, and together they give the value back. */
  lemma UInt32Split(address: UInt32)
    ensures var bytes := ToBigEndian(address, 4);
      && bytes[3] == address % 256
      && bytes[2] == (address / 0x100) % 256
      && bytes[1] == (address / 0x1_0000) % 256
      && bytes[0] == address / 0x100_0000
      && BigEndianValue(bytes) == address
  {
    assert Pow256(4) == 0x1_0000_0000;
    ToBigEndianRoundTrip(address, 4);
    var a1 := address / 256;
    var a2 := a1 / 256;
    var a3 := a2 / 256;
    assert a2 == address / 0x1_0000;
    assert a3 == address / 0x100_0000 < 256;
    assert ToBigEndian(a3, 1) == [a3 % 256];
    assert ToBigEndian(a2, 2) == [a3 % 256, a2 % 256];
    assert ToBigEndian(a1, 3) == [a3 % 256, a2 % 256, a1 % 256];
    assert ToBigEndian(address, 4) == [a3 % 256, a2 % 256, a1 % 256, address % 256];
  }

  /** The loop of `ConvertToHostString(uint)` and of the 64-bit branch of
      `ConvertToHostString(BigInteger)`: fill a `width`-byte buffer from the
      end, taking the low byte and shifting the value right by eight. */
  method SplitBigEndian(value: nat, width: nat) returns (bytes: seq<Byte>)
    ensures bytes == ToBigEndian(value, width)
  {
    var buffer := new Byte[width];
    var address := value;
    var i := width;
    while i > 0
      invariant 0 <= i <= width
      invariant ToBigEndian(value, width) == ToBigEndian(address, i) + buffer[i..]
    {
      i := i - 1;
      buffer[i] := address % 256;
      address := address / 256;
      assert buffer[i..] == [buffer[i]] + buffer[i + 1..];
    }
    bytes := buffer[..];
  }

  /** The result of a host conversion: the text of `new IPAddress(bytes)`
      (its formatting is not modelled), or a literal host string. */
  datatype HostString = IPAddressText(addressBytes: seq<Byte>) | Literal(text: string)

  /** `new IPAddress(bytes).ToString()`: the constructor accepts 4 bytes
      (IPv4) or 16 bytes (IPv6) and throws ArgumentException otherwise. */
  function NewIPAddress(bytes: seq<Byte>): (r: Result<HostString, SocketError>)
    ensures r.Ok? <==> |bytes| == 4 || |bytes| == 16
    ensures r.Ok? ==> r.value == IPAddressText(bytes)
    ensures r.Err? ==> r.error == InvalidIPAddress
  {
    if |bytes| == 4 || |bytes| == 16 then Ok(IPAddressText(bytes)) else Err(InvalidIPAddress)
  }

  /** `ConvertToHostString(uint)`. */
  method ConvertUInt32ToHostString(address: UInt32) returns (r: HostString)
    ensures r == IPAddressText(ToBigEndian(address, 4))
  {
    var bytes := SplitBigEndian(address, 4);
    var ip := NewIPAddress(bytes);
    r := ip.value;
  }

  const QuadLongMessage := "bignum too big to convert into `quad long'"

  /** `ConvertToHostString(BigInteger)` as the source writes it: values up to
      `UInt32.MaxValue` become IPv4 addresses; the 64-bit branch builds an
      8-byte buffer, which `new IPAddress` rejects; RangeError beyond. */
  function BignumHostStringAsWritten(address: int): (r: Result<HostString, SocketError>)
    ensures r.Ok? <==> 0 <= address <= UInt32Max
    ensures address < 0 || UInt64Max < address ==> r == Err(RangeError(QuadLongMessage))
    ensures UInt32Max < address <= UInt64Max ==> r == Err(InvalidIPAddress)
    ensures r.Ok? ==> r.value.IPAddressText? && |r.value.addressBytes| == 4
    ensures r.Ok? ==> BigEndianValue(r.value.addressBytes) == address
  {
    if address < 0 || UInt64Max < address then Err(RangeError(QuadLongMessage))
    else if address <= UInt32Max then
      assert Pow256(4) == 0x1_0000_0000;
      ToBigEndianRoundTrip(address, 4);
      Ok(IPAddressText(ToBigEndian(address, 4)))
    else
      NewIPAddress(ToBigEndian(address, 8))
  }

  /** The statement `ConvertToHostString(BigInteger)` as written executes. */
  method ConvertBignumToHostStringAsWritten(address: int) returns (r: Result<HostString, SocketError>)
    ensures r == BignumHostStringAsWritten(address)
  {
    if 0 <= address <= UInt64Max {
      var u: nat := address;
      if u <= UInt32Max {
        var s := ConvertUInt32ToHostString(u);
        return Ok(s);
      } else {
        var bytes := SplitBigEndian(u, 8);
        return NewIPAddress(bytes);
      }
    } else {
      return Err(RangeError(QuadLongMessage));
    }
  }

  /** What `ConvertToHostString(BigInteger)` evidently intends: an IPv4 address
      for values up to `UInt32.MaxValue`, an IPv6 address for the other 64-bit
      unsigned values, RangeError beyond. */
  function BignumHostString(address: int): (r: Result<HostString, SocketError>)
    ensures r.Ok? <==> 0 <= address <= UInt64Max
    ensures r.Err? ==> r.error == RangeError(QuadLongMessage)
    ensures r.Ok? ==> r.value.IPAddressText? && BigEndianValue(r.value.addressBytes) == address
    ensures r.Ok? ==> |r.value.addressBytes| == if address <= UInt32Max then 4 else 16
  {
    if address < 0 || UInt64Max < address then Err(RangeError(QuadLongMessage))
    else if address <= UInt32Max then
      assert Pow256(4) == 0x1_0000_0000;
      ToBigEndianRoundTrip(address, 4);
      Ok(IPAddressText(ToBigEndian(address, 4)))
    else
      assert Pow256(16) == 0x1_0000_0000_0000_0000_0000_0000_0000_0000;
      ToBigEndianRoundTrip(address, 16);
      NewIPAddress(ToBigEndian(address, 16))
  }

  /** `ConvertToHostString(BigInteger)` with the IPv6 branch corrected to a
      16-byte buffer. */
  method ConvertBignumToHostString(address: int) returns (r: Result<HostString, SocketError>)
    ensures r == BignumHostString(address)
  {
    if 0 <= address <= UInt64Max {
      var u: nat := address;
      if u <= UInt32Max {
        var s := ConvertUInt32ToHostString(u);
        return Ok(s);
      } else {
        var bytes := SplitBigEndian(u, 16);
        return NewIPAddress(bytes);
      }
    } else {
      return Err(RangeError(QuadLongMessage));
    }
  }

  const BroadcastString := "<broadcast>"
  const BroadcastIPString := "255.255.255.255"
  const AnyIPString := "0.0.0.0"

  /** `ConvertToHostString(MutableString)`: null is an unknown host, the empty
      name is the any-address, `<broadcast>` the broadcast address, and every
      other name passes through. */
  function ConvertNameToHostString(hostName: Option<string>): (r: Result<HostString, SocketError>)
    ensures r.Err? <==> hostName.None?
    ensures r.Err? ==> r.error == HostNotFound
    ensures hostName == Some("") ==> r == Ok(Literal(AnyIPString))
    ensures hostName == Some(BroadcastString) ==> r == Ok(Literal(BroadcastIPString))
    ensures hostName.Some? && hostName.value != "" && hostName.value != BroadcastString ==>
      r == Ok(Literal(hostName.value))
  {
    if hostName.None? then Err(HostNotFound)
    else if hostName.value == "" then Ok(Literal(AnyIPString))
    else if hostName.value == BroadcastString then Ok(Literal(BroadcastIPString))
    else Ok(Literal(hostName.value))
  }

  /** Normalising a normalised name changes nothing. */
  lemma NameNormalisationIdempotent(name: string)
    ensures var once := ConvertNameToHostString(Some(name));
      once.Ok? && once.value.Literal? && ConvertNameToHostString(Some(once.value.text)) == once
  {
  }

  /** The first value past `UInt32.MaxValue` is a valid 64-bit address that
      the written conversion rejects and the corrected one accepts as IPv6. */
  lemma FirstIPv6ValueRejectedAsWritten()
    ensures BignumHostStringAsWritten(UInt32Max + 1) == Err(InvalidIPAddress)
    ensures var c := BignumHostString(UInt32Max + 1);
      c.Ok? && c.value.IPAddressText? && |c.value.addressBytes| == 16
  {
  }

  /** `ConvertToHostString(object)`: a Fixnum takes the `BigInteger` overload
      (the only one an `int` converts to implicitly), and so does a Bignum;
      nil is an unknown host; anything else is converted with `to_str`. */
  method ConvertToHostString(conv: Conversions, hostName: RubyValue) returns (r: Result<HostString, SocketError>)
    ensures hostName.Fixnum? ==> r == BignumHostStringAsWritten(hostName.n)
    ensures hostName.Bignum? ==> r == BignumHostStringAsWritten(hostName.b)
    ensures hostName == Nil ==> r == Err(HostNotFound)
    ensures hostName.RString? || hostName.RObject? ==>
      r == match conv.castToString(hostName)
        case Err(e) => Err(e)
        case Ok(s) => ConvertNameToHostString(Some(s))
  {
    match hostName
    case Fixnum(n) =>
      r := ConvertBignumToHostStringAsWritten(n);
    case Bignum(b) =>
      r := ConvertBignumToHostStringAsWritten(b);
    case Nil =>
      r := ConvertNameToHostString(None);
    case _ =>
      var s := conv.castToString(hostName);
      if s.Err? {
        return Err(s.error);
      }
      r := ConvertNameToHostString(Some(s.value));
  }

  /** `ConvertToHostString(object)` with the corrected bignum conversion. */
  method ConvertToHostStringCorrected(conv: Conversions, hostName: RubyValue) returns (r: Result<HostString, SocketError>)
    ensures hostName.Fixnum? ==> r == BignumHostString(hostName.n)
    ensures hostName.Bignum? ==> r == BignumHostString(hostName.b)
    ensures hostName == Nil ==> r == Err(HostNotFound)
    ensures hostName.RString? || hostName.RObject? ==>
      r == match conv.castToString(hostName)
        case Err(e) => Err(e)
        case Ok(s) => ConvertNameToHostString(Some(s))
  {
    match hostName
    case Fixnum(n) =>
      r := ConvertBignumToHostString(n);
    case Bignum(b) =>
      r := ConvertBignumToHostString(b);
    case Nil =>
      r := ConvertNameToHostString(None);
    case _ =>
      var s := conv.castToString(hostName);
      if s.Err? {
        return Err(s.error);
      }
      r := ConvertNameToHostString(Some(s.value));
  }

  // ---------------------------------------------------------------------------
  // Integers and ports

  /** The integer a Fixnum or Bignum denotes. */
  function IntegerValue(v: RubyValue): Option<int> {
    match v
    case Fixnum(n) => Some(n)
    case Bignum(b) => Some(b)
    case _ => None
  }

  /** The `(bool, out int)` pair of `IntegerAsFixnum`. */
  datatype FixnumConversion = FixnumConversion(isInteger: bool, result: Int32)

  const LongMessage := "bignum too big to convert into `long'"

  /** `IntegerAsFixnum`: narrows a Fixnum or Bignum to a 32-bit integer
      without calling any conversion method. */
  function IntegerAsFixnum(value: RubyValue): (r: Result<FixnumConversion, SocketError>)
    ensures value.Fixnum? ==> r == Ok(FixnumConversion(true, value.n))
    ensures value.Bignum? && Int32Min <= value.b <= Int32Max ==> r == Ok(FixnumConversion(true, value.b))
    ensures value.Bignum? && !(Int32Min <= value.b <= Int32Max) ==> r == Err(RangeError(LongMessage))
    ensures IntegerValue(value).None? ==> r == Ok(FixnumConversion(false, 0))
    // a reported integer is exactly the value, never a truncation
    ensures r.Ok? && r.value.isInteger ==> IntegerValue(value) == Some(r.value.result as int)
    ensures r.Ok? && !r.value.isInteger ==> IntegerValue(value).None?
  {
    match value
    case Fixnum(n) => Ok(FixnumConversion(true, n))
    case Bignum(b) =>
      if Int32Min <= b <= Int32Max then Ok(FixnumConversion(true, b)) else Err(RangeError(LongMessage))
    case _ => Ok(FixnumConversion(false, 0))
  }

  /** One entry of the service table. */
  datatype ServiceName = ServiceName(port: Int32, protocol: string, name: string)

  /** `ServiceNames`, in table order. */
  const ServiceNames: seq<ServiceName> := [
    ServiceName(7, "tcp", "echo"),
    ServiceName(7, "udp", "echo"),
    ServiceName(9, "tcp", "discard"),
    ServiceName(9, "udp", "discard"),
    ServiceName(11, "tcp", "systat"),
    ServiceName(11, "udp", "systat"),
    ServiceName(13, "tcp", "daytime"),
    ServiceName(13, "udp", "daytime"),
    ServiceName(15, "tcp", "netstat"),
    ServiceName(17, "tcp", "qotd"),
    ServiceName(17, "udp", "qotd"),
    ServiceName(19, "tcp", "chargen"),
    ServiceName(19, "udp", "chargen"),
    ServiceName(20, "tcp", "ftp-data"),
    ServiceName(21, "tcp", "ftp"),
    ServiceName(23, "tcp", "telnet"),
    ServiceName(25, "tcp", "smtp"),
    ServiceName(37, "tcp", "time"),
    ServiceName(37, "udp", "time"),
    ServiceName(39, "udp", "rlp"),
    ServiceName(42, "tcp", "name"),
    ServiceName(42, "udp", "name"),
    ServiceName(43, "tcp", "whois"),
    ServiceName(53, "tcp", "domain"),
    ServiceName(53, "udp", "domain"),
    ServiceName(53, "tcp", "nameserver"),
    ServiceName(53, "udp", "nameserver"),
    ServiceName(57, "tcp", "mtp"),
    ServiceName(67, "udp", "bootp"),
    ServiceName(69, "udp", "tftp"),
    ServiceName(77, "tcp", "rje"),
    ServiceName(79, "tcp", "finger"),
    ServiceName(80, "tcp", "http"),
    ServiceName(87, "tcp", "link"),
    ServiceName(95, "tcp", "supdup"),
    ServiceName(101, "tcp", "hostnames"),
    ServiceName(102, "tcp", "iso-tsap"),
    ServiceName(103, "tcp", "dictionary"),
    ServiceName(103, "tcp", "x400"),
    ServiceName(104, "tcp", "x400-snd"),
    ServiceName(105, "tcp", "csnet-ns"),
    ServiceName(109, "tcp", "pop"),
    ServiceName(109, "tcp", "pop2"),
    ServiceName(110, "tcp", "pop3"),
    ServiceName(111, "tcp", "portmap"),
    ServiceName(111, "udp", "portmap"),
    ServiceName(111, "tcp", "sunrpc"),
    ServiceName(111, "udp", "sunrpc"),
    ServiceName(113, "tcp", "auth"),
    ServiceName(115, "tcp", "sftp"),
    ServiceName(117, "tcp", "path"),
    ServiceName(117, "tcp", "uucp-path"),
    ServiceName(119, "tcp", "nntp"),
    ServiceName(123, "udp", "ntp"),
    ServiceName(137, "udp", "nbname"),
    ServiceName(138, "udp", "nbdatagram"),
    ServiceName(139, "tcp", "nbsession"),
    ServiceName(144, "tcp", "NeWS"),
    ServiceName(153, "tcp", "sgmp"),
    ServiceName(158, "tcp", "tcprepo"),
    ServiceName(161, "tcp", "snmp"),
    ServiceName(162, "tcp", "snmp-trap"),
    ServiceName(170, "tcp", "print-srv"),
    ServiceName(175, "tcp", "vmnet"),
    ServiceName(315, "udp", "load"),
    ServiceName(400, "tcp", "vmnet0"),
    ServiceName(500, "udp", "sytek"),
    ServiceName(512, "udp", "biff"),
    ServiceName(512, "tcp", "exec"),
    ServiceName(513, "tcp", "login"),
    ServiceName(513, "udp", "who"),
    ServiceName(514, "tcp", "shell"),
    ServiceName(514, "udp", "syslog"),
    ServiceName(515, "tcp", "printer"),
    ServiceName(517, "udp", "talk"),
    ServiceName(518, "udp", "ntalk"),
    ServiceName(520, "tcp", "efs"),
    ServiceName(520, "udp", "route"),
    ServiceName(525, "udp", "timed"),
    ServiceName(526, "tcp", "tempo"),
    ServiceName(530, "tcp", "courier"),
    ServiceName(531, "tcp", "conference"),
    ServiceName(531, "udp", "rvd-control"),
    ServiceName(532, "tcp", "netnews"),
    ServiceName(533, "udp", "netwall"),
    ServiceName(540, "tcp", "uucp"),
    ServiceName(543, "tcp", "klogin"),
    ServiceName(544, "tcp", "kshell"),
    ServiceName(550, "udp", "new-rwho"),
    ServiceName(556, "tcp", "remotefs"),
    ServiceName(560, "udp", "rmonitor"),
    ServiceName(561, "udp", "monitor"),
    ServiceName(600, "tcp", "garcon"),
    ServiceName(601, "tcp", "maitrd"),
    ServiceName(602, "tcp", "busboy"),
    ServiceName(700, "udp", "acctmaster"),
    ServiceName(701, "udp", "acctslave"),
    ServiceName(702, "udp", "acct"),
    ServiceName(703, "udp", "acctlogin"),
    ServiceName(704, "udp", "acctprinter"),
    ServiceName(704, "udp", "elcsd"),
    ServiceName(705, "udp", "acctinfo"),
    ServiceName(706, "udp", "acctslave2"),
    ServiceName(707, "udp", "acctdisk"),
    ServiceName(750, "tcp", "kerberos"),
    ServiceName(750, "udp", "kerberos"),
    ServiceName(751, "tcp", "kerberos_master"),
    ServiceName(751, "udp", "kerberos_master"),
    ServiceName(752, "udp", "passwd_server"),
    ServiceName(753, "udp", "userreg_server"),
    ServiceName(754, "tcp", "krb_prop"),
    ServiceName(888, "tcp", "erlogin"),
    ServiceName(1109, "tcp", "kpop"),
    ServiceName(1167, "udp", "phone"),
    ServiceName(1524, "tcp", "ingreslock"),
    ServiceName(1666, "udp", "maze"),
    ServiceName(2049, "udp", "nfs"),
    ServiceName(2053, "tcp", "knetd"),
    ServiceName(2105, "tcp", "eklogin"),
    ServiceName(5555, "tcp", "rmt"),
    ServiceName(5556, "tcp", "mtb"),
    ServiceName(9535, "tcp", "man"),
    ServiceName(9536, "tcp", "w"),
    ServiceName(9537, "tcp", "mantst"),
    ServiceName(10000, "tcp", "bnews"),
    ServiceName(10000, "udp", "rscs0"),
    ServiceName(10001, "tcp", "queue"),
    ServiceName(10001, "udp", "rscs1"),
    ServiceName(10002, "tcp", "poker"),
    ServiceName(10002, "udp", "rscs2"),
    ServiceName(10003, "tcp", "gateway"),
    ServiceName(10003, "udp", "rscs3"),
    ServiceName(10004, "tcp", "remp"),
    ServiceName(10004, "udp", "rscs4"),
    ServiceName(10005, "udp", "rscs5"),
    ServiceName(10006, "udp", "rscs6"),
    ServiceName(10007, "udp", "rscs7"),
    ServiceName(10008, "udp", "rscs8"),
    ServiceName(10009, "udp", "rscs9"),
    ServiceName(10010, "udp", "rscsa"),
    ServiceName(10011, "udp", "rscsb"),
    ServiceName(10012, "tcp", "qmaster"),
    ServiceName(10012, "udp", "qmaster")
  ]

  /** Index of the first service entry for `port`. */
  function FirstServiceByPort(t: seq<ServiceName>, port: Int32): Option<nat> {
    FirstMatch(t, (e: ServiceName) => e.port == port)
  }

  /** Index of the first service entry named `name`. */
  function FirstServiceByName(t: seq<ServiceName>, name: string): Option<nat> {
    FirstMatch(t, (e: ServiceName) => e.name == name)
  }

  /** Index of the first service entry named `name` for `protocol`. */
  function FirstServiceByNameAndProtocol(t: seq<ServiceName>, name: string, protocol: string): Option<nat> {
    FirstMatch(t, (e: ServiceName) => e.name == name && e.protocol == protocol)
  }

  /** The entry of `services` at an optional index. */
  function ServiceAt(services: seq<ServiceName>, k: Option<nat>): Option<ServiceName>
    requires k.Some? ==> k.value < |services|
  {
    if k.Some? then Some(services[k.value]) else None
  }

  /** `SearchForService(int port)` over the table `services` (the source
      always searches `ServiceNames`). */
  method SearchForServiceByPort(services: seq<ServiceName>, port: Int32) returns (r: Option<ServiceName>)
    ensures r == ServiceAt(services, FirstServiceByPort(services, port))
  {
    var i := 0;
    while i < |services|
      invariant 0 <= i <= |services|
      invariant forall j :: 0 <= j < i ==> services[j].port != port
    {
      if services[i].port == port {
        return Some(services[i]);
      }
      i := i + 1;
    }
    return None;
  }

  /** `SearchForService(MutableString serviceName)`. */
  method SearchForServiceByName(services: seq<ServiceName>, serviceName: string) returns (r: Option<ServiceName>)
    ensures r == ServiceAt(services, FirstServiceByName(services, serviceName))
  {
    var i := 0;
    while i < |services|
      invariant 0 <= i <= |services|
      invariant forall j :: 0 <= j < i ==> services[j].name != serviceName
    {
      if services[i].name == serviceName {
        return Some(services[i]);
      }
      i := i + 1;
    }
    return None;
  }

  /** `SearchForService(MutableString serviceName, MutableString protocol)`. */
  method SearchForServiceByNameAndProtocol(services: seq<ServiceName>, serviceName: string, protocol: string) returns (r: Option<ServiceName>)
    ensures r == ServiceAt(services, FirstServiceByNameAndProtocol(services, serviceName, protocol))
  {
    var i := 0;
    while i < |services|
      invariant 0 <= i <= |services|
      invariant forall j :: 0 <= j < i ==> !(services[j].name == serviceName && services[j].protocol == protocol)
    {
      if services[i].name == serviceName && services[i].protocol == protocol {
        return Some(services[i]);
      }
      i := i + 1;
    }
    return None;
  }

  /** `ConvertToPortNum`: a Fixnum is the port, nil is 0, anything else is
      converted with `to_str` and looked up as a service name, and a name the
      table lacks is converted with `to_int`. */
  method ConvertToPortNum(conv: Conversions, port: RubyValue) returns (r: Result<Int32, SocketError>)
    ensures port.Fixnum? ==> r == Ok(port.n)
    ensures port == Nil ==> r == Ok(0)
    ensures !port.Fixnum? && port != Nil ==>
      r == match conv.castToString(port)
        case Err(e) => Err(e)
        case Ok(s) =>
          var k := FirstServiceByName(ServiceNames, s);
          if k.Some? then Ok(ServiceNames[k.value].port) else conv.castToFixnum(RString(s))
  {
    if port.Fixnum? {
      return Ok(port.n);
    }
    if port == Nil {
      return Ok(0);
    }
    var serviceName := conv.castToString(port);
    if serviceName.Err? {
      return Err(serviceName.error);
    }
    var service := SearchForServiceByName(ServiceNames, serviceName.value);
    if service.Some? {
      return Ok(service.value.port);
    }
    return conv.castToFixnum(RString(serviceName.value));
  }
}
