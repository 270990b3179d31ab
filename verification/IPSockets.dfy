/**
 Socket addresses: the IPSocket value, its two record layouts (section 3.3 of RFC 3493),
 the packed array of records that SCTP takes and returns (sections 9.1, 9.3 and 9.9 of
 RFC 6458), and the walk over such an array.
 */
module IPSockets {
  import opened Wrappers

  type Byte = b: int | 0 <= b < 0x100
  type U16 = n: int | 0 <= n < 0x1_0000

  const AF_UNIX: U16 := 1
  const AF_INET: U16 := 2
  const AF_INET6: U16 := 10

  // INET_ADDRSTRLEN and INET6_ADDRSTRLEN.
  const V4_TEXT: nat := 16
  const V6_TEXT: nat := 46

  const NUL: char := '\0'

  datatype Error = BadAddress | BadFamily | OutOfBounds

  datatype IPSocket = IPSocket(addr: string, port: U16, family: U16) {
    predicate IsIPv6() {
      family == AF_INET6
    }

    function SizeofSockaddr(): (n: nat) {
      if IsIPv6() then 28 else 16
    }
  }

  /** The C library's inet_ntop and inet_pton, known only through `Lawful`. */
  datatype Inet = Inet(ntop: (U16, seq<Byte>) -> string, pton: (U16, string) -> Option<seq<Byte>>)

  predicate IsInet(family: U16) {
    family == AF_INET || family == AF_INET6
  }

  function AddrLen(family: U16): nat {
    if family == AF_INET6 then 16 else 4
  }

  function TextLen(family: U16): nat {
    if family == AF_INET6 then V6_TEXT else V4_TEXT
  }

  /** Printing an address and reading it back gives the address; the text and its NUL fit
      the buffer; only the two internet families are read; and no text names an address in both. */
  ghost predicate Lawful(inet: Inet) {
    && (forall f: U16, a: seq<Byte> {:trigger inet.ntop(f, a)} :: IsInet(f) && |a| == AddrLen(f) ==>
      && inet.pton(f, inet.ntop(f, a)) == Some(a)
      && |inet.ntop(f, a)| < TextLen(f)
      && NUL !in inet.ntop(f, a))
    && (forall f: U16, t: string {:trigger inet.pton(f, t)} :: inet.pton(f, t).Some? ==>
      IsInet(f) && |inet.pton(f, t).value| == AddrLen(f))
    && (forall t: string {:trigger inet.pton(AF_INET, t)} :: inet.pton(AF_INET, t).Some? ==>
      inet.pton(AF_INET6, t).None?)
  }

  // ---------------------------------------------------------------- text

  /** What `c_str()` shows a C function: the text before the first NUL. */
  function CStr(s: string): (r: string)
    ensures NUL !in r
    ensures r <= s
    ensures |r| < |s| ==> s[|r|] == NUL
  {
    if s == [] || s[0] == NUL then []
    else
      assert forall c :: c in [s[0]] + CStr(s[1..]) <==> c == s[0] || c in CStr(s[1..]);
      [s[0]] + CStr(s[1..])
  }

  function Nuls(n: nat): (r: string)
    ensures |r| == n && forall i :: 0 <= i < n ==> r[i] == NUL
  {
    seq(n, _ => NUL)
  }

  /** A `resize` to n characters followed by a C function writing the text t and its NUL. */
  function Padded(t: string, n: nat): (r: string)
    requires |t| < n
  {
    t + Nuls(n - |t|)
  }

  lemma {:induction false} CStrOfPrefix(t: string, rest: string)
    requires NUL !in t && rest != [] && rest[0] == NUL
    ensures CStr(t + rest) == t
  {
    if t == [] {
      assert t + rest == rest;
    } else {
      assert (t + rest)[1..] == t[1..] + rest;
      CStrOfPrefix(t[1..], rest);
      assert t == [t[0]] + t[1..];
    }
  }

  lemma CStrOfPadded(t: string, n: nat)
    requires |t| < n && NUL !in t
    ensures CStr(Padded(t, n)) == t
  {
    CStrOfPrefix(t, Nuls(n - |t|));
  }

  // ---------------------------------------------------------------- construction from text

  function DetectFamily(inet: Inet, addr: string): (f: U16)
    ensures f in {AF_INET, AF_INET6, AF_UNIX}
  {
    if inet.pton(AF_INET, CStr(addr)).Some? then AF_INET
    else if inet.pton(AF_INET6, CStr(addr)).Some? then AF_INET6
    else AF_UNIX
  }

  function FromText(inet: Inet, addr: string, port: U16): IPSocket {
    IPSocket(addr, port, DetectFamily(inet, addr))
  }

  /** A socket made from text is of the internet family that can read the text up to its first NUL;
      if neither can, it names no address. */
  lemma FromTextReads(inet: Inet, addr: string, port: U16)
    requires Lawful(inet)
    ensures var s := FromText(inet, addr, port);
            && s.addr == addr && s.port == port
            && (Encodable(inet, s) <==> exists f: U16 :: inet.pton(f, CStr(addr)).Some?)
            && (Encodable(inet, s) ==> forall f: U16 :: inet.pton(f, CStr(addr)).Some? ==> s.family == f)
            && (!Encodable(inet, s) ==> s.family == AF_UNIX)
  {
    var s := FromText(inet, addr, port);
    assert forall f: U16 :: inet.pton(f, CStr(addr)).Some? ==> f == AF_INET || f == AF_INET6;
    if Encodable(inet, s) {
      assert inet.pton(s.family, CStr(addr)).Some?;
    }
  }

  // ---------------------------------------------------------------- one record

  function Zeros(n: nat): (r: seq<Byte>)
    ensures |r| == n && forall i :: 0 <= i < n ==> r[i] == 0
  {
    seq(n, _ => 0 as Byte)
  }

  /** The family field is in host order, taken here to be little-endian. */
  function HostU16(n: U16): seq<Byte> {
    [n % 0x100, n / 0x100]
  }

  function FromHostU16(b: seq<Byte>): U16
    requires |b| == 2
  {
    b[1] as int * 0x100 + b[0] as int
  }

  /** The port field is in network order. */
  function NetU16(n: U16): seq<Byte> {
    [n / 0x100, n % 0x100]
  }

  function FromNetU16(b: seq<Byte>): U16
    requires |b| == 2
  {
    b[0] as int * 0x100 + b[1] as int
  }

  /** The numeric address a socket names, if its text can be read in its family. */
  function AddressOf(inet: Inet, s: IPSocket): Option<seq<Byte>> {
    inet.pton(s.family, CStr(s.addr))
  }

  predicate Encodable(inet: Inet, s: IPSocket) {
    AddressOf(inet, s).Some?
  }

  /** The bytes of a sockaddr_in or sockaddr_in6 with the given fields and all others zero. */
  function Record(family: U16, port: U16, address: seq<Byte>): (r: seq<Byte>)
    requires IsInet(family) && |address| == AddrLen(family)
    ensures |r| == if family == AF_INET6 then 28 else 16
  {
    if family == AF_INET6 then
      HostU16(family) + NetU16(port) + Zeros(4) + address + Zeros(4)
    else
      HostU16(family) + NetU16(port) + address + Zeros(8)
  }

  function Encode(inet: Inet, s: IPSocket): Result<seq<Byte>, Error> {
    match AddressOf(inet, s)
    case Some(a) =>
      if IsInet(s.family) && |a| == AddrLen(s.family) then Ok(Record(s.family, s.port, a)) else Err(BadAddress)
    case None => Err(BadAddress)
  }

  function FamilyAt(b: seq<Byte>, c: nat): U16
    requires c + 2 <= |b|
  {
    FromHostU16(b[c..c + 2])
  }

  function SizeAt(b: seq<Byte>, c: nat): nat
    requires c + 2 <= |b|
  {
    if FamilyAt(b, c) == AF_INET6 then 28 else 16
  }

  function PortAt(b: seq<Byte>, c: nat): U16
    requires c + 4 <= |b|
  {
    FromNetU16(b[c + 2..c + 4])
  }

  function AddressAt(b: seq<Byte>, c: nat): seq<Byte>
    requires c + 2 <= |b| && c + SizeAt(b, c) <= |b|
  {
    if FamilyAt(b, c) == AF_INET6 then b[c + 8..c + 24] else b[c + 4..c + 8]
  }

  /** Reads the record at cursor c. A record that does not fit is an error of its own. */
  function DecodeAt(inet: Inet, b: seq<Byte>, c: nat): Result<IPSocket, Error> {
    if c + 2 > |b| || c + SizeAt(b, c) > |b| then Err(OutOfBounds)
    else
      var family := FamilyAt(b, c);
      if !IsInet(family) then Err(BadFamily)
      else
        var text := inet.ntop(family, AddressAt(b, c));
        if |text| < TextLen(family)
        then Ok(IPSocket(Padded(text, TextLen(family)), PortAt(b, c), family))
        else Err(BadAddress)
  }

  // ---------------------------------------------------------------- packed arrays

  function EncodeAll(inet: Inet, sockets: seq<IPSocket>): Result<seq<Byte>, Error> {
    if sockets == [] then Ok([])
    else
      var first :- Encode(inet, sockets[0]);
      var rest :- EncodeAll(inet, sockets[1..]);
      Ok(first + rest)
  }

  /** `count` records from cursor c on, and the cursor after the last of them. */
  function Walk(inet: Inet, b: seq<Byte>, c: nat, count: nat): Result<(seq<IPSocket>, nat), Error>
    decreases count
  {
    if count == 0 then Ok(([], c))
    else
      var s :- DecodeAt(inet, b, c);
      var rest :- Walk(inet, b, c + s.SizeofSockaddr(), count - 1);
      Ok(([s] + rest.0, rest.1))
  }

  /** Packs the sockets one after another; the first unreadable address stops it. */
  method ToSockaddrs(inet: Inet, sockets: seq<IPSocket>) returns (r: Result<seq<Byte>, Error>)
    ensures r == EncodeAll(inet, sockets)
  {
    hide EncodeAll, Encode;
    var bytes: seq<Byte> := [];
    var i := 0;
    assert sockets[0..] == sockets;
    PackOn(inet, bytes, sockets);
    while i < |sockets|
      invariant 0 <= i <= |sockets|
      invariant EncodeAll(inet, sockets) == PackedAfter(inet, bytes, sockets[i..])
    {
      PackOn(inet, bytes, sockets[i..]);
      var record := Encode(inet, sockets[i]);
      assert sockets[i..][1..] == sockets[i + 1..];
      if record.Err? {
        return Err(record.error);
      }
      bytes := bytes + record.value;
      i := i + 1;
    }
    PackOn(inet, bytes, sockets[i..]);
    r := Ok(bytes);
  }

  /** The packed array when `bytes` have been packed and `sockets` are still to come. */
  function PackedAfter(inet: Inet, bytes: seq<Byte>, sockets: seq<IPSocket>): Result<seq<Byte>, Error> {
    match EncodeAll(inet, sockets)
    case Ok(rest) => Ok(bytes + rest)
    case Err(e) => Err(e)
  }

  lemma PackOn(inet: Inet, bytes: seq<Byte>, sockets: seq<IPSocket>)
    ensures PackedAfter(inet, [], sockets) == EncodeAll(inet, sockets)
    ensures sockets == [] ==> PackedAfter(inet, bytes, sockets) == Ok(bytes)
    ensures sockets != [] ==>
              PackedAfter(inet, bytes, sockets) ==
              var record := Encode(inet, sockets[0]);
              if record.Err? then Err(record.error)
              else PackedAfter(inet, bytes + record.value, sockets[1..])
  {
    hide Encode;
    var all := EncodeAll(inet, sockets);
    assert bytes + [] == bytes;
    assert all.Ok? ==> [] + all.value == all.value;
    if sockets != [] && Encode(inet, sockets[0]).Ok? {
      var record, more := Encode(inet, sockets[0]).value, EncodeAll(inet, sockets[1..]);
      assert more.Ok? ==> bytes + (record + more.value) == (bytes + record) + more.value;
    }
  }

  /** The walk over what the kernel returned: `count` records, each as long as its own family says. */
  method GetAddrs(inet: Inet, b: seq<Byte>, count: nat) returns (r: Result<seq<IPSocket>, Error>, end: nat)
    ensures match Walk(inet, b, 0, count)
            case Ok(w) => r == Ok(w.0) && end == w.1
            case Err(e) => r == Err(e)
  {
    hide Walk, DecodeAt;
    var sockets: seq<IPSocket> := [];
    end := 0;
    var i := 0;
    WalkOn(inet, b, 0, sockets, count);
    while i < count
      invariant 0 <= i <= count
      invariant Walk(inet, b, 0, count) == WalkAfter(inet, b, sockets, end, count - i)
    {
      WalkOn(inet, b, end, sockets, count - i);
      var s := DecodeAt(inet, b, end);
      if s.Err? {
        return Err(s.error), end;
      }
      sockets := sockets + [s.value];
      end := end + s.value.SizeofSockaddr();
      i := i + 1;
    }
    WalkOn(inet, b, end, sockets, 0);
    r := Ok(sockets);
  }

  /** The walk's result when `found` was found before the cursor and count records are to come. */
  function WalkAfter(inet: Inet, b: seq<Byte>, found: seq<IPSocket>, c: nat, count: nat)
    : Result<(seq<IPSocket>, nat), Error>
  {
    match Walk(inet, b, c, count)
    case Ok(w) => Ok((found + w.0, w.1))
    case Err(e) => Err(e)
  }

  lemma WalkOn(inet: Inet, b: seq<Byte>, c: nat, found: seq<IPSocket>, count: nat)
    ensures WalkAfter(inet, b, [], c, count) == Walk(inet, b, c, count)
    ensures count == 0 ==> WalkAfter(inet, b, found, c, count) == Ok((found, c))
    ensures count > 0 ==>
              WalkAfter(inet, b, found, c, count) ==
              var s := DecodeAt(inet, b, c);
              if s.Err? then Err(s.error)
              else WalkAfter(inet, b, found + [s.value], c + s.value.SizeofSockaddr(), count - 1)
  {
    hide DecodeAt;
    var w := Walk(inet, b, c, count);
    assert found + [] == found;
    assert w.Ok? ==> [] + w.value.0 == w.value.0;
    if count > 0 && DecodeAt(inet, b, c).Ok? {
      var s := DecodeAt(inet, b, c).value;
      var more := Walk(inet, b, c + s.SizeofSockaddr(), count - 1);
      assert more.Ok? ==> found + ([s] + more.value.0) == (found + [s]) + more.value.0;
    }
  }

  // ---------------------------------------------------------------- what a round trip keeps

  /** Two sockets name the same endpoint: family, port and numeric address agree. */
  predicate SameEndpoint(inet: Inet, s: IPSocket, t: IPSocket) {
    s.family == t.family && s.port == t.port && AddressOf(inet, s) == AddressOf(inet, t)
  }

  /** s is what decoding gives for the endpoint it names: canonical text, NULs up to the fixed width. */
  predicate Decoded(inet: Inet, s: IPSocket) {
    && IsInet(s.family)
    && AddressOf(inet, s).Some?
    && var text := inet.ntop(s.family, AddressOf(inet, s).value);
    && |text| < TextLen(s.family)
    && s.addr == Padded(text, TextLen(s.family))
  }

  /** Socket by socket, `found` is the decoded form of `sockets`. */
  ghost predicate CanonicalFor(inet: Inet, found: seq<IPSocket>, sockets: seq<IPSocket>) {
    && |found| == |sockets|
    && forall i :: 0 <= i < |sockets| ==> SameEndpoint(inet, found[i], sockets[i]) && Decoded(inet, found[i])
  }

  lemma CanonicalForCons(inet: Inet, d: IPSocket, found: seq<IPSocket>, sockets: seq<IPSocket>)
    requires sockets != [] && SameEndpoint(inet, d, sockets[0]) && Decoded(inet, d)
    requires CanonicalFor(inet, found, sockets[1..])
    ensures CanonicalFor(inet, [d] + found, sockets)
  {
    forall i | 0 <= i < |sockets|
      ensures SameEndpoint(inet, ([d] + found)[i], sockets[i]) && Decoded(inet, ([d] + found)[i])
    {
      if i > 0 {
        assert sockets[i] == sockets[1..][i - 1] && ([d] + found)[i] == found[i - 1];
      }
    }
  }

  lemma RecordFields(pre: seq<Byte>, family: U16, port: U16, address: seq<Byte>, post: seq<Byte>)
    requires IsInet(family) && |address| == AddrLen(family)
    ensures var b := pre + Record(family, port, address) + post;
            && FamilyAt(b, |pre|) == family
            && |pre| + SizeAt(b, |pre|) <= |b|
            && PortAt(b, |pre|) == port
            && AddressAt(b, |pre|) == address
  {
    var r := Record(family, port, address);
    var b := pre + r + post;
    var c := |pre|;
    assert b[c..c + 2] == r[..2] == HostU16(family);
    assert b[c + 2..c + 4] == r[2..4] == NetU16(port);
    if family == AF_INET6 {
      assert b[c + 8..c + 24] == r[8..24] == address;
    } else {
      assert b[c + 4..c + 8] == r[4..8] == address;
    }
  }

  /** A record that encoding wrote decodes, anywhere in a buffer, to the canonical socket of the same endpoint. */
  lemma DecodeOfEncode(inet: Inet, pre: seq<Byte>, s: IPSocket, post: seq<Byte>)
    requires Lawful(inet) && Encodable(inet, s)
    ensures Encode(inet, s).Ok? && |Encode(inet, s).value| == s.SizeofSockaddr()
    ensures var d := DecodeAt(inet, pre + Encode(inet, s).value + post, |pre|);
            d.Ok? && SameEndpoint(inet, d.value, s) && Decoded(inet, d.value)
  {
    var a := AddressOf(inet, s).value;
    RecordFields(pre, s.family, s.port, a, post);
    var text := inet.ntop(s.family, a);
    CStrOfPadded(text, TextLen(s.family));
  }

  /** Packing fails on exactly the lists that hold an unreadable address, and for that reason. */
  lemma {:induction false} EncodeAllOkIff(inet: Inet, sockets: seq<IPSocket>)
    requires Lawful(inet)
    ensures EncodeAll(inet, sockets).Ok? <==> forall s :: s in sockets ==> Encodable(inet, s)
    ensures EncodeAll(inet, sockets).Err? ==> EncodeAll(inet, sockets).error == BadAddress
  {
    if sockets != [] {
      EncodeAllOkIff(inet, sockets[1..]);
      assert sockets == [sockets[0]] + sockets[1..];
      if Encodable(inet, sockets[0]) {
        DecodeOfEncode(inet, [], sockets[0], []);
      }
    }
  }

  lemma WalkCons(inet: Inet, b: seq<Byte>, c: nat, n: nat, d: IPSocket, rest: (seq<IPSocket>, nat))
    requires n > 0 && DecodeAt(inet, b, c) == Ok(d)
    requires Walk(inet, b, c + d.SizeofSockaddr(), n - 1) == Ok(rest)
    ensures Walk(inet, b, c, n) == Ok(([d] + rest.0, rest.1))
  {
  }

  /** The first record of a packed array that starts at |pre|. */
  lemma DecodeHead(inet: Inet, b: seq<Byte>, pre: seq<Byte>, s: IPSocket, rest: seq<Byte>)
    requires Lawful(inet) && Encode(inet, s).Ok? && b == pre + (Encode(inet, s).value + rest)
    ensures var d := DecodeAt(inet, b, |pre|);
            && d.Ok? && SameEndpoint(inet, d.value, s) && Decoded(inet, d.value)
            && |pre + Encode(inet, s).value| == |pre| + d.value.SizeofSockaddr()
  {
    assert b == pre + Encode(inet, s).value + rest;
    DecodeOfEncode(inet, pre, s, rest);
  }

  lemma EncodeAllParts(inet: Inet, sockets: seq<IPSocket>)
    requires sockets != [] && EncodeAll(inet, sockets).Ok?
    ensures Encode(inet, sockets[0]).Ok? && EncodeAll(inet, sockets[1..]).Ok?
    ensures EncodeAll(inet, sockets).value == Encode(inet, sockets[0]).value + EncodeAll(inet, sockets[1..]).value
  {
  }

  lemma {:induction false} WalkOfEncodeAllAt(inet: Inet, b: seq<Byte>, pre: seq<Byte>, sockets: seq<IPSocket>)
    requires Lawful(inet) && EncodeAll(inet, sockets).Ok?
    requires b == pre + EncodeAll(inet, sockets).value
    ensures var w := Walk(inet, b, |pre|, |sockets|);
            w.Ok? && w.value.1 == |b| && CanonicalFor(inet, w.value.0, sockets)
    decreases |sockets|
  {
    hide Encode, DecodeAt, Lawful, Decoded, SameEndpoint;
    if sockets != [] {
      EncodeAllParts(inet, sockets);
      var first, rest := Encode(inet, sockets[0]).value, EncodeAll(inet, sockets[1..]).value;
      DecodeHead(inet, b, pre, sockets[0], rest);
      assert b == (pre + first) + rest;
      WalkOfEncodeAllAt(inet, b, pre + first, sockets[1..]);
      var d := DecodeAt(inet, b, |pre|).value;
      var w := Walk(inet, b, |pre + first|, |sockets[1..]|).value;
      WalkCons(inet, b, |pre|, |sockets|, d, w);
      CanonicalForCons(inet, d, w.0, sockets);
    }
  }

  /** Packed-address round trip: the walk stays in bounds, takes one step a socket, ends exactly at
      the end of the buffer and returns the same endpoints in order. */
  lemma WalkOfEncodeAll(inet: Inet, sockets: seq<IPSocket>)
    requires Lawful(inet) && forall s :: s in sockets ==> Encodable(inet, s)
    ensures EncodeAll(inet, sockets).Ok?
    ensures var b := EncodeAll(inet, sockets).value;
            var w := Walk(inet, b, 0, |sockets|);
            w.Ok? && w.value.1 == |b| && CanonicalFor(inet, w.value.0, sockets)
  {
    EncodeAllOkIff(inet, sockets);
    var b := EncodeAll(inet, sockets).value;
    assert b == [] + b;
    WalkOfEncodeAllAt(inet, b, [], sockets);
  }

  lemma {:induction false} EncodeAllRespectsEndpoints(inet: Inet, s: seq<IPSocket>, t: seq<IPSocket>)
    requires |s| == |t| && forall i :: 0 <= i < |s| ==> SameEndpoint(inet, s[i], t[i])
    ensures EncodeAll(inet, s) == EncodeAll(inet, t)
  {
    if s != [] {
      assert SameEndpoint(inet, s[0], t[0]);
      EncodeAllRespectsEndpoints(inet, s[1..], t[1..]);
    }
  }

  /** Packing what the walk returned gives the packed array back, byte for byte. */
  lemma EncodeOfWalkOfEncode(inet: Inet, sockets: seq<IPSocket>)
    requires Lawful(inet) && forall s :: s in sockets ==> Encodable(inet, s)
    ensures EncodeAll(inet, sockets).Ok?
    ensures var b := EncodeAll(inet, sockets).value;
            var w := Walk(inet, b, 0, |sockets|);
            w.Ok? && EncodeAll(inet, w.value.0) == Ok(b)
  {
    WalkOfEncodeAll(inet, sockets);
    EncodeAllRespectsEndpoints(inet, Walk(inet, EncodeAll(inet, sockets).value, 0, |sockets|).value.0, sockets);
  }

  // ---------------------------------------------------------------- the bytes of a record

  /** Where the bytes of a record are: the family first, in little-endian order; the port next, in
      network order; the address at 4 in a v4 record and at 8 in a v6 one; and zeros elsewhere. */
  lemma RecordLayout(inet: Inet, s: IPSocket)
    requires Lawful(inet) && Encodable(inet, s)
    ensures Encode(inet, s).Ok?
    ensures var r, a := Encode(inet, s).value, AddressOf(inet, s).value;
            && r[0] == (if s.IsIPv6() then 10 else 2) && r[1] == 0
            && r[2] as int * 0x100 + r[3] as int == s.port
            && if s.IsIPv6() then
                 |r| == 28 && |a| == 16 && r[8..24] == a
                 && forall i :: 4 <= i < 8 || 24 <= i < 28 ==> r[i] == 0
               else
                 |r| == 16 && |a| == 4 && r[4..8] == a && forall i :: 8 <= i < 16 ==> r[i] == 0
  {
    var r, a := Encode(inet, s).value, AddressOf(inet, s).value;
    if s.IsIPv6() {
      assert r[8..24] == a;
    } else {
      assert r[4..8] == a;
    }
  }

  /** The record at c is complete and of an internet family, going by its first two bytes. */
  predicate Readable(b: seq<Byte>, c: nat) {
    && c + 2 <= |b| && b[c + 1] == 0
    && ((b[c] == 2 && c + 16 <= |b|) || (b[c] == 10 && c + 28 <= |b|))
  }

  /** Decoding accepts exactly the readable records, whatever their other bytes are. */
  lemma DecodeAtOkIff(inet: Inet, b: seq<Byte>, c: nat)
    requires Lawful(inet)
    ensures DecodeAt(inet, b, c).Ok? <==> Readable(b, c)
  {
    if c + 2 <= |b| {
      assert FamilyAt(b, c) == b[c + 1] as int * 0x100 + b[c] as int;
      if c + SizeAt(b, c) <= |b| && IsInet(FamilyAt(b, c)) {
        assert inet.pton(FamilyAt(b, c), inet.ntop(FamilyAt(b, c), AddressAt(b, c))).Some?;
      }
    }
  }

  /** And it gives the family, port and address of their bytes; the address in the library's text,
      with NULs up to 16 or 46 characters. */
  lemma DecodeAtReads(inet: Inet, b: seq<Byte>, c: nat)
    requires Lawful(inet) && Readable(b, c)
    ensures DecodeAt(inet, b, c).Ok?
    ensures var d := DecodeAt(inet, b, c).value;
            var text := inet.ntop(d.family, if b[c] == 10 then b[c + 8..c + 24] else b[c + 4..c + 8]);
            && Decoded(inet, d)
            && |text| < |d.addr| == (if b[c] == 10 then 46 else 16)
            && text <= d.addr && (forall i :: |text| <= i < |d.addr| ==> d.addr[i] == '\0')
            && d.family == (if b[c] == 10 then AF_INET6 else AF_INET)
            && d.port == b[c + 2] as int * 0x100 + b[c + 3] as int
            && AddressOf(inet, d) == Some(if b[c] == 10 then b[c + 8..c + 24] else b[c + 4..c + 8])
  {
    DecodeAtOkIff(inet, b, c);
    CStrOfPadded(inet.ntop(FamilyAt(b, c), AddressAt(b, c)), TextLen(FamilyAt(b, c)));
  }

  /** A record that is not complete is out of bounds; a complete one of another family is told apart. */
  lemma DecodeAtFails(inet: Inet, b: seq<Byte>, c: nat)
    requires Lawful(inet) && !Readable(b, c)
    ensures var complete := c + 2 <= |b| && c + (if b[c] == 10 && b[c + 1] == 0 then 28 else 16) <= |b|;
            DecodeAt(inet, b, c) == Err(if complete then BadFamily else OutOfBounds)
  {
    DecodeAtOkIff(inet, b, c);
    if c + 2 <= |b| {
      assert FamilyAt(b, c) == b[c + 1] as int * 0x100 + b[c] as int;
    }
  }

  // ---------------------------------------------------------------- arrays the kernel wrote

  /** How long the record at c is, by its first two bytes. */
  function Width(b: seq<Byte>, c: nat): nat
    requires Readable(b, c)
  {
    if b[c] == 10 then 28 else 16
  }

  /** Where the i-th of the records from c on starts, as long as they are readable. */
  function Offset(b: seq<Byte>, c: nat, i: nat): nat
    decreases i
  {
    if i == 0 || !Readable(b, c) then c else Offset(b, c + Width(b, c), i - 1)
  }

  predicate AllReadable(b: seq<Byte>, c: nat, n: nat) {
    forall i: nat :: i < n ==> Readable(b, Offset(b, c, i))
  }

  lemma AllReadableStep(b: seq<Byte>, c: nat, n: nat)
    requires n > 0
    ensures AllReadable(b, c, n) <==> Readable(b, c) && AllReadable(b, c + Width(b, c), n - 1)
  {
    assert Offset(b, c, 0) == c;
    if Readable(b, c) {
      var next := c + Width(b, c);
      assert forall i: nat :: i < n - 1 ==> Offset(b, next, i) == Offset(b, c, i + 1);
      if AllReadable(b, c, n) {
        forall i: nat | i < n - 1
          ensures Readable(b, Offset(b, next, i))
        {
          assert Readable(b, Offset(b, c, i + 1));
        }
      }
      if AllReadable(b, next, n - 1) {
        forall i: nat | i < n
          ensures Readable(b, Offset(b, c, i))
        {
          if i > 0 {
            assert Readable(b, Offset(b, next, i - 1));
          }
        }
      }
    }
  }

  /** A walk accepts exactly the arrays whose records are all readable, each found where the widths of
      those before it lead; it returns what each of them decodes to, and ends after the last. */
  lemma {:induction false} WalkOkIff(inet: Inet, b: seq<Byte>, c: nat, n: nat)
    requires Lawful(inet)
    ensures Walk(inet, b, c, n).Ok? <==> AllReadable(b, c, n)
    ensures Walk(inet, b, c, n).Ok? ==>
              var w := Walk(inet, b, c, n).value;
              && |w.0| == n && w.1 == Offset(b, c, n)
              && forall i: nat :: i < n ==> Ok(w.0[i]) == DecodeAt(inet, b, Offset(b, c, i))
    decreases n
  {
    hide DecodeAt, Lawful, AllReadable, Readable;
    if n > 0 {
      AllReadableStep(b, c, n);
      DecodeAtOkIff(inet, b, c);
      if Readable(b, c) {
        DecodedWidth(inet, b, c);
        WalkOkIff(inet, b, c + Width(b, c), n - 1);
      }
    } else {
      NothingToRead(b, c);
    }
  }

  lemma NothingToRead(b: seq<Byte>, c: nat)
    ensures AllReadable(b, c, 0)
  {
  }

  lemma DecodedWidth(inet: Inet, b: seq<Byte>, c: nat)
    requires Lawful(inet) && Readable(b, c)
    ensures DecodeAt(inet, b, c).Ok? && DecodeAt(inet, b, c).value.SizeofSockaddr() == Width(b, c)
  {
    DecodeAtReads(inet, b, c);
  }

  /** A walk that fails does so at the first record that is not readable, with that record's error. */
  lemma {:induction false} WalkFailsAtFirst(inet: Inet, b: seq<Byte>, c: nat, n: nat) returns (k: nat)
    requires Lawful(inet) && Walk(inet, b, c, n).Err?
    ensures k < n && AllReadable(b, c, k) && !Readable(b, Offset(b, c, k))
    ensures Walk(inet, b, c, n).error == DecodeAt(inet, b, Offset(b, c, k)).error
    decreases n
  {
    hide DecodeAt, Lawful, AllReadable, Readable;
    DecodeAtOkIff(inet, b, c);
    if Readable(b, c) {
      DecodedWidth(inet, b, c);
      var j := WalkFailsAtFirst(inet, b, c + Width(b, c), n - 1);
      k := j + 1;
      AllReadableStep(b, c, k);
    } else {
      k := 0;
      NothingToRead(b, c);
    }
  }

  /** The parts of the record at c that decoding ignores: sin_zero, or flow label and scope id. */
  predicate IgnoredAreZero(b: seq<Byte>, c: nat)
    requires c + 2 <= |b| && c + SizeAt(b, c) <= |b|
  {
    if FamilyAt(b, c) == AF_INET6 then b[c + 4..c + 8] == Zeros(4) && b[c + 24..c + 28] == Zeros(4)
    else b[c + 8..c + 16] == Zeros(8)
  }

  /** Every one of the n records from c on has zeros where decoding does not look. */
  predicate AllIgnoredAreZero(b: seq<Byte>, c: nat, n: nat)
    decreases n
  {
    n == 0 ||
    (c + 2 <= |b| && c + SizeAt(b, c) <= |b| && IgnoredAreZero(b, c) && AllIgnoredAreZero(b, c + SizeAt(b, c), n - 1))
  }

  lemma HostU16Inverse(b: seq<Byte>)
    requires |b| == 2
    ensures HostU16(FromHostU16(b)) == b
  {
  }

  lemma NetU16Inverse(b: seq<Byte>)
    requires |b| == 2
    ensures NetU16(FromNetU16(b)) == b
  {
  }

  lemma EqualPiecewise(x: seq<Byte>, y: seq<Byte>, p: seq<Byte>, q: seq<Byte>)
    requires |x| == |p|
    ensures x + y == p + q <==> x == p && y == q
  {
    assert (x + y)[..|x|] == x && (x + y)[|x|..] == y;
    assert (p + q)[..|x|] == p && (p + q)[|x|..] == q;
  }

  /** Writing the fields of the record at c afresh restores its bytes exactly when the others are zero. */
  lemma RecordOfFieldsIff(b: seq<Byte>, c: nat)
    requires c + 2 <= |b| && c + SizeAt(b, c) <= |b| && IsInet(FamilyAt(b, c))
    ensures Record(FamilyAt(b, c), PortAt(b, c), AddressAt(b, c)) == b[c..c + SizeAt(b, c)] <==> IgnoredAreZero(b, c)
  {
    HostU16Inverse(b[c..c + 2]);
    NetU16Inverse(b[c + 2..c + 4]);
    var head := b[c..c + 2] + b[c + 2..c + 4];
    if FamilyAt(b, c) == AF_INET6 {
      var flow, a, scope := b[c + 4..c + 8], b[c + 8..c + 24], b[c + 24..c + 28];
      assert b[c..c + 28] == head + flow + a + scope;
      EqualPiecewise(head + Zeros(4) + a, Zeros(4), head + flow + a, scope);
      EqualPiecewise(head + Zeros(4), a, head + flow, a);
      EqualPiecewise(head, Zeros(4), head, flow);
    } else {
      var a, rest := b[c + 4..c + 8], b[c + 8..c + 16];
      assert b[c..c + 16] == head + a + rest;
      EqualPiecewise(head + a, Zeros(8), head + a, rest);
    }
  }

  lemma EncodeOfDecodeAt(inet: Inet, b: seq<Byte>, c: nat)
    requires Lawful(inet) && DecodeAt(inet, b, c).Ok?
    ensures var d := DecodeAt(inet, b, c).value;
            && Decoded(inet, d)
            && d.SizeofSockaddr() == SizeAt(b, c)
            && Encode(inet, d) == Ok(Record(FamilyAt(b, c), PortAt(b, c), AddressAt(b, c)))
  {
    CStrOfPadded(inet.ntop(FamilyAt(b, c), AddressAt(b, c)), TextLen(FamilyAt(b, c)));
  }

  /** One step of an accepted walk, and what packing its result starts with. */
  lemma WalkStep(inet: Inet, b: seq<Byte>, c: nat, n: nat)
    requires Lawful(inet) && n > 0 && Walk(inet, b, c, n).Ok?
    ensures DecodeAt(inet, b, c).Ok? && c + 2 <= |b| && c + SizeAt(b, c) <= |b|
    ensures var d := DecodeAt(inet, b, c).value;
            var rest := Walk(inet, b, c + SizeAt(b, c), n - 1);
            && rest.Ok?
            && Walk(inet, b, c, n).value == ([d] + rest.value.0, rest.value.1)
            && Encode(inet, d).Ok?
            && |Encode(inet, d).value| == SizeAt(b, c)
            && (Encode(inet, d).value == b[c..c + SizeAt(b, c)] <==> IgnoredAreZero(b, c))
  {
    EncodeOfDecodeAt(inet, b, c);
    RecordOfFieldsIff(b, c);
    hide Encode, Record, Lawful, IgnoredAreZero;
  }

  lemma EncodeAllCons(inet: Inet, d: IPSocket, rest: seq<IPSocket>)
    requires Encode(inet, d).Ok? && EncodeAll(inet, rest).Ok?
    ensures EncodeAll(inet, [d] + rest) == Ok(Encode(inet, d).value + EncodeAll(inet, rest).value)
  {
    assert ([d] + rest)[1..] == rest;
  }

  /** An accepted walk stays in the buffer, and its result packs into as many bytes as it walked. */
  lemma {:induction false} WalkStaysInside(inet: Inet, b: seq<Byte>, c: nat, n: nat)
    requires Lawful(inet) && Walk(inet, b, c, n).Ok? && c <= |b|
    ensures var w := Walk(inet, b, c, n).value;
            && |w.0| == n
            && c <= w.1 <= |b|
            && EncodeAll(inet, w.0).Ok?
            && |EncodeAll(inet, w.0).value| == w.1 - c
    decreases n
  {
    hide Encode, DecodeAt, Lawful, IgnoredAreZero, SizeAt;
    if n > 0 {
      WalkStep(inet, b, c, n);
      var m := c + SizeAt(b, c);
      WalkStaysInside(inet, b, m, n - 1);
      EncodeAllCons(inet, DecodeAt(inet, b, c).value, Walk(inet, b, m, n - 1).value.0);
    }
  }

  lemma AllIgnoredAreZeroStep(b: seq<Byte>, c: nat, n: nat)
    requires n > 0 && c + 2 <= |b| && c + SizeAt(b, c) <= |b|
    ensures AllIgnoredAreZero(b, c, n) <==> IgnoredAreZero(b, c) && AllIgnoredAreZero(b, c + SizeAt(b, c), n - 1)
  {
  }

  lemma EncodeOfWalkNone(inet: Inet, b: seq<Byte>, c: nat)
    requires c <= |b|
    ensures Walk(inet, b, c, 0) == Ok(([], c)) && EncodeAll(inet, []) == Ok(b[c..c]) && AllIgnoredAreZero(b, c, 0)
  {
    assert b[c..c] == [];
  }

  /** Whatever array the walk accepts: packing its result restores the walked bytes exactly when
      the fields the walk skips (sin_zero, flow label, scope id) were zero in every record. */
  lemma {:induction false} EncodeOfWalkIff(inet: Inet, b: seq<Byte>, c: nat, n: nat)
    requires Lawful(inet) && Walk(inet, b, c, n).Ok? && c <= |b|
    ensures var w := Walk(inet, b, c, n).value;
            && c <= w.1 <= |b|
            && (EncodeAll(inet, w.0) == Ok(b[c..w.1]) <==> AllIgnoredAreZero(b, c, n))
    decreases n
  {
    hide DecodeAt, Encode, EncodeAll, Walk, IgnoredAreZero, AllIgnoredAreZero, SizeAt, Lawful;
    WalkStaysInside(inet, b, c, n);
    if n == 0 {
      EncodeOfWalkNone(inet, b, c);
    } else {
      WalkStep(inet, b, c, n);
      var m := c + SizeAt(b, c);
      WalkStaysInside(inet, b, m, n - 1);
      EncodeOfWalkIff(inet, b, m, n - 1);
      AllIgnoredAreZeroStep(b, c, n);
      var d, rest := DecodeAt(inet, b, c).value, Walk(inet, b, m, n - 1).value;
      EncodeAllCons(inet, d, rest.0);
      assert b[c..rest.1] == b[c..m] + b[m..rest.1];
      EqualPiecewise(Encode(inet, d).value, EncodeAll(inet, rest.0).value, b[c..m], b[m..rest.1]);
    }
  }

  // ---------------------------------------------------------------- sockets as map keys

  /** Fixed-width padding does no harm among decoded sockets: they are equal as
      (addr, port, family) exactly when they name the same endpoint. */
  lemma DecodedKeysEqualIff(inet: Inet, s: IPSocket, t: IPSocket)
    requires Decoded(inet, s) && Decoded(inet, t)
    ensures s == t <==> SameEndpoint(inet, s, t)
  {
  }

  /** A socket built from text without NULs is never equal to a decoded one, even for the same
      endpoint: the decoded text is always padded. */
  lemma TextKeyIsNotDecoded(inet: Inet, s: IPSocket, t: IPSocket)
    requires NUL !in s.addr && Decoded(inet, t)
    ensures s != t
  {
    var text := inet.ntop(t.family, AddressOf(inet, t).value);
    assert t.addr[|text|] == NUL;
  }

  /** Where a datagram for s arrives, as its receiver's own address is seen by others. */
  function Route(inet: Inet, s: IPSocket): IPSocket {
    match Encode(inet, s)
    case Ok(b) => (match DecodeAt(inet, b, 0) case Ok(d) => d case Err(_) => s)
    case Err(_) => s
  }

  /** Routing names the same endpoint in decoded form, and leaves decoded sockets alone. */
  lemma RouteIsCanonical(inet: Inet, s: IPSocket)
    requires Lawful(inet) && Encodable(inet, s)
    ensures SameEndpoint(inet, Route(inet, s), s) && Decoded(inet, Route(inet, s))
    ensures Route(inet, s) == s <==> Decoded(inet, s)
  {
    DecodeOfEncode(inet, [], s, []);
    assert [] + Encode(inet, s).value + [] == Encode(inet, s).value;
    if Decoded(inet, s) {
      DecodedKeysEqualIff(inet, Route(inet, s), s);
    }
  }

  // ---------------------------------------------------------------- the laws can be met

  function SampleNtop(f: U16, a: seq<Byte>): string {
    seq(|a|, i requires 0 <= i < |a| => (a[i] as int + 1) as char)
  }

  function SamplePton(f: U16, t: string): Option<seq<Byte>> {
    if IsInet(f) && |t| == AddrLen(f) && forall i :: 0 <= i < |t| ==> 1 <= t[i] as int <= 0x100
    then Some(seq(|t|, i requires 0 <= i < |t| => (t[i] as int - 1) as Byte))
    else None
  }

  /** The assumptions on the C library are consistent. */
  lemma LawfulIsSatisfiable()
    ensures Lawful(Inet((f: U16, a: seq<Byte>) => SampleNtop(f, a), (f: U16, t: string) => SamplePton(f, t)))
  {
    forall f: U16, a: seq<Byte> | IsInet(f) && |a| == AddrLen(f)
      ensures SamplePton(f, SampleNtop(f, a)) == Some(a)
    {
      assert SamplePton(f, SampleNtop(f, a)).value == a;
    }
  }
}
