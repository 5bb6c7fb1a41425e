// The private transport of virtual serial devices: little-endian frames with a fixed header and
// type-length-value fields.

module VirtualSerialProtocol {
  import opened Common

  type u16 = x: int | 0 <= x < 0x1_0000
  type u32 = x: int | 0 <= x < 0x1_0000_0000
  type u64 = x: int | 0 <= x < 0x1_0000_0000_0000_0000

  const MAGIC: bytes := [0x43, 0x48, 0x56, 0x53]
  const HEADER_LEN: nat := 40
  const ABSOLUTE_MAX_FRAME_LEN: nat := 1024 * 1024
  const FIELD_HEADER_LEN: nat := 6

  // ---- Little-endian integers ----

  function Pow256(n: nat): (r: nat)
    ensures r >= 1
  {
    if n == 0 then 1 else 256 * Pow256(n - 1)
  }

  function ToLe(n: nat, v: nat): (b: bytes)
    ensures |b| == n
  {
    if n == 0 then [] else [v % 256] + ToLe(n - 1, v / 256)
  }

  function FromLe(b: bytes): nat {
    if b == [] then 0 else b[0] + 256 * FromLe(b[1..])
  }

  lemma {:induction false} LeRoundTrip(n: nat, v: nat)
    requires v < Pow256(n)
    ensures FromLe(ToLe(n, v)) == v
  {
    if n > 0 {
      assert ToLe(n, v)[1..] == ToLe(n - 1, v / 256);
      LeRoundTrip(n - 1, v / 256);
    }
  }

  lemma {:induction false} LeUnique(b: bytes)
    ensures FromLe(b) < Pow256(|b|)
    ensures ToLe(|b|, FromLe(b)) == b
  {
    if b != [] {
      LeUnique(b[1..]);
      assert b == [b[0]] + b[1..];
    }
  }

  lemma Widths()
    ensures Pow256(2) == 0x1_0000 && Pow256(4) == 0x1_0000_0000
    ensures Pow256(8) == 0x1_0000_0000_0000_0000
  {
    assert Pow256(3) == 256 * Pow256(2);
    assert Pow256(5) == 256 * Pow256(4);
    assert Pow256(6) == 256 * Pow256(5);
    assert Pow256(7) == 256 * Pow256(6);
  }

  function ReadU16(b: bytes, at: nat): u16
    requires at + 2 <= |b|
  {
    Widths();
    LeUnique(b[at..at + 2]);
    FromLe(b[at..at + 2])
  }

  function ReadU32(b: bytes, at: nat): u32
    requires at + 4 <= |b|
  {
    Widths();
    LeUnique(b[at..at + 4]);
    FromLe(b[at..at + 4])
  }

  function ReadU64(b: bytes, at: nat): u64
    requires at + 8 <= |b|
  {
    Widths();
    LeUnique(b[at..at + 8]);
    FromLe(b[at..at + 8])
  }

  // ---- Versions ----

  datatype Version = Version(major: u16, minor: u16) {
    predicate AtMost(other: Version) {
      major < other.major || (major == other.major && minor <= other.minor)
    }
  }

  function Higher(a: Version, b: Version): Version {
    if a.AtMost(b) then b else a
  }

  function Lower(a: Version, b: Version): Version {
    if a.AtMost(b) then a else b
  }

  function Negotiate(localMin: Version, localMax: Version, peerMin: Version, peerMax: Version): Option<Version> {
    if localMin.major != localMax.major || peerMin.major != peerMax.major || localMax.major != peerMax.major then None
    else
      var minimum := Higher(localMin, peerMin);
      var maximum := Lower(localMax, peerMax);
      if minimum.AtMost(maximum) then Some(maximum) else None
  }

  predicate Supported(v: Version, min: Version, max: Version) {
    min.AtMost(v) && v.AtMost(max)
  }

  predicate OneMajor(localMin: Version, localMax: Version, peerMin: Version, peerMax: Version) {
    localMin.major == localMax.major == peerMin.major == peerMax.major
  }

  // Both sides pick the same version: the highest one that both support, within one major
  // generation; and none exactly when there is no such version.
  lemma NegotiationIsTheHighestCommonVersion(a: Version, b: Version, c: Version, d: Version)
    ensures Negotiate(a, b, c, d) == Negotiate(c, d, a, b)
    ensures forall v :: Negotiate(a, b, c, d) == Some(v) <==>
              OneMajor(a, b, c, d) && Supported(v, a, b) && Supported(v, c, d)
              && forall w | Supported(w, a, b) && Supported(w, c, d) :: w.AtMost(v)
    ensures Negotiate(a, b, c, d).None? <==>
              !OneMajor(a, b, c, d) || !exists v :: Supported(v, a, b) && Supported(v, c, d)
  {
    var top := Lower(b, d);
    forall v
      ensures Negotiate(a, b, c, d) == Some(v) <==>
              OneMajor(a, b, c, d) && Supported(v, a, b) && Supported(v, c, d)
              && forall w | Supported(w, a, b) && Supported(w, c, d) :: w.AtMost(v)
    {
      if Supported(v, a, b) && Supported(v, c, d) {
        assert Supported(top, a, b) && Supported(top, c, d);
      }
    }
    if OneMajor(a, b, c, d) && Negotiate(a, b, c, d).None? {
      forall v ensures !(Supported(v, a, b) && Supported(v, c, d)) {
      }
    }
  }

  // ---- Messages ----

  datatype MessageKind =
    | Hello | HelloAck | Discover | Endpoint | DiscoverComplete | Attach | AttachAck | Detach
    | Data | WindowUpdate | SerialConfig | ModemControl | ModemStatus | ApplicationOpen
    | ApplicationClose | Cancel | Purge | Health | HealthAck | Error

  function KindNumber(k: MessageKind): (n: u16)
    ensures 1 <= n <= 20 && KindOf(n) == Some(k)
  {
    match k
    case Hello => 1 case HelloAck => 2 case Discover => 3 case Endpoint => 4
    case DiscoverComplete => 5 case Attach => 6 case AttachAck => 7 case Detach => 8
    case Data => 9 case WindowUpdate => 10 case SerialConfig => 11 case ModemControl => 12
    case ModemStatus => 13 case ApplicationOpen => 14 case ApplicationClose => 15 case Cancel => 16
    case Purge => 17 case Health => 18 case HealthAck => 19 case Error => 20
  }

  function KindOf(n: u16): Option<MessageKind> {
    match n
    case 1 => Some(Hello) case 2 => Some(HelloAck) case 3 => Some(Discover) case 4 => Some(Endpoint)
    case 5 => Some(DiscoverComplete) case 6 => Some(Attach) case 7 => Some(AttachAck) case 8 => Some(Detach)
    case 9 => Some(Data) case 10 => Some(WindowUpdate) case 11 => Some(SerialConfig)
    case 12 => Some(ModemControl) case 13 => Some(ModemStatus) case 14 => Some(ApplicationOpen)
    case 15 => Some(ApplicationClose) case 16 => Some(Cancel) case 17 => Some(Purge)
    case 18 => Some(Health) case 19 => Some(HealthAck) case 20 => Some(Error)
    case _ => None
  }

  lemma KindIsItsNumber(n: u16)
    requires KindOf(n).Some?
    ensures KindNumber(KindOf(n).value) == n
  {
  }

  // Tags are 16 bits wide; tag zero is reserved and can never be inserted.
  type Fields = map<nat, bytes>

  predicate ValidFields(f: Fields) {
    forall t | t in f :: 0 < t < 0x1_0000
  }

  datatype Frame = Frame(
    version: Version, kind: MessageKind, flags: u32, endpointId: u64, requestId: u64, fields: Fields)

  datatype ProtocolError =
    | Incomplete(needed: nat, available: nat)
    | BadMagic
    | UnsupportedHeader(len: nat)
    | UnknownMessageKind(number: u16)
    | FrameTooLarge(total: nat)
    | TrailingBytes(extra: nat)
    | ReservedFieldTag
    | FieldTooLarge(tag: nat, size: nat)
    | MalformedFields
    | DuplicateField(repeated: nat)
    | MissingField(missing: nat)
    | InvalidFieldSize(wrong: nat, expected: nat)

  // ---- Fields ----

  function EncodeField(tag: nat, value: bytes): bytes {
    ToLe(2, tag) + ToLe(4, |value|) + value
  }

  // The fields of a map in a given order; the ordered map of the source uses ascending tags.
  function EncodeInOrder(f: Fields, order: seq<nat>): Result<bytes, ProtocolError>
    requires forall t | t in order :: t in f
    decreases |order|
  {
    if order == [] then Ok([])
    else if |f[order[0]]| > U32_MAX then Err(FieldTooLarge(order[0], |f[order[0]]|))
    else
      var rest := EncodeInOrder(f, order[1..]);
      if rest.Err? then rest else Ok(EncodeField(order[0], f[order[0]]) + rest.value)
  }

  function EncodeFields(f: Fields): Result<bytes, ProtocolError> {
    AscendingProperties(f.Keys);
    EncodeInOrder(f, Ascending(f.Keys))
  }

  function DecodeFieldsOnto(input: bytes, fields: Fields): Result<Fields, ProtocolError>
    decreases |input|
  {
    if input == [] then Ok(fields)
    else if |input| < FIELD_HEADER_LEN then Err(MalformedFields)
    else
      var tag := ReadU16(input, 0);
      if tag == 0 then Err(ReservedFieldTag)
      else
        var end := FIELD_HEADER_LEN + ReadU32(input, 2);
        if end > |input| then Err(MalformedFields)
        else if tag in fields then Err(DuplicateField(tag))
        else DecodeFieldsOnto(input[end..], fields[tag := input[FIELD_HEADER_LEN..end]])
  }

  function DecodeFields(input: bytes): Result<Fields, ProtocolError> {
    DecodeFieldsOnto(input, map[])
  }

  // The loops of the source, over the ordered map and over the remaining input.
  method EncodeFieldsLoop(f: Fields) returns (r: Result<bytes, ProtocolError>)
    ensures r == EncodeFields(f)
  {
    hide EncodeField, Ascending;
    AscendingProperties(f.Keys);
    var order := Ascending(f.Keys);
    var output: bytes := [];
    var k := 0;
    assert order[0..] == order;
    assert var rest := EncodeInOrder(f, order); rest.Ok? ==> output + rest.value == rest.value;
    while k < |order|
      invariant 0 <= k <= |order|
      invariant forall t | t in order[k..] :: t in f
      invariant var rest := EncodeInOrder(f, order[k..]);
                EncodeFields(f) == if rest.Err? then rest else Ok(output + rest.value)
    {
      var tag := order[k];
      var value := f[tag];
      assert order[k..][0] == tag && order[k..][1..] == order[k + 1..];
      if |value| > U32_MAX {
        return Err(FieldTooLarge(tag, |value|));
      }
      ghost var rest := EncodeInOrder(f, order[k + 1..]);
      if rest.Ok? {
        Associative(output, EncodeField(tag, value), rest.value);
      }
      output := output + EncodeField(tag, value);
      k := k + 1;
    }
    assert order[k..] == [];
    assert output + [] == output;
    return Ok(output);
  }

  method DecodeFieldsLoop(payload: bytes) returns (r: Result<Fields, ProtocolError>)
    ensures r == DecodeFields(payload)
  {
    var input := payload;
    var fields: Fields := map[];
    while input != []
      invariant DecodeFieldsOnto(input, fields) == DecodeFields(payload)
      decreases |input|
    {
      if |input| < FIELD_HEADER_LEN {
        return Err(MalformedFields);
      }
      var tag := ReadU16(input, 0);
      if tag == 0 {
        return Err(ReservedFieldTag);
      }
      var end := FIELD_HEADER_LEN + ReadU32(input, 2);
      if end > |input| {
        return Err(MalformedFields);
      }
      if tag in fields {
        return Err(DuplicateField(tag));
      }
      fields := fields[tag := input[FIELD_HEADER_LEN..end]];
      input := input[end..];
    }
    return Ok(fields);
  }

  // ---- Typed fields ----

  function RequireInt(f: Fields, tag: u16, width: nat): Result<nat, ProtocolError> {
    if tag !in f then Err(MissingField(tag))
    else if |f[tag]| != width then Err(InvalidFieldSize(tag, width))
    else Ok(FromLe(f[tag]))
  }

  function InsertInt(f: Fields, tag: u16, width: nat, v: nat): Result<Fields, ProtocolError> {
    if tag == 0 then Err(ReservedFieldTag) else Ok(f[tag as nat := ToLe(width, v)])
  }

  // ---- Frames ----

  function Header(f: Frame, payloadLen: nat): (h: bytes)
    ensures |h| == HEADER_LEN
  {
    MAGIC + ToLe(2, HEADER_LEN) + ToLe(2, KindNumber(f.kind)) + ToLe(2, f.version.major)
    + ToLe(2, f.version.minor) + ToLe(4, f.flags) + ToLe(4, payloadLen) + ToLe(8, f.endpointId)
    + ToLe(8, f.requestId) + ToLe(4, 0)
  }

  function Encode(f: Frame): Result<bytes, ProtocolError> {
    var payload := EncodeFields(f.fields);
    if payload.Err? then Err(payload.error)
    else
      var total := HEADER_LEN + |payload.value|;
      if total > ABSOLUTE_MAX_FRAME_LEN then Err(FrameTooLarge(total))
      else Ok(Header(f, |payload.value|) + payload.value)
  }

  function Decode(input: bytes): Result<Frame, ProtocolError> {
    if |input| < HEADER_LEN then Err(Incomplete(HEADER_LEN, |input|))
    else if input[0..4] != MAGIC then Err(BadMagic)
    else
      var headerLen := ReadU16(input, 4);
      if headerLen != HEADER_LEN then Err(UnsupportedHeader(headerLen))
      else
        var kind := KindOf(ReadU16(input, 6));
        if kind.None? then Err(UnknownMessageKind(ReadU16(input, 6)))
        else
          var total := HEADER_LEN + ReadU32(input, 16);
          if total > ABSOLUTE_MAX_FRAME_LEN then Err(FrameTooLarge(total))
          else if |input| < total then Err(Incomplete(total, |input|))
          else if |input| != total then Err(TrailingBytes(|input| - total))
          else
            var fields := DecodeFields(input[HEADER_LEN..]);
            if fields.Err? then Err(fields.error)
            else Ok(Frame(Version(ReadU16(input, 8), ReadU16(input, 10)), kind.value, ReadU32(input, 12),
                          ReadU64(input, 20), ReadU64(input, 28), fields.value))
  }
}
