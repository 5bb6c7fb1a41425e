// The frame codec: decoding inverts encoding, and re-encoding is a normal form.

module VirtualSerialCodec {
  import opened Common
  import opened VirtualSerialProtocol

  // ---- Fields ----

  ghost predicate Distinct(order: seq<nat>) {
    forall i, j :: 0 <= i < j < |order| ==> order[i] != order[j]
  }

  function TagSet(order: seq<nat>): set<nat> {
    set t | t in order
  }

  function Chosen(f: Fields, order: seq<nat>): Fields
    requires forall t | t in order :: t in f
  {
    map t | t in order :: f[t]
  }

  lemma FieldParts(tag: nat, value: bytes, tail: bytes)
    requires tag < 0x1_0000 && |value| <= U32_MAX
    ensures var input := EncodeField(tag, value) + tail; var end := FIELD_HEADER_LEN + |value|;
            end <= |input| && ReadU16(input, 0) == tag && ReadU32(input, 2) == |value|
            && input[FIELD_HEADER_LEN..end] == value && input[end..] == tail
  {
    Widths();
    LeRoundTrip(2, tag);
    LeRoundTrip(4, |value|);
    var input := EncodeField(tag, value) + tail;
    assert input[0..2] == ToLe(2, tag);
    assert input[2..6] == ToLe(4, |value|);
  }

  lemma DecodeStep(tag: nat, value: bytes, tail: bytes, onto: Fields)
    requires 0 < tag < 0x1_0000 && |value| <= U32_MAX && tag !in onto
    ensures DecodeFieldsOnto(EncodeField(tag, value) + tail, onto) == DecodeFieldsOnto(tail, onto[tag := value])
  {
    FieldParts(tag, value, tail);
    hide EncodeField, ReadU16, ReadU32;
    assert |EncodeField(tag, value) + tail| >= FIELD_HEADER_LEN;
  }

  lemma ChosenStep(f: Fields, order: seq<nat>, onto: Fields)
    requires order != [] && forall t | t in order :: t in f
    ensures onto[order[0] := f[order[0]]] + Chosen(f, order[1..]) == onto + Chosen(f, order)
  {
    assert order == [order[0]] + order[1..];
    assert forall t :: t in order <==> t == order[0] || t in order[1..];
  }

  // Decoding the fields of a map, written in any order without repetition, gives them back.
  lemma {:induction false} FieldsComeBack(f: Fields, order: seq<nat>, onto: Fields)
    requires ValidFields(f) && Distinct(order) && forall t | t in order :: t in f && t !in onto
    requires EncodeInOrder(f, order).Ok?
    ensures DecodeFieldsOnto(EncodeInOrder(f, order).value, onto) == Ok(onto + Chosen(f, order))
    decreases |order|
  {
    hide EncodeField, ReadU16, ReadU32;
    if order == [] {
      assert onto + Chosen(f, order) == onto;
    } else {
      var t := order[0];
      var rest := order[1..];
      assert order == [t] + rest;
      DecodeStep(t, f[t], EncodeInOrder(f, rest).value, onto);
      ChosenStep(f, order, onto);
      hide DecodeFieldsOnto, Chosen;
      FieldsComeBack(f, rest, onto[t := f[t]]);
    }
  }

  // What is wrong with the beginning of a payload, behind fields that have been accepted.
  function Fault(accepted: Fields, tail: bytes): Option<ProtocolError> {
    if tail == [] then None
    else if |tail| < 6 then Some(MalformedFields)
    else if tail[0] == 0 && tail[1] == 0 then Some(ReservedFieldTag)
    else if |tail| < 6 + ReadU32(tail, 2) then Some(MalformedFields)
    else if ReadU16(tail, 0) in accepted then Some(DuplicateField(ReadU16(tail, 0)))
    else None
  }

  lemma FaultIsFound(accepted: Fields, tail: bytes)
    requires Fault(accepted, tail).Some?
    ensures DecodeFieldsOnto(tail, accepted) == Err(Fault(accepted, tail).value)
  {
    if |tail| >= 6 {
      var two := tail[0..2];
      var high: nat := tail[1];
      assert two[1..] == [tail[1]] && two[1..][1..] == [];
      assert FromLe(two[1..]) == high + 256 * FromLe(two[1..][1..]) == high;
      assert FromLe(two) == tail[0] + 256 * high;
    }
  }

  // Behind any fields that are well written, in any order, the first fault decides the error.
  lemma {:induction false} TheFirstFaultDecides(f: Fields, order: seq<nat>, onto: Fields, tail: bytes)
    requires ValidFields(f) && Distinct(order) && forall t | t in order :: t in f && t !in onto
    requires EncodeInOrder(f, order).Ok? && Fault(onto + Chosen(f, order), tail).Some?
    ensures DecodeFieldsOnto(EncodeInOrder(f, order).value + tail, onto) == Err(Fault(onto + Chosen(f, order), tail).value)
    decreases |order|
  {
    hide EncodeField, ReadU16, ReadU32, Fault;
    if order == [] {
      assert onto + Chosen(f, order) == onto;
      assert [] + tail == tail;
      FaultIsFound(onto, tail);
    } else {
      var t := order[0];
      var rest := order[1..];
      var written := EncodeInOrder(f, rest).value;
      assert order == [t] + rest;
      assert (EncodeField(t, f[t]) + written) + tail == EncodeField(t, f[t]) + (written + tail);
      DecodeStep(t, f[t], written + tail, onto);
      ChosenStep(f, order, onto);
      hide DecodeFieldsOnto, Chosen;
      TheFirstFaultDecides(f, rest, onto[t := f[t]], tail);
    }
  }

  lemma AscendingIsDistinct(s: set<nat>)
    ensures Distinct(Ascending(s)) && TagSet(Ascending(s)) == s
  {
    AscendingProperties(s);
  }

  lemma FieldsRoundTrip(f: Fields)
    requires ValidFields(f) && EncodeFields(f).Ok?
    ensures DecodeFields(EncodeFields(f).value) == Ok(f)
  {
    hide EncodeInOrder, DecodeFieldsOnto, Ascending;
    var order := Ascending(f.Keys);
    AscendingIsDistinct(f.Keys);
    AscendingProperties(f.Keys);
    FieldsComeBack(f, order, map[]);
    assert map[] + Chosen(f, order) == f;
  }

  // The tags of an accepted payload, in the order in which they are written.
  function Tags(input: bytes): seq<nat>
    decreases |input|
  {
    if |input| < FIELD_HEADER_LEN || FIELD_HEADER_LEN + ReadU32(input, 2) > |input| then []
    else [ReadU16(input, 0)] + Tags(input[FIELD_HEADER_LEN + ReadU32(input, 2)..])
  }

  lemma FieldIsItsParts(input: bytes)
    requires FIELD_HEADER_LEN <= |input| && FIELD_HEADER_LEN + ReadU32(input, 2) <= |input|
    ensures var end := FIELD_HEADER_LEN + ReadU32(input, 2);
            EncodeField(ReadU16(input, 0), input[FIELD_HEADER_LEN..end]) + input[end..] == input
  {
    LeUnique(input[0..2]);
    LeUnique(input[2..6]);
    var end := FIELD_HEADER_LEN + ReadU32(input, 2);
    assert input == input[0..2] + input[2..6] + input[FIELD_HEADER_LEN..end] + input[end..];
  }

  // An accepted payload is its fields, written in the order of its tags.
  ghost predicate Written(input: bytes, onto: Fields, f: Fields, order: seq<nat>) {
    && Distinct(order)
    && (forall t | t in order :: 0 < t < 0x1_0000 && t in f && t !in onto)
    && f == onto + Chosen(f, order)
    && EncodeInOrder(f, order) == Ok(input)
  }

  lemma DistinctCons(t: nat, order: seq<nat>)
    requires Distinct(order) && t !in order
    ensures Distinct([t] + order) && forall u :: u in [t] + order <==> u == t || u in order
  {
    var l := [t] + order;
    forall i, j | 0 <= i < j < |l| ensures l[i] != l[j] {
      assert l[j] == order[j - 1] && order[j - 1] in order;
    }
  }

  lemma EncodeStep(f: Fields, t: nat, order: seq<nat>)
    requires t in f && (forall u | u in order :: u in f) && |f[t]| <= U32_MAX && EncodeInOrder(f, order).Ok?
    ensures forall u | u in [t] + order :: u in f
    ensures EncodeInOrder(f, [t] + order) == Ok(EncodeField(t, f[t]) + EncodeInOrder(f, order).value)
  {
    assert ([t] + order)[1..] == order;
  }

  lemma WrittenStep(input: bytes, onto: Fields, f: Fields, order: seq<nat>, t: nat, value: bytes)
    requires Written(input, onto[t := value], f, order)
    requires 0 < t < 0x1_0000 && t !in onto && |value| <= U32_MAX
    ensures Written(EncodeField(t, value) + input, onto, f, [t] + order)
  {
    assert t !in order && f[t] == value;
    assert [t] + order != [] && ([t] + order)[1..] == order;
    DistinctCons(t, order);
    EncodeStep(f, t, order);
    ChosenStep(f, [t] + order, onto);
    hide EncodeField, EncodeInOrder, Chosen, Distinct;
  }

  lemma {:induction false} AcceptedPayload(input: bytes, onto: Fields)
    requires DecodeFieldsOnto(input, onto).Ok?
    ensures Written(input, onto, DecodeFieldsOnto(input, onto).value, Tags(input))
    decreases |input|
  {
    var f := DecodeFieldsOnto(input, onto).value;
    if input == [] {
      assert onto + Chosen(f, []) == onto;
    } else {
      var t := ReadU16(input, 0);
      var end := FIELD_HEADER_LEN + ReadU32(input, 2);
      var value := input[FIELD_HEADER_LEN..end];
      FieldIsItsParts(input);
      hide EncodeField, ReadU16, ReadU32, Written;
      AcceptedPayload(input[end..], onto[t := value]);
      WrittenStep(input[end..], onto, f, Tags(input[end..]), t, value);
    }
  }

  lemma {:induction false} TagsOfEncoding(f: Fields, order: seq<nat>)
    requires ValidFields(f) && (forall t | t in order :: t in f) && EncodeInOrder(f, order).Ok?
    ensures Tags(EncodeInOrder(f, order).value) == order
    decreases |order|
  {
    if order != [] {
      var tail := EncodeInOrder(f, order[1..]).value;
      FieldParts(order[0], f[order[0]], tail);
      TagsOfEncoding(f, order[1..]);
      assert order == [order[0]] + order[1..];
    }
  }

  // ---- The encoded size does not depend on the order ----

  ghost function SizeOf(f: Fields, tags: set<nat>): nat
    requires tags <= f.Keys
  {
    if tags == {} then 0 else
      var t :| t in tags;
      FIELD_HEADER_LEN + |f[t]| + SizeOf(f, tags - {t})
  }

  lemma {:induction false} SizeWithout(f: Fields, tags: set<nat>, t: nat)
    requires tags <= f.Keys && t in tags
    ensures SizeOf(f, tags) == FIELD_HEADER_LEN + |f[t]| + SizeOf(f, tags - {t})
    decreases tags
  {
    var u :| u in tags && SizeOf(f, tags) == FIELD_HEADER_LEN + |f[u]| + SizeOf(f, tags - {u});
    hide SizeOf;
    if u != t {
      SizeWithout(f, tags - {u}, t);
      SizeWithout(f, tags - {t}, u);
      assert tags - {u} - {t} == tags - {t} - {u};
    }
  }

  lemma {:induction false} EncodedSize(f: Fields, order: seq<nat>)
    requires Distinct(order) && forall t | t in order :: t in f
    ensures TagSet(order) <= f.Keys
    ensures EncodeInOrder(f, order).Ok? <==> forall t | t in order :: |f[t]| <= U32_MAX
    ensures EncodeInOrder(f, order).Ok? ==> |EncodeInOrder(f, order).value| == SizeOf(f, TagSet(order))
    decreases |order|
  {
    if order == [] {
      assert TagSet(order) == {};
    } else {
      var t := order[0];
      var rest := order[1..];
      assert order == [t] + rest;
      assert t !in rest;
      EncodedSize(f, rest);
      assert TagSet(order) - {t} == TagSet(rest);
      SizeWithout(f, TagSet(order), t);
    }
  }

  // Re-encoding the fields of an accepted payload succeeds, keeps the length, and is the payload
  // itself exactly when its tags ascend.
  lemma FieldsNormalise(input: bytes)
    requires DecodeFields(input).Ok?
    ensures var f := DecodeFields(input).value; var again := EncodeFields(f);
            ValidFields(f)
            && again.Ok? && |again.value| == |input| && DecodeFields(again.value) == Ok(f)
            && (again.value == input <==> Increasing(Tags(input)))
  {
    var f := DecodeFields(input).value;
    var order := Tags(input);
    var sorted := Ascending(f.Keys);
    AcceptedPayload(input, map[]);
    AscendingIsDistinct(f.Keys);
    AscendingProperties(f.Keys);
    SameKeys(f, order);
    EncodedSize(f, order);
    EncodedSize(f, sorted);
    assert forall t | t in sorted :: t in order;
    FieldsRoundTrip(f);
    TagsOfEncoding(f, sorted);
    if Increasing(order) {
      IncreasingIsAscending(order, f.Keys);
    }
  }

  lemma SameKeys(f: Fields, order: seq<nat>)
    requires (forall t | t in order :: t in f) && f == map[] + Chosen(f, order)
    ensures TagSet(order) == f.Keys && forall t :: t in order <==> t in f
  {
    assert f.Keys == Chosen(f, order).Keys;
  }

  // ---- Frames ----

  lemma Slices(p0: bytes, p1: bytes, p2: bytes, p3: bytes, p4: bytes, p5: bytes, p6: bytes, p7: bytes,
               p8: bytes, p9: bytes, payload: bytes)
    requires |p0| == 4 && |p1| == 2 && |p2| == 2 && |p3| == 2 && |p4| == 2 && |p5| == 4 && |p6| == 4
    requires |p7| == 8 && |p8| == 8 && |p9| == 4
    ensures var b := p0 + p1 + p2 + p3 + p4 + p5 + p6 + p7 + p8 + p9 + payload;
            b[0..4] == p0 && b[4..6] == p1 && b[6..8] == p2 && b[8..10] == p3 && b[10..12] == p4
            && b[12..16] == p5 && b[16..20] == p6 && b[20..28] == p7 && b[28..36] == p8
            && b[36..40] == p9 && b[40..] == payload
  {
  }

  lemma HeaderParts(f: Frame, payload: bytes)
    requires |payload| <= U32_MAX
    ensures var b := Header(f, |payload|) + payload;
            b[0..4] == MAGIC && ReadU16(b, 4) == HEADER_LEN && ReadU16(b, 6) == KindNumber(f.kind)
            && ReadU16(b, 8) == f.version.major && ReadU16(b, 10) == f.version.minor
            && ReadU32(b, 12) == f.flags && ReadU32(b, 16) == |payload|
            && ReadU64(b, 20) == f.endpointId && ReadU64(b, 28) == f.requestId
            && b[36..40] == ToLe(4, 0) && b[HEADER_LEN..] == payload
  {
    Widths();
    LeRoundTrip(2, HEADER_LEN);
    LeRoundTrip(2, KindNumber(f.kind));
    LeRoundTrip(2, f.version.major);
    LeRoundTrip(2, f.version.minor);
    LeRoundTrip(4, f.flags);
    LeRoundTrip(4, |payload|);
    LeRoundTrip(8, f.endpointId);
    LeRoundTrip(8, f.requestId);
    hide ToLe, FromLe, Pow256, KindNumber;
    Slices(MAGIC, ToLe(2, HEADER_LEN), ToLe(2, KindNumber(f.kind)), ToLe(2, f.version.major),
           ToLe(2, f.version.minor), ToLe(4, f.flags), ToLe(4, |payload|), ToLe(8, f.endpointId),
           ToLe(8, f.requestId), ToLe(4, 0), payload);
  }

  // ---- The bytes on the wire ----

  // The number stands at the offset, least significant byte first.
  ghost predicate Stands(b: bytes, at: nat, width: nat, v: nat) {
    at + width <= |b| && forall i: nat {:trigger Pow256(i)} | i < width :: b[at + i] == v / Pow256(i) % 256
  }

  lemma QuotientOfQuotient(v: nat, d: nat)
    requires d >= 1
    ensures v / 256 / d == v / (256 * d)
  {
    var q := v / 256 / d;
    var r := v / 256 % d;
    assert v / 256 == q * d + r;
    assert v == q * (256 * d) + (256 * r + v % 256);
    assert 256 * r + v % 256 < 256 * d;
    EuclideanQuotient(v, 256 * d, q, 256 * r + v % 256);
  }

  lemma EuclideanQuotient(v: nat, d: nat, q: nat, r: nat)
    requires v == q * d + r && r < d
    ensures v / d == q
  {
    var k := v / d;
    assert v == k * d + v % d;
    assert (k - q) * d == r - v % d;
    SmallMultiple(k - q, d);
  }

  lemma SmallMultiple(n: int, d: int)
    requires -d < n * d < d
    ensures n == 0
  {
    assert n > 0 ==> (n - 1) * d >= 0;
    assert n < 0 ==> (-n - 1) * d >= 0;
  }

  lemma {:induction false} WrittenByteByByte(n: nat, v: nat)
    ensures Stands(ToLe(n, v), 0, n, v)
    decreases n
  {
    if n > 0 {
      WrittenByteByByte(n - 1, v / 256);
      forall i: nat {:trigger Pow256(i)} | i < n ensures ToLe(n, v)[0 + i] == v / Pow256(i) % 256 {
        if i > 0 {
          assert ToLe(n, v)[i] == ToLe(n - 1, v / 256)[0 + (i - 1)];
          assert ToLe(n - 1, v / 256)[0 + (i - 1)] == v / 256 / Pow256(i - 1) % 256;
          QuotientOfQuotient(v, Pow256(i - 1));
        }
      }
    }
  }

  lemma PartStands(b: bytes, at: nat, width: nat, v: nat)
    requires at + width <= |b| && b[at..at + width] == ToLe(width, v)
    ensures Stands(b, at, width, v)
  {
    WrittenByteByByte(width, v);
    forall i: nat {:trigger Pow256(i)} | i < width ensures b[at + i] == v / Pow256(i) % 256 {
      assert b[at + i] == b[at..at + width][i] == ToLe(width, v)[0 + i];
    }
  }

  // The messages by their numbers, from 1.
  const MESSAGES: seq<MessageKind> :=
    [Hello, HelloAck, Discover, Endpoint, DiscoverComplete, Attach, AttachAck, Detach, Data, WindowUpdate,
     SerialConfig, ModemControl, ModemStatus, ApplicationOpen, ApplicationClose, Cancel, Purge, Health, HealthAck,
     MessageKind.Error]

  lemma MessageNumbers(k: MessageKind)
    ensures MESSAGES[KindNumber(k) - 1] == k
  {
  }

  // Each part of the header stands where the frame format puts it, and the fields begin behind it.
  lemma HeaderLayout(f: Frame)
    requires Encode(f).Ok?
    ensures var b := Encode(f).value;
            |b| >= 40 && b[0..4] == [0x43, 0x48, 0x56, 0x53] && Stands(b, 4, 2, 40)
            && Stands(b, 6, 2, KindNumber(f.kind))
            && Stands(b, 8, 2, f.version.major) && Stands(b, 10, 2, f.version.minor)
            && Stands(b, 12, 4, f.flags) && Stands(b, 16, 4, |b| - 40)
            && Stands(b, 20, 8, f.endpointId) && Stands(b, 28, 8, f.requestId) && Stands(b, 36, 4, 0)
  {
    var payload := EncodeFields(f.fields).value;
    assert Encode(f).value == Header(f, |payload|) + payload;
    LowerHeader(f, payload);
    UpperHeader(f, payload);
    hide ToLe, Stands, Pow256, KindNumber, EncodeFields, Header;
  }

  lemma LowerHeader(f: Frame, payload: bytes)
    ensures var b := Header(f, |payload|) + payload;
            b[0..4] == MAGIC && Stands(b, 4, 2, 40)
            && Stands(b, 6, 2, KindNumber(f.kind))
            && Stands(b, 8, 2, f.version.major) && Stands(b, 10, 2, f.version.minor)
  {
    var b := Header(f, |payload|) + payload;
    HeaderSlices(f, payload);
    hide ToLe, Stands, Pow256, KindNumber, Header;
    PartStands(b, 4, 2, HEADER_LEN);
    PartStands(b, 6, 2, KindNumber(f.kind));
    PartStands(b, 8, 2, f.version.major);
    PartStands(b, 10, 2, f.version.minor);
  }

  lemma UpperHeader(f: Frame, payload: bytes)
    ensures var b := Header(f, |payload|) + payload;
            Stands(b, 12, 4, f.flags) && Stands(b, 16, 4, |payload|)
            && Stands(b, 20, 8, f.endpointId) && Stands(b, 28, 8, f.requestId) && Stands(b, 36, 4, 0)
  {
    var b := Header(f, |payload|) + payload;
    HeaderSlices(f, payload);
    hide ToLe, Stands, Pow256, KindNumber, Header;
    PartStands(b, 12, 4, f.flags);
    PartStands(b, 16, 4, |payload|);
    PartStands(b, 20, 8, f.endpointId);
    PartStands(b, 28, 8, f.requestId);
    PartStands(b, 36, 4, 0);
  }

  lemma HeaderSlices(f: Frame, payload: bytes)
    ensures var b := Header(f, |payload|) + payload;
            b[0..4] == MAGIC && b[4..6] == ToLe(2, HEADER_LEN) && b[6..8] == ToLe(2, KindNumber(f.kind))
            && b[8..10] == ToLe(2, f.version.major) && b[10..12] == ToLe(2, f.version.minor)
            && b[12..16] == ToLe(4, f.flags) && b[16..20] == ToLe(4, |payload|) && b[20..28] == ToLe(8, f.endpointId)
            && b[28..36] == ToLe(8, f.requestId) && b[36..40] == ToLe(4, 0)
  {
    hide ToLe, KindNumber;
    Slices(MAGIC, ToLe(2, HEADER_LEN), ToLe(2, KindNumber(f.kind)), ToLe(2, f.version.major),
           ToLe(2, f.version.minor), ToLe(4, f.flags), ToLe(4, |payload|), ToLe(8, f.endpointId),
           ToLe(8, f.requestId), ToLe(4, 0), payload);
  }

  lemma ReadStands(b: bytes, at: nat, width: nat)
    requires at + width <= |b|
    ensures Stands(b, at, width, FromLe(b[at..at + width]))
  {
    LeUnique(b[at..at + width]);
    PartStands(b, at, width, FromLe(b[at..at + width]));
  }

  lemma {:induction false} FieldErrors(input: bytes, onto: Fields)
    ensures var r := DecodeFieldsOnto(input, onto);
            r.Err? ==> r.error.MalformedFields? || r.error.ReservedFieldTag? || r.error.DuplicateField?
    decreases |input|
  {
    if FIELD_HEADER_LEN <= |input| {
      var end := FIELD_HEADER_LEN + ReadU32(input, 2);
      if end <= |input| {
        FieldErrors(input[end..], onto[ReadU16(input, 0) := input[FIELD_HEADER_LEN..end]]);
      }
    }
  }

  lemma KindsAreNumbered()
    ensures forall n: u16 :: KindOf(n).None? <==> !(1 <= n <= 20)
  {
  }

  // A frame that is refused is refused for a reason that its bytes show.
  lemma RefusalsShowInTheBytes(b: bytes)
    ensures var r := Decode(b);
            r.Err? ==>
              match r.error
              case Incomplete(needed, available) =>
                available == |b| < needed && (needed == 40 || (|b| >= 40 && Stands(b, 16, 4, needed - 40)))
              case BadMagic => |b| >= 40 && b[0..4] != [0x43, 0x48, 0x56, 0x53]
              case UnsupportedHeader(n) => Stands(b, 4, 2, n) && n != 40
              case UnknownMessageKind(n) => Stands(b, 6, 2, n) && !(1 <= n <= 20)
              case FrameTooLarge(n) => n > 1_048_576 && Stands(b, 16, 4, n - 40)
              case TrailingBytes(extra) => extra > 0 && |b| >= 40 + extra && Stands(b, 16, 4, |b| - 40 - extra)
              case e => |b| >= 40 && Stands(b, 16, 4, |b| - 40) && DecodeFields(b[40..]) == Err(e)
  {
    if |b| >= 40 {
      ReadStands(b, 4, 2);
      ReadStands(b, 6, 2);
      ReadStands(b, 16, 4);
      FieldErrors(b[40..], map[]);
    }
    hide Stands, DecodeFieldsOnto, FromLe, KindOf;
    assert forall n: u16 :: KindOf(n).None? <==> !(1 <= n <= 20) by { KindsAreNumbered(); }
  }

  // A field is its tag, the length of its value, and the value.
  lemma FieldLayout(f: Frame, tag: nat, value: bytes)
    requires f.fields == map[tag := value] && Encode(f).Ok?
    ensures var b := Encode(f).value;
            Stands(b, 40, 2, tag) && Stands(b, 42, 4, |value|) && b[46..] == value
  {
    var b := Encode(f).value;
    AscendingProperties(f.fields.Keys);
    var order := Ascending(f.fields.Keys);
    assert tag in order && forall t | t in order :: t == tag;
    OnlyOne(order, tag);
    assert order[1..] == [];
    assert order[0] == tag && EncodeInOrder(f.fields, order[1..]) == Ok([]);
    assert EncodeFields(f.fields).value == EncodeField(tag, value) + [];
    assert b[40..] == EncodeField(tag, value);
    hide ToLe, Stands, Pow256, Header;
    assert b[40..][..2] == ToLe(2, tag) && b[40..][2..6] == ToLe(4, |value|) && b[40..][6..] == value;
    assert b[40..42] == b[40..][..2] && b[42..46] == b[40..][2..6] && b[46..] == b[40..][6..];
    PartStands(b, 40, 2, tag);
    PartStands(b, 42, 4, |value|);
  }

  lemma OnlyOne(order: seq<nat>, t: nat)
    requires t in order && (forall u | u in order :: u == t) && forall i, j | 0 <= i < j < |order| :: order[i] < order[j]
    ensures order == [t]
  {
    assert order[0] in order && order[|order| - 1] in order;
  }

  // Decoding inverts encoding, for every frame that can be encoded.
  lemma FrameRoundTrip(f: Frame)
    requires ValidFields(f.fields) && Encode(f).Ok?
    ensures Decode(Encode(f).value) == Ok(f)
  {
    var payload := EncodeFields(f.fields).value;
    HeaderParts(f, payload);
    FieldsRoundTrip(f.fields);
    hide EncodeFields, DecodeFields, Header, KindNumber;
  }

  // Which frames can be encoded.
  lemma EncodableFrames(f: Frame)
    requires ValidFields(f.fields)
    ensures Encode(f).Ok? <==> (forall t | t in f.fields :: |f.fields[t]| <= U32_MAX)
                               && HEADER_LEN + SizeOf(f.fields, f.fields.Keys) <= ABSOLUTE_MAX_FRAME_LEN
  {
    AscendingIsDistinct(f.fields.Keys);
    AscendingProperties(f.fields.Keys);
    EncodedSize(f.fields, Ascending(f.fields.Keys));
  }

  lemma HeaderIsItsParts(f: Frame, b: bytes)
    requires |b| >= HEADER_LEN && b[0..4] == MAGIC && ReadU16(b, 4) == HEADER_LEN
    requires ReadU16(b, 6) == KindNumber(f.kind)
    requires ReadU16(b, 8) == f.version.major && ReadU16(b, 10) == f.version.minor
    requires ReadU32(b, 12) == f.flags && ReadU64(b, 20) == f.endpointId && ReadU64(b, 28) == f.requestId
    ensures b[..36] == Header(f, ReadU32(b, 16))[..36]
  {
    LeUnique(b[4..6]);
    LeUnique(b[6..8]);
    LeUnique(b[8..10]);
    LeUnique(b[10..12]);
    LeUnique(b[12..16]);
    LeUnique(b[16..20]);
    LeUnique(b[20..28]);
    LeUnique(b[28..36]);
    hide ToLe, FromLe, Pow256, KindNumber;
    assert b[..36] == b[0..4] + b[4..6] + b[6..8] + b[8..10] + b[10..12] + b[12..16] + b[16..20] + b[20..28] + b[28..36];
  }

  // Re-encoding an accepted frame succeeds with the same length and the same meaning, and gives
  // the same bytes exactly when the tags ascend and the reserved word is zero.
  lemma FrameNormalises(b: bytes)
    requires Decode(b).Ok?
    ensures var f := Decode(b).value; var again := Encode(f);
            ValidFields(f.fields)
            && again.Ok? && |again.value| == |b| && Decode(again.value) == Ok(f)
            && (again.value == b <==> Increasing(Tags(b[HEADER_LEN..])) && b[36..40] == [0, 0, 0, 0])
  {
    var f := Decode(b).value;
    var payload := b[HEADER_LEN..];
    FieldsNormalise(payload);
    KindIsItsNumber(ReadU16(b, 6));
    FrameRoundTrip(f);
    var fields := EncodeFields(f.fields).value;
    HeaderIsItsParts(f, b);
    HeaderParts(f, fields);
    ZeroWord();
    hide *;
    var again := Header(f, |fields|) + fields;
    SameFrame(again, b);
  }

  lemma ZeroWord()
    ensures ToLe(4, 0) == [0, 0, 0, 0]
  {
    assert ToLe(3, 0) == [0] + ToLe(2, 0);
  }

  lemma SameFrame(a: bytes, b: bytes)
    requires |a| >= HEADER_LEN && |b| >= HEADER_LEN && a[..36] == b[..36]
    ensures a == b <==> a[36..40] == b[36..40] && a[HEADER_LEN..] == b[HEADER_LEN..]
  {
    assert a == a[..36] + a[36..40] + a[HEADER_LEN..];
    assert b == b[..36] + b[36..40] + b[HEADER_LEN..];
  }

  // A typed field survives the whole trip, read back at the width it was written with.
  lemma TypedFieldSurvives(f: Frame, tag: u16, width: nat, v: nat)
    requires ValidFields(f.fields) && v < Pow256(width)
    requires InsertInt(f.fields, tag, width, v).Ok?
    requires var f1 := f.(fields := InsertInt(f.fields, tag, width, v).value); Encode(f1).Ok?
    ensures var f1 := f.(fields := InsertInt(f.fields, tag, width, v).value);
            var back := Decode(Encode(f1).value);
            back.Ok? && RequireInt(back.value.fields, tag, width) == Ok(v)
            && forall w | w != width :: RequireInt(back.value.fields, tag, w) == Err(InvalidFieldSize(tag, w))
  {
    var f1 := f.(fields := InsertInt(f.fields, tag, width, v).value);
    FrameRoundTrip(f1);
    LeRoundTrip(width, v);
    hide Encode, Decode;
  }
}
