/** Canonical bytes of a message: writing them in place, reading them back, and that the two are inverse. */
module WireCodec {
  import opened Results
  import opened Words
  import opened WireErrors
  import opened WireNumbers
  import opened WireLayout
  import opened WireMessage

  /** "SVE1". */
  const MAGIC: U32 := 0x53564531

  /** Keccak-256, as an unknown function. */
  type Digest = Bytes -> Wide

  // Field values in table order.

  function HeaderValues(h: Header, kind: MessageType, bodyHash: Wide): seq<nat> {
    [MAGIC, h.protocolVersion, h.schemaVersion, kind.Code(), h.flags, h.sourceChain, h.destinationChain,
     h.sourceApplication, h.destinationApplication, h.deploymentId, h.vaultId, h.laneId, h.sequence,
     h.previousCommitment, h.observedAt, h.publishedAt, h.expiresAt, bodyHash]
  }

  function BodyValues(b: Body): seq<nat> {
    match b
    case Allocate(id, amount, balance, minimum, deadline, version) => [id, amount, balance, minimum, deadline, version]
    case Recall(id, requested, minimum, deadline, version) => [id, requested, minimum, deadline, version]
    case RemoteReport(epoch, principal, value, loss, unattributed, latest, status, at, version, commitment) =>
      [epoch, principal, value, loss, unattributed, latest, status.Code(), at, version, commitment]
    case RecallSent(id, principal, actual, loss, reference, at, version) =>
      [id, principal, actual, loss, reference, at, version]
    case ConfigUpdate(version, previous, allocation, upward, downward, age, effective, commitment) =>
      [version, previous, allocation, upward, downward, age, effective, commitment]
    case Resolve(id, target, action, version) => [id, target, action.Code(), version]
    case TransportSettlement(id, kind, claim, credited, impaired, version) =>
      [id, kind.Code(), claim, credited, impaired, version]
  }

  lemma HeaderFills()
    ensures Fills(HEADER_FIELDS, 0, HEADER_LEN)
  {
    FillsByIndex(HEADER_FIELDS, 0, HEADER_LEN);
  }

  lemma BodyFills(kind: MessageType)
    ensures Fills(kind.Fields(), 0, kind.BodyLen()) && kind.BodyLen() <= MAX_BODY_LEN
  {
    FillsByIndex(kind.Fields(), 0, kind.BodyLen());
  }

  /** The layout assertions: every table contiguous and full, and no two bodies of the same width. */
  method LayoutHolds() returns (ok: bool)
    ensures ok
  {
    HeaderFills();
    ok := IsContiguous(HEADER_FIELDS, HEADER_LEN);
    var kinds := [
      AllocateType, RecallType, RemoteReportType, RecallSentType, ConfigUpdateType, ResolveType, SettlementType];
    for i := 0 to |kinds|
      invariant ok
    {
      BodyFills(kinds[i]);
      var filled := IsContiguous(kinds[i].Fields(), kinds[i].BodyLen());
      ok := ok && filled;
    }
    var distinct := AllDistinct(BODY_WIDTHS);
    ok := ok && distinct;
  }

  lemma HeaderFits(h: Header, kind: MessageType, bodyHash: Wide)
    ensures Fits(HeaderValues(h, kind, bodyHash), HEADER_FIELDS)
  {
  }

  lemma BodyFits(b: Body)
    ensures Fits(BodyValues(b), b.Type().Fields())
  {
  }

  // Encoding.

  ghost function BodyBytes(b: Body): Bytes {
    BodyFits(b);
    Concat(BodyValues(b), b.Type().Fields())
  }

  /** The one canonical encoding of a message. */
  ghost function Encoding(digest: Digest, m: Message): Bytes {
    var kind := m.body.Type();
    Concat(HeaderValues(m.header, kind, digest(BodyBytes(m.body))), HEADER_FIELDS) + BodyBytes(m.body)
  }

  lemma EncodingLength(digest: Digest, m: Message)
    ensures |BodyBytes(m.body)| == m.body.Type().BodyLen()
    ensures |Encoding(digest, m)| == m.body.Type().MessageLen() <= MAX_MESSAGE_LEN
  {
    var kind := m.body.Type();
    HeaderFills();
    BodyFills(kind);
    BodyFits(m.body);
    ConcatLength(BodyValues(m.body), kind.Fields(), 0, kind.BodyLen());
    ConcatLength(HeaderValues(m.header, kind, digest(BodyBytes(m.body))), HEADER_FIELDS, 0, HEADER_LEN);
  }

  /** Copies bytes into `out` at an offset of the slice from `base` to `limit`. */
  method WriteBytes(out: array<U8>, base: nat, limit: nat, offset: nat, value: Bytes) returns (r: Check<EncodeError>)
    requires base <= limit <= out.Length
    modifies out
    ensures r.Ok? <==> base + offset + |value| <= limit
    ensures r.Err? ==> r.error == BufferTooSmall(SaturatingU32(offset + |value|), SaturatingU32(limit - base))
    ensures r.Err? ==> out[..] == old(out[..])
    ensures r.Ok? ==>
      out[..] == old(out[..base + offset]) + value + old(out[base + offset + |value|..])
  {
    if limit < base + offset + |value| {
      return Err(BufferTooSmall(SaturatingU32(offset + |value|), SaturatingU32(limit - base)));
    }
    var start := base + offset;
    for i := 0 to |value|
      invariant forall k :: 0 <= k < i ==> out[start + k] == value[k]
      invariant forall k :: 0 <= k < out.Length && !(start <= k < start + i) ==> out[k] == old(out[k])
    {
      out[start + i] := value[i];
    }
    return Ok(());
  }

  /** `out` with the first `i` fields of a table written over `before`, up to `done`. */
  ghost predicate Written(out: Bytes, before: Bytes, base: nat, table: Table, values: seq<nat>, i: nat, done: nat)
    requires i <= |table| == |values|
  {
    && base + done <= |before|
    && Fills(table[..i], 0, done)
    && |Concat(values[..i], table[..i])| == done
    && out == before[..base] + Concat(values[..i], table[..i]) + before[base + done..]
  }

  lemma WrittenMore(out: Bytes, before: Bytes, base: nat, table: Table, values: seq<nat>, i: nat, done: nat, end: nat)
    requires i < |table| == |values| && Fills(table, 0, end) && base + end <= |before|
    requires Written(out, before, base, table, values, i, done)
    ensures var bytes, at := BigEndian(table[i].width, values[i]), base + table[i].offset;
      && table[i].offset == done && done + |bytes| <= end
      && Written(out[..at] + bytes + out[at + |bytes|..], before, base, table, values, i + 1, done + |bytes|)
  {
    hide BigEndian;
    hide Fills;
    var bytes, at := BigEndian(table[i].width, values[i]), base + table[i].offset;
    var prefix := Concat(values[..i], table[..i]);
    FieldFollows(table, i, done, end);
    assert table[..i + 1] == table[..i] + [table[i]] && values[..i + 1] == values[..i] + [values[i]];
    ConcatAppend(values[..i], table[..i], values[i], table[i]);
    assert out[..at] == before[..base] + prefix;
    assert out[at + |bytes|..] == before[base + done + |bytes|..];
  }

  /** Writes each value at the offset of its field. */
  method WriteFields(out: array<U8>, base: nat, limit: nat, table: Table, values: seq<nat>, ghost end: nat)
    requires base + end <= limit <= out.Length
    requires |values| == |table| && Fills(table, 0, end)
    modifies out
    ensures |Concat(values, table)| == end
    ensures out[..] == old(out[..base]) + Concat(values, table) + old(out[base + end..])
  {
    hide Concat;
    hide Fills;
    hide BigEndian;
    ghost var before := out[..];
    ghost var done: nat := 0;
    NothingWritten(before, base, table, values);
    for i := 0 to |table|
      invariant Written(out[..], before, base, table, values, i, done)
    {
      WrittenMore(out[..], before, base, table, values, i, done, end);
      var bytes := BigEndian(table[i].width, values[i]);
      var _ := WriteBytes(out, base, limit, table[i].offset, bytes);
      done := done + |bytes|;
    }
    assert table[..|table|] == table && values[..|table|] == values;
    FillsEndUnique(table, 0, done, end);
  }

  lemma NothingWritten(before: Bytes, base: nat, table: Table, values: seq<nat>)
    requires base <= |before| && |table| == |values|
    ensures Written(before, before, base, table, values, 0, 0)
  {
  }

  lemma FieldFollows(table: Table, i: nat, done: nat, end: nat)
    requires i < |table| && Fills(table, 0, end) && Fills(table[..i], 0, done)
    ensures table[i].offset == done && done + table[i].width <= end
    ensures Fills(table[..i + 1], 0, done + table[i].width)
  {
    FillsFrom(table, 0, end, i);
    FillsEndUnique(table[..i], 0, done, table[i].offset);
    assert table[..i + 1] == table[..i] + [table[i]];
    FillsAppend(table[..i], table[i], 0, done + table[i].width);
    if i + 1 < |table| {
      FillsFrom(table, 0, end, i + 1);
      FillsEndUnique(table[..i + 1], 0, done + table[i].width, table[i + 1].offset);
      FillsTail(table, 0, end, i + 1);
      FillsOrdered(table[i + 1..], table[i + 1].offset, end);
    } else {
      assert table[..i + 1] == table;
      FillsEndUnique(table, 0, done + table[i].width, end);
    }
  }

  lemma {:induction false} FillsTail(table: Table, start: nat, end: nat, i: nat)
    requires Fills(table, start, end) && i < |table|
    ensures Fills(table[i..], table[i].offset, end)
    decreases i
  {
    if i > 0 {
      FillsTail(table[1..], start + table[0].width, end, i - 1);
      assert table[1..][i - 1..] == table[i..];
    }
  }

  /** Why a message is refused before any byte is written. */
  function EncodeFault(m: Message, available: nat): Option<EncodeError> {
    if m.header.protocolVersion != SUPPORTED_VERSION
    then Some(EncodeUnsupportedProtocolVersion(m.header.protocolVersion))
    else if m.header.schemaVersion != SUPPORTED_VERSION
    then Some(EncodeUnsupportedSchemaVersion(m.header.schemaVersion))
    else if ValidateHeader(m.header).Err? then Some(EncodeInvalid(ValidateHeader(m.header).error))
    else if ValidateBody(m.body, m.header).Err? then Some(EncodeInvalid(ValidateBody(m.body, m.header).error))
    else if available < m.body.Type().MessageLen()
    then Some(BufferTooSmall(SaturatingU32(m.body.Type().MessageLen()), SaturatingU32(available)))
    else None
  }

  lemma BodyInPlace(out: Bytes, before: Bytes, body: Bytes, width: nat)
    requires HEADER_LEN + |body| == width <= |before|
    requires out == before[..HEADER_LEN] + body + before[width..]
    ensures out[HEADER_LEN..width] == body
    ensures out[HEADER_LEN..] == body + before[width..]
  {
  }

  lemma HeaderInPlace(out: Bytes, middle: Bytes, head: Bytes, body: Bytes, rest: Bytes)
    requires HEADER_LEN == |head| <= |middle| && middle[HEADER_LEN..] == body + rest
    requires out == middle[..0] + head + middle[HEADER_LEN..]
    ensures out == head + body + rest
  {
  }

  lemma HasRoom(m: Message, available: nat)
    requires EncodeFault(m, available).None?
    ensures m.body.Type().MessageLen() <= available
  {
    hide ValidateHeader;
    hide ValidateBody;
  }

  lemma EncodingParts(digest: Digest, m: Message)
    ensures BodyBytes(m.body) == Concat(BodyValues(m.body), m.body.Type().Fields())
    ensures Encoding(digest, m) ==
      Concat(HeaderValues(m.header, m.body.Type(), digest(BodyBytes(m.body))), HEADER_FIELDS) + BodyBytes(m.body)
  {
    hide Concat;
    hide HeaderValues;
    hide BodyValues;
    BodyFits(m.body);
  }

  /** Writes the canonical bytes of a valid message at the front of `out`, and nothing else. */
  method EncodeInto(digest: Digest, m: Message, out: array<U8>) returns (r: Result<nat, EncodeError>)
    modifies out
    ensures EncodeFault(m, out.Length).Some? ==>
      r == Err(EncodeFault(m, out.Length).value) && out[..] == old(out[..])
    ensures EncodeFault(m, out.Length).None? ==>
      && r == Ok(m.body.Type().MessageLen())
      && out[..] == Encoding(digest, m) + old(out[m.body.Type().MessageLen()..])
  {
    hide EncodeFault;
    hide Encoding;
    hide BodyBytes;
    hide Concat;
    hide HeaderValues;
    hide BodyValues;
    hide Fills;
    hide Fits;
    var fault := EncodeFault(m, out.Length);
    if fault.Some? {
      return Err(fault.value);
    }
    HasRoom(m, out.Length);
    var kind := m.body.Type();
    var width := kind.MessageLen();
    HeaderFills();
    HeaderFits(m.header, kind, digest(BodyBytes(m.body)));
    BodyFills(kind);
    BodyFits(m.body);
    ghost var before := out[..];
    WriteFields(out, HEADER_LEN, width, kind.Fields(), BodyValues(m.body), kind.BodyLen());
    EncodingLength(digest, m);
    EncodingParts(digest, m);
    ghost var middle := out[..];
    BodyInPlace(middle, before, BodyBytes(m.body), width);
    var bodyHash := digest(out[HEADER_LEN..width]);
    WriteFields(out, 0, HEADER_LEN, HEADER_FIELDS, HeaderValues(m.header, kind, bodyHash), HEADER_LEN);
    ghost var head := Concat(HeaderValues(m.header, kind, bodyHash), HEADER_FIELDS);
    HeaderInPlace(out[..], middle, head, BodyBytes(m.body), before[width..]);
    return Ok(width);
  }

  /** Encodes through the fixed buffer, which is never too small. */
  method Encode(digest: Digest, m: Message) returns (r: Result<Bytes, EncodeError>)
    ensures r.Ok? <==> WellFormed(m)
    ensures r.Ok? ==> r.value == Encoding(digest, m)
    ensures r.Err? ==> EncodeFault(m, MAX_MESSAGE_LEN) == Some(r.error) && !r.error.BufferTooSmall?
  {
    EncodingLength(digest, m);
    var buffer := new U8[MAX_MESSAGE_LEN](_ => 0);
    var width :- EncodeInto(digest, m, buffer);
    assert buffer[..width] == Encoding(digest, m);
    return Ok(buffer[..width]);
  }

  // Decoding.

  /** Settles the magic, the versions, the kind and the exact total width. */
  function InspectFrame(bytes: Bytes): Result<MessageType, DecodeError> {
    if |bytes| < HEADER_LEN then Err(Truncated(SaturatingU32(HEADER_LEN), SaturatingU32(|bytes|))) else
      var magic :- Read(bytes, MAGIC_FIELD);
      var _ :- Need(magic == MAGIC, InvalidMagic);
      var protocol :- Read(bytes, PROTOCOL_VERSION_FIELD);
      var _ :- Need(protocol == SUPPORTED_VERSION, UnsupportedProtocolVersion(protocol));
      var schema :- Read(bytes, SCHEMA_VERSION_FIELD);
      var _ :- Need(schema == SUPPORTED_VERSION, UnsupportedSchemaVersion(schema));
      var code :- Read(bytes, MESSAGE_TYPE_FIELD);
      var kind :- MessageTypeOf(code);
      var total := kind.MessageLen();
      if |bytes| < total then Err(Truncated(SaturatingU32(total), SaturatingU32(|bytes|)))
      else if total < |bytes| then Err(TrailingBytes(SaturatingU32(total), SaturatingU32(|bytes|)))
      else Ok(kind)
  }

  function ReadHeader(bytes: Bytes): Result<Header, DecodeError> {
    var protocolVersion :- ReadU16(bytes, 4);
    var schemaVersion :- ReadU16(bytes, 6);
    var flags :- ReadU16(bytes, 9);
    var sourceChain :- ReadU32(bytes, 11);
    var destinationChain :- ReadU32(bytes, 15);
    var sourceApplication :- ReadWide(bytes, 19);
    var destinationApplication :- ReadWide(bytes, 51);
    var deploymentId :- ReadWide(bytes, 83);
    var vaultId :- ReadWide(bytes, 115);
    var laneId :- ReadU32(bytes, 147);
    var sequence :- ReadU64(bytes, 151);
    var previousCommitment :- ReadWide(bytes, 159);
    var observedAt :- ReadU64(bytes, 191);
    var publishedAt :- ReadU64(bytes, 199);
    var expiresAt :- ReadU64(bytes, 207);
    Ok(Header(
      protocolVersion, schemaVersion, flags, sourceChain, destinationChain, sourceApplication,
      destinationApplication, deploymentId, vaultId, laneId, sequence, previousCommitment,
      observedAt, publishedAt, expiresAt))
  }

  function DecodeBody(kind: MessageType, bytes: Bytes): Result<Body, DecodeError> {
    var v :- ReadAll(bytes, kind.Fields());
    BodyOf(kind, v)
  }

  /** A body from its field values; an enumeration byte may be unknown. */
  function BodyOf(kind: MessageType, v: seq<nat>): Result<Body, DecodeError>
    requires Fits(v, kind.Fields())
  {
    match kind
    case AllocateType =>
      Ok(Allocate(v[0], v[1], v[2], v[3], v[4], v[5]))
    case RecallType =>
      Ok(Recall(v[0], v[1], v[2], v[3], v[4]))
    case RemoteReportType =>
      var status :- ProbeStatusOf(v[6]);
      Ok(RemoteReport(
        v[0], v[1], v[2], v[3], v[4], v[5], status,
        v[7], v[8], v[9]))
    case RecallSentType =>
      Ok(RecallSent(v[0], v[1], v[2], v[3], v[4], v[5], v[6]))
    case ConfigUpdateType =>
      Ok(ConfigUpdate(
        v[0], v[1], v[2], v[3], v[4], v[5], v[6], v[7]))
    case ResolveType =>
      var action :- ResolveActionOf(v[2]);
      Ok(Resolve(v[0], v[1], action, v[3]))
    case SettlementType =>
      var settled :- SettlementKindOf(v[1]);
      Ok(TransportSettlement(v[0], settled, v[2], v[3], v[4], v[5]))
  }

  function Checked(r: Rule): Check<DecodeError> {
    match r
    case Ok(_) => Ok(())
    case Err(reason) => Err(Invalid(reason))
  }

  function Decode(digest: Digest, bytes: Bytes): Result<Message, DecodeError> {
    var kind :- InspectFrame(bytes);
    var bodyBytes :- Window(bytes, HEADER_LEN, kind.BodyLen());
    var declared :- Read(bytes, BODY_HASH_FIELD);
    var _ :- Need(declared == digest(bodyBytes), BodyHashMismatch);
    var header :- ReadHeader(bytes);
    var body :- DecodeBody(kind, bodyBytes);
    var _ :- Checked(ValidateHeader(header));
    var _ :- Checked(ValidateBody(body, header));
    Ok(Message(header, body))
  }

  // The two are inverse.

  lemma BodyValuesInvert(kind: MessageType, v: seq<nat>, b: Body)
    requires Fits(v, kind.Fields())
    ensures BodyOf(kind, v) == Ok(b) <==> b.Type() == kind && BodyValues(b) == v
  {
  }

  lemma BodyInverts(kind: MessageType, bytes: Bytes, b: Body)
    requires |bytes| == kind.BodyLen()
    ensures DecodeBody(kind, bytes) == Ok(b) <==> b.Type() == kind && bytes == BodyBytes(b)
  {
    hide ReadAll;
    hide Concat;
    hide BodyOf;
    hide BodyValues;
    hide Fits;
    hide Fills;
    BodyFills(kind);
    BodyFits(b);
    assert bytes[0..|bytes|] == bytes;
    ReadsAll(bytes, kind.Fields(), 0, kind.BodyLen());
    var v := ReadAll(bytes, kind.Fields()).value;
    BodyValuesInvert(kind, v, b);
    ReadInvertsConcat(bytes, kind.Fields(), 0, kind.BodyLen(), BodyValues(b));
  }

  lemma HeaderReads(bytes: Bytes)
    requires HEADER_LEN <= |bytes|
    ensures ReadAll(bytes, HEADER_FIELDS).Ok?
    ensures forall i :: 0 <= i < |HEADER_FIELDS| ==>
      Read(bytes, HEADER_FIELDS[i]) == Ok(ReadAll(bytes, HEADER_FIELDS).value[i])
  {
    hide ReadAll;
    hide Read;
    HeaderFills();
    ReadsAll(bytes, HEADER_FIELDS, 0, HEADER_LEN);
    forall i | 0 <= i < |HEADER_FIELDS|
      ensures Read(bytes, HEADER_FIELDS[i]) == Ok(ReadAll(bytes, HEADER_FIELDS).value[i])
    {
      ReadAllAt(bytes, HEADER_FIELDS, i);
    }
  }

  /** A frame passes inspection exactly when its fixed header values and its length say so. */
  lemma FrameInverts(bytes: Bytes, kind: MessageType, v: seq<nat>)
    requires HEADER_LEN <= |bytes| && ReadAll(bytes, HEADER_FIELDS) == Ok(v)
    ensures InspectFrame(bytes) == Ok(kind) <==>
      && |bytes| == kind.MessageLen()
      && v[0] == MAGIC && v[1] == SUPPORTED_VERSION && v[2] == SUPPORTED_VERSION && v[3] == kind.Code()
  {
    hide ReadAll;
    hide Read;
    HeaderReads(bytes);
  }

  lemma RouteReads(bytes: Bytes, v: seq<nat>)
    requires HEADER_LEN <= |bytes| && ReadAll(bytes, HEADER_FIELDS) == Ok(v)
    ensures |v| == 18
    ensures Read(bytes, Field(4, 2)) == Ok(v[1]) && Read(bytes, Field(6, 2)) == Ok(v[2])
    ensures Read(bytes, Field(9, 2)) == Ok(v[4]) && Read(bytes, Field(11, 4)) == Ok(v[5])
    ensures Read(bytes, Field(15, 4)) == Ok(v[6]) && Read(bytes, Field(19, WIDE)) == Ok(v[7])
    ensures Read(bytes, Field(51, WIDE)) == Ok(v[8])
  {
    hide ReadAll;
    hide Read;
    HeaderRead(bytes, v, 1, Field(4, 2));
    HeaderRead(bytes, v, 2, Field(6, 2));
    HeaderRead(bytes, v, 4, Field(9, 2));
    HeaderRead(bytes, v, 5, Field(11, 4));
    HeaderRead(bytes, v, 6, Field(15, 4));
    HeaderRead(bytes, v, 7, Field(19, WIDE));
    HeaderRead(bytes, v, 8, Field(51, WIDE));
  }

  lemma RestReads(bytes: Bytes, v: seq<nat>)
    requires HEADER_LEN <= |bytes| && ReadAll(bytes, HEADER_FIELDS) == Ok(v)
    ensures |v| == 18
    ensures Read(bytes, Field(83, WIDE)) == Ok(v[9]) && Read(bytes, Field(115, WIDE)) == Ok(v[10])
    ensures Read(bytes, Field(147, 4)) == Ok(v[11]) && Read(bytes, Field(151, 8)) == Ok(v[12])
    ensures Read(bytes, Field(159, WIDE)) == Ok(v[13]) && Read(bytes, Field(191, 8)) == Ok(v[14])
    ensures Read(bytes, Field(199, 8)) == Ok(v[15]) && Read(bytes, Field(207, 8)) == Ok(v[16])
  {
    hide ReadAll;
    hide Read;
    HeaderRead(bytes, v, 9, Field(83, WIDE));
    HeaderRead(bytes, v, 10, Field(115, WIDE));
    HeaderRead(bytes, v, 11, Field(147, 4));
    HeaderRead(bytes, v, 12, Field(151, 8));
    HeaderRead(bytes, v, 13, Field(159, WIDE));
    HeaderRead(bytes, v, 14, Field(191, 8));
    HeaderRead(bytes, v, 15, Field(199, 8));
    HeaderRead(bytes, v, 16, Field(207, 8));
  }

  /** Reading the header field by field and reading its table agree. */
  lemma HeaderIsTable(bytes: Bytes, v: seq<nat>)
    requires HEADER_LEN <= |bytes| && ReadAll(bytes, HEADER_FIELDS) == Ok(v)
    ensures ReadHeader(bytes).Ok?
    ensures var h := ReadHeader(bytes).value;
      v == [v[0], h.protocolVersion, h.schemaVersion, v[3], h.flags, h.sourceChain, h.destinationChain,
            h.sourceApplication, h.destinationApplication, h.deploymentId, h.vaultId, h.laneId, h.sequence,
            h.previousCommitment, h.observedAt, h.publishedAt, h.expiresAt, v[17]]
  {
    hide ReadAll;
    hide Read;
    RouteReads(bytes, v);
    RestReads(bytes, v);
  }

  lemma HeaderRead(bytes: Bytes, v: seq<nat>, i: nat, field: Field)
    requires HEADER_LEN <= |bytes| && ReadAll(bytes, HEADER_FIELDS) == Ok(v)
    requires i < |HEADER_FIELDS| && HEADER_FIELDS[i] == field
    ensures |v| == |HEADER_FIELDS| && Read(bytes, field) == Ok(v[i])
  {
    hide ReadAll;
    hide Read;
    HeaderReads(bytes);
  }

  lemma HeaderValuesInvert(bytes: Bytes, v: seq<nat>, h: Header, kind: MessageType, bodyHash: Wide)
    requires HEADER_LEN <= |bytes| && ReadAll(bytes, HEADER_FIELDS) == Ok(v)
    ensures v == HeaderValues(h, kind, bodyHash) <==>
      && v[0] == MAGIC && v[3] == kind.Code() && v[17] == bodyHash && ReadHeader(bytes) == Ok(h)
  {
    hide ReadAll;
    hide ReadHeader;
    HeaderIsTable(bytes, v);
    var g := ReadHeader(bytes).value;
    if v == HeaderValues(h, kind, bodyHash) {
      SameHeader(g, h, v[0], v[3], v[17], kind, bodyHash);
    }
  }

  lemma SameHeader(g: Header, h: Header, magic: nat, code: nat, hash: nat, kind: MessageType, bodyHash: Wide)
    requires [magic, g.protocolVersion, g.schemaVersion, code, g.flags, g.sourceChain, g.destinationChain,
            g.sourceApplication, g.destinationApplication, g.deploymentId, g.vaultId, g.laneId, g.sequence,
            g.previousCommitment, g.observedAt, g.publishedAt, g.expiresAt, hash] == HeaderValues(h, kind, bodyHash)
    ensures g == h
  {
    var a := HeaderValues(h, kind, bodyHash);
    assert a[1] == g.protocolVersion && a[2] == g.schemaVersion && a[4] == g.flags && a[5] == g.sourceChain;
    assert a[6] == g.destinationChain && a[7] == g.sourceApplication && a[8] == g.destinationApplication;
    assert a[9] == g.deploymentId && a[10] == g.vaultId && a[11] == g.laneId && a[12] == g.sequence;
    assert a[13] == g.previousCommitment && a[14] == g.observedAt && a[15] == g.publishedAt && a[16] == g.expiresAt;
  }

  /** The parts of a frame, once its length is right. */
  lemma DecodeParts(digest: Digest, bytes: Bytes, m: Message)
    requires |bytes| == m.body.Type().MessageLen()
    ensures Decode(digest, bytes) == Ok(m) <==>
      && WellFormed(m)
      && bytes[HEADER_LEN..] == BodyBytes(m.body)
      && ReadAll(bytes, HEADER_FIELDS)
           == Ok(HeaderValues(m.header, m.body.Type(), digest(BodyBytes(m.body))))
  {
    hide ReadAll;
    hide Read;
    hide BodyBytes;
    hide DecodeBody;
    hide ReadHeader;
    hide HeaderValues;
    hide InspectFrame;
    hide ValidateHeader;
    hide ValidateBody;
    var kind := m.body.Type();
    if Decode(digest, bytes) == Ok(m) {
      DecodedLength(digest, bytes, m);
    }
    HeaderReads(bytes);
    var v := ReadAll(bytes, HEADER_FIELDS).value;
    assert Read(bytes, HEADER_FIELDS[17]) == Ok(v[17]);
    FrameInverts(bytes, kind, v);
    var bodyBytes := bytes[HEADER_LEN..];
    assert bytes[HEADER_LEN..HEADER_LEN + kind.BodyLen()] == bodyBytes;
    BodyInverts(kind, bodyBytes, m.body);
    HeaderValuesInvert(bytes, v, m.header, kind, digest(bodyBytes));
    VersionsRead(bytes, v);
  }

  lemma VersionsRead(bytes: Bytes, v: seq<nat>)
    requires HEADER_LEN <= |bytes| && ReadAll(bytes, HEADER_FIELDS) == Ok(v)
    ensures ReadHeader(bytes).Ok?
    ensures ReadHeader(bytes).value.protocolVersion == v[1] && ReadHeader(bytes).value.schemaVersion == v[2]
  {
    hide ReadAll;
    hide ReadHeader;
    HeaderIsTable(bytes, v);
  }

  /** A byte string decodes to a message exactly when the message is well formed and this is its encoding. */
  lemma DecodeInvertsEncode(digest: Digest, bytes: Bytes, m: Message)
    ensures Decode(digest, bytes) == Ok(m) <==> WellFormed(m) && bytes == Encoding(digest, m)
  {
    hide Concat;
    hide ReadAll;
    hide HeaderValues;
    hide WellFormed;
    hide BodyBytes;
    hide Fits;
    hide Decode;
    var kind := m.body.Type();
    EncodingLength(digest, m);
    if Decode(digest, bytes) == Ok(m) {
      DecodedLength(digest, bytes, m);
    }
    if |bytes| == kind.MessageLen() {
      var values := HeaderValues(m.header, kind, digest(BodyBytes(m.body)));
      DecodeParts(digest, bytes, m);
      HeaderFills();
      HeaderFits(m.header, kind, digest(BodyBytes(m.body)));
      ReadInvertsConcat(bytes, HEADER_FIELDS, 0, HEADER_LEN, values);
      ConcatLength(values, HEADER_FIELDS, 0, HEADER_LEN);
      assert bytes == bytes[0..HEADER_LEN] + bytes[HEADER_LEN..];
      assert Encoding(digest, m)[0..HEADER_LEN] == Concat(values, HEADER_FIELDS);
      assert Encoding(digest, m)[HEADER_LEN..] == BodyBytes(m.body);
    }
  }

  lemma DecodedLength(digest: Digest, bytes: Bytes, m: Message)
    requires Decode(digest, bytes) == Ok(m)
    ensures InspectFrame(bytes) == Ok(m.body.Type()) && |bytes| == m.body.Type().MessageLen()
  {
    hide Read;
    hide ReadHeader;
    hide DecodeBody;
    hide InspectFrame;
    hide ValidateHeader;
    hide ValidateBody;
    var kind := InspectFrame(bytes).value;
    FrameLength(bytes);
    DecodedType(kind, bytes[HEADER_LEN..HEADER_LEN + kind.BodyLen()]);
  }

  lemma FrameLength(bytes: Bytes)
    requires InspectFrame(bytes).Ok?
    ensures |bytes| == InspectFrame(bytes).value.MessageLen()
  {
    hide Read;
  }

  lemma DecodedType(kind: MessageType, bytes: Bytes)
    requires DecodeBody(kind, bytes).Ok?
    ensures DecodeBody(kind, bytes).value.Type() == kind
  {
    hide ReadAll;
  }

  // What a damaged frame decodes to.

  lemma EncodingReads(digest: Digest, m: Message)
    ensures ReadAll(Encoding(digest, m), HEADER_FIELDS)
         == Ok(HeaderValues(m.header, m.body.Type(), digest(BodyBytes(m.body))))
  {
    hide Concat;
    hide ReadAll;
    hide HeaderValues;
    hide BodyBytes;
    hide Fits;
    var values := HeaderValues(m.header, m.body.Type(), digest(BodyBytes(m.body)));
    EncodingLength(digest, m);
    HeaderFills();
    HeaderFits(m.header, m.body.Type(), digest(BodyBytes(m.body)));
    ConcatLength(values, HEADER_FIELDS, 0, HEADER_LEN);
    assert Encoding(digest, m)[0..HEADER_LEN] == Concat(values, HEADER_FIELDS);
    ReadInvertsConcat(Encoding(digest, m), HEADER_FIELDS, 0, HEADER_LEN, values);
  }

  /** Reads see only the bytes of their own field. */
  lemma HeaderReadsAgree(a: Bytes, b: Bytes)
    requires HEADER_LEN <= |a| && HEADER_LEN <= |b| && a[..HEADER_LEN] == b[..HEADER_LEN]
    ensures ReadAll(a, HEADER_FIELDS) == ReadAll(b, HEADER_FIELDS)
  {
    hide ReadAll;
    hide Concat;
    HeaderFills();
    HeaderReads(a);
    var v := ReadAll(a, HEADER_FIELDS).value;
    assert a[0..HEADER_LEN] == b[0..HEADER_LEN];
    ReadInvertsConcat(a, HEADER_FIELDS, 0, HEADER_LEN, v);
    ReadInvertsConcat(b, HEADER_FIELDS, 0, HEADER_LEN, v);
  }

  /** Every strict prefix of an encoding is refused as truncated, and every extension as having trailing bytes. */
  lemma LengthIsExact(digest: Digest, m: Message, bytes: Bytes)
    requires WellFormed(m) && |bytes| != m.body.Type().MessageLen()
    requires bytes <= Encoding(digest, m) || Encoding(digest, m) <= bytes
    ensures var len := m.body.Type().MessageLen();
      Decode(digest, bytes) ==
        if |bytes| < HEADER_LEN then Err(Truncated(HEADER_LEN, |bytes|))
        else if |bytes| < len then Err(Truncated(len, |bytes|))
        else Err(TrailingBytes(len, SaturatingU32(|bytes|)))
  {
    hide ReadAll;
    hide Read;
    hide Encoding;
    hide DecodeBody;
    hide ReadHeader;
    hide ValidateHeader;
    hide ValidateBody;
    hide BodyBytes;
    EncodingLength(digest, m);
    if HEADER_LEN <= |bytes| {
      EncodingReads(digest, m);
      HeaderReadsAgree(bytes, Encoding(digest, m));
      HeaderReads(bytes);
      var v := ReadAll(bytes, HEADER_FIELDS).value;
      assert forall i :: 0 <= i < |HEADER_FIELDS| ==> Read(bytes, HEADER_FIELDS[i]) == Ok(v[i]);
    }
  }

  /** No encoding survives a change of its message type alone: every kind has its own width. */
  lemma TypeIsBound(digest: Digest, m: Message, code: U8)
    requires WellFormed(m) && code != m.body.Type().Code()
    ensures MESSAGE_TYPE_FIELD.offset < |Encoding(digest, m)|
    ensures Decode(digest, Encoding(digest, m)[MESSAGE_TYPE_FIELD.offset := code]).Err?
  {
    hide Decode;
    hide Encoding;
    hide ReadAll;
    hide WellFormed;
    EncodingLength(digest, m);
    var bytes := Encoding(digest, m)[MESSAGE_TYPE_FIELD.offset := code];
    if Decode(digest, bytes).Ok? {
      var other := Decode(digest, bytes).value;
      DecodeInvertsEncode(digest, bytes, other);
      EncodingLength(digest, other);
      WidthsDiffer(m.body.Type(), other.body.Type());
      TypeByte(digest, other);
      assert false;
    }
  }

  lemma WidthsDiffer(a: MessageType, b: MessageType)
    requires a.MessageLen() == b.MessageLen()
    ensures a == b
  {
  }

  lemma TypeByte(digest: Digest, m: Message)
    ensures MESSAGE_TYPE_FIELD.offset < |Encoding(digest, m)|
    ensures Encoding(digest, m)[MESSAGE_TYPE_FIELD.offset] == m.body.Type().Code()
  {
    hide Encoding;
    hide ReadAll;
    EncodingLength(digest, m);
    EncodingReads(digest, m);
    HeaderReads(Encoding(digest, m));
    assert Read(Encoding(digest, m), HEADER_FIELDS[3]) == Ok(m.body.Type().Code());
    var slice := Encoding(digest, m)[8..9];
    assert slice[..0] == [];
    assert FromBigEndian(slice) == 256 * FromBigEndian(slice[..0]) + slice[0];
  }
}
