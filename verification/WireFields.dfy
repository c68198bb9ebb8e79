/** Where every named field of a message is on the wire, byte by byte. */
module WireFields {
  import opened Results
  import opened Words
  import opened WireNumbers
  import opened WireLayout
  import opened WireMessage
  import opened WireCodec

  /** The most significant byte comes first. */
  lemma {:induction false} BigEndianAt(width: nat, v: nat, i: nat)
    requires i < width
    ensures Pow256(width - 1 - i) > 0
    ensures BigEndian(width, v)[i] == v / Pow256(width - 1 - i) % 256
    decreases width
  {
    var rest := BigEndian(width - 1, v / 256);
    assert BigEndian(width, v) == rest + [v % 256];
    PowerPositive(width - 1 - i);
    if i < width - 1 {
      assert BigEndian(width, v)[i] == rest[i];
      BigEndianAt(width - 1, v / 256, i);
      DivideTwice(v, Pow256(width - 2 - i));
    }
  }

  lemma {:induction false} PowerPositive(n: nat)
    ensures Pow256(n) > 0
  {
    if n > 0 {
      PowerPositive(n - 1);
    }
  }

  lemma DivideTwice(v: nat, p: nat)
    requires p > 0
    ensures v / 256 / p == v / (256 * p)
  {
    var q := v / (256 * p);
    var r := v % (256 * p);
    assert v == 256 * p * q + r;
    assert v / 256 == p * q + r / 256;
    assert 0 <= r / 256 < p;
    Divides(v / 256, p, q, r / 256);
  }

  lemma Divides(x: nat, p: nat, q: nat, r: nat)
    requires x == p * q + r && r < p
    ensures x / p == q
  {
    var d := x / p;
    assert x == p * d + x % p && 0 <= x % p < p;
    assert d < q ==> p * (d + 1) <= p * q;
    assert q < d ==> p * (q + 1) <= p * d;
  }

  /** The bytes from `at` on spell `value` in `width` bytes, most significant first. */
  ghost predicate Spells(bytes: Bytes, at: nat, width: nat, value: nat) {
    && at + width <= |bytes|
    && FromBigEndian(bytes[at..at + width]) == value
  }

  lemma HeaderAt(digest: Digest, m: Message, i: nat)
    requires i < |HEADER_FIELDS|
    ensures var values := HeaderValues(m.header, m.body.Type(), digest(BodyBytes(m.body)));
      Spells(Encoding(digest, m), HEADER_FIELDS[i].offset, HEADER_FIELDS[i].width, values[i])
  {
    hide ReadAll;
    hide Encoding;
    hide HeaderValues;
    hide BodyBytes;
    EncodingReads(digest, m);
    ReadAllAt(Encoding(digest, m), HEADER_FIELDS, i);
  }

  lemma BodyReads(b: Body)
    ensures ReadAll(BodyBytes(b), b.Type().Fields()) == Ok(BodyValues(b))
  {
    hide ReadAll;
    hide Concat;
    hide BodyValues;
    hide Fits;
    hide Fills;
    var kind := b.Type();
    BodyFills(kind);
    BodyFits(b);
    ConcatLength(BodyValues(b), kind.Fields(), 0, kind.BodyLen());
    assert BodyBytes(b)[0..kind.BodyLen()] == BodyBytes(b);
    ReadInvertsConcat(BodyBytes(b), kind.Fields(), 0, kind.BodyLen(), BodyValues(b));
  }

  lemma BodyCount(b: Body)
    ensures |BodyValues(b)| == |b.Type().Fields()|
  {
  }

  lemma BodyAt(digest: Digest, m: Message, i: nat)
    requires i < |m.body.Type().Fields()|
    ensures |BodyValues(m.body)| == |m.body.Type().Fields()|
    ensures var field := m.body.Type().Fields()[i];
      Spells(Encoding(digest, m), HEADER_LEN + field.offset, field.width, BodyValues(m.body)[i])
  {
    hide ReadAll;
    hide BodyValues;
    BodyCount(m.body);
    BodyReads(m.body);
    EncodingLength(digest, m);
    ReadAllAt(BodyBytes(m.body), m.body.Type().Fields(), i);
    var field, body, all := m.body.Type().Fields()[i], BodyBytes(m.body), Encoding(digest, m);
    BodyComesLast(digest, m);
    assert field.offset + field.width <= |body|;
    hide Encoding;
    hide BodyBytes;
    SliceOfTail(all, body, HEADER_LEN, field.offset, field.width);
  }

  lemma BodyComesLast(digest: Digest, m: Message)
    ensures |Encoding(digest, m)| == HEADER_LEN + |BodyBytes(m.body)|
    ensures Encoding(digest, m)[HEADER_LEN..] == BodyBytes(m.body)
  {
    hide Concat;
    hide BodyBytes;
    EncodingLength(digest, m);
    var head := Concat(HeaderValues(m.header, m.body.Type(), digest(BodyBytes(m.body))), HEADER_FIELDS);
    assert Encoding(digest, m) == head + BodyBytes(m.body);
  }

  lemma SliceOfTail(all: Bytes, tail: Bytes, start: nat, at: nat, width: nat)
    requires |all| == start + |tail| && all[start..] == tail && at + width <= |tail|
    ensures all[start + at..start + at + width] == tail[at..at + width]
  {
    var a, b := all[start + at..start + at + width], all[start..][at..at + width];
    assert |a| == |b| && forall k :: 0 <= k < width ==> a[k] == b[k];
  }

  lemma OneByte(bytes: Bytes, at: nat, value: nat)
    requires Spells(bytes, at, 1, value)
    ensures bytes[at] == value
  {
    var one := bytes[at..at + 1];
    assert one == [bytes[at]] && one[..0] == [];
    assert FromBigEndian(one) == bytes[at];
  }

  lemma HeaderValuesAre(h: Header, kind: MessageType, bodyHash: Wide)
    ensures var v := HeaderValues(h, kind, bodyHash);
      && |v| == 18 && v[0] == 0x53564531 && v[1] == h.protocolVersion && v[2] == h.schemaVersion
      && v[3] == kind.Code() && v[4] == h.flags && v[5] == h.sourceChain && v[6] == h.destinationChain
      && v[7] == h.sourceApplication && v[8] == h.destinationApplication && v[9] == h.deploymentId
      && v[10] == h.vaultId && v[11] == h.laneId && v[12] == h.sequence && v[13] == h.previousCommitment
      && v[14] == h.observedAt && v[15] == h.publishedAt && v[16] == h.expiresAt && v[17] == bodyHash
  {
  }

  lemma HeaderField(digest: Digest, m: Message, i: nat, at: nat, width: nat)
    requires i < |HEADER_FIELDS| && HEADER_FIELDS[i] == Field(at, width)
    ensures |HeaderValues(m.header, m.body.Type(), digest(BodyBytes(m.body)))| == |HEADER_FIELDS|
    ensures Spells(
      Encoding(digest, m), at, width, HeaderValues(m.header, m.body.Type(), digest(BodyBytes(m.body)))[i])
  {
    hide Encoding;
    hide BodyBytes;
    hide Spells;
    HeaderAt(digest, m, i);
  }

  /** The header's magic number, versions, route, position and times, each at its own bytes. */
  lemma HeaderLayout(digest: Digest, m: Message)
    ensures var b, h := Encoding(digest, m), m.header;
      && Spells(b, 0, 4, 0x53564531)
      && Spells(b, 4, 2, h.protocolVersion) && Spells(b, 6, 2, h.schemaVersion)
      && Spells(b, 9, 2, h.flags) && Spells(b, 11, 4, h.sourceChain) && Spells(b, 15, 4, h.destinationChain)
      && Spells(b, 147, 4, h.laneId) && Spells(b, 151, 8, h.sequence)
      && Spells(b, 191, 8, h.observedAt) && Spells(b, 199, 8, h.publishedAt) && Spells(b, 207, 8, h.expiresAt)
  {
    hide HeaderValues;
    HeaderValuesAre(m.header, m.body.Type(), digest(BodyBytes(m.body)));
    hide Spells;
    hide Encoding;
    hide BodyBytes;
    HeaderField(digest, m, 0, 0, 4);
    HeaderField(digest, m, 1, 4, 2);
    HeaderField(digest, m, 2, 6, 2);
    HeaderField(digest, m, 4, 9, 2);
    HeaderField(digest, m, 5, 11, 4);
    HeaderField(digest, m, 6, 15, 4);
    HeaderField(digest, m, 11, 147, 4);
    HeaderField(digest, m, 12, 151, 8);
    HeaderField(digest, m, 14, 191, 8);
    HeaderField(digest, m, 15, 199, 8);
    HeaderField(digest, m, 16, 207, 8);
  }

  /** The header's 32-byte fields, the digest of everything behind the header among them. */
  lemma IdentifierLayout(digest: Digest, m: Message)
    ensures var b, h := Encoding(digest, m), m.header;
      && Spells(b, 19, 32, h.sourceApplication) && Spells(b, 51, 32, h.destinationApplication)
      && Spells(b, 83, 32, h.deploymentId) && Spells(b, 115, 32, h.vaultId)
      && Spells(b, 159, 32, h.previousCommitment)
      && |b| > 247 && Spells(b, 215, 32, digest(b[247..]))
  {
    EncodingLength(digest, m);
    BodyComesLast(digest, m);
    hide HeaderValues;
    HeaderValuesAre(m.header, m.body.Type(), digest(BodyBytes(m.body)));
    hide Spells;
    hide Encoding;
    hide BodyBytes;
    HeaderField(digest, m, 7, 19, 32);
    HeaderField(digest, m, 8, 51, 32);
    HeaderField(digest, m, 9, 83, 32);
    HeaderField(digest, m, 10, 115, 32);
    HeaderField(digest, m, 13, 159, 32);
    HeaderField(digest, m, 17, 215, 32);
  }

  /** The byte that says which kind of message this is, and how long the whole message is. */
  lemma TypeLayout(digest: Digest, m: Message)
    ensures |Encoding(digest, m)| > 8
    ensures Encoding(digest, m)[8] ==
      match m.body
      case Allocate(_, _, _, _, _, _) => 1
      case Recall(_, _, _, _, _) => 2
      case RemoteReport(_, _, _, _, _, _, _, _, _, _) => 3
      case RecallSent(_, _, _, _, _, _, _) => 4
      case ConfigUpdate(_, _, _, _, _, _, _, _) => 5
      case Resolve(_, _, _, _) => 6
      case TransportSettlement(_, _, _, _, _, _) => 7
    ensures |Encoding(digest, m)| ==
      match m.body
      case Allocate(_, _, _, _, _, _) => 343
      case Recall(_, _, _, _, _) => 327
      case RemoteReport(_, _, _, _, _, _, _, _, _, _) => 400
      case RecallSent(_, _, _, _, _, _, _) => 375
      case ConfigUpdate(_, _, _, _, _, _, _, _) => 317
      case Resolve(_, _, _, _) => 296
      case TransportSettlement(_, _, _, _, _, _) => 336
  {
    hide Spells;
    hide Encoding;
    hide BodyBytes;
    EncodingLength(digest, m);
    HeaderAt(digest, m, 3);
    OneByte(Encoding(digest, m), 8, m.body.Type().Code());
  }

  /** The value of a body field is spelled at its offset behind the 247 bytes of the header. */
  ghost predicate InBody(b: Bytes, at: nat, width: nat, value: nat) {
    Spells(b, 247 + at, width, value)
  }

  lemma BodyField(digest: Digest, m: Message, i: nat, at: nat, width: nat)
    requires i < |m.body.Type().Fields()| && m.body.Type().Fields()[i] == Field(at, width)
    ensures |BodyValues(m.body)| == |m.body.Type().Fields()|
    ensures InBody(Encoding(digest, m), at, width, BodyValues(m.body)[i])
  {
    hide Encoding;
    hide BodyValues;
    hide Spells;
    BodyAt(digest, m, i);
  }

  lemma EnumField(digest: Digest, m: Message, i: nat, at: nat, code: U8)
    requires i < |m.body.Type().Fields()| && m.body.Type().Fields()[i] == Field(at, 1)
    requires |BodyValues(m.body)| > i && BodyValues(m.body)[i] == code
    ensures |Encoding(digest, m)| > 247 + at && Encoding(digest, m)[247 + at] == code
  {
    hide Encoding;
    hide BodyValues;
    BodyField(digest, m, i, at, 1);
    OneByte(Encoding(digest, m), 247 + at, code);
  }

  lemma AllocateLayout(digest: Digest, m: Message)
    requires m.body.Allocate?
    ensures var b, d := Encoding(digest, m), m.body;
      && InBody(b, 0, 32, d.transferId) && InBody(b, 32, 16, d.amount)
      && InBody(b, 48, 16, d.expectedSourceBalance) && InBody(b, 64, 16, d.minimumDestinationAmount)
      && InBody(b, 80, 8, d.deadline) && InBody(b, 88, 8, d.configVersion)
  {
    hide Encoding;
    hide InBody;
    BodyField(digest, m, 0, 0, 32);
    BodyField(digest, m, 1, 32, 16);
    BodyField(digest, m, 2, 48, 16);
    BodyField(digest, m, 3, 64, 16);
    BodyField(digest, m, 4, 80, 8);
    BodyField(digest, m, 5, 88, 8);
  }

  lemma RecallLayout(digest: Digest, m: Message)
    requires m.body.Recall?
    ensures var b, d := Encoding(digest, m), m.body;
      && InBody(b, 0, 32, d.transferId) && InBody(b, 32, 16, d.requestedAmount)
      && InBody(b, 48, 16, d.minimumReturnAmount) && InBody(b, 64, 8, d.deadline)
      && InBody(b, 72, 8, d.configVersion)
  {
    hide Encoding;
    hide InBody;
    BodyField(digest, m, 0, 0, 32);
    BodyField(digest, m, 1, 32, 16);
    BodyField(digest, m, 2, 48, 16);
    BodyField(digest, m, 3, 64, 8);
    BodyField(digest, m, 4, 72, 8);
  }

  lemma RemoteReportLayout(digest: Digest, m: Message)
    requires m.body.RemoteReport?
    ensures var b, d := Encoding(digest, m), m.body;
      && InBody(b, 0, 8, d.epochId) && InBody(b, 8, 16, d.remotePrincipal) && InBody(b, 24, 16, d.reportedValue)
      && InBody(b, 40, 16, d.realizedLoss) && InBody(b, 56, 16, d.unattributedBalance)
      && InBody(b, 72, 32, d.latestCompletedTransferId) && InBody(b, 105, 8, d.probeTimestamp)
      && InBody(b, 113, 8, d.configVersion) && InBody(b, 121, 32, d.remoteStateCommitment)
    ensures |Encoding(digest, m)| > 247 + 104
    ensures Encoding(digest, m)[247 + 104] ==
      match m.body.probeStatus
      case NotRequired => 0
      case Fresh => 1
      case Stale => 2
      case Failed => 3
  {
    hide Encoding;
    hide InBody;
    BodyField(digest, m, 0, 0, 8);
    BodyField(digest, m, 1, 8, 16);
    BodyField(digest, m, 2, 24, 16);
    BodyField(digest, m, 3, 40, 16);
    BodyField(digest, m, 4, 56, 16);
    BodyField(digest, m, 5, 72, 32);
    EnumField(digest, m, 6, 104, m.body.probeStatus.Code());
    BodyField(digest, m, 7, 105, 8);
    BodyField(digest, m, 8, 113, 8);
    BodyField(digest, m, 9, 121, 32);
  }

  lemma RecallSentLayout(digest: Digest, m: Message)
    requires m.body.RecallSent?
    ensures var b, d := Encoding(digest, m), m.body;
      && InBody(b, 0, 32, d.transferId) && InBody(b, 32, 16, d.principalSent)
      && InBody(b, 48, 16, d.actualAmountSent) && InBody(b, 64, 16, d.realizedLoss)
      && InBody(b, 80, 32, d.destinationReference) && InBody(b, 112, 8, d.sentTimestamp)
      && InBody(b, 120, 8, d.configVersion)
  {
    hide Encoding;
    hide InBody;
    BodyField(digest, m, 0, 0, 32);
    BodyField(digest, m, 1, 32, 16);
    BodyField(digest, m, 2, 48, 16);
    BodyField(digest, m, 3, 64, 16);
    BodyField(digest, m, 4, 80, 32);
    BodyField(digest, m, 5, 112, 8);
    BodyField(digest, m, 6, 120, 8);
  }

  lemma ConfigUpdateLayout(digest: Digest, m: Message)
    requires m.body.ConfigUpdate?
    ensures var b, d := Encoding(digest, m), m.body;
      && InBody(b, 0, 8, d.configVersion) && InBody(b, 8, 8, d.previousConfigVersion)
      && InBody(b, 16, 2, d.maxRemoteAllocationBps) && InBody(b, 18, 2, d.maxUpwardDeviationBps)
      && InBody(b, 20, 2, d.maxDownwardDeviationBps) && InBody(b, 22, 8, d.maxReportAge)
      && InBody(b, 30, 8, d.effectiveTimestamp) && InBody(b, 38, 32, d.configCommitment)
  {
    hide Encoding;
    hide InBody;
    BodyField(digest, m, 0, 0, 8);
    BodyField(digest, m, 1, 8, 8);
    BodyField(digest, m, 2, 16, 2);
    BodyField(digest, m, 3, 18, 2);
    BodyField(digest, m, 4, 20, 2);
    BodyField(digest, m, 5, 22, 8);
    BodyField(digest, m, 6, 30, 8);
    BodyField(digest, m, 7, 38, 32);
  }

  lemma ResolveLayout(digest: Digest, m: Message)
    requires m.body.Resolve?
    ensures var b, d := Encoding(digest, m), m.body;
      && InBody(b, 0, 32, d.transferId) && InBody(b, 32, 8, d.targetSequence)
      && InBody(b, 41, 8, d.configVersion)
    ensures |Encoding(digest, m)| > 247 + 40
    ensures Encoding(digest, m)[247 + 40] ==
      match m.body.action
      case Admit => 1
      case Close => 2
      case Recover => 3
  {
    hide Encoding;
    hide InBody;
    BodyField(digest, m, 0, 0, 32);
    BodyField(digest, m, 1, 32, 8);
    EnumField(digest, m, 2, 40, m.body.action.Code());
    BodyField(digest, m, 3, 41, 8);
  }

  lemma TransportSettlementLayout(digest: Digest, m: Message)
    requires m.body.TransportSettlement?
    ensures var b, d := Encoding(digest, m), m.body;
      && InBody(b, 0, 32, d.transferId) && InBody(b, 33, 16, d.claimAmount)
      && InBody(b, 49, 16, d.creditedAmount) && InBody(b, 65, 16, d.impairedOutstanding)
      && InBody(b, 81, 8, d.configVersion)
    ensures |Encoding(digest, m)| > 247 + 32
    ensures Encoding(digest, m)[247 + 32] ==
      match m.body.kind
      case Closed => 1
      case Recovered => 2
  {
    hide Encoding;
    hide InBody;
    BodyField(digest, m, 0, 0, 32);
    EnumField(digest, m, 1, 32, m.body.kind.Code());
    BodyField(digest, m, 2, 33, 16);
    BodyField(digest, m, 3, 49, 16);
    BodyField(digest, m, 4, 65, 16);
    BodyField(digest, m, 5, 81, 8);
  }
}
