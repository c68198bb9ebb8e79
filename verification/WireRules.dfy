/** Which messages both ends accept, as one condition on their fields, and what a refusal says. */
module WireRules {
  import opened Results
  import opened WireErrors
  import opened WireNumbers
  import opened WireLayout
  import opened WireMessage
  import opened WireCodec
  import opened WireFields

  /** Two distinct endpoints, no reserved flag, every identifier set, and times in order. */
  predicate HeaderHolds(h: Header) {
    && h.flags == 0
    && h.sourceChain > 0 && h.destinationChain > 0 && h.sourceChain != h.destinationChain
    && h.sourceApplication > 0 && h.destinationApplication > 0 && h.sourceApplication != h.destinationApplication
    && h.deploymentId > 0 && h.vaultId > 0 && h.laneId > 0 && h.sequence > 0
    && h.observedAt <= h.publishedAt <= h.expiresAt
  }

  predicate BodyHolds(b: Body, h: Header) {
    b.configVersion > 0 &&
    match b
    case Allocate(id, amount, _, minimum, deadline, _) =>
      id > 0 && 0 < minimum <= amount && h.publishedAt <= deadline
    case Recall(id, requested, minimum, deadline, _) =>
      id > 0 && 0 < minimum <= requested && h.publishedAt <= deadline
    case RemoteReport(epoch, _, _, _, _, _, status, probedAt, _, commitment) =>
      epoch > 0 && commitment > 0 && probedAt <= h.observedAt && (status == Fresh ==> probedAt > 0)
    case RecallSent(id, principal, _, loss, reference, sentAt, _) =>
      id > 0 && principal > 0 && loss <= principal && reference > 0 && sentAt <= h.observedAt
    case ConfigUpdate(version, previous, allocation, upward, downward, age, effectiveAt, commitment) =>
      && previous < version && allocation <= 10_000 && upward <= 10_000 && downward <= 10_000
      && age > 0 && h.publishedAt <= effectiveAt && commitment > 0
    case Resolve(id, target, _, _) => id > 0 && 0 < target < h.sequence
    case TransportSettlement(id, kind, claim, credited, impaired, _) =>
      && id > 0 && claim > 0 && credited <= claim
      && match kind
         case Closed => claim <= impaired + credited
         case Recovered => claim == impaired + credited
  }

  /** A message is well formed if and only if both versions are one and every rule holds. */
  lemma WellFormedIff(m: Message)
    ensures WellFormed(m) <==>
      && m.header.protocolVersion == 1 && m.header.schemaVersion == 1
      && HeaderHolds(m.header) && BodyHolds(m.body, m.header)
  {
  }

  /** The identifier a refusal names, in the header or the body. */
  function Identified(m: Message, field: IdentifierField): nat {
    var h, b := m.header, m.body;
    match field
    case SourceChain => h.sourceChain
    case DestinationChain => h.destinationChain
    case SourceApplication => h.sourceApplication
    case DestinationApplication => h.destinationApplication
    case Deployment => h.deploymentId
    case VaultName => h.vaultId
    case Lane => h.laneId
    case SequenceNumber => h.sequence
    case Transfer => if b.RemoteReport? || b.ConfigUpdate? then 1 else b.transferId
    case EpochName => if b.RemoteReport? then b.epochId else 1
    case ConfigVersion => b.configVersion
    case RemoteStateCommitment => if b.RemoteReport? then b.remoteStateCommitment else 1
    case ConfigCommitment => if b.ConfigUpdate? then b.configCommitment else 1
    case DestinationReference => if b.RecallSent? then b.destinationReference else 1
    case TargetSequence => if b.Resolve? then b.targetSequence else 1
  }

  function Counted(b: Body, field: AmountField): nat {
    match field
    case Amount => if b.Allocate? then b.amount else 1
    case MinimumDestinationAmount => if b.Allocate? then b.minimumDestinationAmount else 1
    case RequestedAmount => if b.Recall? then b.requestedAmount else 1
    case MinimumReturnAmount => if b.Recall? then b.minimumReturnAmount else 1
    case PrincipalSent => if b.RecallSent? then b.principalSent else 1
    case MaxReportAge => if b.ConfigUpdate? then b.maxReportAge else 1
    case ClaimAmount => if b.TransportSettlement? then b.claimAmount else 1
  }

  /** The message really has the fault a refusal names. */
  predicate Breaks(m: Message, reason: ValidationError) {
    var h, b := m.header, m.body;
    match reason
    case ZeroIdentifier(field) => Identified(m, field) == 0
    case ZeroAmount(field) => Counted(b, field) == 0
    case ReservedFlagsSet => h.flags > 0
    case SourceEqualsDestinationChain => h.sourceChain == h.destinationChain
    case SourceEqualsDestinationApplication => h.sourceApplication == h.destinationApplication
    case PublicationBeforeObservation => h.publishedAt < h.observedAt
    case ExpirationBeforePublication => h.expiresAt < h.publishedAt
    case DeadlineBeforePublication => (b.Allocate? || b.Recall?) && b.deadline < h.publishedAt
    case EffectiveTimestampBeforePublication => b.ConfigUpdate? && b.effectiveTimestamp < h.publishedAt
    case ProbeTimestampAfterObservation => b.RemoteReport? && h.observedAt < b.probeTimestamp
    case SentTimestampAfterObservation => b.RecallSent? && h.observedAt < b.sentTimestamp
    case MissingProbeTimestamp => b.RemoteReport? && b.probeStatus == Fresh && b.probeTimestamp == 0
    case MinimumAboveAmount =>
      || (b.Allocate? && b.amount < b.minimumDestinationAmount)
      || (b.Recall? && b.requestedAmount < b.minimumReturnAmount)
    case RealizedLossAbovePrincipal => b.RecallSent? && b.principalSent < b.realizedLoss
    case BasisPointsOutOfRange =>
      && b.ConfigUpdate?
      && (b.maxRemoteAllocationBps > 10_000 || b.maxUpwardDeviationBps > 10_000 || b.maxDownwardDeviationBps > 10_000)
    case ConfigVersionNotIncreasing => b.ConfigUpdate? && b.configVersion <= b.previousConfigVersion
    case TargetNotBeforeResolution => b.Resolve? && h.sequence <= b.targetSequence
    case CreditAboveClaim => b.TransportSettlement? && b.claimAmount < b.creditedAmount
    case ImpairmentBelowShortfall =>
      b.TransportSettlement? && b.kind == Closed && b.impairedOutstanding + b.creditedAmount < b.claimAmount
    case RecoveryImpairmentMismatch =>
      b.TransportSettlement? && b.kind == Recovered && b.impairedOutstanding + b.creditedAmount != b.claimAmount
  }

  lemma HeaderFaultIsReal(m: Message)
    requires ValidateHeader(m.header).Err?
    ensures Breaks(m, ValidateHeader(m.header).error)
  {
  }

  lemma AllocateFaultIsReal(m: Message)
    requires m.body.Allocate? && ValidateAllocate(m.body, m.header.publishedAt).Err?
    ensures Breaks(m, ValidateAllocate(m.body, m.header.publishedAt).error)
  {
  }

  lemma RecallFaultIsReal(m: Message)
    requires m.body.Recall? && ValidateRecall(m.body, m.header.publishedAt).Err?
    ensures Breaks(m, ValidateRecall(m.body, m.header.publishedAt).error)
  {
  }

  lemma RemoteReportFaultIsReal(m: Message)
    requires m.body.RemoteReport? && ValidateReport(m.body, m.header.observedAt).Err?
    ensures Breaks(m, ValidateReport(m.body, m.header.observedAt).error)
  {
  }

  lemma RecallSentFaultIsReal(m: Message)
    requires m.body.RecallSent? && ValidateRecallSent(m.body, m.header.observedAt).Err?
    ensures Breaks(m, ValidateRecallSent(m.body, m.header.observedAt).error)
  {
  }

  lemma ConfigUpdateFaultIsReal(m: Message)
    requires m.body.ConfigUpdate? && ValidateConfig(m.body, m.header.publishedAt).Err?
    ensures Breaks(m, ValidateConfig(m.body, m.header.publishedAt).error)
  {
  }

  lemma ResolveFaultIsReal(m: Message)
    requires m.body.Resolve? && ValidateResolve(m.body, m.header.sequence).Err?
    ensures Breaks(m, ValidateResolve(m.body, m.header.sequence).error)
  {
  }

  lemma TransportSettlementFaultIsReal(m: Message)
    requires m.body.TransportSettlement? && ValidateSettlement(m.body).Err?
    ensures Breaks(m, ValidateSettlement(m.body).error)
  {
  }

  lemma BodyFaultIsReal(m: Message)
    requires ValidateBody(m.body, m.header).Err?
    ensures Breaks(m, ValidateBody(m.body, m.header).error)
  {
    hide ValidateAllocate;
    hide ValidateRecall;
    hide ValidateReport;
    hide ValidateRecallSent;
    hide ValidateConfig;
    hide ValidateResolve;
    hide ValidateSettlement;
    hide Breaks;
    match m.body.Type()
    case AllocateType => AllocateFaultIsReal(m);
    case RecallType => RecallFaultIsReal(m);
    case RemoteReportType => RemoteReportFaultIsReal(m);
    case RecallSentType => RecallSentFaultIsReal(m);
    case ConfigUpdateType => ConfigUpdateFaultIsReal(m);
    case ResolveType => ResolveFaultIsReal(m);
    case SettlementType => TransportSettlementFaultIsReal(m);
  }

  /** A refused message has the very fault it is refused for. */
  lemma FaultIsReal(m: Message, available: nat)
    requires EncodeFault(m, available).Some?
    ensures match EncodeFault(m, available).value
      case BufferTooSmall(needed, found) =>
        available < m.body.Type().MessageLen() == needed && found == available
      case EncodeUnsupportedProtocolVersion(version) => version == m.header.protocolVersion != 1
      case EncodeUnsupportedSchemaVersion(version) => version == m.header.schemaVersion != 1
      case EncodeInvalid(reason) => Breaks(m, reason)
  {
    hide ValidateHeader;
    hide ValidateBody;
    hide Breaks;
    if ValidateHeader(m.header).Err? {
      HeaderFaultIsReal(m);
    }
    if ValidateBody(m.body, m.header).Err? {
      BodyFaultIsReal(m);
    }
  }

  // What a decoder refuses.

  /** The bytes have the fault that inspection of the frame names. */
  ghost predicate FrameBreaks(bytes: Bytes, r: DecodeError) {
    match r
    case Truncated(needed, found) => |bytes| < needed && found == |bytes|
    case TrailingBytes(expected, found) => expected < |bytes| && found == SaturatingU32(|bytes|)
    case InvalidMagic => !Spells(bytes, 0, 4, 0x53564531)
    case UnsupportedProtocolVersion(version) => Spells(bytes, 4, 2, version) && version != 1
    case UnsupportedSchemaVersion(version) => Spells(bytes, 6, 2, version) && version != 1
    case UnknownMessageType(code) => Spells(bytes, 8, 1, code) && !(1 <= code <= 7)
    case _ => false
  }

  lemma ReadSpells(bytes: Bytes, field: Field, value: nat)
    requires field.offset + field.width <= |bytes|
    ensures Read(bytes, field).Ok?
    ensures Read(bytes, field) == Ok(value) <==> Spells(bytes, field.offset, field.width, value)
  {
    hide FromBigEndian;
  }

  lemma FrameFaultIsReal(bytes: Bytes)
    requires InspectFrame(bytes).Err?
    ensures FrameBreaks(bytes, InspectFrame(bytes).error)
  {
    hide Read;
    hide Spells;
    if HEADER_LEN <= |bytes| {
      ReadSpells(bytes, MAGIC_FIELD, 0x53564531);
      ReadsItself(bytes, PROTOCOL_VERSION_FIELD);
      ReadsItself(bytes, SCHEMA_VERSION_FIELD);
      ReadsItself(bytes, MESSAGE_TYPE_FIELD);
    }
  }

  lemma ReadsItself(bytes: Bytes, field: Field)
    requires field.offset + field.width <= |bytes|
    ensures Read(bytes, field).Ok? && Spells(bytes, field.offset, field.width, Read(bytes, field).value)
  {
    hide Read;
    hide Spells;
    ReadSpells(bytes, field, 0);
    ReadSpells(bytes, field, Read(bytes, field).value);
  }

  /** The byte of an enumeration that has no meaning. */
  ghost predicate BodyBreaks(bytes: Bytes, r: DecodeError) {
    match r
    case InvalidProbeStatus(code) => Spells(bytes, 104, 1, code) && code > 3
    case UnknownResolveAction(code) => Spells(bytes, 40, 1, code) && !(1 <= code <= 3)
    case UnknownSettlementKind(code) => Spells(bytes, 32, 1, code) && !(1 <= code <= 2)
    case _ => false
  }

  lemma BodyFaultOf(kind: MessageType, bytes: Bytes)
    requires |bytes| == kind.BodyLen() && DecodeBody(kind, bytes).Err?
    ensures BodyBreaks(bytes, DecodeBody(kind, bytes).error)
  {
    hide ReadAll;
    hide Fills;
    BodyFills(kind);
    ReadsAll(bytes, kind.Fields(), 0, kind.BodyLen());
    var v := ReadAll(bytes, kind.Fields()).value;
    hide Spells;
    match kind
    case RemoteReportType =>
      ReadAllAt(bytes, kind.Fields(), 6);
      ReadSpells(bytes, Field(104, 1), v[6]);
    case ResolveType =>
      ReadAllAt(bytes, kind.Fields(), 2);
      ReadSpells(bytes, Field(40, 1), v[2]);
    case SettlementType =>
      ReadAllAt(bytes, kind.Fields(), 1);
      ReadSpells(bytes, Field(32, 1), v[1]);
    case _ =>
  }

  /** The header and the body that the bytes carry. */
  ghost predicate Carries(bytes: Bytes, m: Message) {
    ReadHeader(bytes) == Ok(m.header) && |bytes| > HEADER_LEN && bytes[HEADER_LEN..] == BodyBytes(m.body)
  }

  /** Refused bytes have the very fault they are refused for. */
  lemma DecodeFaultIsReal(digest: Digest, bytes: Bytes)
    requires Decode(digest, bytes).Err?
    ensures var r := Decode(digest, bytes).error;
      || FrameBreaks(bytes, r)
      || (r == BodyHashMismatch && |bytes| > 247 && !Spells(bytes, 215, 32, digest(bytes[247..])))
      || (|bytes| > 247 && BodyBreaks(bytes[247..], r))
      || (r.Invalid? && exists m :: Carries(bytes, m) && Breaks(m, r.reason))
  {
    hide Read;
    hide Spells;
    hide FrameBreaks;
    hide BodyBreaks;
    hide Breaks;
    hide InspectFrame;
    hide ReadHeader;
    hide DecodeBody;
    hide ValidateHeader;
    hide ValidateBody;
    hide BodyBytes;
    if InspectFrame(bytes).Err? {
      FrameFaultIsReal(bytes);
    } else {
      var kind := InspectFrame(bytes).value;
      FrameLength(bytes);
      var body := bytes[HEADER_LEN..];
      assert bytes[HEADER_LEN..HEADER_LEN + kind.BodyLen()] == body;
      ReadSpells(bytes, BODY_HASH_FIELD, digest(body));
      HeaderReads(bytes);
      VersionsRead(bytes, ReadAll(bytes, HEADER_FIELDS).value);
      if DecodeBody(kind, body).Err? {
        BodyFaultOf(kind, body);
      } else {
        var m := Message(ReadHeader(bytes).value, DecodeBody(kind, body).value);
        BodyInverts(kind, body, m.body);
        assert Carries(bytes, m);
        if ValidateHeader(m.header).Err? {
          HeaderFaultIsReal(m);
        }
        if ValidateBody(m.body, m.header).Err? {
          BodyFaultIsReal(m);
        }
      }
    }
  }
}
