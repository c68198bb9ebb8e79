/** Control messages: their header, their seven bodies, and the rules both ends enforce. */
module WireMessage {
  import opened Results
  import opened Words
  import opened WireErrors
  import opened WireLayout

  /** An opaque 32-byte identifier, read as one big-endian number. Zero means "unset". */
  type Wide = U256

  datatype MessageType =
    | AllocateType | RecallType | RemoteReportType | RecallSentType | ConfigUpdateType | ResolveType | SettlementType
  {
    function Code(): U8 {
      match this
      case AllocateType => 1
      case RecallType => 2
      case RemoteReportType => 3
      case RecallSentType => 4
      case ConfigUpdateType => 5
      case ResolveType => 6
      case SettlementType => 7
    }

    function Fields(): Table {
      match this
      case AllocateType => ALLOCATE_FIELDS
      case RecallType => RECALL_FIELDS
      case RemoteReportType => REMOTE_REPORT_FIELDS
      case RecallSentType => RECALL_SENT_FIELDS
      case ConfigUpdateType => CONFIG_UPDATE_FIELDS
      case ResolveType => RESOLVE_FIELDS
      case SettlementType => TRANSPORT_SETTLEMENT_FIELDS
    }

    function BodyLen(): nat {
      BODY_WIDTHS[Code() - 1]
    }

    function MessageLen(): nat {
      HEADER_LEN + BodyLen()
    }
  }

  function MessageTypeOf(code: U8): Result<MessageType, DecodeError> {
    match code
    case 1 => Ok(AllocateType)
    case 2 => Ok(RecallType)
    case 3 => Ok(RemoteReportType)
    case 4 => Ok(RecallSentType)
    case 5 => Ok(ConfigUpdateType)
    case 6 => Ok(ResolveType)
    case 7 => Ok(SettlementType)
    case _ => Err(UnknownMessageType(code))
  }

  datatype ProbeStatus = NotRequired | Fresh | Stale | Failed {
    function Code(): U8 {
      match this
      case NotRequired => 0
      case Fresh => 1
      case Stale => 2
      case Failed => 3
    }
  }

  function ProbeStatusOf(code: U8): Result<ProbeStatus, DecodeError> {
    match code
    case 0 => Ok(NotRequired)
    case 1 => Ok(Fresh)
    case 2 => Ok(Stale)
    case 3 => Ok(Failed)
    case _ => Err(InvalidProbeStatus(code))
  }

  datatype ResolveAction = Admit | Close | Recover {
    function Code(): U8 {
      match this
      case Admit => 1
      case Close => 2
      case Recover => 3
    }
  }

  function ResolveActionOf(code: U8): Result<ResolveAction, DecodeError> {
    match code
    case 1 => Ok(Admit)
    case 2 => Ok(Close)
    case 3 => Ok(Recover)
    case _ => Err(UnknownResolveAction(code))
  }

  datatype SettlementKind = Closed | Recovered {
    function Code(): U8 {
      match this
      case Closed => 1
      case Recovered => 2
    }
  }

  function SettlementKindOf(code: U8): Result<SettlementKind, DecodeError> {
    match code
    case 1 => Ok(Closed)
    case 2 => Ok(Recovered)
    case _ => Err(UnknownSettlementKind(code))
  }

  datatype Header = Header(
    protocolVersion: U16, schemaVersion: U16, flags: U16, sourceChain: U32, destinationChain: U32,
    sourceApplication: Wide, destinationApplication: Wide, deploymentId: Wide, vaultId: Wide,
    laneId: U32, sequence: U64, previousCommitment: Wide, observedAt: U64, publishedAt: U64, expiresAt: U64)

  datatype Body =
    | Allocate(
        transferId: Wide, amount: U128, expectedSourceBalance: U128, minimumDestinationAmount: U128,
        deadline: U64, configVersion: U64)
    | Recall(
        transferId: Wide, requestedAmount: U128, minimumReturnAmount: U128, deadline: U64, configVersion: U64)
    | RemoteReport(
        epochId: U64, remotePrincipal: U128, reportedValue: U128, realizedLoss: U128, unattributedBalance: U128,
        latestCompletedTransferId: Wide, probeStatus: ProbeStatus, probeTimestamp: U64, configVersion: U64,
        remoteStateCommitment: Wide)
    | RecallSent(
        transferId: Wide, principalSent: U128, actualAmountSent: U128, realizedLoss: U128,
        destinationReference: Wide, sentTimestamp: U64, configVersion: U64)
    | ConfigUpdate(
        configVersion: U64, previousConfigVersion: U64, maxRemoteAllocationBps: U16, maxUpwardDeviationBps: U16,
        maxDownwardDeviationBps: U16, maxReportAge: U64, effectiveTimestamp: U64, configCommitment: Wide)
    | Resolve(transferId: Wide, targetSequence: U64, action: ResolveAction, configVersion: U64)
    | TransportSettlement(
        transferId: Wide, kind: SettlementKind, claimAmount: U128, creditedAmount: U128,
        impairedOutstanding: U128, configVersion: U64)
  {
    function Type(): MessageType {
      match this
      case Allocate(_, _, _, _, _, _) => AllocateType
      case Recall(_, _, _, _, _) => RecallType
      case RemoteReport(_, _, _, _, _, _, _, _, _, _) => RemoteReportType
      case RecallSent(_, _, _, _, _, _, _) => RecallSentType
      case ConfigUpdate(_, _, _, _, _, _, _, _) => ConfigUpdateType
      case Resolve(_, _, _, _) => ResolveType
      case TransportSettlement(_, _, _, _, _, _) => SettlementType
    }
  }

  datatype Message = Message(header: Header, body: Body)

  // Field rules.

  type Rule = Check<ValidationError>

  const SUPPORTED_VERSION: U16 := 1
  const MAX_BASIS_POINTS: U16 := 10_000

  function ValidateHeader(h: Header): Rule {
    var _ :- Need(h.flags == 0, ReservedFlagsSet);
    var _ :- Need(h.sourceChain != 0, ZeroIdentifier(SourceChain));
    var _ :- Need(h.destinationChain != 0, ZeroIdentifier(DestinationChain));
    var _ :- Need(h.sourceChain != h.destinationChain, SourceEqualsDestinationChain);
    var _ :- Need(h.sourceApplication != 0, ZeroIdentifier(SourceApplication));
    var _ :- Need(h.destinationApplication != 0, ZeroIdentifier(DestinationApplication));
    var _ :- Need(h.sourceApplication != h.destinationApplication, SourceEqualsDestinationApplication);
    var _ :- Need(h.deploymentId != 0, ZeroIdentifier(Deployment));
    var _ :- Need(h.vaultId != 0, ZeroIdentifier(VaultName));
    var _ :- Need(h.laneId != 0, ZeroIdentifier(Lane));
    var _ :- Need(h.sequence != 0, ZeroIdentifier(SequenceNumber));
    var _ :- Need(h.observedAt <= h.publishedAt, PublicationBeforeObservation);
    Need(h.publishedAt <= h.expiresAt, ExpirationBeforePublication)
  }

  function ValidateAllocate(b: Body, publishedAt: U64): Rule
    requires b.Allocate?
  {
    var _ :- Need(b.transferId != 0, ZeroIdentifier(Transfer));
    var _ :- Need(b.amount != 0, ZeroAmount(Amount));
    var _ :- Need(b.minimumDestinationAmount != 0, ZeroAmount(MinimumDestinationAmount));
    var _ :- Need(b.minimumDestinationAmount <= b.amount, MinimumAboveAmount);
    var _ :- Need(publishedAt <= b.deadline, DeadlineBeforePublication);
    Need(b.configVersion != 0, ZeroIdentifier(ConfigVersion))
  }

  function ValidateRecall(b: Body, publishedAt: U64): Rule
    requires b.Recall?
  {
    var _ :- Need(b.transferId != 0, ZeroIdentifier(Transfer));
    var _ :- Need(b.requestedAmount != 0, ZeroAmount(RequestedAmount));
    var _ :- Need(b.minimumReturnAmount != 0, ZeroAmount(MinimumReturnAmount));
    var _ :- Need(b.minimumReturnAmount <= b.requestedAmount, MinimumAboveAmount);
    var _ :- Need(publishedAt <= b.deadline, DeadlineBeforePublication);
    Need(b.configVersion != 0, ZeroIdentifier(ConfigVersion))
  }

  function ValidateReport(b: Body, observedAt: U64): Rule
    requires b.RemoteReport?
  {
    var _ :- Need(b.epochId != 0, ZeroIdentifier(EpochName));
    var _ :- Need(b.configVersion != 0, ZeroIdentifier(ConfigVersion));
    var _ :- Need(b.remoteStateCommitment != 0, ZeroIdentifier(RemoteStateCommitment));
    var _ :- Need(b.probeTimestamp <= observedAt, ProbeTimestampAfterObservation);
    Need(!(b.probeStatus == Fresh && b.probeTimestamp == 0), MissingProbeTimestamp)
  }

  function ValidateRecallSent(b: Body, observedAt: U64): Rule
    requires b.RecallSent?
  {
    var _ :- Need(b.transferId != 0, ZeroIdentifier(Transfer));
    var _ :- Need(b.principalSent != 0, ZeroAmount(PrincipalSent));
    var _ :- Need(b.realizedLoss <= b.principalSent, RealizedLossAbovePrincipal);
    var _ :- Need(b.destinationReference != 0, ZeroIdentifier(DestinationReference));
    var _ :- Need(b.sentTimestamp <= observedAt, SentTimestampAfterObservation);
    Need(b.configVersion != 0, ZeroIdentifier(ConfigVersion))
  }

  function ValidateConfig(b: Body, publishedAt: U64): Rule
    requires b.ConfigUpdate?
  {
    var _ :- Need(b.configVersion != 0, ZeroIdentifier(ConfigVersion));
    var _ :- Need(b.previousConfigVersion < b.configVersion, ConfigVersionNotIncreasing);
    var _ :- Need(
      && b.maxRemoteAllocationBps <= MAX_BASIS_POINTS && b.maxUpwardDeviationBps <= MAX_BASIS_POINTS
      && b.maxDownwardDeviationBps <= MAX_BASIS_POINTS, BasisPointsOutOfRange);
    var _ :- Need(b.maxReportAge != 0, ZeroAmount(MaxReportAge));
    var _ :- Need(publishedAt <= b.effectiveTimestamp, EffectiveTimestampBeforePublication);
    Need(b.configCommitment != 0, ZeroIdentifier(ConfigCommitment))
  }

  /** The target must come earlier on the same lane than the resolution. */
  function ValidateResolve(b: Body, sequence: U64): Rule
    requires b.Resolve?
  {
    var _ :- Need(b.transferId != 0, ZeroIdentifier(Transfer));
    var _ :- Need(b.targetSequence != 0, ZeroIdentifier(TargetSequence));
    var _ :- Need(b.targetSequence < sequence, TargetNotBeforeResolution);
    Need(b.configVersion != 0, ZeroIdentifier(ConfigVersion))
  }

  /** The part of the claim a settlement did not credit. */
  function Shortfall(b: Body): U128
    requires b.TransportSettlement?
  {
    if b.creditedAmount <= b.claimAmount then b.claimAmount - b.creditedAmount else 0
  }

  /** A closed allocation adds its shortfall to the pool; a recovery leaves exactly the uncredited part behind. */
  function ValidateSettlement(b: Body): Rule
    requires b.TransportSettlement?
  {
    var _ :- Need(b.transferId != 0, ZeroIdentifier(Transfer));
    var _ :- Need(b.claimAmount != 0, ZeroAmount(ClaimAmount));
    var _ :- Need(b.creditedAmount <= b.claimAmount, CreditAboveClaim);
    var _ :- match b.kind
      case Closed => Need(Shortfall(b) <= b.impairedOutstanding, ImpairmentBelowShortfall)
      case Recovered => Need(b.impairedOutstanding == Shortfall(b), RecoveryImpairmentMismatch);
    Need(b.configVersion != 0, ZeroIdentifier(ConfigVersion))
  }

  function ValidateBody(b: Body, h: Header): Rule {
    match b.Type()
    case AllocateType => ValidateAllocate(b, h.publishedAt)
    case RecallType => ValidateRecall(b, h.publishedAt)
    case RemoteReportType => ValidateReport(b, h.observedAt)
    case RecallSentType => ValidateRecallSent(b, h.observedAt)
    case ConfigUpdateType => ValidateConfig(b, h.publishedAt)
    case ResolveType => ValidateResolve(b, h.sequence)
    case SettlementType => ValidateSettlement(b)
  }

  /** What both ends accept. */
  predicate WellFormed(m: Message) {
    && m.header.protocolVersion == SUPPORTED_VERSION && m.header.schemaVersion == SUPPORTED_VERSION
    && ValidateHeader(m.header).Ok?
    && ValidateBody(m.body, m.header).Ok?
  }
}
