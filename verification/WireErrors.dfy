/** Why a message is not encoded or decoded. */
module WireErrors {
  import opened Words

  datatype IdentifierField =
    | SourceChain | DestinationChain | SourceApplication | DestinationApplication | Deployment | VaultName
    | Lane | SequenceNumber | Transfer | EpochName | ConfigVersion | RemoteStateCommitment | ConfigCommitment
    | DestinationReference | TargetSequence

  datatype AmountField =
    | Amount | MinimumDestinationAmount | RequestedAmount | MinimumReturnAmount | PrincipalSent
    | MaxReportAge | ClaimAmount

  datatype ValidationError =
    | ZeroIdentifier(identifier: IdentifierField)
    | ZeroAmount(amount: AmountField)
    | ReservedFlagsSet
    | SourceEqualsDestinationChain
    | SourceEqualsDestinationApplication
    | PublicationBeforeObservation
    | ExpirationBeforePublication
    | DeadlineBeforePublication
    | EffectiveTimestampBeforePublication
    | ProbeTimestampAfterObservation
    | SentTimestampAfterObservation
    | MissingProbeTimestamp
    | MinimumAboveAmount
    | RealizedLossAbovePrincipal
    | BasisPointsOutOfRange
    | ConfigVersionNotIncreasing
    | TargetNotBeforeResolution
    | CreditAboveClaim
    | ImpairmentBelowShortfall
    | RecoveryImpairmentMismatch

  datatype EncodeError =
    | BufferTooSmall(needed: U32, available: U32)
    | EncodeUnsupportedProtocolVersion(version: U16)
    | EncodeUnsupportedSchemaVersion(version: U16)
    | EncodeInvalid(reason: ValidationError)

  datatype DecodeError =
    | Truncated(needed: U32, found: U32)
    | TrailingBytes(expected: U32, found: U32)
    | InvalidMagic
    | UnsupportedProtocolVersion(version: U16)
    | UnsupportedSchemaVersion(version: U16)
    | UnknownMessageType(code: U8)
    | InvalidProbeStatus(code: U8)
    | UnknownResolveAction(code: U8)
    | UnknownSettlementKind(code: U8)
    | BodyHashMismatch
    | Invalid(reason: ValidationError)

  /** Narrows a length for an error field without ever wrapping. */
  function SaturatingU32(n: nat): U32 {
    if n < 0x1_0000_0000 then n else 0xFFFF_FFFF
  }
}
