/** Why a signing input is refused. */
module JwtErrors {
  import opened Results
  import opened Words

  type Bytes = seq<U8>

  datatype VerifierError =
    | MalformedSigningInput
    | InvalidBase64Url
    | MalformedJson
    | UnsupportedJsonValue
    | UnknownField
    | UnsupportedClaim
    | DuplicateField
    | MissingField
    | InvalidFieldLength
    | InvalidNumber
    | UnsupportedAlgorithm
    | UnsupportedType

  type Parsed<+T> = Result<T, VerifierError>
}
