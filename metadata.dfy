/**
 * Parsing of the user's `--extra-metadata` document (internal/cmd/metadata.go):
 * an empty string means "no document", anything over 100 KiB is refused before
 * decoding, and only a JSON object is accepted.
 */
module Metadata {
  import opened Text
  import opened Json

  /** `MaxMetadataSize`: 100 KiB. */
  const MaxMetadataSize: nat := 100 * 1024

  datatype ParseError =
    | SizeExceeded(size: nat)          // longer than MaxMetadataSize bytes
    | InvalidJson(cause: string)       // the decoder's error, syntax or type
    | NullDocument                     // the literal `null`

  /** The outcome of `ParseExtraMetadata`: `(nil, nil)`, `(m, nil)` or `(nil, err)`. */
  datatype Parsed =
    | NoDocument
    | Document(fields: map<string, Value>)
    | Rejected(error: ParseError)

  /** The error text `json.Unmarshal` gives when a valid value is not an object. */
  function TypeMismatch(v: Value): string {
    "json: cannot unmarshal " + KindName(v) + " into Go value of type map[string]interface {}"
  }

  /** `ParseExtraMetadata`, with the JSON decoder as a parameter. */
  function ParseExtraMetadata(jsonStr: string, decode: string -> Decoded): (r: Parsed)
    ensures r == NoDocument <==> jsonStr == ""
    ensures |jsonStr| > MaxMetadataSize ==> r == Rejected(SizeExceeded(|jsonStr|))
    ensures r.Document? <==>
      jsonStr != "" && |jsonStr| <= MaxMetadataSize && decode(jsonStr).Decoded? && decode(jsonStr).value.Object?
    ensures r.Document? ==> decode(jsonStr) == Decoded(Object(r.fields))
    ensures r == Rejected(NullDocument) <==>
      jsonStr != "" && |jsonStr| <= MaxMetadataSize && decode(jsonStr) == Decoded(Null)
    ensures r.Rejected? && r.error.InvalidJson? ==>
      0 < |jsonStr| <= MaxMetadataSize &&
      (decode(jsonStr).Malformed? || !(decode(jsonStr).value.Object? || decode(jsonStr).value.Null?))
    ensures 0 < |jsonStr| <= MaxMetadataSize && decode(jsonStr).Malformed? ==>
      r == Rejected(InvalidJson(decode(jsonStr).reason))
    ensures 0 < |jsonStr| <= MaxMetadataSize && decode(jsonStr).Decoded? &&
            !(decode(jsonStr).value.Object? || decode(jsonStr).value.Null?) ==>
              r == Rejected(InvalidJson(TypeMismatch(decode(jsonStr).value)))
    ensures r.Rejected? && r.error.SizeExceeded? ==> |jsonStr| > MaxMetadataSize && r.error.size == |jsonStr|
  {
    if jsonStr == "" then NoDocument
    else if |jsonStr| > MaxMetadataSize then Rejected(SizeExceeded(|jsonStr|))
    else match decode(jsonStr)
      case Malformed(reason) => Rejected(InvalidJson(reason))
      case Decoded(Null) => Rejected(NullDocument)
      case Decoded(Object(fields)) => Document(fields)
      case Decoded(v) => Rejected(InvalidJson(TypeMismatch(v)))
  }

  /** The text of each error, as the command prints it. */
  function ErrorMessage(e: ParseError): (msg: string)
    ensures e.SizeExceeded? ==> "extra_metadata exceeds maximum size of " <= msg
    ensures e.InvalidJson? ==> msg == "invalid JSON for extra_metadata: " + e.cause
    ensures e.NullDocument? ==> msg == "extra_metadata must be a JSON object, not null"
  {
    match e
    case SizeExceeded(size) =>
      "extra_metadata exceeds maximum size of " + NatToString(MaxMetadataSize)
        + " bytes (got " + NatToString(size) + " bytes)"
    case InvalidJson(cause) => "invalid JSON for extra_metadata: " + cause
    case NullDocument => "extra_metadata must be a JSON object, not null"
  }

  /** The size ceiling is checked before the decoder is consulted: over-long input
      is refused whatever the decoder would have said. */
  lemma SizeCheckPrecedesDecoding(jsonStr: string, d1: string -> Decoded, d2: string -> Decoded)
    requires |jsonStr| > MaxMetadataSize
    ensures ParseExtraMetadata(jsonStr, d1) == ParseExtraMetadata(jsonStr, d2)
    ensures ErrorMessage(ParseExtraMetadata(jsonStr, d1).error) ==
      "extra_metadata exceeds maximum size of " + NatToString(MaxMetadataSize)
        + " bytes (got " + NatToString(|jsonStr|) + " bytes)"
  {
  }

  /** Exactly 100 KiB passes the size check and reaches the decoder. */
  lemma CeilingIsInclusive(jsonStr: string, decode: string -> Decoded)
    requires |jsonStr| == MaxMetadataSize
    requires decode(jsonStr) == Decoded(Object(map[]))
    ensures ParseExtraMetadata(jsonStr, decode) == Document(map[])
  {
  }

  /** The empty string is "no document"; `{}` is a present, empty document. */
  lemma EmptyInputVersusEmptyObject(decode: string -> Decoded)
    requires decode("{}") == Decoded(Object(map[]))
    ensures ParseExtraMetadata("", decode) == NoDocument
    ensures ParseExtraMetadata("{}", decode) == Document(map[])
    ensures ParseExtraMetadata("", decode) != ParseExtraMetadata("{}", decode)
  {
  }

  /** Arrays and bare strings are refused with the decoder's type-mismatch text. */
  lemma NonObjectsRejected(jsonStr: string, decode: string -> Decoded)
    requires 0 < |jsonStr| <= MaxMetadataSize
    requires decode(jsonStr).Decoded? && (decode(jsonStr).value.Array? || decode(jsonStr).value.Str?)
    ensures ParseExtraMetadata(jsonStr, decode) == Rejected(InvalidJson(TypeMismatch(decode(jsonStr).value)))
    ensures "json: cannot unmarshal " <= ParseExtraMetadata(jsonStr, decode).error.cause
  {
  }
}
