/**
 * The model versions the backend knows (the `Llm` enum) and the mapping from
 * the strings the front end sends to those versions.
 */
module Models {
  import opened Common

  /** The enum members; `Value` gives the version string sent to the provider. */
  datatype Llm =
    | Gpt4Vision
    | Gpt4Turbo20240409
    | Claude3Sonnet
    | Claude3Opus
    | Claude3Haiku

  function Value(m: Llm): (v: string)
    ensures v != LegacyVision && v != LegacySonnet
  {
    match m
    case Gpt4Vision => "gpt-4-vision-preview"
    case Gpt4Turbo20240409 => "gpt-4-turbo-2024-04-09"
    case Claude3Sonnet => "claude-3-sonnet-20240229"
    case Claude3Opus => "claude-3-opus-20240229"
    case Claude3Haiku => "claude-3-haiku-20240307"
  }

  /** Two legacy front-end names that are not enum values themselves. */
  const LegacyVision: string := "gpt_4_vision"
  const LegacySonnet: string := "claude_3_sonnet"

  /** Distinct members have distinct version strings, so the lookup by value is unambiguous. */
  lemma ValuesDistinct(a: Llm, b: Llm)
    requires Value(a) == Value(b)
    ensures a == b
  {
  }

  /** The enum lookup by value, `Llm(s)`: the member whose value is `s`, or a ValueError. */
  function FromValue(s: string): (r: Result<Llm>)
    ensures r.Ok? <==> exists m: Llm :: Value(m) == s
    ensures r.Ok? ==> Value(r.value) == s
    ensures r.Err? ==> r.error == InvalidModel(s)
  {
    if s == Value(Gpt4Vision) then Ok(Gpt4Vision)
    else if s == Value(Gpt4Turbo20240409) then Ok(Gpt4Turbo20240409)
    else if s == Value(Claude3Sonnet) then Ok(Claude3Sonnet)
    else if s == Value(Claude3Opus) then Ok(Claude3Opus)
    else if s == Value(Claude3Haiku) then Ok(Claude3Haiku)
    else Err(InvalidModel(s))
  }

  /**
   * The front-end string mapping: the two legacy names are special-cased,
   * any other string must be an enum value, and anything else fails.
   */
  function ConvertFrontendStrToLlm(frontend: string): (r: Result<Llm>)
    ensures frontend == LegacyVision ==> r == Ok(Gpt4Vision)
    ensures frontend == LegacySonnet ==> r == Ok(Claude3Sonnet)
    ensures frontend != LegacyVision && frontend != LegacySonnet ==>
              && (r.Ok? <==> exists m: Llm :: Value(m) == frontend)
              && (r.Ok? ==> Value(r.value) == frontend)
              && (r.Err? ==> r.error == InvalidModel(frontend))
  {
    if frontend == LegacyVision then Ok(Gpt4Vision)
    else if frontend == LegacySonnet then Ok(Claude3Sonnet)
    else FromValue(frontend)
  }

  /** Every enum value maps back to its own member, so the mapping is onto the enum. */
  lemma ConvertValueRoundTrip(m: Llm)
    ensures ConvertFrontendStrToLlm(Value(m)) == Ok(m)
  {
  }

  /** A string maps to a model exactly when it is a legacy name or an enum value. */
  lemma ConvertSucceedsIff(frontend: string)
    ensures ConvertFrontendStrToLlm(frontend).Ok? <==>
              frontend == LegacyVision || frontend == LegacySonnet || exists m: Llm :: Value(m) == frontend
  {
  }
}
