/** The descriptor's small helpers: the access-token form check and the
    string-to-boolean conversion. */
module Descriptor {
  import opened Wrappers

  /** `FormValidation`: accepted, or rejected with a message for the form. */
  datatype FormValidation = Valid | Invalid(message: string)

  const MissingTokenMessage: string := "Please set your weibo access token"

  /** `doCheckAccessToken`: an empty token is rejected with the fixed
      message, any other token is accepted. */
  function CheckAccessToken(value: string): (r: FormValidation)
    ensures r.Invalid? <==> value == ""
    ensures r.Invalid? ==> r.message == MissingTokenMessage
  {
    if |value| == 0 then Invalid(MissingTokenMessage) else Valid
  }

  /** `Boolean.toString(b)`. */
  function BoolToString(b: bool): string
  {
    if b then "true" else "false"
  }

  /** `toBoolean`: `null` is `None`. Only the exact lower-case text "true"
      is true. */
  function ToBoolean(value: Option<string>): bool
  {
    value == Some("true")
  }

  /** `toBoolean` of `Boolean.toString(b)` gives `b` back, and any other
      spelling (upper case, padding, null) gives false. */
  lemma ToBooleanRoundTrip(b: bool)
    ensures ToBoolean(Some(BoolToString(b))) == b
    ensures !ToBoolean(Some("TRUE")) && !ToBoolean(Some("True")) && !ToBoolean(Some(" true"))
    ensures !ToBoolean(None)
  {
  }

  /** A value gives true exactly when it is `Boolean.toString(true)`. */
  lemma ToBooleanIffTrueText(value: Option<string>)
    ensures ToBoolean(value) <==> value == Some(BoolToString(true))
  {
  }
}
