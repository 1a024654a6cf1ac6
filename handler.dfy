/** The vocabulary shared by every stage of `expand_macro`: the two handler
    kinds, the resolved configuration and the diagnostics the macro aborts with. */
module Handler {

  /** The event a generated entry point serves (the local `HandlerType` enum). */
  datatype HandlerKind = Fetch | Scheduled

  /** The configuration resolved from `#[event(...)]`. */
  datatype HandlerConfig = HandlerConfig(kind: HandlerKind, respondWithErrors: bool)

  /** The ways expansion aborts. Each is a panic while the macro runs, so the
      compiler reports it as a build error and no code is emitted. */
  datatype Diag =
    | InvalidAttribute(token: string)   // an argument outside the three known ones
    | MissingKind                        // neither `fetch` nor `scheduled` was given
    | BindgenFailed(detail: string)      // the wasm-bindgen expander failed; `detail` is its error's debug text

  const InvalidAttributePrefix := "Invalid attribute: "
  // The verifier cannot index a string literal this long, so the text is
  // spelled as a concatenation of shorter literals; it is one message.
  const MissingKindMessage := "must have either " + "'fetch' or 'scheduled' " + "attribute, e.g. " + "#[event(fetch)]"
  const BindgenFailedMessage := "wasm_bindgen macro failed to expand"

  /** The text of the panic behind each diagnostic. An unknown attribute is
      named after a fixed prefix (`panic!("Invalid attribute: {}", attr)`); a
      missing kind has a fixed message (`Option::expect`); a failed expansion
      has its fixed message, then `: ` and the expander's error
      (`Result::expect`). */
  function Message(d: Diag): (m: string)
    ensures d.InvalidAttribute? ==>
      && |m| == |InvalidAttributePrefix| + |d.token|
      && m[..|InvalidAttributePrefix|] == InvalidAttributePrefix
      && m[|InvalidAttributePrefix|..] == d.token
    ensures d.MissingKind? ==> m == MissingKindMessage
    ensures d.BindgenFailed? ==>
      && |m| == |BindgenFailedMessage| + 2 + |d.detail|
      && m[..|BindgenFailedMessage| + 2] == BindgenFailedMessage + ": "
      && m[|BindgenFailedMessage| + 2..] == d.detail
  {
    match d
    case InvalidAttribute(t) => InvalidAttributePrefix + t
    case MissingKind => MissingKindMessage
    case BindgenFailed(detail) => BindgenFailedMessage + ": " + detail
  }

  /** Distinct diagnostics never print the same message, so the build error
      alone tells which check failed, and it carries the unknown token or the
      expander's error. */
  lemma MessageInjective(d1: Diag, d2: Diag)
    ensures Message(d1) == Message(d2) ==> d1 == d2
  {
    if Message(d1) == Message(d2) {
      // the three messages already differ in their first character
      FirstCharacter(d1);
      FirstCharacter(d2);
      if d1.InvalidAttribute? {
        assert d1.token == Message(d1)[|InvalidAttributePrefix|..] == d2.token;
      } else if d1.BindgenFailed? {
        assert d1.detail == Message(d1)[|BindgenFailedMessage| + 2..] == d2.detail;
      }
    }
  }

  lemma FirstCharacter(d: Diag)
    ensures |Message(d)| > 0
    ensures Message(d)[0] == match d
      case InvalidAttribute(_) => 'I'
      case MissingKind => 'm'
      case BindgenFailed(_) => 'w'
  {
  }
}
