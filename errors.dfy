/** The backend's error type (skadi/backend/src/err.rs) and the text each
    variant displays as. */
module Errors {
  import opened Wrappers
  import opened Unsigned

  datatype BackendError =
    | TokioIo(text: string)
    | XdgRuntimeDirNotSet
    | HyprlandSignatureNotSet
    | InvalidOpCode(value: u16)

  const TOKIO_PREFIX: string := "Tokio error: "
  const INVALID_OPCODE_PREFIX: string := "Invalid OpCode: "
  const NOT_SET_SUFFIX: string := " environment variable is not set"
  const XDG_MESSAGE: string := "XDG_RUNTIME_DIR" + NOT_SET_SUFFIX
  const SIGNATURE_MESSAGE: string := "HYPRLAND_INSTANCE_SIGNATURE" + NOT_SET_SUFFIX

  /** The `Display` text of an error (its `#[error(...)]` format). */
  function Message(e: BackendError): string {
    match e
    case TokioIo(text) => TOKIO_PREFIX + text
    case XdgRuntimeDirNotSet => XDG_MESSAGE
    case HyprlandSignatureNotSet => SIGNATURE_MESSAGE
    case InvalidOpCode(v) => INVALID_OPCODE_PREFIX + Format(v)
  }

  /** `From<io::Error>`: the I/O error's own text, kept verbatim, displayed
      after the "Tokio error: " prefix. */
  function FromIo(ioErrorText: string): (e: BackendError)
    ensures e.TokioIo? && e.text == ioErrorText
    ensures Message(e)[..|TOKIO_PREFIX|] == TOKIO_PREFIX
    ensures Message(e)[|TOKIO_PREFIX|..] == ioErrorText
  {
    TokioIo(ioErrorText)
  }

  /** The opcode value of an `InvalidOpCode` can be read back from its text. */
  lemma InvalidOpCodeMessage(v: u16)
    ensures |Message(InvalidOpCode(v))| > |INVALID_OPCODE_PREFIX|
    ensures Message(InvalidOpCode(v))[..|INVALID_OPCODE_PREFIX|] == INVALID_OPCODE_PREFIX
    ensures Parse(Message(InvalidOpCode(v))[|INVALID_OPCODE_PREFIX|..], U16_LIMIT) == Some(v)
  {
    var m := Message(InvalidOpCode(v));
    assert m[|INVALID_OPCODE_PREFIX|..] == Format(v);
    ParseFormat(v, U16_LIMIT);
  }

  /** The first character of each variant's text. */
  lemma MessageLead(e: BackendError)
    ensures |Message(e)| > 0
    ensures Message(e)[0] == match e
      case TokioIo(_) => 'T'
      case XdgRuntimeDirNotSet => 'X'
      case HyprlandSignatureNotSet => 'H'
      case InvalidOpCode(_) => 'I'
  {
    match e
    case TokioIo(t) => assert Message(e)[0] == TOKIO_PREFIX[0];
    case InvalidOpCode(v) => assert Message(e)[0] == INVALID_OPCODE_PREFIX[0];
    case XdgRuntimeDirNotSet => assert Message(e)[0] == XDG_MESSAGE[0];
    case HyprlandSignatureNotSet => assert Message(e)[0] == SIGNATURE_MESSAGE[0];
  }

  /** Two errors that display the same text are the same error: the message
      alone identifies the variant and its payload. */
  lemma {:induction false} MessageInjective(a: BackendError, b: BackendError)
    ensures Message(a) == Message(b) ==> a == b
  {
    if Message(a) == Message(b) {
      var m := Message(a);
      MessageLead(a);
      MessageLead(b);
      match a
      case TokioIo(t) =>
        assert t == m[|TOKIO_PREFIX|..] == b.text;
      case InvalidOpCode(v) =>
        assert Format(v) == m[|INVALID_OPCODE_PREFIX|..] == Format(b.value);
        FormatInjective(v, b.value);
      case _ =>
    }
  }
}
