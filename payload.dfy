/** The wire envelope every backend frame is printed in, and the operation
    codes (skadi/backend/src/payload.rs). */
module Payload {
  import opened Wrappers
  import opened Unsigned
  import opened Errors

  /** `#[repr(u16)] enum OpCode`. */
  datatype OpCode = Error | Sysinfo | WindowChanged | Workspace | SpotifyEvent | VolumeEvent

  /** `From<OpCode> for u16`: the enum's declared discriminant. */
  function ToU16(op: OpCode): (n: u16)
    ensures n < 6
  {
    match op
    case Error => 0
    case Sysinfo => 1
    case WindowChanged => 2
    case Workspace => 3
    case SpotifyEvent => 4
    case VolumeEvent => 5
  }

  /** Distinct opcodes have distinct numbers, and every number 0..5 is used. */
  lemma ToU16Bijective(a: OpCode, b: OpCode, n: u16)
    ensures ToU16(a) == ToU16(b) ==> a == b
    ensures n < 6 ==> exists op :: ToU16(op) == n
  {
    if n < 6 {
      var op := [Error, Sysinfo, WindowChanged, Workspace, SpotifyEvent, VolumeEvent][n];
      assert ToU16(op) == n;
    }
  }

  /** `TryFrom<u16> for OpCode`: deliberately partial, it only knows 0 and 1;
      every other value fails with `InvalidOpCode` carrying that value. */
  function TryFrom(value: u16): (r: Result<OpCode, BackendError>)
    ensures r.Ok? <==> value <= 1
    ensures r.Ok? ==> ToU16(r.value) == value
    ensures r.Err? ==> r.error == InvalidOpCode(value)
  {
    match value
    case 0 => Ok(Error)
    case 1 => Ok(Sysinfo)
    case _ => Err(InvalidOpCode(value))
  }

  /** The partial round trip: converting an opcode to its number and back
      succeeds exactly for `Error` and `Sysinfo`. */
  lemma PartialRoundTrip(op: OpCode)
    ensures TryFrom(ToU16(op)) == Ok(op) <==> op == Error || op == Sysinfo
    ensures TryFrom(ToU16(op)).Err? <==> op != Error && op != Sysinfo
  {
  }

  /** `Payload<T>`: the numeric opcode and the body, the two serialized fields. */
  datatype Payload<T> = Payload(op: u16, data: T)

  /** `Payload::new(data)`; `tag` is what `data.op()` returns for the body's
      type (`PayloadData`). The body is kept unchanged. */
  function New<T>(data: T, tag: OpCode): (p: Payload<T>)
    ensures p.data == data
    ensures p.op == ToU16(tag) && p.op < 6
    ensures TryFrom(p.op) == Ok(tag) <==> tag == Error || tag == Sysinfo
  {
    PartialRoundTrip(tag);
    Payload(ToU16(tag), data)
  }

  /** `impl PayloadData for BackendError`: every error travels as `Error`. */
  function ErrorOp(e: BackendError): OpCode {
    Error
  }

  /** An error sent as a payload always carries opcode 0, which decodes
      back to `Error`. */
  lemma ErrorPayloadOp(e: BackendError)
    ensures New(e, ErrorOp(e)).op == 0
    ensures TryFrom(New(e, ErrorOp(e)).op) == Ok(OpCode.Error)
  {
  }
}
