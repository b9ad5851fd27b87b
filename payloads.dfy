/** The frame types the widgets receive (skadi/plugins/payloads.ts): the
    numeric `OpCode` enum, the `Payload` envelope and the bodies. JSON numbers
    that are whole are `int`; the CPU usage, a fraction, is `real`. */
module Payloads {
  import opened Wrappers

  datatype OpCode = Error | Sysinfo | WindowChanged | Workspace | Spotify | Volume

  /** The number each enum member stands for. */
  function Value(op: OpCode): (n: int)
    ensures 0 <= n < 6
  {
    match op
    case Error => 0
    case Sysinfo => 1
    case WindowChanged => 2
    case Workspace => 3
    case Spotify => 4
    case Volume => 5
  }

  /** A numeric TypeScript enum also maps numbers back to members. */
  function FromValue(n: int): (r: Option<OpCode>)
    ensures r.Some? <==> 0 <= n < 6
    ensures r.Some? ==> Value(r.value) == n
  {
    if n == 0 then Some(Error)
    else if n == 1 then Some(Sysinfo)
    else if n == 2 then Some(WindowChanged)
    else if n == 3 then Some(OpCode.Workspace)
    else if n == 4 then Some(Spotify)
    else if n == 5 then Some(Volume)
    else None
  }

  /** Members and numbers correspond one to one. */
  lemma ValueBijective(op: OpCode, other: OpCode)
    ensures FromValue(Value(op)) == Some(op)
    ensures Value(op) == Value(other) ==> op == other
  {
  }

  datatype SysinfoPayload = SysinfoPayload(
    cpuUsage: real,
    memoryUsed: int,
    memoryTotal: int,
    memoryFree: int,
    swapUsed: int,
    swapTotal: int,
    networkRx: int,
    networkTx: int,
    diskRead: int,
    diskWrite: int,
    diskUsage: int,
    diskTotal: int,
    diskFree: int)

  datatype WorkspaceEventType = Moved | Created | Destroyed

  /** The string value of each `WorkspaceEventType` member. */
  function WorkspaceTypeText(t: WorkspaceEventType): string {
    match t
    case Moved => "Moved"
    case Created => "Created"
    case Destroyed => "Destroyed"
  }

  /** Which member, if any, a string value denotes. */
  function WorkspaceTypeOf(text: string): (r: Option<WorkspaceEventType>)
    ensures r.Some? <==> text in {"Moved", "Created", "Destroyed"}
    ensures r.Some? ==> WorkspaceTypeText(r.value) == text
  {
    if text == "Moved" then Some(Moved)
    else if text == "Created" then Some(Created)
    else if text == "Destroyed" then Some(Destroyed)
    else None
  }

  /** `Workspace`; its `type` field is called `kind` here. */
  datatype Workspace = Workspace(id: int, kind: WorkspaceEventType)

  /** `TrackInfo`: only `status` is always present. */
  datatype TrackInfo = TrackInfo(
    title: Option<string>,
    artist: Option<string>,
    album: Option<string>,
    status: string,
    position: Option<int>,
    duration: Option<int>,
    volume: Option<string>,
    artworkUrl: Option<string>)

  datatype SpotifyEventType = Request | Playing | Paused | Stopped

  /** The string value of each `SpotifyEventType` member. */
  function SpotifyTypeText(t: SpotifyEventType): string {
    match t
    case Request => "Request"
    case Playing => "Playing"
    case Paused => "Paused"
    case Stopped => "Stopped"
  }

  /** Which member, if any, a string value denotes. */
  function SpotifyTypeOf(text: string): (r: Option<SpotifyEventType>)
    ensures r.Some? <==> text in {"Request", "Playing", "Paused", "Stopped"}
    ensures r.Some? ==> SpotifyTypeText(r.value) == text
  {
    if text == "Request" then Some(Request)
    else if text == "Playing" then Some(Playing)
    else if text == "Paused" then Some(Paused)
    else if text == "Stopped" then Some(Stopped)
    else None
  }

  /** Both string enums are read back from their own values. */
  lemma TypeTextsRoundTrip(w: WorkspaceEventType, s: SpotifyEventType)
    ensures WorkspaceTypeOf(WorkspaceTypeText(w)) == Some(w)
    ensures SpotifyTypeOf(SpotifyTypeText(s)) == Some(s)
  {
  }

  /** `SpotifyEvent`: the track info may be missing. */
  datatype SpotifyEvent = SpotifyEvent(kind: SpotifyEventType, trackInfo: Option<TrackInfo>)

  datatype VolumeEvent = VolumeEvent(volume: int)

  /** The body of a frame. The file types four bodies; the error and
      window-change bodies are not typed there, so they are `Untyped`. */
  datatype Data =
    | SysinfoData(sysinfo: SysinfoPayload)
    | WorkspaceData(workspace: Workspace)
    | SpotifyData(spotify: SpotifyEvent)
    | VolumeData(volume: VolumeEvent)
    | Untyped

  /** `Payload<T>`: exactly an opcode number and a body. */
  datatype Payload = Payload(op: int, data: Data)

  /** The opcode a typed body is announced with. */
  function DataOp(d: Data): Option<OpCode> {
    match d
    case SysinfoData(_) => Some(Sysinfo)
    case WorkspaceData(_) => Some(OpCode.Workspace)
    case SpotifyData(_) => Some(Spotify)
    case VolumeData(_) => Some(Volume)
    case Untyped => None
  }

  /** A frame whose typed body agrees with its opcode. */
  predicate WellTyped(p: Payload) {
    DataOp(p.data).Some? ==> p.op == Value(DataOp(p.data).value)
  }

  /** In a well-typed frame the opcode alone tells which typed body it
      carries, so a widget that checks `op` reads the body it expects. */
  lemma OpDecidesBody(p: Payload)
    requires WellTyped(p)
    ensures p.op == Value(Sysinfo) && DataOp(p.data).Some? ==> p.data.SysinfoData?
    ensures p.op == Value(OpCode.Workspace) && DataOp(p.data).Some? ==> p.data.WorkspaceData?
    ensures p.op == Value(Spotify) && DataOp(p.data).Some? ==> p.data.SpotifyData?
    ensures p.op == Value(Volume) && DataOp(p.data).Some? ==> p.data.VolumeData?
  {
  }
}
