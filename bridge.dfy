/** How the backend's frames look to the widgets. The backend serializes a
    `Payload` with serde_json and the widgets read it back with
    `JSON.parse`; this module states that correspondence on values (the
    opcode number, the variant names, the fields) and follows a few inputs
    from the backend's text all the way into a widget's state. */
module Bridge {
  import opened Wrappers
  import U = Unsigned
  import P = Payload
  import F = Payloads
  import H = Hyprland
  import S = Spotify
  import VB = VolumeBackend
  import WW = WorkspacesWidget
  import PW = PlayerWidget
  import VW = VolumeWidget
  import SW = SysinfoWidget

  // ---------------------------------------------------------------------
  // The two OpCode enums

  /** The frontend member at the backend member's position. */
  function MirrorOp(op: P.OpCode): F.OpCode {
    match op
    case Error => F.Error
    case Sysinfo => F.Sysinfo
    case WindowChanged => F.WindowChanged
    case Workspace => F.OpCode.Workspace
    case SpotifyEvent => F.Spotify
    case VolumeEvent => F.Volume
  }

  /** Both enums give each position the same number, so the frontend reads
      every backend opcode back as the member at the same position, and no
      two backend members meet in one frontend member. */
  lemma MirrorOpAgrees(op: P.OpCode, other: P.OpCode)
    ensures P.ToU16(op) == F.Value(MirrorOp(op))
    ensures F.FromValue(P.ToU16(op)) == Some(MirrorOp(op))
    ensures MirrorOp(op) == MirrorOp(other) ==> op == other
  {
  }

  // ---------------------------------------------------------------------
  // Variant names on the wire

  /** serde's name for a workspace event kind: the variant's own name. */
  function WorkspaceVariantName(k: H.WorkspaceEventKind): string {
    match k
    case Moved => "Moved"
    case Created => "Created"
    case Destroyed => "Destroyed"
  }

  function MirrorWorkspaceKind(k: H.WorkspaceEventKind): F.WorkspaceEventType {
    match k
    case Moved => F.Moved
    case Created => F.Created
    case Destroyed => F.Destroyed
  }

  /** serde's name for a Spotify event kind: the variant's own name. */
  function SpotifyVariantName(k: S.SpotifyEventKind): string {
    match k
    case Request => "Request"
    case Playing => "Playing"
    case Paused => "Paused"
    case Stopped => "Stopped"
  }

  function MirrorSpotifyKind(k: S.SpotifyEventKind): F.SpotifyEventType {
    match k
    case Request => F.Request
    case Playing => F.Playing
    case Paused => F.Paused
    case Stopped => F.Stopped
  }

  /** Every name the backend writes is a value of the frontend enum, the
      member it denotes is the mirrored kind, and different kinds are
      written differently. */
  lemma VariantNamesAgree(w: H.WorkspaceEventKind, w2: H.WorkspaceEventKind, k: S.SpotifyEventKind, k2: S.SpotifyEventKind)
    ensures F.WorkspaceTypeOf(WorkspaceVariantName(w)) == Some(MirrorWorkspaceKind(w))
    ensures WorkspaceVariantName(w) == WorkspaceVariantName(w2) ==> w == w2
    ensures F.SpotifyTypeOf(SpotifyVariantName(k)) == Some(MirrorSpotifyKind(k))
    ensures SpotifyVariantName(k) == SpotifyVariantName(k2) ==> k == k2
  {
  }

  // ---------------------------------------------------------------------
  // Frames

  /** The fields of `TrackInfo` under their camel-case names. */
  function TrackOf(t: S.TrackInfo): F.TrackInfo {
    F.TrackInfo(
      t.title, t.artist, t.album, t.status,
      match t.position case Some(n) => Some(n as int) case None => None,
      match t.duration case Some(n) => Some(n as int) case None => None,
      t.volume, t.artworkUrl)
  }

  /** A Hyprland frame as the widgets see it; the window-change body is not
      one of the typed bodies. */
  function HyprlandFrame(p: P.Payload<H.Event>): F.Payload {
    F.Payload(p.op as int,
      match p.data
      case WorkspaceEvent(w) => F.WorkspaceData(F.Workspace.Workspace(w.id as int, MirrorWorkspaceKind(w.kind)))
      case WindowChangedEvent(_) => F.Untyped)
  }

  function SpotifyFrame(p: P.Payload<S.SpotifyEvent>): F.Payload {
    F.Payload(p.op as int, F.SpotifyData(F.SpotifyEvent(MirrorSpotifyKind(p.data.kind), Some(TrackOf(p.data.trackInfo)))))
  }

  function VolumeFrame(p: P.Payload<VB.VolumeEvent>): F.Payload {
    F.Payload(p.op as int, F.VolumeData(F.VolumeEvent(p.data.volume as int)))
  }

  /** Every frame the Hyprland loop prints reaches the widgets well typed:
      a workspace body under the Workspace opcode. */
  lemma {:induction false} HyprlandFramesWellTyped(lines: seq<string>)
    ensures forall k :: 0 <= k < |H.Emitted(lines)| ==> F.WellTyped(HyprlandFrame(H.Emitted(lines)[k]))
  {
    H.EmittedShape(lines);
  }

  /** Every frame the volume loop prints reaches the widgets well typed. */
  lemma {:induction false} VolumeFramesWellTyped(events: seq<(string, string)>)
    ensures forall k :: 0 <= k < |VB.Frames(events)| ==> F.WellTyped(VolumeFrame(VB.Frames(events)[k]))
  {
    VB.FramesShape(events);
  }

  /** The frame `main` builds for a Spotify callback is well typed. */
  lemma SpotifyFrameWellTyped(name: string, info: S.TrackInfo)
    ensures F.WellTyped(SpotifyFrame(P.New(S.EventFor(name, info), P.SpotifyEvent)))
  {
  }

  /** Window-change frames are ignored by every widget. */
  lemma WindowFramesIgnored(title: string, ws: WW.State, ps: PW.State, level: VW.Level, ss: SW.State, now: int)
    ensures var f := HyprlandFrame(P.New(H.WindowChangedEvent(H.WindowChanged(title)), P.WindowChanged));
      WW.Apply(ws, f) == ws && PW.Apply(ps, f) == PW.Step(ps, false) &&
      VW.ApplyFrame(level, f) == level && SW.Apply(ss, f, now) == ss
  {
  }

  // ---------------------------------------------------------------------
  // From the backend's input to a widget's state

  /** No ">>" in "createworkspace". */
  lemma CreateNameHasNoSeparator()
    ensures H.NoSep("createworkspace")
  {
    var name := "createworkspace";
    forall i | 0 <= i < |name|
      ensures !H.SepAt(name, i)
    {
      assert name[i] != '>';
    }
  }

  /** The one frame a `createworkspace>>n` line yields. */
  lemma CreateLineFrame(n: U.u16)
    ensures H.Emitted(["createworkspace" + ">>" + U.Format(n)]) ==
      [P.New(H.WorkspaceEvent(H.Workspace(H.Created, n)), P.Workspace)]
  {
    var data := U.Format(n);
    var line := "createworkspace" + ">>" + data;
    assert H.Classify(line) == Some(H.WorkspaceEvent(H.Workspace(H.Created, n))) by {
      CreateNameHasNoSeparator();
      H.ClassifyLine("createworkspace", data);
      U.ParseFormat(n, U.U16_LIMIT);
    }
    H.EmittedSingle(line);
  }

  /** A `createworkspace>>n` line from Hyprland ends with `n` among the
      widget's workspaces, and changes nothing else. */
  lemma CreatedWorkspaceShown(s: WW.State, n: U.u16)
    ensures var frames := H.Emitted(["createworkspace" + ">>" + U.Format(n)]);
      |frames| == 1 &&
      WW.Apply(s, HyprlandFrame(frames[0])).active == s.active &&
      (forall y :: y in WW.Apply(s, HyprlandFrame(frames[0])).ids <==> y in s.ids || y == n)
  {
    CreateLineFrame(n);
    var f := HyprlandFrame(P.New(H.WorkspaceEvent(H.Workspace(H.Created, n)), P.Workspace));
    assert f == F.Payload(F.Value(F.OpCode.Workspace), F.WorkspaceData(F.Workspace.Workspace(n as int, F.Created)));
    assert WW.Apply(s, f) == WW.State(s.active, WW.Add(s.ids, n as int));
  }

  /** A sink-change line, when the volume query's output reads as `v`,
      ends with the widget showing `v`. */
  lemma {:induction false} VolumeChangeShown(shown: VW.Level, line: string, output: string, v: U.u32)
    requires VB.Contains(line, VB.SINK_CHANGE)
    requires VB.ParseVolume(output) == Ok(v)
    ensures var frames := VB.Frames([(line, output)]);
      |frames| == 1 && VW.ApplyFrame(shown, VolumeFrame(frames[0])) == VW.Percent(v)
  {
    var events := [(line, output)];
    assert events[..0] == [];
    assert VB.Frames(events) == VB.FrameOf(line, output);
  }

  /** With the documented sample as the query's output, the widget shows
      100 after a `'change' on sink` line. */
  lemma VolumeSampleShown(shown: VW.Level, before: string, after: string)
    ensures var frames := VB.Frames([(before + VB.SINK_CHANGE + after, VB.SAMPLE)]);
      |frames| == 1 && VW.ApplyFrame(shown, VolumeFrame(frames[0])) == VW.Percent(100)
  {
    VB.ContainsInfix(before, VB.SINK_CHANGE, after);
    VB.SampleOutput();
    VolumeChangeShown(shown, before + VB.SINK_CHANGE + after, VB.SAMPLE, 100);
  }

  /** A track reported as Playing starts the player with that track and its
      artwork; one reported as Paused stops it and keeps what it showed. */
  lemma SpotifyStatusReachesPlayer(s: PW.State, info: S.TrackInfo)
    ensures info.status == "Playing" ==>
      var f := SpotifyFrame(P.New(S.EventFor(S.StatusEventName(info.status), info), P.SpotifyEvent));
      var r := PW.Apply(s, f).state;
      r.playing && r.track == Some(TrackOf(info)) && r.coverUrl == PW.NewCover(Some(TrackOf(info)))
    ensures info.status == "Paused" ==>
      var f := SpotifyFrame(P.New(S.EventFor(S.StatusEventName(info.status), info), P.SpotifyEvent));
      PW.Apply(s, f).state == s.(playing := false)
  {
    S.StatusDecidesKind(info.status, info);
    PW.PlayingShowsCover(s, Some(TrackOf(info)));
  }
}
