/** Hyprland's event socket (skadi/backend/src/hyprland.rs): where the socket
    lives, how one `EVENT>>DATA` line is classified, and the read loop that
    turns lines into workspace and window frames. */
module Hyprland {
  import opened Wrappers
  import opened Unsigned
  import opened Errors
  import P = Payload

  datatype WorkspaceEventKind = Moved | Created | Destroyed

  datatype Workspace = Workspace(kind: WorkspaceEventKind, id: u16)

  datatype WindowChanged = WindowChanged(title: string)

  /** The two bodies this module prints. */
  datatype Event = WorkspaceEvent(workspace: Workspace) | WindowChangedEvent(window: WindowChanged)

  /** `PayloadData::op` of `Workspace` and of `WindowChanged`. */
  function Op(e: Event): P.OpCode {
    match e
    case WorkspaceEvent(_) => P.Workspace
    case WindowChangedEvent(_) => P.WindowChanged
  }

  // ---------------------------------------------------------------------
  // Socket path

  predicate EndsWith(s: string, suffix: string) {
    |suffix| <= |s| && s[|s| - |suffix|..] == suffix
  }

  /** `PathBuf::push` on Unix: an absolute component replaces the whole path;
      otherwise a '/' is put in between unless the path is empty or already
      ends with one. */
  function Join(base: string, part: string): string {
    if |part| > 0 && part[0] == '/' then part
    else if base != [] && base[|base| - 1] != '/' then base + "/" + part
    else base + part
  }

  /** A directory as one normally finds it in `XDG_RUNTIME_DIR`. */
  predicate PlainDir(dir: string) {
    dir != [] && dir[|dir| - 1] != '/'
  }

  /** A single relative path component with no trailing '/'. */
  predicate PlainName(name: string) {
    name != [] && name[0] != '/' && name[|name| - 1] != '/'
  }

  const SOCKET_NAME: string := ".socket2.sock"

  /** `socket_path()`, with the two environment variables as parameters
      (`None` when unset or not valid Unicode). `XDG_RUNTIME_DIR` is
      checked first. */
  function SocketPath(xdg: Option<string>, signature: Option<string>): (r: Result<string, BackendError>)
    ensures xdg.None? ==> r == Err(XdgRuntimeDirNotSet)
    ensures xdg.Some? && signature.None? ==> r == Err(HyprlandSignatureNotSet)
    ensures xdg.Some? && signature.Some? ==> r.Ok? && EndsWith(r.value, "/" + SOCKET_NAME)
    ensures xdg.Some? && signature.Some? && PlainDir(xdg.value) && PlainName(signature.value) ==>
      r == Ok(xdg.value + "/hypr/" + signature.value + "/" + SOCKET_NAME)
  {
    match xdg
    case None => Err(XdgRuntimeDirNotSet)
    case Some(runtimeDir) =>
      match signature
      case None => Err(HyprlandSignatureNotSet)
      case Some(sig) =>
        SocketPathOf(runtimeDir, sig);
        Ok(Join(Join(Join(runtimeDir, "hypr"), sig), SOCKET_NAME))
  }

  /** Joining a relative, non-empty component to a non-empty path ends the
      result with '/' and that component. */
  lemma JoinRelative(base: string, part: string)
    requires base != [] && part != [] && part[0] != '/'
    ensures EndsWith(Join(base, part), "/" + part)
  {
    var j := Join(base, part);
    if base[|base| - 1] == '/' {
      assert j[|j| - |"/" + part|..] == base[|base| - 1..] + part;
    } else {
      assert j[|j| - |"/" + part|..] == "/" + part;
    }
  }

  /** Plain paths join with exactly one '/'. */
  lemma JoinPlain(base: string, part: string)
    requires PlainDir(base) && PlainName(part)
    ensures Join(base, part) == base + "/" + part && PlainDir(Join(base, part))
  {
  }

  /** The path `socket_path` builds from the two variables. */
  lemma SocketPathOf(runtimeDir: string, sig: string)
    ensures var path := Join(Join(Join(runtimeDir, "hypr"), sig), SOCKET_NAME);
      EndsWith(path, "/" + SOCKET_NAME) &&
      (PlainDir(runtimeDir) && PlainName(sig) ==> path == runtimeDir + "/hypr/" + sig + "/" + SOCKET_NAME)
  {
    var hypr := Join(runtimeDir, "hypr");
    var dir := Join(hypr, sig);
    assert hypr != [];
    assert dir != [];
    JoinRelative(dir, SOCKET_NAME);
    if PlainDir(runtimeDir) && PlainName(sig) {
      JoinPlain(runtimeDir, "hypr");
      JoinPlain(hypr, sig);
      JoinPlain(dir, SOCKET_NAME);
      assert runtimeDir + "/" + "hypr" + "/" + sig + "/" + SOCKET_NAME
        == runtimeDir + "/hypr/" + sig + "/" + SOCKET_NAME;
    }
  }

  // ---------------------------------------------------------------------
  // One event line

  /** The separator ">>" starts at index `i` of `s`. */
  predicate SepAt(s: string, i: int) {
    0 <= i < |s| - 1 && s[i] == '>' && s[i + 1] == '>'
  }

  /** `s` contains no ">>". */
  predicate NoSep(s: string) {
    forall i :: 0 <= i < |s| ==> !SepAt(s, i)
  }

  /** The first index at or after `from` where ">>" starts. */
  function FindSep(s: string, from: nat): (r: Option<nat>)
    ensures r.Some? ==> from <= r.value && SepAt(s, r.value)
    decreases |s| - from
  {
    if from + 1 >= |s| then None
    else if SepAt(s, from) then Some(from)
    else FindSep(s, from + 1)
  }

  /** `FindSep` finds the first ">>" from `from` on: none starts before the
      index it returns, and none at all when it returns nothing. */
  lemma {:induction false} FindSepFirst(s: string, from: nat)
    ensures forall i :: from <= i && (FindSep(s, from).None? || i < FindSep(s, from).value) ==> !SepAt(s, i)
    decreases |s| - from
  {
    if from + 1 < |s| && !SepAt(s, from) {
      FindSepFirst(s, from + 1);
    }
  }

  /** `line.split_once(">>")`: the text before the FIRST ">>" and everything
      after it (which may itself contain ">>"); `None` when there is none. */
  function SplitOnce(line: string): Option<(string, string)> {
    match FindSep(line, 0)
    case None => None
    case Some(k) => Some((line[..k], line[k + 2..]))
  }

  /** `SplitOnce` fails exactly when there is no ">>"; otherwise the line is
      the prefix, ">>" and the rest, and the prefix holds no ">>". */
  lemma SplitOnceSpec(line: string)
    ensures var r := SplitOnce(line);
      (r.None? <==> NoSep(line)) &&
      (r.Some? ==> line == r.value.0 + ">>" + r.value.1) &&
      (r.Some? ==> forall i :: 0 <= i < |r.value.0| ==> !SepAt(line, i))
  {
    FindSepFirst(line, 0);
    match FindSep(line, 0)
    case None =>
    case Some(k) =>
      assert line == line[..k] + ">>" + line[k + 2..];
  }

  /** An event name that holds no ">>" and does not end in '>' is split off
      exactly, whatever the data holds. */
  lemma SplitAtFirst(event: string, data: string)
    requires NoSep(event)
    requires event == [] || event[|event| - 1] != '>'
    ensures SplitOnce(event + ">>" + data) == Some((event, data))
  {
    var line := event + ">>" + data;
    assert SepAt(line, |event|);
    forall i | 0 <= i < |event|
      ensures !SepAt(line, i)
    {
      if i < |event| - 1 {
        assert !SepAt(event, i);
        assert line[i] == event[i] && line[i + 1] == event[i + 1];
      } else {
        assert line[i] == event[i];
      }
    }
    SplitOnceSpec(line);
    var r := SplitOnce(line);
    var k := |r.value.0|;
    assert line[k] == '>' && line[k + 1] == '>';
    assert SepAt(line, k);
    assert k >= |event|;
    assert k <= |event|;
    assert r.value.0 == line[..|event|] == event;
    assert r.value.1 == line[|event| + 2..] == data;
  }

  /** Which workspace event an event name stands for. */
  function WorkspaceKind(event: string): Option<WorkspaceEventKind> {
    if event == "workspace" then Some(Moved)
    else if event == "createworkspace" then Some(Created)
    else if event == "destroyworkspace" then Some(Destroyed)
    else None
  }

  /** The body (if any) the loop prints for an event name and its data. The
      workspace id is the data parsed as a u16, or 0 when that fails. */
  function ClassifyEvent(event: string, data: string): Option<Event> {
    match WorkspaceKind(event)
    case Some(kind) => Some(WorkspaceEvent(Workspace(kind, ParseU16(data).GetOr(0))))
    case None =>
      if event == "activewindow" then Some(WindowChangedEvent(WindowChanged(data)))
      else None
  }

  /** The body (if any) one line of the socket yields. */
  function Classify(line: string): Option<Event> {
    match SplitOnce(line)
    case None => None
    case Some((event, data)) => ClassifyEvent(event, data)
  }

  /** A line without ">>" yields no body. */
  lemma ClassifyNoSep(line: string)
    requires NoSep(line)
    ensures Classify(line) == None
  {
    SplitOnceSpec(line);
  }

  /** What each event name yields, for any data (even data holding ">>"). */
  lemma ClassifyLine(event: string, data: string)
    requires NoSep(event)
    requires event == [] || event[|event| - 1] != '>'
    ensures event == "workspace" ==>
      Classify(event + ">>" + data) == Some(WorkspaceEvent(Workspace(Moved, ParseU16(data).GetOr(0))))
    ensures event == "createworkspace" ==>
      Classify(event + ">>" + data) == Some(WorkspaceEvent(Workspace(Created, ParseU16(data).GetOr(0))))
    ensures event == "destroyworkspace" ==>
      Classify(event + ">>" + data) == Some(WorkspaceEvent(Workspace(Destroyed, ParseU16(data).GetOr(0))))
    ensures event == "activewindow" ==>
      Classify(event + ">>" + data) == Some(WindowChangedEvent(WindowChanged(data)))
    ensures (event != "workspace" && event != "createworkspace" && event != "destroyworkspace"
             && event != "activewindow") ==> Classify(event + ">>" + data) == None
  {
    SplitAtFirst(event, data);
  }

  // ---------------------------------------------------------------------
  // The read loop

  /** The frame (if any) printed for one line. */
  function FrameOf(line: string): seq<P.Payload<Event>> {
    match Classify(line)
    case None => []
    case Some(ev) => [P.New(ev, Op(ev))]
  }

  /** The frames printed for a sequence of lines, in line order. */
  function Emitted(lines: seq<string>): seq<P.Payload<Event>> {
    if lines == [] then [] else Emitted(lines[..|lines| - 1]) + FrameOf(lines[|lines| - 1])
  }

  /** The body of the read loop for one line: split it at ">>", and print a
      workspace frame for the three workspace events, a window frame for
      `activewindow`, nothing otherwise. */
  method HandleLine(line: string) returns (printed: seq<P.Payload<Event>>)
    ensures printed == FrameOf(line)
  {
    printed := [];
    match SplitOnce(line) {
      case None =>
      case Some((event, data)) =>
        if event == "workspace" || event == "createworkspace" || event == "destroyworkspace" {
          var kind := if event == "workspace" then Moved
                      else if event == "createworkspace" then Created
                      else Destroyed;
          var ev := WorkspaceEvent(Workspace(kind, ParseU16(data).GetOr(0)));
          printed := [P.New(ev, P.Workspace)];
        } else if event == "activewindow" {
          var ev := WindowChangedEvent(WindowChanged(data));
          printed := [P.New(ev, P.WindowChanged)];
        }
    }
  }

  /** `hyprland_events()`: resolve the socket path, then print one frame per
      recognised line of `lines` (what the socket delivers until it closes). */
  method HyprlandEvents(xdg: Option<string>, signature: Option<string>, lines: seq<string>)
    returns (r: Result<seq<P.Payload<Event>>, BackendError>)
    ensures SocketPath(xdg, signature).Err? ==> r == Err(SocketPath(xdg, signature).error)
    ensures SocketPath(xdg, signature).Ok? ==> r == Ok(Emitted(lines))
  {
    var path := SocketPath(xdg, signature);
    if path.Err? {
      return Err(path.error);
    }
    var out := ReadLines(lines);
    return Ok(out);
  }

  /** The `while let Some(line)` loop over the socket's lines. */
  method ReadLines(lines: seq<string>) returns (out: seq<P.Payload<Event>>)
    ensures out == Emitted(lines)
  {
    out := [];
    ghost var done: seq<string> := [];
    var i := 0;
    while i < |lines|
      invariant 0 <= i <= |lines|
      invariant done == lines[..i]
      invariant out == Emitted(done)
    {
      var line := lines[i];
      var printed := HandleLine(line);
      EmittedSnoc(done, line);
      out := out + printed;
      done := done + [line];
      i := i + 1;
    }
    assert done == lines;
  }

  /** Frames of consecutive chunks of input are the concatenation of the
      chunks' frames: each line is handled on its own, in order. */
  lemma {:induction false} EmittedAppend(a: seq<string>, b: seq<string>)
    ensures Emitted(a + b) == Emitted(a) + Emitted(b)
    decreases |b|
  {
    if b == [] {
      assert a + b == a;
    } else {
      var b' := b[..|b| - 1];
      calc {
        Emitted(a + b);
        Emitted((a + b)[..|a + b| - 1]) + FrameOf((a + b)[|a + b| - 1]);
        { assert (a + b)[..|a + b| - 1] == a + b'; assert (a + b)[|a + b| - 1] == b[|b| - 1]; }
        Emitted(a + b') + FrameOf(b[|b| - 1]);
        { EmittedAppend(a, b'); }
        Emitted(a) + Emitted(b') + FrameOf(b[|b| - 1]);
      }
    }
  }

  /** One more line adds that line's frame, if any, at the end. */
  lemma EmittedSnoc(lines: seq<string>, line: string)
    ensures Emitted(lines + [line]) == Emitted(lines) + FrameOf(line)
  {
    var all := lines + [line];
    assert all[..|all| - 1] == lines && all[|all| - 1] == line;
  }

  /** A single line yields exactly its own frame. */
  lemma EmittedSingle(line: string)
    ensures Emitted([line]) == FrameOf(line)
  {
    assert [line][..0] == [];
  }

  /** A line without ">>" yields nothing and the lines after it are still
      processed. */
  lemma {:induction false} UnsplittableLineSkipped(before: seq<string>, line: string, after: seq<string>)
    requires NoSep(line)
    ensures Emitted(before + [line] + after) == Emitted(before) + Emitted(after)
  {
    EmittedAppend(before + [line], after);
    EmittedSnoc(before, line);
    ClassifyNoSep(line);
    assert FrameOf(line) == [];
    assert Emitted(before + [line]) == Emitted(before);
  }

  /** At most one frame per line, and every frame is a workspace (3) or
      window-change (2) frame whose opcode matches its body. */
  lemma {:induction false} EmittedShape(lines: seq<string>)
    ensures |Emitted(lines)| <= |lines|
    ensures forall k :: 0 <= k < |Emitted(lines)| ==>
      var p := Emitted(lines)[k];
      (p.data.WorkspaceEvent? && p.op == 3) || (p.data.WindowChangedEvent? && p.op == 2)
  {
    if lines != [] {
      EmittedShape(lines[..|lines| - 1]);
    }
  }
}
