# skadi status bar: a Dafny model of its frame stream and widgets

skadi is a Hyprland status bar. A Rust backend watches three sources and
prints one JSON frame per event on standard output:

- Hyprland's event socket, which reports workspace and active-window changes;
- `playerctl --follow`, which reports Spotify's status and track;
- `pactl subscribe`, which reports sink-volume changes.

Each frame is a `Payload` made of a numeric opcode and a body. React widgets
read the frames back and fold them into what they show:

- the workspace switcher;
- the media player;
- the volume slider, which also coalesces slider moves into `pactl` commands;
- the system-metrics strip.

The clock widget re-arms a timer for every whole second.

This project models that core in Dafny and proves what it promises.

- **Envelope and opcodes.** These are in `payload.rs`, `err.rs` and `payloads.ts`.
  - Modules `Payload`, `Errors` and `Payloads` cover them.
  - `Unsigned` covers Rust's `u16`/`u32`/`u64` decimal text.
  - `Bridge` states that the backend's frames and the frontend's types agree: the opcode numbers, the serde variant names and the bodies. It also follows a few inputs end to end.
- **Backend line parsers and read loops.** These are in `hyprland.rs`, `spotify.rs` and `volume.rs`.
  - Modules `Hyprland`, `Spotify` and `VolumeBackend` cover them.
  - Each read loop is a method over the sequence of lines it reads. It returns the frames it prints, or for Spotify the callback calls it makes, and is proved equal to a left fold of a per-line function.
- **Widgets.** These are in `workspaces.tsx`, `player.tsx`, `volume.tsx`, `sysinfo.tsx` and `clock.tsx`.
  - Each widget is a class whose fields are the component's state cells and refs, next to a pure function that specifies each update.
  - Every method ensures that the new state is that function of the old one.
  - The properties are lemmas about the functions.
  - Time (`Date.now()`, timer firings) is an explicit millisecond clock.

## Model

| member | source | states |
|---|---|---|
| Unsigned.Format | skadi/backend/src/err.rs:16-17 | Rust's `Display` of an unsigned number: non-empty digits, no leading zero, whose decimal value is the number |
| Unsigned.FormatInjective | skadi/backend/src/err.rs:16-17 | different numbers print differently |
| Unsigned.Parse | skadi/backend/src/hyprland.rs:73 | `str::parse::<uN>` succeeds iff the text after an optional '+' is non-empty ASCII digits whose value is below 2^N, and then yields that value |
| Unsigned.ParseFormat | skadi/backend/src/hyprland.rs:73 | parsing a printed number below the limit gives it back |
| Unsigned.ParseRejectsSignAndEmpty | skadi/backend/src/volume.rs:60 | a leading '-' and the empty string are always rejected |
| Unsigned.ParseU32 | skadi/backend/src/volume.rs:60 | a u32 parse succeeds exactly when `Parse` below 2^32 does, with the same value |
| Errors.FromIo | skadi/backend/src/err.rs:20-24 | an I/O error becomes `TokioIo` holding its text verbatim, displayed as "Tokio error: " followed by that text |
| Errors.InvalidOpCodeMessage | skadi/backend/src/err.rs:16-17 | `InvalidOpCode(v)` displays as "Invalid OpCode: " followed by digits that parse back to `v` |
| Errors.MessageLead | skadi/backend/src/err.rs:7-17 | every message is non-empty, and its first character tells the variant |
| Errors.MessageInjective | skadi/backend/src/err.rs:7-17 | two errors with the same message are the same error, payload included; the two environment variants carry no data |
| Payload.ToU16 | skadi/backend/src/payload.rs:35-39 | every opcode's number is below 6 |
| Payload.ToU16Bijective | skadi/backend/src/payload.rs:24-39 | the numbering Error=0 … VolumeEvent=5 is injective and covers 0..5 |
| Payload.TryFrom | skadi/backend/src/payload.rs:41-51 | succeeds iff the value is 0 or 1, and then inverts `ToU16`; any other value fails with `InvalidOpCode` carrying that value |
| Payload.PartialRoundTrip | skadi/backend/src/payload.rs:35-51 | `TryFrom(ToU16(op)) == Ok(op)` holds exactly for Error and Sysinfo and fails for the other four |
| Payload.New | skadi/backend/src/payload.rs:15-22 | the body is stored unchanged and `op` is its type's opcode number; that number decodes back only for Error and Sysinfo |
| Payload.ErrorPayloadOp | skadi/backend/src/err.rs:26-30 | every error sent as a payload carries opcode 0, which decodes to Error |
| Payloads.Value | skadi/plugins/payloads.ts:1-8 | every frontend opcode is a number in 0..5 |
| Payloads.FromValue | skadi/plugins/payloads.ts:1-8 | a number names a member iff it is in 0..5, and that member's number is the input |
| Payloads.ValueBijective | skadi/plugins/payloads.ts:1-8 | members and numbers correspond one to one |
| Payloads.WorkspaceTypeOf | skadi/plugins/payloads.ts:31-35 | a string is a `WorkspaceEventType` iff it is "Moved", "Created" or "Destroyed", and the member's value is that string |
| Payloads.SpotifyTypeOf | skadi/plugins/payloads.ts:54-59 | a string is a `SpotifyEventType` iff it is "Request", "Playing", "Paused" or "Stopped" |
| Payloads.TypeTextsRoundTrip | skadi/plugins/payloads.ts:31-59 | both string enums read their own values back |
| Payloads.OpDecidesBody | skadi/plugins/payloads.ts:10-13 | in a frame whose typed body agrees with its opcode, the opcode alone tells which body it carries |
| Hyprland.SocketPath | skadi/backend/src/hyprland.rs:44-56 | a missing `XDG_RUNTIME_DIR` fails with `XdgRuntimeDirNotSet` before the signature is looked at; a missing signature fails with `HyprlandSignatureNotSet`; otherwise the path ends in `/.socket2.sock`, and for plain values it is `XDG/hypr/SIG/.socket2.sock` |
| Hyprland.SocketPathOf | skadi/backend/src/hyprland.rs:50-53 | the joined path always ends in `/.socket2.sock`; for a plain directory and signature it is `XDG/hypr/SIG/.socket2.sock` |
| Hyprland.SplitOnceSpec | skadi/backend/src/hyprland.rs:66 | `split_once(">>")` fails iff there is no ">>"; otherwise the line is the prefix, ">>" and the rest, and the prefix holds no ">>" |
| Hyprland.SplitAtFirst | skadi/backend/src/hyprland.rs:66 | an event name without ">>" splits off exactly, whatever the data holds, ">>" included |
| Hyprland.ClassifyNoSep | skadi/backend/src/hyprland.rs:66-68 | a line without ">>" yields no body |
| Hyprland.ClassifyLine | skadi/backend/src/hyprland.rs:71-102 | "workspace", "createworkspace" and "destroyworkspace" give Moved, Created and Destroyed with the data parsed as a u16, or 0 when that fails; "activewindow" gives `WindowChanged` with the data verbatim; every other name gives nothing |
| Hyprland.HyprlandEvents | skadi/backend/src/hyprland.rs:58-107 | a socket-path error is returned as is; otherwise the frames printed are `Emitted(lines)`, one per recognised line in line order |
| Hyprland.HandleLine | skadi/backend/src/hyprland.rs:66-102 | the loop body prints exactly the frame `FrameOf(line)` assigns to the line: none, one workspace frame or one window frame |
| Hyprland.EmittedAppend | skadi/backend/src/hyprland.rs:65-104 | the frames for consecutive chunks of lines are the chunks' frames, concatenated in order |
| Hyprland.UnsplittableLineSkipped | skadi/backend/src/hyprland.rs:66-68 | a line without ">>" adds nothing, and the lines after it are still processed |
| Hyprland.EmittedShape | skadi/backend/src/hyprland.rs:18-42 | at most one frame per line; each is a workspace body with opcode 3 or a window body with opcode 2 |
| Spotify.KindFromStr | skadi/backend/src/spotify.rs:32-39 | accepts exactly "request", "playing", "paused" and "stopped", case-sensitively, and fails otherwise with "Unknown Spotify event kind: " and the value |
| Spotify.KindNameRoundTrip | skadi/backend/src/spotify.rs:32-39 | each kind's name is read back as that kind |
| Spotify.SplitBar | skadi/backend/src/spotify.rs:153 | splitting on the bar character gives at least one piece, and no piece holds a bar |
| Spotify.SplitJoin | skadi/backend/src/spotify.rs:153 | splitting bar-free pieces joined with bars gives back the pieces |
| Spotify.JoinSplit | skadi/backend/src/spotify.rs:153 | joining the pieces of a split gives back the line |
| Spotify.OptionalText | skadi/backend/src/spotify.rs:158-162 | an empty field is absent; any other field is kept verbatim |
| Spotify.OptionalNumber | skadi/backend/src/spotify.rs:173-182 | an empty field is absent; any other field must parse as a u64, or the parse fails |
| Spotify.ParsePlayerctlOutput | skadi/backend/src/spotify.rs:152-197 | rejected as malformed iff fewer than 8 fields; otherwise accepted iff position and duration are each empty or a u64, the first that is neither failing with its text; on success status is field 0 verbatim, title, artist, album, volume and artwork URL are absent when empty and otherwise the field verbatim, and position and duration are absent when empty and otherwise the parsed number |
| Spotify.ParseRender | skadi/backend/src/spotify.rs:152-193 | the round trip: a track printed with the `-f` template of line 125 parses back to itself, for bar-free text and present texts that are non-empty |
| Spotify.ParsedIsWellFormed | skadi/backend/src/spotify.rs:152-197 | everything the parser accepts satisfies the round trip's condition |
| Spotify.ParseIgnoresExtraFields | skadi/backend/src/spotify.rs:153-155 | fields beyond the eighth are ignored |
| Spotify.StatusEventName | skadi/backend/src/spotify.rs:137-142 | the event name is always one of playing, paused, stopped or unknown |
| Spotify.StatusDecidesKind | skadi/backend/src/main.rs:55-59 | Playing and Paused map to themselves; every other status, unknown ones included, becomes Stopped; the listener never sends Request, and the track is passed on unchanged |
| Spotify.ListenForChanges | skadi/backend/src/spotify.rs:135-146 | the callback calls are `Calls(lines)`: one per parseable line, in order, with the status's event name |
| Spotify.CallsAppend | skadi/backend/src/spotify.rs:135-146 | the calls for consecutive chunks of output are the chunks' calls, in order |
| Spotify.UnparseableLineSkipped | skadi/backend/src/spotify.rs:136 | an unparseable line causes no call, and the loop goes on with the next |
| Spotify.CallsShape | skadi/backend/src/spotify.rs:137-144 | at most one call per line, each naming the event its track's status maps to |
| VolumeBackend.FirstIndex | skadi/backend/src/volume.rs:56 | `find`: none iff the character is absent; otherwise the first index holding it |
| VolumeBackend.LastIndex | skadi/backend/src/volume.rs:58 | `rfind`: none iff the character is absent; otherwise the last index holding it |
| VolumeBackend.ParseVolume | skadi/backend/src/volume.rs:56-64 | output without '%' is an error; success needs a '%' and a space |
| VolumeBackend.ParseVolumeOf | skadi/backend/src/volume.rs:56-60 | only the first '%' counts; the text between the last space before it and the '%' is parsed as a u32, and anything else there is an error |
| VolumeBackend.NoSpaceBeforePercent | skadi/backend/src/volume.rs:58-64 | no space before the first '%' is an error |
| VolumeBackend.SampleOutput | skadi/backend/src/volume.rs:55 | the documented line "Volume: front-left: 65536 /  100% / 0.00 dB" reads as 100 |
| VolumeBackend.ContainsInfix | skadi/backend/src/volume.rs:31 | a line holding the pattern anywhere `contains` it |
| VolumeBackend.MonitorVolumeChanges | skadi/backend/src/volume.rs:18-45 | the frames printed are `Frames(events)`: one per sink-change line whose volume query parses, in order |
| VolumeBackend.FramesShape | skadi/backend/src/volume.rs:12-16 | every volume frame carries opcode 5, and there is at most one per line |
| VolumeBackend.OtherLinesIgnored | skadi/backend/src/volume.rs:31 | a line without "'change' on sink" prints nothing, whatever the volume |
| Bridge.MirrorOpAgrees | skadi/plugins/payloads.ts:1-8 | the frontend enum gives each backend opcode the same number at the same position, one to one |
| Bridge.VariantNamesAgree | skadi/plugins/payloads.ts:31-59 | each serde variant name the backend writes is a value of the frontend enum, naming the same kind; different kinds are written differently |
| Bridge.HyprlandFramesWellTyped | skadi/backend/src/hyprland.rs:58-107 | every Hyprland frame reaches the widgets with its body under the matching opcode |
| Bridge.VolumeFramesWellTyped | skadi/backend/src/volume.rs:18-45 | every volume frame reaches the widgets with its body under the matching opcode |
| Bridge.SpotifyFrameWellTyped | skadi/backend/src/main.rs:55-61 | the frame built for a Spotify callback is well typed |
| Bridge.WindowFramesIgnored | skadi/backend/src/hyprland.rs:90-100 | window-change frames change no widget's state |
| Bridge.CreateLineFrame | skadi/backend/src/hyprland.rs:71-88 | a `createworkspace>>n` line, `n` written in decimal, yields exactly one Created frame for `n` under the Workspace opcode |
| Bridge.CreatedWorkspaceShown | skadi/plugins/components/workspaces.tsx:56-58 | a `createworkspace>>n` line yields one frame, which adds `n` to the switcher's ids and leaves the active id alone |
| Bridge.VolumeChangeShown | skadi/backend/src/volume.rs:31 | a sink-change line whose query reads `v` yields one frame, and the widget then shows `v` |
| Bridge.VolumeSampleShown | skadi/backend/src/volume.rs:55 | with the documented output, the widget shows 100 after a sink-change line |
| Bridge.SpotifyStatusReachesPlayer | skadi/backend/src/spotify.rs:137-142 | a Playing track starts the player with that track and its artwork; a Paused one stops it and keeps what it showed |
| WorkspacesWidget.Add | skadi/plugins/components/workspaces.tsx:57 | `new Set([...prev, id])` holds exactly the old ids and `id`, without duplicates |
| WorkspacesWidget.Remove | skadi/plugins/components/workspaces.tsx:61-62 | `delete` (and the `filter`) keeps exactly the ids other than `id`, without duplicates |
| WorkspacesWidget.Dedup | skadi/plugins/components/workspaces.tsx:26 | `new Set(ids)` holds exactly the listed ids, without duplicates |
| WorkspacesWidget.Min | skadi/plugins/components/workspaces.tsx:72 | `Math.min` of a non-empty list is one of its elements and no greater than any |
| WorkspacesWidget.SortAscending | skadi/plugins/components/workspaces.tsx:93-94 | the display order is ascending and a permutation of the set |
| WorkspacesWidget.ApplyWorkspaceEffects | skadi/plugins/components/workspaces.tsx:53-77 | Moved sets active and keeps the set, even for a non-member; Created adds the id only and is idempotent; Destroyed removes exactly the id, keeps active for another id, moves active to the minimum of a non-empty remainder, and leaves it unchanged when the set empties |
| WorkspacesWidget.ApplyKeepsDistinct | skadi/plugins/components/workspaces.tsx:47-80 | the set never holds an id twice |
| WorkspacesWidget.ApplyWorkspaceConsistent | skadi/plugins/components/workspaces.tsx:59-77 | Destroyed keeps the active id among non-empty ids; so does Created on a non-empty set; Moved does iff it names a member |
| WorkspacesWidget.DestroyLastThenCreate | skadi/plugins/components/workspaces.tsx:66-77 | destroying the last workspace leaves active at the destroyed id, and a workspace created next is not active |
| WorkspacesWidget.DestroyActiveExample | skadi/plugins/components/workspaces.tsx:66-75 | destroying the active 3 of {1, 3, 5} leaves {1, 5} with 1 active |
| WorkspacesWidget.FoldIgnoresOtherFrames | skadi/plugins/components/workspaces.tsx:50 | interleaved frames of other kinds make no difference to a run |
| WorkspacesWidget.CreateDestroyRunConsistent | skadi/plugins/components/workspaces.tsx:56-77 | a run of Created and Destroyed events that never empties the set keeps active among the ids |
| WorkspacesWidget.Workspaces.constructor | skadi/plugins/components/workspaces.tsx:7-8 | starts with active 1 and ids {1} |
| WorkspacesWidget.Workspaces.Seed | skadi/plugins/components/workspaces.tsx:12-42 | a failed listing changes nothing; otherwise the ids become the listing; active changes only when the second query also answered |
| WorkspacesWidget.Workspaces.Listen | skadi/plugins/components/workspaces.tsx:47-80 | the new state is `Apply` of the old one, with the Destroyed branch's two updates in sequence |
| PlayerWidget.NewCover | skadi/plugins/components/player.tsx:41 | the new cover is the artwork URL when present and non-empty, and null otherwise |
| PlayerWidget.PlayingShowsCover | skadi/plugins/components/player.tsx:39-49 | after Playing, the cover is the new artwork URL (or null) whether or not the setter ran; the track is replaced and playing is on |
| PlayerWidget.OtherEventsKeepCover | skadi/plugins/components/player.tsx:51-60 | Paused and Stopped switch playing off and keep track and cover; Request replaces the track only |
| PlayerWidget.CoverNeverEmpty | skadi/plugins/components/player.tsx:40-42 | the cover is never the empty string |
| PlayerWidget.RepeatedCoverNotRewritten | skadi/plugins/components/player.tsx:40 | a repeated Playing event with the same non-empty artwork does not call the cover setter; different artwork does |
| PlayerWidget.ToggleCommand | skadi/plugins/components/player.tsx:96-116 | the button runs `playerctl --player=spotify` with one subcommand |
| PlayerWidget.ToggleFollowsEvents | skadi/plugins/components/player.tsx:96-116 | the button sends "pause" after Playing and "play" after Paused or Stopped |
| PlayerWidget.NotRenderedUntilTrack | skadi/plugins/components/player.tsx:66 | nothing is shown at first, nor until a Playing or Request frame brings a track |
| PlayerWidget.OtherFramesIgnored | skadi/plugins/components/player.tsx:36 | frames other than Spotify frames change nothing and run no setter |
| PlayerWidget.Player.constructor | skadi/plugins/components/player.tsx:29-31 | starts with no track, no cover, not playing |
| PlayerWidget.Player.Listen | skadi/plugins/components/player.tsx:33-63 | the new state is `Apply` of the old one, and the returned flag says whether the cover setter was called |
| VolumeWidget.FormatInt | skadi/plugins/components/volume.tsx:36 | `${value}`: the decimal digits, with '-' for a negative value |
| VolumeWidget.SetVolumeCommandInjective | skadi/plugins/components/volume.tsx:34-38 | the command names the value it was built from |
| VolumeWidget.NeverDropped | skadi/plugins/components/volume.tsx:29 | on a clock that does not go back, a timer fires at least 200 ms after the last send, so the `>= 200` check never drops a value |
| VolumeWidget.BurstSendsLatest | skadi/plugins/components/volume.tsx:18-43 | three changes 50 ms apart send one command, for the last value |
| VolumeWidget.SecondChangeReplacesFirst | skadi/plugins/components/volume.tsx:20-26 | a change 150 ms after another cancels the first timer, and the second value is sent |
| VolumeWidget.NothingSentAfterUnmount | skadi/plugins/components/volume.tsx:76-82 | after the cleanup, no tick sends anything |
| VolumeWidget.TrimStartSpec | skadi/plugins/components/volume.tsx:65 | the result is a suffix of the input that starts with a non-blank (or is empty), and everything removed is blank |
| VolumeWidget.TrimEndSpec | skadi/plugins/components/volume.tsx:65 | the result is a prefix of the input that ends with a non-blank (or is empty), and everything removed is blank |
| VolumeWidget.DigitPrefix | skadi/plugins/components/volume.tsx:65 | the longest run of leading digits |
| VolumeWidget.ParseInt | skadi/plugins/components/volume.tsx:65 | `parseInt` is NaN iff no digit follows the blanks and the sign |
| VolumeWidget.ParseIntOf | skadi/plugins/components/volume.tsx:65 | after any blanks, an optional sign and a run of digits ended by a non-digit or the end, `parseInt` is the digits' value, negated after a '-' |
| VolumeWidget.Cap | skadi/plugins/components/volume.tsx:65 | `Math.min(x, 100)` is at most 100, is `x` or 100, and keeps NaN |
| VolumeWidget.StartupOfPrinted | skadi/plugins/components/volume.tsx:64-65 | a printed number and a newline start the widget at that number capped at 100 |
| VolumeWidget.StartupWithoutDigits | skadi/plugins/components/volume.tsx:64-65 | text starting with 'n' leaves the level NaN |
| VolumeWidget.IconMonotone | skadi/plugins/components/volume.tsx:86-92 | a louder level never shows a quieter icon |
| VolumeWidget.IconFor | skadi/plugins/components/volume.tsx:86-92 | with the thresholds of lines 9-10, the high icon exactly from 70 on, the medium icon exactly from 30 up to 70, and the low icon below 30 and for NaN |
| VolumeWidget.Volume.constructor | skadi/plugins/components/volume.tsx:13-15 | starts at 0 with no timer and no last send |
| VolumeWidget.Volume.ThrottledVolumeChange | skadi/plugins/components/volume.tsx:18-26 | any pending timer is replaced by one due 200 ms later for the new value |
| VolumeWidget.Volume.SliderChange | skadi/plugins/components/volume.tsx:99-102 | the level is shown at once, then the change is coalesced |
| VolumeWidget.Volume.ClockTick | skadi/plugins/components/volume.tsx:26-40 | a due timer fires: it sends iff 200 ms passed since the last send, records the send time, and otherwise drops the value; nothing is queued |
| VolumeWidget.Volume.Listen | skadi/plugins/components/volume.tsx:45-51 | a Volume frame overwrites the level; other frames change nothing |
| VolumeWidget.Volume.FetchVolume | skadi/plugins/components/volume.tsx:53-73 | a non-empty answer sets the startup level; a failed or empty one changes nothing |
| VolumeWidget.Volume.Unmount | skadi/plugins/components/volume.tsx:76-82 | the cleanup clears the pending timer and nothing else |
| SysinfoWidget.TakeLast | skadi/plugins/components/sysinfo.tsx:166 | `slice(-n)` is the last `min(length, n)` elements |
| SysinfoWidget.SysinfoFrameEffect | skadi/plugins/components/sysinfo.tsx:159-166 | a Sysinfo frame replaces the metrics wholesale and appends the point {now, networkTx, networkRx} as the newest; the length becomes min(old + 1, 30); the oldest point is evicted first and the rest keep their order |
| SysinfoWidget.OtherFramesIgnored | skadi/plugins/components/sysinfo.tsx:158 | other frames change nothing |
| SysinfoWidget.StepKeepsHistory | skadi/plugins/components/sysinfo.tsx:160-166 | one frame keeps the history non-empty, at most 30 long and in time order |
| SysinfoWidget.FoldKeepsHistory | skadi/plugins/components/sysinfo.tsx:155-171 | over any run of frames on a clock that does not go back, the history has 1 to 30 points in time order |
| SysinfoWidget.FirstFrameDrawsChart | skadi/plugins/components/sysinfo.tsx:151-153 | at first nothing is rendered and there is one point, so no chart; the first Sysinfo frame brings both |
| SysinfoWidget.UnitMonotone | skadi/plugins/components/sysinfo.tsx:19-23 | B/s exactly below 1024, MB/s exactly from 1048576 on, KB/s in between; a larger rate never gets a smaller unit |
| SysinfoWidget.SysInfo.constructor | skadi/plugins/components/sysinfo.tsx:150-153 | no metrics and one zero point stamped with the mount time |
| SysinfoWidget.SysInfo.Listen | skadi/plugins/components/sysinfo.tsx:155-171 | the new state is `Apply` of the old one |
| ClockWidget.JsRem | skadi/plugins/components/clock.tsx:18 | JavaScript's `%`: `a` is the truncated quotient `Math.trunc(a / b)` times `b` plus the remainder, which has the sign of `a` and is smaller than `b` in magnitude |
| ClockWidget.Delay | skadi/plugins/components/clock.tsx:16-18 | `now + delay` is always a whole second; on a whole second (before the epoch too) the delay is exactly 1000; for `now >= 0` it is in [1, 1000] and reaches the next whole second; before the epoch a time that is not a whole second gets a delay strictly between 1000 and 2000 |
| ClockWidget.DelayBeforeEpoch | skadi/plugins/components/clock.tsx:18 | at -1500 ms the delay is 1500, skipping the boundary at -1000 |
| ClockWidget.NoDrift | skadi/plugins/components/clock.tsx:16-19 | while each tick is less than a second late, tick `k` falls in the `k`-th second after the start |
| ClockWidget.Clock.constructor | skadi/plugins/components/clock.tsx:22 | mounting shows `now` and arms one timer for the next whole second |
| ClockWidget.Clock.UpdateTime | skadi/plugins/components/clock.tsx:11-20 | shows `now` and arms exactly one timer, at `now + Delay(now)` |
| ClockWidget.Clock.Cleanup | skadi/plugins/components/clock.tsx:24-26 | cancels the armed timer |

## Behaviour of the code worth knowing

The model follows the code in each case below. Where the source states its own intent in a comment, the item compares the code with that comment.

- **Destroying the active workspace when it is the last one** (workspaces.tsx:65-75).
  - The comment at line 65 says the widget switches to the first available workspace.
  - When none remains, the guard at line 71 skips `setActive`, so active keeps the destroyed id.
  - A workspace created next is then not active (`WorkspacesWidget.DestroyLastThenCreate`).
  - Active therefore stays among the ids only along runs that never empty the set (`CreateDestroyRunConsistent`).
  - "First available" is the smallest remaining id (`Math.min`, line 72), not the first in set order.
- **Moved for a non-member** (workspaces.tsx:53-55). `Moved` sets active even to an id that is not in the set, and does not add the id.
- **Volume throttle** (volume.tsx:17-43). The comment at line 17 calls it a throttle that only executes the last call after a delay.
  - Each call clears the pending timer (lines 21-23) and arms a new one for 200 ms later (line 26).
  - So in a burst only the last value is sent (`BurstSendsLatest`, `SecondChangeReplacesFirst`).
  - The `>= 200` check at line 29 never drops a value when timers fire on time (`NeverDropped`). It matters only for a timer that fires early.
- **TrackInfo `length`** (payloads.ts:43). The frontend's `TrackInfo` declares a `length` field. The backend's `TrackInfo` (spotify.rs) has no such field and never sends it, so it is not part of `Payloads.TrackInfo`.
- **Startup volume** (volume.tsx:64-65). The startup query can print text with no digits. `parseInt` then yields NaN, which the widget stores and shows with the lowest icon. The model keeps NaN as a level.
- **Unsigned parsing.** Rust's unsigned parse accepts a leading '+', so "+7" reads as 7, both for workspace ids (hyprland.rs:73) and for volumes (volume.rs:60).
- **Sign of `%`** (clock.tsx:16-18). The comment says the next update is scheduled at exactly the next second boundary.
  - JavaScript's `%` keeps the sign of the dividend.
  - So before the epoch, a time that is not a whole second gets a delay of more than 1000 ms and skips the next boundary (`DelayBeforeEpoch`).
  - On a whole second the delay is 1000 ms everywhere.
- **Mismatched bodies.** A frame whose body does not match its opcode cannot come from the backend (`Bridge.*WellTyped`). The widgets would read such a body blindly; the model ignores it.

## Left out

- Process spawning, the Hyprland socket connection and standard input and output are left out.
  - The lines each loop reads, the output of each `pactl` query and the environment variables are parameters.
  - The frames a loop prints, or the callback calls for playerctl, are its result.
- The one-shot `get_current_track` and `get_property` queries in `spotify.rs`, and the `Request` frame `main` builds from them, are left out. They are process I/O.
- Concurrency is left out: the tokio tasks and `select!` in `main.rs`, and the order in which frames from different sources interleave. Only the `unwrap_or(Stopped)` rule of the Spotify callback is modelled (`Spotify.EventFor`).
- JSON is left out. serde_json and `JSON.parse` are replaced by the value mapping in `Bridge`; frames are datatypes, not text.
- `sysinfo.rs` and the float contents of the metrics are left out. `cpuUsage` is a `real` and the other metrics are integers.
- `toFixed`, `bytesTo`, the `MiniChart` geometry and the clock's locale formatting are left out. This is float and text presentation; only the choice of rate unit is modelled.
- JSX, layout, the slider, the progress bar, the workspace buttons' `hyprctl dispatch` and the player's previous/next buttons are left out. They are presentation or one-line commands with no logic; only the play/pause choice is modelled.
- React's batching and stale closures are left out. Each handler runs against the current state, and the two updates of the Destroyed branch run in sequence.
- The body of an Error or WindowChanged frame is `Untyped` on the frontend side, because no widget reads it.
- VolumeWidget.IsJsSpace: covers ASCII blanks, NBSP and BOM only, not every Unicode space separator that `trim` and `parseInt` skip.
- VolumeWidget.ParseInt: digit strings too long for an exact double are read exactly, not rounded.
- SysinfoWidget.FoldKeepsHistory: the order of timestamps is proved only for an arrival clock that does not go back. `Date.now()` can go back, and then the history is not in order.
