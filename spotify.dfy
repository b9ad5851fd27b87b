/** playerctl's metadata stream (skadi/backend/src/spotify.rs): the
    '|'-separated `-f` template, its parser, the event-kind names, and the
    `--follow` read loop. */
module Spotify {
  import opened Wrappers
  import opened Unsigned
  import P = Payload

  datatype TrackInfo = TrackInfo(
    title: Option<string>,
    artist: Option<string>,
    album: Option<string>,
    status: string,
    position: Option<u64>,
    duration: Option<u64>,
    volume: Option<string>,
    artworkUrl: Option<string>)

  datatype SpotifyEventKind = Request | Playing | Paused | Stopped

  datatype SpotifyEvent = SpotifyEvent(kind: SpotifyEventKind, trackInfo: TrackInfo)

  /** `PayloadData::op` of `SpotifyEvent`. */
  function Op(e: SpotifyEvent): P.OpCode {
    P.SpotifyEvent
  }

  // ---------------------------------------------------------------------
  // Event kinds

  /** The lower-case name `try_from` accepts for each kind. */
  function KindName(k: SpotifyEventKind): string {
    match k
    case Request => "request"
    case Playing => "playing"
    case Paused => "paused"
    case Stopped => "stopped"
  }

  /** `SpotifyEventKind::try_from(&str)`: case-sensitive, four names only. */
  function KindFromStr(value: string): (r: Result<SpotifyEventKind, string>)
    ensures r.Ok? <==> value == "request" || value == "playing" || value == "paused" || value == "stopped"
    ensures r.Ok? ==> KindName(r.value) == value
    ensures r.Err? ==> r.error == "Unknown Spotify event kind: " + value
  {
    if value == "request" then Ok(Request)
    else if value == "playing" then Ok(Playing)
    else if value == "paused" then Ok(Paused)
    else if value == "stopped" then Ok(Stopped)
    else Err("Unknown Spotify event kind: " + value)
  }

  /** Every kind's name is read back as that kind. */
  lemma KindNameRoundTrip(k: SpotifyEventKind)
    ensures KindFromStr(KindName(k)) == Ok(k)
  {
  }

  // ---------------------------------------------------------------------
  // Splitting on '|'

  /** `line.split('|')`: the pieces between bars, empty ones included; a line
      with n bars has n + 1 pieces. */
  function SplitBar(s: string): (parts: seq<string>)
    ensures |parts| >= 1
    ensures forall k :: 0 <= k < |parts| ==> '|' !in parts[k]
  {
    if s == [] then [""]
    else
      var rest := SplitBar(s[1..]);
      if s[0] == '|' then [""] + rest
      else [[s[0]] + rest[0]] + rest[1..]
  }

  /** The pieces glued back with '|' between them. */
  function JoinBar(parts: seq<string>): string
    requires |parts| >= 1
  {
    if |parts| == 1 then parts[0] else parts[0] + "|" + JoinBar(parts[1..])
  }

  /** Splitting at a bar: the pieces of the two sides, side by side. */
  lemma {:induction false} SplitBarAppend(a: string, b: string)
    requires '|' !in a
    ensures SplitBar(a + "|" + b) == [a] + SplitBar(b)
    decreases |a|
  {
    if a == [] {
      assert a + "|" + b == "|" + b;
      assert ("|" + b)[1..] == b;
    } else {
      var s := a + "|" + b;
      assert s[0] == a[0] && s[1..] == a[1..] + "|" + b;
      SplitBarAppend(a[1..], b);
      assert [a[0]] + a[1..] == a;
    }
  }

  /** A piece without bars is its own split. */
  lemma {:induction false} SplitBarPlain(a: string)
    requires '|' !in a
    ensures SplitBar(a) == [a]
    decreases |a|
  {
    if a != [] {
      SplitBarPlain(a[1..]);
      assert [a[0]] + a[1..] == a;
    }
  }

  /** Splitting a join gives back the pieces, when none holds a bar. */
  lemma {:induction false} SplitJoin(parts: seq<string>)
    requires |parts| >= 1
    requires forall k :: 0 <= k < |parts| ==> '|' !in parts[k]
    ensures SplitBar(JoinBar(parts)) == parts
    decreases |parts|
  {
    if |parts| == 1 {
      SplitBarPlain(parts[0]);
    } else {
      SplitJoin(parts[1..]);
      SplitBarAppend(parts[0], JoinBar(parts[1..]));
      assert [parts[0]] + parts[1..] == parts;
    }
  }

  /** Joining a split gives back the line. */
  lemma {:induction false} JoinSplit(s: string)
    ensures JoinBar(SplitBar(s)) == s
    decreases |s|
  {
    if s != [] {
      JoinSplit(s[1..]);
      var rest := SplitBar(s[1..]);
      if s[0] == '|' {
        assert ([""] + rest)[1..] == rest;
        assert JoinBar([""] + rest) == "" + "|" + JoinBar(rest);
        assert s == [s[0]] + s[1..];
      } else {
        var parts := [[s[0]] + rest[0]] + rest[1..];
        assert parts[1..] == rest[1..];
        if |rest| == 1 {
          assert JoinBar(parts) == [s[0]] + rest[0];
        } else {
          assert JoinBar(parts) == [s[0]] + rest[0] + "|" + JoinBar(rest[1..]);
        }
        assert s == [s[0]] + s[1..];
      }
    }
  }

  // ---------------------------------------------------------------------
  // The `-f` template and its parser

  /** How playerctl prints an absent text field: as nothing. */
  function Text(field: Option<string>): string {
    match field
    case None => ""
    case Some(s) => s
  }

  /** How playerctl prints an absent or present number. */
  function Number(field: Option<u64>): string {
    match field
    case None => ""
    case Some(n) => Format(n)
  }

  /** The fields of the template
      `{{status}}|{{title}}|{{artist}}|{{album}}|{{position}}|{{mpris:length}}|{{volume}}|{{mpris:artUrl}}`
      in order. */
  function Fields(t: TrackInfo): seq<string> {
    [t.status, Text(t.title), Text(t.artist), Text(t.album),
     Number(t.position), Number(t.duration), Text(t.volume), Text(t.artworkUrl)]
  }

  /** One line of `playerctl -f <template> metadata --follow` for a track. */
  function Render(t: TrackInfo): string {
    JoinBar(Fields(t))
  }

  datatype ParseError = InvalidFormat | InvalidNumber(text: string)

  /** An optional text field: empty means absent, otherwise kept verbatim. */
  function OptionalText(field: string): (r: Option<string>)
    ensures r.None? <==> field == ""
    ensures r.Some? ==> r.value == field
  {
    if field == "" then None else Some(field)
  }

  /** An optional number field: empty means absent; otherwise it must parse
      as a u64 or the whole line is rejected. */
  function OptionalNumber(field: string): (r: Result<Option<u64>, ParseError>)
    ensures field == "" ==> r == Ok(None)
    ensures field != "" ==> (r.Ok? <==> ParseU64(field).Some?)
    ensures r.Ok? && field != "" ==> r.value == ParseU64(field)
  {
    if field == "" then Ok(None)
    else match ParseU64(field)
      case Some(n) => Ok(Some(n))
      case None => Err(InvalidNumber(field))
  }

  /** `parse_playerctl_output`: at least 8 '|'-separated fields (any beyond
      the eighth are ignored); status verbatim; other text fields absent when
      empty; position and duration absent when empty and otherwise u64s, a
      field that is not one failing the whole line with its text. */
  function ParsePlayerctlOutput(line: string): (r: Result<TrackInfo, ParseError>)
    ensures r == Err(InvalidFormat) <==> |SplitBar(line)| < 8
    ensures var parts := SplitBar(line);
      r.Ok? <==> |parts| >= 8 && OptionalNumber(parts[4]).Ok? && OptionalNumber(parts[5]).Ok?
    ensures var parts := SplitBar(line);
      |parts| >= 8 && OptionalNumber(parts[4]).Err? ==> r == Err(InvalidNumber(parts[4]))
    ensures var parts := SplitBar(line);
      |parts| >= 8 && OptionalNumber(parts[4]).Ok? && OptionalNumber(parts[5]).Err? ==>
        r == Err(InvalidNumber(parts[5]))
    ensures var parts := SplitBar(line);
      r.Ok? ==>
        r.value.status == parts[0] &&
        r.value.title == OptionalText(parts[1]) &&
        r.value.artist == OptionalText(parts[2]) &&
        r.value.album == OptionalText(parts[3]) &&
        r.value.position == OptionalNumber(parts[4]).value &&
        r.value.duration == OptionalNumber(parts[5]).value &&
        r.value.volume == OptionalText(parts[6]) &&
        r.value.artworkUrl == OptionalText(parts[7])
  {
    var parts := SplitBar(line);
    if |parts| >= 8 then
      match OptionalNumber(parts[4])
      case Err(e) => Err(e)
      case Ok(position) =>
        match OptionalNumber(parts[5])
        case Err(e) => Err(e)
        case Ok(duration) =>
          Ok(TrackInfo(
               title := OptionalText(parts[1]),
               artist := OptionalText(parts[2]),
               album := OptionalText(parts[3]),
               status := parts[0],
               position := position,
               duration := duration,
               volume := OptionalText(parts[6]),
               artworkUrl := OptionalText(parts[7])))
    else Err(InvalidFormat)
  }

  /** A text field the template can carry unambiguously. */
  predicate TextOk(field: Option<string>) {
    match field
    case None => true
    case Some(s) => s != "" && '|' !in s
  }

  /** A track the template can carry unambiguously: no bar in any text, and
      no present-but-empty text (it would read back as absent). */
  predicate WellFormed(t: TrackInfo) {
    '|' !in t.status && TextOk(t.title) && TextOk(t.artist) && TextOk(t.album)
    && TextOk(t.volume) && TextOk(t.artworkUrl)
  }

  /** No field of a well-formed track holds a bar: the numbers are
      digits only. */
  lemma FieldsBarFree(t: TrackInfo)
    requires WellFormed(t)
    ensures forall k :: 0 <= k < |Fields(t)| ==> '|' !in Fields(t)[k]
  {
    var fields := Fields(t);
    forall k | 0 <= k < |fields|
      ensures '|' !in fields[k]
    {
      if k == 4 && t.position.Some? {
        assert AllDigits(Format(t.position.value));
      }
      if k == 5 && t.duration.Some? {
        assert AllDigits(Format(t.duration.value));
      }
    }
  }

  /** The round trip: parsing the template's rendering of a well-formed
      track gives the track back. */
  lemma {:induction false} ParseRender(t: TrackInfo)
    requires WellFormed(t)
    ensures ParsePlayerctlOutput(Render(t)) == Ok(t)
  {
    var fields := Fields(t);
    FieldsBarFree(t);
    SplitJoin(fields);
    var parts := SplitBar(Render(t));
    assert parts == fields;
    if t.position.Some? {
      ParseFormat(t.position.value, U64_LIMIT);
    }
    if t.duration.Some? {
      ParseFormat(t.duration.value, U64_LIMIT);
    }
    assert OptionalNumber(parts[4]) == Ok(t.position);
    assert OptionalNumber(parts[5]) == Ok(t.duration);
    assert OptionalText(parts[1]) == t.title;
    assert OptionalText(parts[2]) == t.artist;
    assert OptionalText(parts[3]) == t.album;
    assert OptionalText(parts[6]) == t.volume;
    assert OptionalText(parts[7]) == t.artworkUrl;
  }

  /** Everything the parser accepts is well formed, so it renders back
      to a line that parses to the same track. */
  lemma ParsedIsWellFormed(line: string)
    requires ParsePlayerctlOutput(line).Ok?
    ensures WellFormed(ParsePlayerctlOutput(line).value)
  {
  }

  /** Anything after the eighth field is ignored. */
  lemma ParseIgnoresExtraFields(line: string, extra: string)
    requires |SplitBar(line)| >= 8
    ensures ParsePlayerctlOutput(line + "|" + extra) == ParsePlayerctlOutput(line)
  {
    var parts := SplitBar(line);
    JoinSplit(line);
    var longer := parts + SplitBar(extra);
    forall k | 0 <= k < |longer|
      ensures '|' !in longer[k]
    {
    }
    JoinAppend(parts, SplitBar(extra));
    JoinSplit(extra);
    SplitJoin(longer);
    assert SplitBar(line + "|" + extra)[..8] == parts[..8];
  }

  /** Joining two lists of pieces puts one bar between their joins. */
  lemma {:induction false} JoinAppend(a: seq<string>, b: seq<string>)
    requires |a| >= 1 && |b| >= 1
    ensures JoinBar(a + b) == JoinBar(a) + "|" + JoinBar(b)
    decreases |a|
  {
    if |a| == 1 {
      assert (a + b)[1..] == b;
    } else {
      assert (a + b)[1..] == a[1..] + b;
      JoinAppend(a[1..], b);
    }
  }

  // ---------------------------------------------------------------------
  // The --follow loop

  /** The status-to-event-name match in `listen_for_changes`. */
  function StatusEventName(status: string): (name: string)
    ensures name == "playing" || name == "paused" || name == "stopped" || name == "unknown"
  {
    if status == "Playing" then "playing"
    else if status == "Paused" then "paused"
    else if status == "Stopped" then "stopped"
    else "unknown"
  }

  /** The callback the backend's `main` hands to the listener: an unknown
      event name becomes `Stopped`. */
  function EventFor(name: string, info: TrackInfo): SpotifyEvent {
    SpotifyEvent(KindFromStr(name).GetOr(Stopped), info)
  }

  /** A track's status decides the event kind: Playing and Paused map to
      themselves, every other status (including "Stopped" and unknown or
      differently-cased ones) to Stopped; the listener never emits Request. */
  lemma StatusDecidesKind(status: string, info: TrackInfo)
    ensures EventFor(StatusEventName(status), info).kind ==
      (if status == "Playing" then Playing else if status == "Paused" then Paused else Stopped)
    ensures EventFor(StatusEventName(status), info).kind != Request
    ensures EventFor(StatusEventName(status), info).trackInfo == info
  {
  }

  /** The callback calls (event name and track) one line causes. */
  function CallsOf(line: string): seq<(string, TrackInfo)> {
    match ParsePlayerctlOutput(line)
    case Err(_) => []
    case Ok(t) => [(StatusEventName(t.status), t)]
  }

  /** The callback calls for a sequence of lines, in order. */
  function Calls(lines: seq<string>): seq<(string, TrackInfo)> {
    if lines == [] then [] else Calls(lines[..|lines| - 1]) + CallsOf(lines[|lines| - 1])
  }

  /** `listen_for_changes`: for each line playerctl prints (until its output
      ends), parse it; call back with the event name and the track if it
      parsed, skip it otherwise. */
  method ListenForChanges(lines: seq<string>) returns (calls: seq<(string, TrackInfo)>)
    ensures calls == Calls(lines)
  {
    calls := [];
    var i := 0;
    while i < |lines|
      invariant 0 <= i <= |lines|
      invariant calls == Calls(lines[..i])
    {
      var parsed := ParsePlayerctlOutput(lines[i]);
      if parsed.Ok? {
        var trackInfo := parsed.value;
        var eventType :=
          if trackInfo.status == "Playing" then "playing"
          else if trackInfo.status == "Paused" then "paused"
          else if trackInfo.status == "Stopped" then "stopped"
          else "unknown";
        calls := calls + [(eventType, trackInfo)];
      }
      assert lines[..i + 1][..i] == lines[..i];
      i := i + 1;
    }
    assert lines[..|lines|] == lines;
  }

  /** Calls for consecutive chunks of output are the chunks' calls in order. */
  lemma {:induction false} CallsAppend(a: seq<string>, b: seq<string>)
    ensures Calls(a + b) == Calls(a) + Calls(b)
    decreases |b|
  {
    if b == [] {
      assert a + b == a;
    } else {
      var b' := b[..|b| - 1];
      calc {
        Calls(a + b);
        Calls((a + b)[..|a + b| - 1]) + CallsOf((a + b)[|a + b| - 1]);
        { assert (a + b)[..|a + b| - 1] == a + b'; assert (a + b)[|a + b| - 1] == b[|b| - 1]; }
        Calls(a + b') + CallsOf(b[|b| - 1]);
        { CallsAppend(a, b'); }
        Calls(a) + Calls(b') + CallsOf(b[|b| - 1]);
      }
    }
  }

  /** One more line adds that line's calls at the end. */
  lemma CallsSnoc(lines: seq<string>, line: string)
    ensures Calls(lines + [line]) == Calls(lines) + CallsOf(line)
  {
    var all := lines + [line];
    assert all[..|all| - 1] == lines && all[|all| - 1] == line;
  }

  /** An unparseable line is skipped and the loop goes on with the next. */
  lemma {:induction false} UnparseableLineSkipped(before: seq<string>, line: string, after: seq<string>)
    requires ParsePlayerctlOutput(line).Err?
    ensures Calls(before + [line] + after) == Calls(before) + Calls(after)
  {
    CallsAppend(before + [line], after);
    CallsSnoc(before, line);
    assert CallsOf(line) == [];
    assert Calls(before + [line]) == Calls(before);
  }

  /** At most one call per line, each naming the event its track's status
      maps to. */
  lemma {:induction false} CallsShape(lines: seq<string>)
    ensures |Calls(lines)| <= |lines|
    ensures forall k :: 0 <= k < |Calls(lines)| ==>
      Calls(lines)[k].0 == StatusEventName(Calls(lines)[k].1.status)
  {
    if lines != [] {
      CallsShape(lines[..|lines| - 1]);
    }
  }
}
