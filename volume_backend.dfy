/** PulseAudio volume reporting (skadi/backend/src/volume.rs): reading the
    percentage out of `pactl get-sink-volume` and the `pactl subscribe` loop
    that reports it on every sink change. */
module VolumeBackend {
  import opened Wrappers
  import opened Unsigned
  import P = Payload

  datatype VolumeEvent = VolumeEvent(volume: u32)

  /** `PayloadData::op` of `VolumeEvent`. */
  function Op(e: VolumeEvent): P.OpCode {
    P.VolumeEvent
  }

  /** `s.find(c)`: the first index holding `c`. */
  function FirstIndex(s: string, c: char): (r: Option<nat>)
    ensures r.None? <==> c !in s
    ensures r.Some? ==> r.value < |s| && s[r.value] == c && c !in s[..r.value]
  {
    if s == [] then None
    else if s[0] == c then Some(0)
    else
      match FirstIndex(s[1..], c)
      case None => None
      case Some(k) =>
        assert s[..k + 1] == [s[0]] + s[1..][..k];
        Some(k + 1)
  }

  /** `s.rfind(c)`: the last index holding `c`. */
  function LastIndex(s: string, c: char): (r: Option<nat>)
    ensures r.None? <==> c !in s
    ensures r.Some? ==> r.value < |s| && s[r.value] == c && c !in s[r.value + 1..]
  {
    if s == [] then None
    else if s[|s| - 1] == c then Some(|s| - 1)
    else
      match LastIndex(s[..|s| - 1], c)
      case None =>
        assert s == s[..|s| - 1] + [s[|s| - 1]];
        None
      case Some(k) =>
        assert s[k + 1..] == s[..|s| - 1][k + 1..] + [s[|s| - 1]];
        Some(k)
  }

  /** The first occurrence is the one with none before it. */
  lemma {:induction false} FirstIndexAt(s: string, c: char, k: nat)
    requires k < |s| && s[k] == c && c !in s[..k]
    ensures FirstIndex(s, c) == Some(k)
  {
    if k > 0 {
      assert s[0] == s[..k][0];
      assert s[1..][..k - 1] == s[..k][1..];
      FirstIndexAt(s[1..], c, k - 1);
    }
  }

  /** The last occurrence is the one with none after it. */
  lemma {:induction false} LastIndexAt(s: string, c: char, k: nat)
    requires k < |s| && s[k] == c && c !in s[k + 1..]
    ensures LastIndex(s, c) == Some(k)
  {
    if k < |s| - 1 {
      assert s[|s| - 1] == s[k + 1..][|s| - 1 - (k + 1)];
      assert s[..|s| - 1][k + 1..] == s[k + 1..][..|s| - 1 - (k + 1)];
      LastIndexAt(s[..|s| - 1], c, k);
    }
  }

  datatype VolumeError = NoPercent | NoSpace | NotANumber(text: string)

  /** The text-processing half of `get_current_volume`: take the text before
      the FIRST '%', then the text after the LAST ' ' in it, and parse that
      as a u32. */
  function ParseVolume(output: string): (r: Result<u32, VolumeError>)
    ensures '%' !in output ==> r == Err(NoPercent)
    ensures r.Ok? ==> '%' in output && ' ' in output
  {
    match FirstIndex(output, '%')
    case None => Err(NoPercent)
    case Some(percentPos) =>
      var beforePercent := output[..percentPos];
      match LastIndex(beforePercent, ' ')
      case None => Err(NoSpace)
      case Some(spacePos) =>
        var volumeStr := beforePercent[spacePos + 1..];
        match ParseU32(volumeStr)
        case Some(v) => Ok(v)
        case None => Err(NotANumber(volumeStr))
  }

  /** Exactly which text is parsed: whatever precedes the first '%', back to
      the last space before it, whatever follows the '%'. */
  lemma ParseVolumeOf(prefix: string, text: string, rest: string)
    requires '%' !in prefix && '%' !in text && ' ' !in text
    ensures ParseVolume(prefix + " " + text + "%" + rest) ==
      match ParseU32(text)
      case Some(v) => Ok(v)
      case None => Err(NotANumber(text))
  {
    var output := prefix + " " + text + "%" + rest;
    var p := |prefix| + 1 + |text|;
    assert output[..p] == prefix + " " + text;
    FirstIndexAt(output, '%', p);
    var before := output[..p];
    assert before[|prefix| + 1..] == text;
    LastIndexAt(before, ' ', |prefix|);
  }

  /** Output whose first '%' has no space before it is rejected. */
  lemma NoSpaceBeforePercent(head: string, rest: string)
    requires '%' !in head && ' ' !in head
    ensures ParseVolume(head + "%" + rest) == Err(NoSpace)
  {
    var output := head + "%" + rest;
    assert output[..|head|] == head;
    FirstIndexAt(output, '%', |head|);
  }

  /** A line as `pactl get-sink-volume @DEFAULT_SINK@` prints it. */
  const SAMPLE_PREFIX: string := "Volume: front-left: 65536 / "
  const SAMPLE: string := SAMPLE_PREFIX + " 100% / 0.00 dB"

  /** The sample in the source's comment reads as 100. */
  lemma SampleOutput()
    ensures ParseVolume(SAMPLE) == Ok(100)
  {
    assert '%' !in SAMPLE_PREFIX by {}
    assert SAMPLE_PREFIX + " " + "100" + "%" + " / 0.00 dB" == SAMPLE by {}
    assert ParseU32("100") == Some(100) by {
      assert "100"[..2] == "10" && "10"[..1] == "1" && "1"[..0] == "";
      assert Value("100") == 100;
    }
    ParseVolumeOf(SAMPLE_PREFIX, "100", " / 0.00 dB");
  }

  // ---------------------------------------------------------------------
  // The subscribe loop

  const SINK_CHANGE: string := "'change' on sink"

  /** `line.contains(pattern)`. */
  predicate Contains(s: string, pattern: string) {
    pattern <= s || (s != [] && Contains(s[1..], pattern))
  }

  /** A line holding the pattern anywhere contains it. */
  lemma {:induction false} ContainsInfix(before: string, pattern: string, after: string)
    ensures Contains(before + pattern + after, pattern)
  {
    var line := before + pattern + after;
    if before == [] {
      assert line == pattern + after;
      assert pattern <= line;
    } else {
      ContainsInfix(before[1..], pattern, after);
      assert line[1..] == before[1..] + pattern + after;
    }
  }

  /** The frame (if any) one subscribe line yields, given what the volume
      query run right after it prints. */
  function FrameOf(line: string, queryOutput: string): seq<P.Payload<VolumeEvent>> {
    if Contains(line, SINK_CHANGE) then
      match ParseVolume(queryOutput)
      case Ok(v) => [P.New(VolumeEvent(v), Op(VolumeEvent(v)))]
      case Err(_) => []
    else []
  }

  /** The frames printed for a sequence of subscribe lines, each paired with
      the output the volume query would give at that moment. */
  function Frames(events: seq<(string, string)>): seq<P.Payload<VolumeEvent>> {
    if events == [] then []
    else Frames(events[..|events| - 1]) + FrameOf(events[|events| - 1].0, events[|events| - 1].1)
  }

  /** `monitor_volume_changes`: only lines mentioning a sink change trigger
      a volume query; a query that cannot be parsed prints nothing. */
  method MonitorVolumeChanges(events: seq<(string, string)>) returns (out: seq<P.Payload<VolumeEvent>>)
    ensures out == Frames(events)
  {
    out := [];
    var i := 0;
    while i < |events|
      invariant 0 <= i <= |events|
      invariant out == Frames(events[..i])
    {
      var (line, queryOutput) := events[i];
      if Contains(line, SINK_CHANGE) {
        var volume := ParseVolume(queryOutput);
        if volume.Ok? {
          var event := VolumeEvent(volume.value);
          out := out + [P.New(event, P.VolumeEvent)];
        }
      }
      assert events[..i + 1][..i] == events[..i];
      i := i + 1;
    }
    assert events[..|events|] == events;
  }

  /** Every frame carries opcode 5 (VolumeEvent), and there is at most one
      per sink-change line. */
  lemma {:induction false} FramesShape(events: seq<(string, string)>)
    ensures |Frames(events)| <= |events|
    ensures forall k :: 0 <= k < |Frames(events)| ==> Frames(events)[k].op == 5
  {
    if events != [] {
      FramesShape(events[..|events| - 1]);
    }
  }

  /** A line that does not mention a sink change is ignored, whatever the
      volume is at that moment. */
  lemma {:induction false} OtherLinesIgnored(events: seq<(string, string)>, line: string, queryOutput: string)
    requires !Contains(line, SINK_CHANGE)
    ensures Frames(events + [(line, queryOutput)]) == Frames(events)
  {
    var all := events + [(line, queryOutput)];
    assert all[..|all| - 1] == events;
    assert FrameOf(line, queryOutput) == [];
  }
}
