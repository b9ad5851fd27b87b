/** The volume widget (skadi/plugins/components/volume.tsx): the shown
    level, the coalescer that turns slider moves into at most one `pactl`
    command per burst, the startup query and the icon tiers. Time is an
    explicit clock in milliseconds; the timer's firing is an event. */
module VolumeWidget {
  import opened Wrappers
  import U = Unsigned
  import opened Payloads

  /** A JavaScript number as this widget can hold it: a whole number, or
      NaN when the startup text has no digits. */
  datatype Level = Percent(v: int) | NaN

  // ---------------------------------------------------------------------
  // The coalescer

  /** The `setTimeout` delay. */
  const DELAY_MS: int := 200
  /** The smallest gap between two sends that the timer callback accepts. */
  const THROTTLE_MS: int := 200

  /** `volumeTimeoutRef`: no timer, or one due at `deadline` that will send
      `value`. */
  datatype Timer = Idle | Pending(deadline: int, value: int)

  /** `volumeTimeoutRef` and `lastVolumeChangeRef`. */
  datatype Coalescer = Coalescer(timer: Timer, lastSent: int)

  const START: Coalescer := Coalescer(Idle, 0)

  datatype Command = Command(script: string, args: seq<string>, resolves: bool)

  /** `${value}` for a whole number. */
  function FormatInt(v: int): (s: string)
    ensures v >= 0 ==> s == U.Format(v)
    ensures v < 0 ==> s == "-" + U.Format(-v)
  {
    if v < 0 then "-" + U.Format(-v) else U.Format(v)
  }

  /** The fire-and-forget command the timer callback sends. */
  function SetVolumeCommand(value: int): Command {
    Command("pactl", ["set-sink-volume", "@DEFAULT_SINK@", FormatInt(value) + "%"], false)
  }

  /** The value a command asks for is the one it was built from. */
  lemma SetVolumeCommandInjective(a: nat, b: nat)
    ensures SetVolumeCommand(a) == SetVolumeCommand(b) ==> a == b
  {
    if SetVolumeCommand(a) == SetVolumeCommand(b) {
      var x, y := FormatInt(a), FormatInt(b);
      assert (x + "%")[..|x|] == x && (y + "%")[..|y|] == y;
      assert |x + "%"| == |y + "%"|;
      U.FormatInjective(a, b);
    }
  }

  /** `throttledVolumeChange(value)` at time `now`: any pending timer is
      cleared and one new timer is armed. */
  function Change(c: Coalescer, value: int, now: int): Coalescer {
    Coalescer(Pending(now + DELAY_MS, value), c.lastSent)
  }

  datatype Outcome = NotDue | Sent(command: Command) | Dropped

  /** The clock reaching `now`: a due timer fires, and its callback sends
      when at least `THROTTLE_MS` passed since the last send; otherwise the
      value is dropped. Either way no timer is left. */
  function Tick(c: Coalescer, now: int): (Coalescer, Outcome) {
    match c.timer
    case Idle => (c, NotDue)
    case Pending(deadline, value) =>
      if now < deadline then (c, NotDue)
      else if now - c.lastSent >= THROTTLE_MS then (Coalescer(Idle, now), Sent(SetVolumeCommand(value)))
      else (Coalescer(Idle, c.lastSent), Dropped)
  }

  /** The unmount cleanup clears the pending timer. */
  function Cleared(c: Coalescer): Coalescer {
    c.(timer := Idle)
  }

  /** What the coalescer is told, with the time it happens. */
  datatype Input = ChangeAt(value: int, at: int) | FireAt(at: int)

  /** The state and the timer outcomes after a run of inputs. */
  function Run(c: Coalescer, inputs: seq<Input>): (Coalescer, seq<Outcome>) {
    if inputs == [] then (c, [])
    else
      var (d, outs) := Run(c, inputs[..|inputs| - 1]);
      match inputs[|inputs| - 1]
      case ChangeAt(value, at) => (Change(d, value, at), outs)
      case FireAt(at) =>
        var (e, o) := Tick(d, at);
        (e, outs + [o])
  }

  /** A pending timer is due no sooner than `THROTTLE_MS` after the last
      send. */
  predicate Spaced(c: Coalescer) {
    c.timer.Pending? ==> c.lastSent + THROTTLE_MS <= c.timer.deadline
  }

  /** A timer never fires while a newer call is pending, only the latest call
      is ever armed, and it fires a full `DELAY_MS` after that call; so on
      a clock that does not go back, the throttle check never drops a
      value. */
  lemma {:induction false} NeverDropped(c: Coalescer, inputs: seq<Input>)
    requires Spaced(c)
    requires forall k :: 0 <= k < |inputs| ==> c.lastSent <= inputs[k].at
    requires forall j, k :: 0 <= j < k < |inputs| ==> inputs[j].at <= inputs[k].at
    ensures Dropped !in Run(c, inputs).1
    ensures Spaced(Run(c, inputs).0)
    ensures Run(c, inputs).0.lastSent == c.lastSent ||
      exists k :: 0 <= k < |inputs| && Run(c, inputs).0.lastSent == inputs[k].at
  {
    if inputs != [] {
      var init := inputs[..|inputs| - 1];
      var last := inputs[|inputs| - 1];
      NeverDropped(c, init);
      var (d, outs) := Run(c, init);
      assert d.lastSent <= last.at;
      match last
      case ChangeAt(value, at) =>
        if d.lastSent != c.lastSent {
          var k :| 0 <= k < |init| && d.lastSent == init[k].at;
          assert d.lastSent == inputs[k].at;
        }
      case FireAt(at) =>
        var (e, o) := Tick(d, at);
        assert o != Dropped;
        if e.lastSent == at {
          assert e.lastSent == inputs[|inputs| - 1].at;
        } else if d.lastSent != c.lastSent {
          var k :| 0 <= k < |init| && d.lastSent == init[k].at;
          assert e.lastSent == inputs[k].at;
        }
    }
  }

  /** Values 10, 20 and 30 set 50 ms apart give one command, for 30. */
  lemma BurstSendsLatest()
    ensures Run(START, [ChangeAt(10, 1000), ChangeAt(20, 1050), ChangeAt(30, 1100), FireAt(1300)]).1
      == [Sent(SetVolumeCommand(30))]
  {
    var inputs := [ChangeAt(10, 1000), ChangeAt(20, 1050), ChangeAt(30, 1100), FireAt(1300)];
    assert inputs[..1] == [ChangeAt(10, 1000)] && inputs[..1][..0] == [];
    assert Run(START, inputs[..1]) == (Coalescer(Pending(1200, 10), 0), []);
    assert inputs[..2] == [ChangeAt(10, 1000), ChangeAt(20, 1050)] && inputs[..2][..1] == inputs[..1];
    assert Run(START, inputs[..2]) == (Coalescer(Pending(1250, 20), 0), []);
    assert inputs[..3][..2] == inputs[..2];
    assert Run(START, inputs[..3]) == (Coalescer(Pending(1300, 30), 0), []);
  }

  /** A change 150 ms after another does not drop the second value: it
      cancels the first timer, and the second value is the one sent. */
  lemma SecondChangeReplacesFirst(t: int)
    requires t >= THROTTLE_MS
    ensures Run(START, [ChangeAt(10, t), ChangeAt(20, t + 150), FireAt(t + 350)]).1
      == [Sent(SetVolumeCommand(20))]
  {
    var inputs := [ChangeAt(10, t), ChangeAt(20, t + 150), FireAt(t + 350)];
    assert inputs[..1] == [ChangeAt(10, t)] && inputs[..1][..0] == [];
    assert Run(START, inputs[..1]) == (Coalescer(Pending(t + 200, 10), 0), []);
    assert inputs[..2][..1] == inputs[..1];
    assert Run(START, inputs[..2]) == (Coalescer(Pending(t + 350, 20), 0), []);
  }

  /** After unmounting, the clock sends nothing however far it runs. */
  lemma NothingSentAfterUnmount(c: Coalescer, now: int)
    ensures Tick(Cleared(c), now).1 == NotDue
  {
  }

  // ---------------------------------------------------------------------
  // Inbound frames

  /** The `useListen` handler: a Volume frame's level replaces the shown
      one; other frames, and Volume frames without a volume body, change
      nothing. */
  function ApplyFrame(shown: Level, p: Payload): Level {
    if p.op == Value(OpCode.Volume) && p.data.VolumeData? then Percent(p.data.volume.volume) else shown
  }

  // ---------------------------------------------------------------------
  // The startup query

  /** The white space `String.prototype.trim` and `parseInt` skip, as far
      as ASCII and the two common non-ASCII blanks go. */
  predicate IsJsSpace(c: char) {
    c == ' ' || c == '\t' || c == '\n' || c == '\r' || c == '\U{000B}' || c == '\U{000C}'
    || c == '\U{00A0}' || c == '\U{FEFF}'
  }

  function TrimStart(s: string): string {
    if s != [] && IsJsSpace(s[0]) then TrimStart(s[1..]) else s
  }

  function TrimEnd(s: string): string {
    if s != [] && IsJsSpace(s[|s| - 1]) then TrimEnd(s[..|s| - 1]) else s
  }

  /** `trimStart` removes exactly the leading blanks: what it keeps is a
      suffix that does not start with a blank, and all it drops are blanks. */
  lemma {:induction false} TrimStartSpec(s: string)
    ensures var r := TrimStart(s);
      |r| <= |s| && r == s[|s| - |r|..] && (r != [] ==> !IsJsSpace(r[0])) &&
      forall i :: 0 <= i < |s| - |r| ==> IsJsSpace(s[i])
  {
    if s != [] && IsJsSpace(s[0]) {
      TrimStartSpec(s[1..]);
      var r := TrimStart(s);
      assert s[1..][|s| - 1 - |r|..] == s[|s| - |r|..];
      forall i | 0 <= i < |s| - |r|
        ensures IsJsSpace(s[i])
      {
        if i > 0 {
          assert s[i] == s[1..][i - 1];
        }
      }
    }
  }

  /** `trimEnd` removes exactly the trailing blanks. */
  lemma {:induction false} TrimEndSpec(s: string)
    ensures var r := TrimEnd(s);
      |r| <= |s| && r == s[..|r|] && (r != [] ==> !IsJsSpace(r[|r| - 1])) &&
      forall i :: |r| <= i < |s| ==> IsJsSpace(s[i])
  {
    if s != [] && IsJsSpace(s[|s| - 1]) {
      TrimEndSpec(s[..|s| - 1]);
      var r := TrimEnd(s);
      assert s[..|s| - 1][..|r|] == s[..|r|];
      forall i | |r| <= i < |s|
        ensures IsJsSpace(s[i])
      {
        if i < |s| - 1 {
          assert s[i] == s[..|s| - 1][i];
        }
      }
    }
  }

  /** `s.trim()`. */
  function Trim(s: string): string {
    TrimEnd(TrimStart(s))
  }

  /** The longest run of digits at the start of `s`. */
  function DigitPrefix(s: string): (r: string)
    ensures r <= s && U.AllDigits(r)
    ensures |r| < |s| ==> !U.IsDigit(s[|r|])
  {
    if s != [] && U.IsDigit(s[0]) then
      var rest := DigitPrefix(s[1..]);
      assert s == [s[0]] + s[1..];
      [s[0]] + rest
    else []
  }

  /** `parseInt(s, 10)`: blanks, an optional sign, then as many digits as
      there are; NaN when there are none. */
  function ParseInt(s: string): (r: Level)
    ensures r.NaN? <==> DigitPrefix(Unsigned(TrimStart(s))) == []
  {
    var t := TrimStart(s);
    var digits := DigitPrefix(Unsigned(t));
    if digits == [] then NaN
    else if t[0] == '-' then Percent(0 - U.Value(digits) as int)
    else Percent(U.Value(digits))
  }

  /** The text after an optional sign. */
  function Unsigned(t: string): string {
    if t != [] && (t[0] == '-' || t[0] == '+') then t[1..] else t
  }

  /** `Math.min(level, 100)`; NaN stays NaN. */
  function Cap(l: Level): (r: Level)
    ensures l.NaN? <==> r.NaN?
    ensures r.Percent? ==> r.v <= 100 && r.v <= l.v && (r.v == l.v || r.v == 100)
  {
    match l
    case NaN => NaN
    case Percent(v) => if v < 100 then Percent(v) else Percent(100)
  }

  /** The level shown after startup, from the query's text. */
  function StartupLevel(result: string): Level {
    Cap(ParseInt(Trim(result)))
  }

  /** A printed number followed by a newline reads back capped at 100. */
  lemma StartupOfPrinted(n: nat)
    ensures StartupLevel(U.Format(n) + "\n") == Percent(if n < 100 then n else 100)
  {
    var f := U.Format(n);
    TrimLine(f);
    ParseDigits(f);
  }

  /** A line of digits trims to its digits. */
  lemma TrimLine(f: string)
    requires f != [] && U.AllDigits(f)
    ensures Trim(f + "\n") == f
  {
    var line := f + "\n";
    assert line[0] == f[0];
    assert !IsJsSpace(line[0]);
    assert TrimStart(line) == line;
    assert line[..|line| - 1] == f;
    assert !IsJsSpace(f[|f| - 1]);
    assert TrimEnd(line) == TrimEnd(f);
  }

  /** Digits with nothing around them parse to their value. */
  lemma ParseDigits(f: string)
    requires f != [] && U.AllDigits(f)
    ensures ParseInt(f) == Percent(U.Value(f))
  {
    assert !IsJsSpace(f[0]);
    assert TrimStart(f) == f;
    assert Unsigned(f) == f;
    DigitPrefixAll(f);
  }

  /** Blanks, an optional sign, digits, then anything that does not go on
      with a digit: `parseInt` reads exactly those digits, negated after a
      '-'. */
  lemma ParseIntOf(blanks: string, sign: string, digits: string, rest: string)
    requires forall i :: 0 <= i < |blanks| ==> IsJsSpace(blanks[i])
    requires sign == "" || sign == "-" || sign == "+"
    requires digits != [] && U.AllDigits(digits)
    requires rest == [] || !U.IsDigit(rest[0])
    ensures ParseInt(blanks + sign + digits + rest) ==
      Percent(if sign == "-" then 0 - U.Value(digits) as int else U.Value(digits))
  {
    var t := sign + digits + rest;
    SignedDigits(sign, digits, rest);
    Regroup(blanks, sign, digits, rest);
    TrimStartPast(blanks, t);
    ParseIntAfterBlanks(blanks + t, t, digits);
  }

  /** Concatenation regrouped: the blanks, then the rest as one piece. */
  lemma Regroup(a: string, b: string, c: string, d: string)
    ensures a + b + c + d == a + (b + c + d)
  {
  }

  /** What follows the blanks: it starts with neither a blank nor a '-'
      unless the sign is one, and its digit run after the sign is `digits`. */
  lemma SignedDigits(sign: string, digits: string, rest: string)
    requires sign == "" || sign == "-" || sign == "+"
    requires digits != [] && U.AllDigits(digits)
    requires rest == [] || !U.IsDigit(rest[0])
    ensures var t := sign + digits + rest;
      t != [] && !IsJsSpace(t[0]) && (t[0] == '-' <==> sign == "-") &&
      DigitPrefix(Unsigned(t)) == digits
  {
    var t := sign + digits + rest;
    assert U.IsDigit(digits[0]);
    if sign == "" {
      assert t[0] == digits[0];
      assert t == digits + rest;
    } else {
      assert t[0] == sign[0];
      assert t[1..] == digits + rest;
    }
    DigitPrefixStops(digits, rest);
  }

  /** `parseInt` once the blanks are gone. */
  lemma ParseIntAfterBlanks(s: string, t: string, digits: string)
    requires TrimStart(s) == t && DigitPrefix(Unsigned(t)) == digits && digits != []
    ensures ParseInt(s) == Percent(if t[0] == '-' then 0 - U.Value(digits) as int else U.Value(digits))
  {
  }

  /** Blanks in front of text that does not start with one are trimmed off. */
  lemma {:induction false} TrimStartPast(blanks: string, t: string)
    requires forall i :: 0 <= i < |blanks| ==> IsJsSpace(blanks[i])
    requires t == [] || !IsJsSpace(t[0])
    ensures TrimStart(blanks + t) == t
  {
    if blanks != [] {
      assert (blanks + t)[1..] == blanks[1..] + t;
      TrimStartPast(blanks[1..], t);
    }
  }

  /** The run of digits ends where a non-digit (or the end) comes. */
  lemma {:induction false} DigitPrefixStops(digits: string, rest: string)
    requires U.AllDigits(digits)
    requires rest == [] || !U.IsDigit(rest[0])
    ensures DigitPrefix(digits + rest) == digits
  {
    if digits != [] {
      assert (digits + rest)[1..] == digits[1..] + rest;
      DigitPrefixStops(digits[1..], rest);
    }
  }

  /** A string of digits is its own digit prefix. */
  lemma {:induction false} DigitPrefixAll(s: string)
    requires U.AllDigits(s)
    ensures DigitPrefix(s) == s
  {
    if s != [] {
      DigitPrefixAll(s[1..]);
    }
  }

  /** Text with no digit after the blanks and sign leaves the level NaN. */
  lemma StartupWithoutDigits(result: string)
    requires result != [] && result[0] == 'n'
    ensures StartupLevel(result) == NaN
  {
    assert TrimStart(result) == result;
    TrimEndSpec(result);
    var t := Trim(result);
    assert t != [] by {
      assert !IsJsSpace(result[0]);
    }
    assert t[0] == 'n';
  }

  // ---------------------------------------------------------------------
  // The icon

  const HIGH_THRESHOLD: int := 70
  const MEDIUM_THRESHOLD: int := 30

  datatype Icon = Low | Medium | High

  /** The icon tier: high from 70 on, medium from 30 up to 70, low below
      30; NaN fails both comparisons and shows the low icon. */
  function IconFor(l: Level): (r: Icon)
    ensures r == High <==> l.Percent? && l.v >= 70
    ensures r == Medium <==> l.Percent? && 30 <= l.v < 70
    ensures r == Low <==> l.NaN? || l.v < 30
  {
    match l
    case NaN => Low
    case Percent(v) => if v >= HIGH_THRESHOLD then High else if v >= MEDIUM_THRESHOLD then Medium else Low
  }

  function Rank(i: Icon): nat {
    match i
    case Low => 0
    case Medium => 1
    case High => 2
  }

  /** A louder level never shows a quieter icon. */
  lemma IconMonotone(a: int, b: int)
    requires a <= b
    ensures Rank(IconFor(Percent(a))) <= Rank(IconFor(Percent(b)))
  {
  }

  // ---------------------------------------------------------------------
  // The component's state cells

  class Volume {
    var volume: Level
    var lastVolumeChange: int
    var timeout: Timer
    /** The commands handed to `exec` so far. */
    var sent: seq<Command>

    constructor ()
      ensures volume == Percent(0) && Coalescing() == START && sent == []
    {
      volume := Percent(0);
      lastVolumeChange := 0;
      timeout := Idle;
      sent := [];
    }

    function Coalescing(): Coalescer
      reads this
    {
      Coalescer(timeout, lastVolumeChange)
    }

    method ThrottledVolumeChange(value: int, now: int)
      modifies this
      ensures Coalescing() == Change(old(Coalescing()), value, now)
      ensures volume == old(volume) && sent == old(sent)
    {
      if timeout.Pending? {
        timeout := Idle;
      }
      timeout := Pending(now + DELAY_MS, value);
    }

    /** The slider's `onValueChange`: the level is shown at once, then the
        change is coalesced. */
    method SliderChange(value: int, now: int)
      modifies this
      ensures volume == Percent(value)
      ensures Coalescing() == Change(old(Coalescing()), value, now)
      ensures sent == old(sent)
    {
      volume := Percent(value);
      ThrottledVolumeChange(value, now);
    }

    /** The clock reaching `now`. */
    method ClockTick(now: int) returns (outcome: Outcome)
      modifies this
      ensures (Coalescing(), outcome) == Tick(old(Coalescing()), now)
      ensures sent == old(sent) + (if outcome.Sent? then [outcome.command] else [])
      ensures volume == old(volume)
    {
      outcome := NotDue;
      if timeout.Idle? || now < timeout.deadline {
        return;
      }
      var value := timeout.value;
      timeout := Idle;
      if now - lastVolumeChange >= THROTTLE_MS {
        lastVolumeChange := now;
        var command := SetVolumeCommand(value);
        sent := sent + [command];
        outcome := Sent(command);
      } else {
        outcome := Dropped;
      }
    }

    /** The `useListen` callback: a Volume frame overwrites the level. */
    method Listen(p: Payload)
      modifies this
      ensures volume == ApplyFrame(old(volume), p)
      ensures Coalescing() == old(Coalescing()) && sent == old(sent)
    {
      if p.op != Value(OpCode.Volume) || !p.data.VolumeData? {
        return;
      }
      volume := Percent(p.data.volume.volume);
    }

    /** `fetchVolume`: `None` when the query failed; an empty text is
        ignored like a failure. */
    method FetchVolume(result: Option<string>)
      modifies this
      ensures result.Some? && result.value != "" ==> volume == StartupLevel(result.value)
      ensures result.None? || result.value == "" ==> volume == old(volume)
      ensures Coalescing() == old(Coalescing()) && sent == old(sent)
    {
      if result.Some? && result.value != "" {
        volume := StartupLevel(result.value);
      }
    }

    /** The unmount cleanup. */
    method Unmount()
      modifies this
      ensures Coalescing() == Cleared(old(Coalescing()))
      ensures volume == old(volume) && sent == old(sent)
    {
      if timeout.Pending? {
        timeout := Idle;
      }
    }
  }
}
