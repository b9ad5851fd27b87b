/** The system-information widget (skadi/plugins/components/sysinfo.tsx):
    the latest metrics and a network history of at most 30 points, one per
    Sysinfo frame, and the unit chosen to print a byte rate. The time a
    frame arrives is a parameter. */
module SysinfoWidget {
  import opened Wrappers
  import opened Payloads

  datatype NetworkDataPoint = NetworkDataPoint(timestamp: int, up: int, down: int)

  /** The `-30` of `slice(-30)`. */
  const HISTORY_LIMIT: nat := 30

  /** `s.slice(-n)` for `n > 0`: the last `n` elements, or all of them. */
  function TakeLast<T>(s: seq<T>, n: nat): (r: seq<T>)
    requires n > 0
    ensures |r| == if |s| < n then |s| else n
    ensures r == s[|s| - |r|..]
  {
    if |s| <= n then s else s[|s| - n..]
  }

  /** The point a frame adds: the upload rate is `networkTx`, the download
      rate `networkRx`. */
  function PointOf(m: SysinfoPayload, now: int): NetworkDataPoint {
    NetworkDataPoint(now, m.networkTx, m.networkRx)
  }

  datatype State = State(metrics: Option<SysinfoPayload>, netHistory: seq<NetworkDataPoint>)

  /** No metrics yet, and one zero point stamped with the mount time. */
  function Initial(now: int): State {
    State(None, [NetworkDataPoint(now, 0, 0)])
  }

  /** The widget renders once there are metrics. */
  predicate Rendered(s: State) {
    s.metrics.Some?
  }

  /** The chart draws only with two points or more. */
  predicate ChartDrawn(s: State) {
    |s.netHistory| >= 2
  }

  /** The `useListen` handler, for a frame arriving at `now`. */
  function Apply(s: State, p: Payload, now: int): State {
    if p.op != Value(Sysinfo) then s
    else
      match p.data
      case SysinfoData(m) => State(Some(m), TakeLast(s.netHistory + [PointOf(m, now)], HISTORY_LIMIT))
      case _ => s
  }

  /** A Sysinfo frame replaces the metrics wholesale and adds its point as
      the newest; the history grows by one up to 30 and otherwise loses its
      oldest point, keeping the order of the rest. */
  lemma SysinfoFrameEffect(s: State, m: SysinfoPayload, now: int)
    ensures var r := Apply(s, Payload(Value(Sysinfo), SysinfoData(m)), now);
      r.metrics == Some(m) &&
      |r.netHistory| == (if |s.netHistory| + 1 < HISTORY_LIMIT then |s.netHistory| + 1 else HISTORY_LIMIT) &&
      r.netHistory[|r.netHistory| - 1] == PointOf(m, now) &&
      r.netHistory[..|r.netHistory| - 1] == s.netHistory[|s.netHistory| + 1 - |r.netHistory|..]
  {
    var all := s.netHistory + [PointOf(m, now)];
    var r := TakeLast(all, HISTORY_LIMIT);
    assert r[..|r| - 1] == all[|all| - |r|..|all| - 1];
    assert all[..|all| - 1] == s.netHistory;
  }

  /** Frames of other kinds change nothing. */
  lemma OtherFramesIgnored(s: State, p: Payload, now: int)
    requires p.op != Value(Sysinfo)
    ensures Apply(s, p, now) == s
  {
  }

  predicate Ordered(h: seq<NetworkDataPoint>) {
    forall i, j :: 0 <= i < j < |h| ==> h[i].timestamp <= h[j].timestamp
  }

  /** The state after a run of frames, each with its arrival time. */
  function Fold(s: State, frames: seq<(Payload, int)>): State {
    if frames == [] then s
    else Apply(Fold(s, frames[..|frames| - 1]), frames[|frames| - 1].0, frames[|frames| - 1].1)
  }

  /** A history that is non-empty, within the limit, in time order and
      no newer than `now`. */
  predicate HistoryOk(h: seq<NetworkDataPoint>, now: int) {
    1 <= |h| <= HISTORY_LIMIT && Ordered(h) && h[|h| - 1].timestamp <= now
  }

  /** A frame arriving at `now` keeps the history in shape. */
  lemma StepKeepsHistory(s: State, p: Payload, before: int, now: int)
    requires HistoryOk(s.netHistory, before) && before <= now
    ensures HistoryOk(Apply(s, p, now).netHistory, now)
  {
    var h := s.netHistory;
    if p.op == Value(Sysinfo) && p.data.SysinfoData? {
      var all := h + [PointOf(p.data.sysinfo, now)];
      assert Ordered(all) by {
        forall i, j | 0 <= i < j < |all|
          ensures all[i].timestamp <= all[j].timestamp
        {
          if j == |all| - 1 {
            assert all[i] == h[i] && h[i].timestamp <= h[|h| - 1].timestamp;
          }
        }
      }
      var r := TakeLast(all, HISTORY_LIMIT);
      assert forall i :: 0 <= i < |r| ==> r[i] == all[|all| - |r| + i];
    }
  }

  /** However many frames arrive, the history keeps between 1 and 30
      points; with a clock that does not go back they stay in time order
      and the newest is stamped no later than the last arrival. */
  lemma {:induction false} FoldKeepsHistory(mount: int, frames: seq<(Payload, int)>)
    requires forall k :: 0 <= k < |frames| ==> mount <= frames[k].1
    requires forall j, k :: 0 <= j < k < |frames| ==> frames[j].1 <= frames[k].1
    ensures HistoryOk(Fold(Initial(mount), frames).netHistory, if frames == [] then mount else frames[|frames| - 1].1)
  {
    if frames != [] {
      var init := frames[..|frames| - 1];
      FoldKeepsHistory(mount, init);
      var before := if init == [] then mount else init[|init| - 1].1;
      assert before <= frames[|frames| - 1].1 by {
        if init != [] {
          assert init[|init| - 1] == frames[|init| - 1];
        }
      }
      StepKeepsHistory(Fold(Initial(mount), init), frames[|frames| - 1].0, before, frames[|frames| - 1].1);
    }
  }

  /** Before any frame nothing is shown and there is no chart; the first
      Sysinfo frame brings both. */
  lemma FirstFrameDrawsChart(mount: int, m: SysinfoPayload, now: int)
    ensures !Rendered(Initial(mount)) && !ChartDrawn(Initial(mount))
    ensures var r := Apply(Initial(mount), Payload(Value(Sysinfo), SysinfoData(m)), now);
      Rendered(r) && ChartDrawn(r)
  {
  }

  // ---------------------------------------------------------------------
  // formatNetworkBytes

  datatype RateUnit = BytesPerSecond | KilobytesPerSecond | MegabytesPerSecond

  const KIB: int := 1024
  const MIB: int := 1024 * 1024

  /** The unit `formatNetworkBytes` prints a rate in. */
  function UnitOf(bytes: int): RateUnit {
    if bytes < KIB then BytesPerSecond
    else if bytes < MIB then KilobytesPerSecond
    else MegabytesPerSecond
  }

  function UnitSuffix(u: RateUnit): string {
    match u
    case BytesPerSecond => " B/s"
    case KilobytesPerSecond => " KB/s"
    case MegabytesPerSecond => " MB/s"
  }

  function UnitRank(u: RateUnit): nat {
    match u
    case BytesPerSecond => 0
    case KilobytesPerSecond => 1
    case MegabytesPerSecond => 2
  }

  /** A higher rate is never printed in a smaller unit; bytes are used
      exactly below 1 KiB/s and megabytes exactly from 1 MiB/s on, and
      below 1 MiB/s the number printed (the rate over the unit's size)
      stays under 1024. */
  lemma UnitMonotone(a: int, b: int)
    requires a <= b
    ensures UnitRank(UnitOf(a)) <= UnitRank(UnitOf(b))
    ensures UnitSuffix(UnitOf(a)) == " B/s" <==> a < KIB
    ensures UnitSuffix(UnitOf(a)) == " MB/s" <==> a >= MIB
    ensures UnitOf(a) == KilobytesPerSecond ==> a / KIB < KIB
    ensures UnitOf(a) == BytesPerSecond ==> a < KIB
  {
  }

  // ---------------------------------------------------------------------
  // The component's state cells

  class SysInfo {
    var metrics: Option<SysinfoPayload>
    var netHistory: seq<NetworkDataPoint>

    constructor (now: int)
      ensures Snapshot() == Initial(now)
    {
      metrics := None;
      netHistory := [NetworkDataPoint(now, 0, 0)];
    }

    function Snapshot(): State
      reads this
    {
      State(metrics, netHistory)
    }

    /** The `useListen` callback for a frame arriving at `now`. */
    method Listen(p: Payload, now: int)
      modifies this
      ensures Snapshot() == Apply(old(Snapshot()), p, now)
    {
      if p.op != Value(Sysinfo) || !p.data.SysinfoData? {
        return;
      }
      var m := p.data.sysinfo;
      metrics := Some(m);
      var newPoint := NetworkDataPoint(now, m.networkTx, m.networkRx);
      var updatedHistory := netHistory + [newPoint];
      if |updatedHistory| > HISTORY_LIMIT {
        updatedHistory := updatedHistory[|updatedHistory| - HISTORY_LIMIT..];
      }
      netHistory := updatedHistory;
    }
  }
}
