/** The media widget (skadi/plugins/components/player.tsx): the current
    track, the cover image URL and whether Spotify is playing, updated by
    every Spotify frame, and the play/pause button's command. */
module PlayerWidget {
  import opened Wrappers
  import opened Payloads

  datatype State = State(track: Option<TrackInfo>, coverUrl: Option<string>, playing: bool)

  /** `useState(null)`, `useState(null)`, `useState(false)`. */
  const INITIAL: State := State(None, None, false)

  /** The widget renders only while there is a track. */
  predicate Rendered(s: State) {
    s.track.Some?
  }

  /** `!coverUrl`: null or the empty string. */
  predicate Falsy(cover: Option<string>) {
    cover.None? || cover.value == ""
  }

  /** The guard of the cover update. A missing track info makes
      `trackInfo?.artworkUrl` undefined, which is `!==` every cover. */
  predicate CoverNeedsUpdate(cover: Option<string>, info: Option<TrackInfo>) {
    Falsy(cover) || info.None? || info.value.artworkUrl != cover
  }

  /** `trackInfo?.artworkUrl || null`. */
  function NewCover(info: Option<TrackInfo>): (r: Option<string>)
    ensures r.Some? <==> info.Some? && info.value.artworkUrl.Some? && info.value.artworkUrl.value != ""
    ensures r.Some? ==> r == info.value.artworkUrl
  {
    if info.Some? && info.value.artworkUrl.Some? && info.value.artworkUrl.value != "" then
      info.value.artworkUrl
    else None
  }

  /** The state after a frame and whether the cover setter was called. */
  datatype Step = Step(state: State, coverSet: bool)

  function ApplyEvent(s: State, e: SpotifyEvent): Step {
    match e.kind
    case Playing =>
      var coverSet := CoverNeedsUpdate(s.coverUrl, e.trackInfo);
      var cover := if coverSet then NewCover(e.trackInfo) else s.coverUrl;
      Step(State(e.trackInfo, cover, true), coverSet)
    case Paused => Step(State(s.track, s.coverUrl, false), false)
    case Stopped => Step(State(s.track, s.coverUrl, false), false)
    case Request => Step(State(e.trackInfo, s.coverUrl, s.playing), false)
  }

  /** The `useListen` handler: frames other than Spotify frames, and Spotify
      frames whose body is not a Spotify event, change nothing. */
  function Apply(s: State, p: Payload): Step {
    if p.op != Value(Spotify) then Step(s, false)
    else
      match p.data
      case SpotifyData(e) => ApplyEvent(s, e)
      case _ => Step(s, false)
  }

  /** Frames of other kinds leave the player as it was and run no setter. */
  lemma OtherFramesIgnored(s: State, p: Payload)
    requires p.op != Value(Spotify)
    ensures Apply(s, p) == Step(s, false)
  {
  }

  /** After a Playing event the cover is exactly the event's artwork URL (or
      none), whether or not the setter ran, and playing is on. */
  lemma PlayingShowsCover(s: State, info: Option<TrackInfo>)
    ensures var r := ApplyEvent(s, SpotifyEvent(Playing, info)).state;
      r.coverUrl == NewCover(info) && r.track == info && r.playing
  {
    if !CoverNeedsUpdate(s.coverUrl, info) {
      assert s.coverUrl.Some? && info.Some? && info.value.artworkUrl == s.coverUrl;
    }
  }

  /** Paused and Stopped switch playing off and keep the track and cover;
      Request replaces the track and keeps the rest. */
  lemma OtherEventsKeepCover(s: State, info: Option<TrackInfo>)
    ensures ApplyEvent(s, SpotifyEvent(Paused, info)) == Step(s.(playing := false), false)
    ensures ApplyEvent(s, SpotifyEvent(Stopped, info)) == Step(s.(playing := false), false)
    ensures ApplyEvent(s, SpotifyEvent(Request, info)) == Step(s.(track := info), false)
  {
  }

  /** The cover is never the empty string. */
  lemma CoverNeverEmpty(s: State, p: Payload)
    requires s.coverUrl != Some("")
    ensures Apply(s, p).state.coverUrl != Some("")
  {
  }

  /** A second Playing event with the same non-empty artwork does not call
      the cover setter; one with different artwork does. */
  lemma {:induction false} RepeatedCoverNotRewritten(s: State, info: TrackInfo, other: TrackInfo)
    requires info.artworkUrl.Some? && info.artworkUrl.value != ""
    requires other.artworkUrl != info.artworkUrl
    ensures var first := ApplyEvent(s, SpotifyEvent(Playing, Some(info))).state;
      !ApplyEvent(first, SpotifyEvent(Playing, Some(info))).coverSet &&
      ApplyEvent(first, SpotifyEvent(Playing, Some(other))).coverSet
  {
    PlayingShowsCover(s, Some(info));
  }

  /** `playerctl --player=spotify pause` while playing, `play` otherwise. */
  function ToggleCommand(playing: bool): (args: seq<string>)
    ensures |args| == 2 && args[0] == "--player=spotify"
  {
    ["--player=spotify", if playing then "pause" else "play"]
  }

  /** The button pauses right after a Playing event and plays right after
      a Paused or Stopped one. */
  lemma ToggleFollowsEvents(s: State, e: SpotifyEvent)
    ensures e.kind == Playing ==> ToggleCommand(ApplyEvent(s, e).state.playing)[1] == "pause"
    ensures e.kind in {Paused, Stopped} ==> ToggleCommand(ApplyEvent(s, e).state.playing)[1] == "play"
  {
  }

  /** Nothing is shown until a Playing or Request event brings a track. */
  lemma NotRenderedUntilTrack(p: Payload)
    ensures !Rendered(INITIAL)
    ensures Rendered(Apply(INITIAL, p).state) ==>
      p.op == Value(Spotify) && p.data.SpotifyData? && p.data.spotify.kind in {Playing, Request} &&
      p.data.spotify.trackInfo.Some?
  {
  }

  class Player {
    var track: Option<TrackInfo>
    var coverUrl: Option<string>
    var playing: bool

    constructor ()
      ensures Snapshot() == INITIAL
    {
      track := None;
      coverUrl := None;
      playing := false;
    }

    function Snapshot(): State
      reads this
    {
      State(track, coverUrl, playing)
    }

    /** The `useListen` callback; `coverSet` tells whether `setCoverUrl`
        was called. */
    method Listen(p: Payload) returns (coverSet: bool)
      modifies this
      ensures Snapshot() == Apply(old(Snapshot()), p).state
      ensures coverSet == Apply(old(Snapshot()), p).coverSet
    {
      coverSet := false;
      if p.op != Value(Spotify) || !p.data.SpotifyData? {
        return;
      }
      var e := p.data.spotify;
      match e.kind {
        case Playing =>
          if Falsy(coverUrl) || e.trackInfo.None? || e.trackInfo.value.artworkUrl != coverUrl {
            coverUrl := NewCover(e.trackInfo);
            coverSet := true;
          }
          if !playing {
            playing := true;
          }
          track := e.trackInfo;
        case Paused =>
          if playing {
            playing := false;
          }
        case Stopped =>
          if playing {
            playing := false;
          }
        case Request =>
          track := e.trackInfo;
      }
    }
  }
}
