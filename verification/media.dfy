/** The media-player adapter: projects a `media_player` entity of the hub onto
    the device's speaker capabilities and its key/value store, and turns each
    capability write into one `media_player` service call. */
module Media {
  import opened Hub

  /** The capabilities the adapter reads or writes (`onoff`, `volume_set`,
      ..., `button.reconnect`). */
  datatype Capability =
    | OnOff | VolumeSet | VolumeUp | VolumeDown | VolumeMute
    | SpeakerPlaying | SpeakerNext | SpeakerPrev | SpeakerShuffle | SpeakerRepeat
    | SpeakerArtist | SpeakerAlbum | SpeakerTrack | SpeakerDuration | SpeakerPosition
    | ButtonReconnect

  /** A value of the device's durable key/value store. `Encoded(v)` is the
      text `JSON.stringify(v)`, kept as the value it encodes: `JSON.parse` of it
      gives `v` back. `Text(s)` is any other text, taken not to be valid JSON. */
  datatype StoreEntry = Text(s: string) | Encoded(v: Value) | Flag(b: bool)

  const VolumeStep: real := 0.05

  // ----------------------------------------------------------------------
  // Volume arithmetic

  /** `Math.round(x * 100) / 100`, where `Math.round` rounds halves upwards. */
  function Round2(x: real): (r: real)
    ensures x - 0.005 < r <= x + 0.005
    ensures (r * 100.0).Floor as real == r * 100.0
  {
    ((x * 100.0 + 0.5).Floor as real) / 100.0
  }

  /** Rounding to hundredths leaves a value already in hundredths alone. */
  lemma Round2Idempotent(x: real)
    ensures Round2(Round2(x)) == Round2(x)
  {
    var n := (x * 100.0 + 0.5).Floor;
    assert Round2(x) * 100.0 == n as real;
    assert (n as real + 0.5).Floor == n;
  }

  /** A volume level rounded to hundredths, as both directions send it
      (the input and output converters are the identity). */
  function RoundVolume(v: Value): (r: Value)
    ensures r.Num? <==> ToNumber(v).Num?
    ensures r.Num? ==> ToNumber(v).r - 0.005 < r.r <= ToNumber(v).r + 0.005
  {
    match ToNumber(v)
    case Num(x) => Num(Round2(x))
    case _ => NaN
  }

  /** The level echoed back by the hub after a `volume_set` command is the
      commanded level itself: rounding twice is rounding once. */
  lemma VolumeEchoIsStable(level: Value)
    ensures RoundVolume(RoundVolume(level)) == RoundVolume(level)
  {
    if ToNumber(level).Num? {
      Round2Idempotent(ToNumber(level).r);
    }
  }

  /** `volume_up`: the current level plus one step, capped at 1. */
  function VolumeUpLevel(current: Value): (r: Value)
    ensures r.Num? <==> ToNumber(current).Num?
    ensures r.Num? ==> r.r <= 1.0 && r.r <= ToNumber(current).r + VolumeStep
    ensures r.Num? ==> r.r == 1.0 || r.r == ToNumber(current).r + VolumeStep
  {
    match ToNumber(current)
    case Num(x) => Num(if x + VolumeStep > 1.0 then 1.0 else x + VolumeStep)
    case _ => NaN
  }

  /** `volume_down`: the current level minus one step, floored at 0. */
  function VolumeDownLevel(current: Value): (r: Value)
    ensures r.Num? <==> ToNumber(current).Num?
    ensures r.Num? ==> r.r >= 0.0 && r.r >= ToNumber(current).r - VolumeStep
    ensures r.Num? ==> r.r == 0.0 || r.r == ToNumber(current).r - VolumeStep
  {
    match ToNumber(current)
    case Num(x) => Num(if x - VolumeStep < 0.0 then 0.0 else x - VolumeStep)
    case _ => NaN
  }

  /** From a level in [0, 1], one step up or down stays in [0, 1], moves in
      the right direction, and the rounded command stays in [0, 1] too. */
  lemma VolumeStepsStayInRange(x: real)
    requires 0.0 <= x <= 1.0
    ensures var up := VolumeUpLevel(Num(x)).r;
      x <= up <= 1.0 && 0.0 <= RoundVolume(Num(up)).r <= 1.0
    ensures var down := VolumeDownLevel(Num(x)).r;
      0.0 <= down <= x && 0.0 <= RoundVolume(Num(down)).r <= 1.0
  {
    var up := VolumeUpLevel(Num(x)).r;
    var down := VolumeDownLevel(Num(x)).r;
    RoundInUnitInterval(up);
    RoundInUnitInterval(down);
  }

  lemma RoundInUnitInterval(x: real)
    requires 0.0 <= x <= 1.0
    ensures 0.0 <= Round2(x) <= 1.0
  {
    var n := (x * 100.0 + 0.5).Floor;
    assert 0 <= n <= 100;
  }

  // ----------------------------------------------------------------------
  // Enumeration mappings

  /** The hub's `repeat` attribute as a `speaker_repeat` value. */
  function RepeatFromHub(repeat: Value): (mode: string)
    ensures mode == "none" || mode == "track" || mode == "playlist"
    ensures mode == "track" <==> repeat == Str("one")
    ensures mode == "playlist" <==> repeat == Str("all")
  {
    match repeat
    case Str("off") => "none"
    case Str("one") => "track"
    case Str("all") => "playlist"
    case _ => "none"
  }

  /** A `speaker_repeat` value as the hub's repeat mode. */
  function RepeatToHub(mode: string): (repeat: string)
    ensures repeat == "off" || repeat == "one" || repeat == "all"
    ensures repeat == "one" <==> mode == "track"
    ensures repeat == "all" <==> mode == "playlist"
  {
    match mode
    case "none" => "off"
    case "track" => "one"
    case "playlist" => "all"
    case _ => "off"
  }

  /** The two repeat mappings are inverse to each other on the three modes
      each side knows. */
  lemma RepeatRoundTrip(mode: string, repeat: string)
    ensures mode in {"none", "track", "playlist"} ==> RepeatFromHub(Str(RepeatToHub(mode))) == mode
    ensures repeat in {"off", "one", "all"} ==> RepeatToHub(RepeatFromHub(Str(repeat))) == repeat
  {
  }

  /** The player states that count as switched on. */
  const OnStates: set<string> := {"on", "idle", "playing", "paused", "buffering"}

  /** The hub's player state as the `onoff` value. */
  function IsOnState(state: string): (on: bool)
    ensures on <==> state in OnStates
  {
    match state
    case "on" | "idle" | "playing" | "paused" | "buffering" => true
    case "off" | "standby" => false
    case _ => false
  }

  // ----------------------------------------------------------------------
  // Inbound projection

  // Each rule below gives the value the inbound pass writes to one
  // capability when the device has it, or `None` when the pass leaves the
  // capability alone.

  /** `volume_level`, rounded to hundredths, when present. */
  function VolumeInbound(e: Event): Option<Value>
  {
    var level := Attr(e, "volume_level");
    if level != Null then Some(RoundVolume(level)) else None
  }

  /** `is_volume_muted` as it is, when present. */
  function MuteInbound(e: Event): Option<Value>
  {
    var muted := Attr(e, "is_volume_muted");
    if muted != Null then Some(muted) else None
  }

  /** Whether the state is `playing`, when there is a state. */
  function PlayingInbound(e: Event): Option<Value>
  {
    match e.state
    case Some(state) => Some(Bool(state == "playing"))
    case None => None
  }

  /** `shuffle`, or `false` when absent. */
  function ShuffleInbound(e: Event): Option<Value>
  {
    var shuffle := Attr(e, "shuffle");
    Some(if shuffle != Null then shuffle else Bool(false))
  }

  /** The mapped `repeat` mode, always. */
  function RepeatInbound(e: Event): Option<Value>
  {
    Some(Str(RepeatFromHub(Attr(e, "repeat"))))
  }

  /** `media_artist`, or `""` when absent. */
  function ArtistInbound(e: Event): Option<Value>
  {
    var artist := Attr(e, "media_artist");
    Some(if artist != Null then artist else Str(""))
  }

  /** `media_album_name`, else `app_name`, else nothing. */
  function AlbumInbound(e: Event): Option<Value>
  {
    var album := Attr(e, "media_album_name");
    var app := Attr(e, "app_name");
    if album != Null then Some(album) else if app != Null then Some(app) else None
  }

  /** `media_title`, or `""` when absent. */
  function TrackInbound(e: Event): Option<Value>
  {
    var title := Attr(e, "media_title");
    Some(if title != Null then title else Str(""))
  }

  /** `media_duration` as it is, when present. */
  function DurationInbound(e: Event): Option<Value>
  {
    var duration := Attr(e, "media_duration");
    if duration != Null then Some(duration) else None
  }

  /** `media_position` as it is, when present. */
  function PositionInbound(e: Event): Option<Value>
  {
    var position := Attr(e, "media_position");
    if position != Null then Some(position) else None
  }

  /** Whether the state is a switched-on state, when there is a state. */
  function OnOffInbound(e: Event): Option<Value>
  {
    match e.state
    case Some(state) => Some(Bool(IsOnState(state)))
    case None => None
  }

  /** The rule of capability `c`. */
  function Inbound(c: Capability, e: Event): Option<Value>
  {
    match c
    case VolumeSet => VolumeInbound(e)
    case VolumeMute => MuteInbound(e)
    case SpeakerPlaying => PlayingInbound(e)
    case SpeakerShuffle => ShuffleInbound(e)
    case SpeakerRepeat => RepeatInbound(e)
    case SpeakerArtist => ArtistInbound(e)
    case SpeakerAlbum => AlbumInbound(e)
    case SpeakerTrack => TrackInbound(e)
    case SpeakerDuration => DurationInbound(e)
    case SpeakerPosition => PositionInbound(e)
    case OnOff => OnOffInbound(e)
    case _ => None
  }

  /** One step of the pass: capability `c` receives its inbound value if the
      device has it and the event provides one. */
  function Write(values: map<Capability, Value>, caps: set<Capability>, e: Event, c: Capability): map<Capability, Value>
  {
    if c in caps && Inbound(c, e).Some? then values[c := Inbound(c, e).value] else values
  }

  /** The first half of the pass: volume, mute, playing, shuffle, repeat. */
  function PlaybackSteps(values: map<Capability, Value>, caps: set<Capability>, e: Event): map<Capability, Value>
  {
    var v1 := Write(values, caps, e, VolumeSet);
    var v2 := Write(v1, caps, e, VolumeMute);
    var v3 := Write(v2, caps, e, SpeakerPlaying);
    var v4 := Write(v3, caps, e, SpeakerShuffle);
    Write(v4, caps, e, SpeakerRepeat)
  }

  /** The second half of the pass: artist, album, track, duration, position,
      on/off. */
  function TrackSteps(values: map<Capability, Value>, caps: set<Capability>, e: Event): map<Capability, Value>
  {
    var v6 := Write(values, caps, e, SpeakerArtist);
    var v7 := Write(v6, caps, e, SpeakerAlbum);
    var v8 := Write(v7, caps, e, SpeakerTrack);
    var v9 := Write(v8, caps, e, SpeakerDuration);
    var v10 := Write(v9, caps, e, SpeakerPosition);
    Write(v10, caps, e, OnOff)
  }

  /** The capability values after a whole inbound pass: the steps in the
      order the adapter takes them. */
  function Project(values: map<Capability, Value>, caps: set<Capability>, e: Event): map<Capability, Value>
  {
    TrackSteps(PlaybackSteps(values, caps, e), caps, e)
  }

  /** What one step does to capability `d`. */
  lemma WriteAt(values: map<Capability, Value>, caps: set<Capability>, e: Event, c: Capability, d: Capability)
    ensures d in Write(values, caps, e, c) <==> d in values || (d == c && c in caps && Inbound(c, e).Some?)
    ensures d in Write(values, caps, e, c) ==>
      Write(values, caps, e, c)[d] == if d == c && c in caps && Inbound(c, e).Some? then Inbound(c, e).value else values[d]
  {
  }

  /** What the first half of the pass does to capability `c`. */
  lemma PlaybackStepsAt(values: map<Capability, Value>, caps: set<Capability>, e: Event, c: Capability)
    ensures var r := PlaybackSteps(values, caps, e);
      var hit := c in {VolumeSet, VolumeMute, SpeakerPlaying, SpeakerShuffle, SpeakerRepeat} && c in caps && Inbound(c, e).Some?;
      (c in r <==> c in values || hit) && (c in r ==> r[c] == if hit then Inbound(c, e).value else values[c])
  {
    var v1 := Write(values, caps, e, VolumeSet);
    var v2 := Write(v1, caps, e, VolumeMute);
    var v3 := Write(v2, caps, e, SpeakerPlaying);
    var v4 := Write(v3, caps, e, SpeakerShuffle);
    WriteAt(values, caps, e, VolumeSet, c);
    WriteAt(v1, caps, e, VolumeMute, c);
    WriteAt(v2, caps, e, SpeakerPlaying, c);
    WriteAt(v3, caps, e, SpeakerShuffle, c);
    WriteAt(v4, caps, e, SpeakerRepeat, c);
  }

  /** What the second half of the pass does to capability `c`. */
  lemma TrackStepsAt(values: map<Capability, Value>, caps: set<Capability>, e: Event, c: Capability)
    ensures var r := TrackSteps(values, caps, e);
      var hit := c in {SpeakerArtist, SpeakerAlbum, SpeakerTrack, SpeakerDuration, SpeakerPosition, OnOff} && c in caps && Inbound(c, e).Some?;
      (c in r <==> c in values || hit) && (c in r ==> r[c] == if hit then Inbound(c, e).value else values[c])
  {
    var v6 := Write(values, caps, e, SpeakerArtist);
    var v7 := Write(v6, caps, e, SpeakerAlbum);
    var v8 := Write(v7, caps, e, SpeakerTrack);
    var v9 := Write(v8, caps, e, SpeakerDuration);
    var v10 := Write(v9, caps, e, SpeakerPosition);
    WriteAt(values, caps, e, SpeakerArtist, c);
    WriteAt(v6, caps, e, SpeakerAlbum, c);
    WriteAt(v7, caps, e, SpeakerTrack, c);
    WriteAt(v8, caps, e, SpeakerDuration, c);
    WriteAt(v9, caps, e, SpeakerPosition, c);
    WriteAt(v10, caps, e, OnOff, c);
  }

  /** After a pass, a capability holds its inbound value exactly when the
      device has it and the event provides a value; every other capability
      keeps its value or its absence. */
  lemma ProjectAt(values: map<Capability, Value>, caps: set<Capability>, e: Event, c: Capability)
    ensures c in Project(values, caps, e) <==> c in values || (c in caps && Inbound(c, e).Some?)
    ensures c in Project(values, caps, e) ==>
      Project(values, caps, e)[c] == if c in caps && Inbound(c, e).Some? then Inbound(c, e).value else values[c]
  {
    PlaybackStepsAt(values, caps, e, c);
    TrackStepsAt(PlaybackSteps(values, caps, e), caps, e, c);
  }

  /** A capability the device lacks keeps its value (or its absence). */
  lemma AbsentCapabilityUntouched(values: map<Capability, Value>, caps: set<Capability>, e: Event, c: Capability)
    requires c !in caps
    ensures c in Project(values, caps, e) <==> c in values
    ensures c in values ==> Project(values, caps, e)[c] == values[c]
  {
    ProjectAt(values, caps, e, c);
  }

  /** Playback: `speaker_playing` is true exactly for the state `playing`,
      `onoff` is true exactly for the switched-on states, and `speaker_repeat`
      always receives one of its three modes, `none` when the attribute is
      absent. */
  lemma PlaybackProjection(values: map<Capability, Value>, caps: set<Capability>, e: Event)
    ensures var r := Project(values, caps, e);
      SpeakerPlaying in caps && e.state.Some? ==> r[SpeakerPlaying] == Bool(e.state.value == "playing")
    ensures var r := Project(values, caps, e);
      OnOff in caps && e.state.Some? ==> r[OnOff] == Bool(e.state.value in OnStates)
    ensures var r := Project(values, caps, e);
      SpeakerRepeat in caps ==> r[SpeakerRepeat] in {Str("none"), Str("track"), Str("playlist")}
    ensures var r := Project(values, caps, e);
      SpeakerRepeat in caps && Attr(e, "repeat") == Null ==> r[SpeakerRepeat] == Str("none")
  {
    ProjectAt(values, caps, e, SpeakerPlaying);
    ProjectAt(values, caps, e, OnOff);
    ProjectAt(values, caps, e, SpeakerRepeat);
  }

  /** Metadata: shuffle, artist and title fall back to `false`, `""` and `""`
      when the attribute is absent; the album falls back to `app_name` and
      otherwise keeps its previous value. */
  lemma MetadataDefaults(values: map<Capability, Value>, caps: set<Capability>, e: Event)
    ensures var r := Project(values, caps, e);
      SpeakerShuffle in caps && Attr(e, "shuffle") == Null ==> r[SpeakerShuffle] == Bool(false)
    ensures var r := Project(values, caps, e);
      SpeakerArtist in caps && Attr(e, "media_artist") == Null ==> r[SpeakerArtist] == Str("")
    ensures var r := Project(values, caps, e);
      SpeakerTrack in caps && Attr(e, "media_title") == Null ==> r[SpeakerTrack] == Str("")
    ensures var r := Project(values, caps, e);
      SpeakerAlbum in caps && Attr(e, "media_album_name") == Null && Attr(e, "app_name") != Null ==>
        r[SpeakerAlbum] == Attr(e, "app_name")
    ensures var r := Project(values, caps, e);
      Attr(e, "media_album_name") == Null && Attr(e, "app_name") == Null ==>
        (SpeakerAlbum in r <==> SpeakerAlbum in values) &&
        (SpeakerAlbum in values ==> r[SpeakerAlbum] == values[SpeakerAlbum])
  {
    ProjectAt(values, caps, e, SpeakerShuffle);
    ProjectAt(values, caps, e, SpeakerArtist);
    ProjectAt(values, caps, e, SpeakerTrack);
    ProjectAt(values, caps, e, SpeakerAlbum);
  }

  /** Volume: `volume_set` receives `volume_level` rounded to hundredths, and
      a level already in hundredths comes back unchanged. */
  lemma VolumeProjection(values: map<Capability, Value>, caps: set<Capability>, e: Event)
    ensures var r := Project(values, caps, e);
      VolumeSet in caps && Attr(e, "volume_level") != Null ==>
        r[VolumeSet] == RoundVolume(Attr(e, "volume_level")) &&
        RoundVolume(r[VolumeSet]) == r[VolumeSet]
  {
    ProjectAt(values, caps, e, VolumeSet);
    VolumeEchoIsStable(Attr(e, "volume_level"));
  }

  /** The store after a pass: each list is kept with its "can select" flag,
      `''` and `false` when the attribute is absent. */
  function StoreLists(store: map<string, StoreEntry>, e: Event): (s: map<string, StoreEntry>)
    ensures s.Keys == store.Keys + {"sourceList", "canSelectSource", "soundModeList", "canSelectSoundMode"}
    ensures forall k :: k in store && k !in {"sourceList", "canSelectSource", "soundModeList", "canSelectSoundMode"} ==> s[k] == store[k]
    ensures s["canSelectSource"] == Flag(Attr(e, "source_list") != Null)
    ensures s["canSelectSoundMode"] == Flag(Attr(e, "sound_mode_list") != Null)
    ensures s["sourceList"] ==
      if Attr(e, "source_list") == Null then Text("") else Encoded(Attr(e, "source_list"))
    ensures s["soundModeList"] ==
      if Attr(e, "sound_mode_list") == Null then Text("") else Encoded(Attr(e, "sound_mode_list"))
  {
    var sources := Attr(e, "source_list");
    var soundModes := Attr(e, "sound_mode_list");
    store["sourceList" := if sources == Null then Text("") else Encoded(sources)]
         ["canSelectSource" := Flag(sources != Null)]
         ["soundModeList" := if soundModes == Null then Text("") else Encoded(soundModes)]
         ["canSelectSoundMode" := Flag(soundModes != Null)]
  }

  // ----------------------------------------------------------------------
  // Reading the stored lists back

  /** `s.split(',')`: the pieces between commas, at least one. */
  function SplitComma(s: string): (pieces: seq<string>)
    ensures |pieces| >= 1
    ensures forall i :: 0 <= i < |pieces| ==> ',' !in pieces[i]
  {
    if s == [] then [""]
    else if s[0] == ',' then [""] + SplitComma(s[1..])
    else
      var rest := SplitComma(s[1..]);
      [[s[0]] + rest[0]] + rest[1..]
  }

  /** `pieces.join(',')`. */
  function JoinComma(pieces: seq<string>): string
    requires |pieces| >= 1
  {
    if |pieces| == 1 then pieces[0] else pieces[0] + [','] + JoinComma(pieces[1..])
  }

  /** Splitting at commas loses nothing: joining the pieces gives the text back. */
  lemma {:induction false} SplitCommaJoins(s: string)
    ensures JoinComma(SplitComma(s)) == s
  {
    if s == [] {
    } else if s[0] == ',' {
      var rest := SplitComma(s[1..]);
      SplitCommaJoins(s[1..]);
      assert ([""] + rest)[1..] == rest;
      assert s == [','] + s[1..];
    } else {
      var rest := SplitComma(s[1..]);
      SplitCommaJoins(s[1..]);
      var pieces := [[s[0]] + rest[0]] + rest[1..];
      assert s == [s[0]] + s[1..];
      if |rest| == 1 {
        assert JoinComma(pieces) == [s[0]] + rest[0];
      } else {
        assert pieces[1..] == rest[1..];
        assert JoinComma(rest) == rest[0] + [','] + JoinComma(rest[1..]);
      }
    }
  }

  /** The list that `getSourceList` (with `sourceList`/`canSelectSource`) or
      `getSoundModeList` (with `soundModeList`/`canSelectSoundMode`) iterates
      over: nothing unless the flag is `true` and a list is stored; otherwise the
      decoded JSON value, or the comma-separated pieces of text that is not
      JSON. */
  function StoredList(store: map<string, StoreEntry>, flagKey: string, listKey: string): seq<Value>
  {
    if flagKey in store && store[flagKey] == Flag(true) && listKey in store then
      match store[listKey]
      case Encoded(v) => Elements(v)
      case Text(s) => var pieces := SplitComma(s); seq(|pieces|, i requires 0 <= i < |pieces| => Str(pieces[i]))
      case Flag(_) => []
    else []
  }

  /** What a pass leaves for the list readers: after an event without
      `source_list` the source picker is empty, and after one with list `L` it
      offers exactly the elements of `L`, in order; likewise for sound modes. */
  lemma StoredListsAfterUpdate(store: map<string, StoreEntry>, e: Event)
    ensures StoredList(StoreLists(store, e), "canSelectSource", "sourceList") ==
      (if Attr(e, "source_list") == Null then [] else Elements(Attr(e, "source_list")))
    ensures StoredList(StoreLists(store, e), "canSelectSoundMode", "soundModeList") ==
      (if Attr(e, "sound_mode_list") == Null then [] else Elements(Attr(e, "sound_mode_list")))
  {
  }

  // ----------------------------------------------------------------------
  // The device

  class MediaDevice {
    /** The hub entity this device is bound to. */
    const entityId: string
    var capabilities: set<Capability>
    var values: map<Capability, Value>
    var store: map<string, StoreEntry>
    /** Every service call issued so far, oldest first. */
    var calls: seq<ServiceCall>

    /** A device as the platform restores it: the given capabilities, the
        capability values and durable store kept from earlier runs, and no
        call issued yet. */
    constructor (entityId: string, capabilities: set<Capability>, values: map<Capability, Value>,
                 store: map<string, StoreEntry>)
      ensures this.entityId == entityId && this.capabilities == capabilities
      ensures this.values == values && this.store == store && calls == []
    {
      this.entityId := entityId;
      this.capabilities := capabilities;
      this.values := values;
      this.store := store;
      calls := [];
    }

    /** Adds `button.reconnect` if missing; repeating it changes nothing. */
    method UpdateCapabilities()
      modifies this`capabilities
      ensures capabilities == old(capabilities) + {ButtonReconnect}
    {
      if ButtonReconnect !in capabilities {
        capabilities := capabilities + {ButtonReconnect};
      }
    }

    /** The inbound pass. An event that is null or has no `entity_id` is
        ignored; any other event (whatever entity it names) updates every
        capability the device has and the four list entries of the store. */
    method OnEntityUpdate(data: Option<Event>)
      modifies this`values, this`store
      ensures data.None? || data.value.entityId.None? ==> values == old(values) && store == old(store)
      ensures data.Some? && data.value.entityId.Some? ==>
        values == Project(old(values), capabilities, data.value) &&
        store == StoreLists(old(store), data.value)
    {
      if data.None? || data.value.entityId.None? {
        return;
      }
      var e := data.value;
      UpdateVolume(e);
      UpdateMute(e);
      UpdatePlaying(e);
      UpdateShuffle(e);
      UpdateRepeat(e);
      UpdateArtist(e);
      UpdateAlbum(e);
      UpdateTrack(e);
      UpdateDuration(e);
      UpdatePosition(e);
      UpdateOnOff(e);
      if Attr(e, "source_list") == Null {
        store := store["sourceList" := Text("")];
        store := store["canSelectSource" := Flag(false)];
      } else {
        store := store["sourceList" := Encoded(Attr(e, "source_list"))];
        store := store["canSelectSource" := Flag(true)];
      }
      if Attr(e, "sound_mode_list") == Null {
        store := store["soundModeList" := Text("")];
        store := store["canSelectSoundMode" := Flag(false)];
      } else {
        store := store["soundModeList" := Encoded(Attr(e, "sound_mode_list"))];
        store := store["canSelectSoundMode" := Flag(true)];
      }
    }

    // -- Inbound steps, one per capability, in the order of the source pass

    method UpdateVolume(e: Event)
      modifies this`values
      ensures values == Write(old(values), capabilities, e, VolumeSet)
    {
      if VolumeSet in capabilities && Attr(e, "volume_level") != Null {
        values := values[VolumeSet := RoundVolume(Attr(e, "volume_level"))];
      }
    }

    method UpdateMute(e: Event)
      modifies this`values
      ensures values == Write(old(values), capabilities, e, VolumeMute)
    {
      if VolumeMute in capabilities && Attr(e, "is_volume_muted") != Null {
        values := values[VolumeMute := Attr(e, "is_volume_muted")];
      }
    }

    method UpdatePlaying(e: Event)
      modifies this`values
      ensures values == Write(old(values), capabilities, e, SpeakerPlaying)
    {
      if SpeakerPlaying in capabilities && e.state.Some? {
        match e.state.value {
          case "playing" => values := values[SpeakerPlaying := Bool(true)];
          case _ => values := values[SpeakerPlaying := Bool(false)];
        }
      }
    }

    method UpdateShuffle(e: Event)
      modifies this`values
      ensures values == Write(old(values), capabilities, e, SpeakerShuffle)
    {
      if SpeakerShuffle in capabilities {
        if Attr(e, "shuffle") != Null {
          values := values[SpeakerShuffle := Attr(e, "shuffle")];
        } else {
          values := values[SpeakerShuffle := Bool(false)];
        }
      }
    }

    method UpdateRepeat(e: Event)
      modifies this`values
      ensures values == Write(old(values), capabilities, e, SpeakerRepeat)
    {
      if SpeakerRepeat in capabilities {
        values := values[SpeakerRepeat := Str(RepeatFromHub(Attr(e, "repeat")))];
      }
    }

    method UpdateArtist(e: Event)
      modifies this`values
      ensures values == Write(old(values), capabilities, e, SpeakerArtist)
    {
      if SpeakerArtist in capabilities {
        if Attr(e, "media_artist") != Null {
          values := values[SpeakerArtist := Attr(e, "media_artist")];
        } else {
          values := values[SpeakerArtist := Str("")];
        }
      }
    }

    method UpdateAlbum(e: Event)
      modifies this`values
      ensures values == Write(old(values), capabilities, e, SpeakerAlbum)
    {
      if SpeakerAlbum in capabilities {
        if Attr(e, "media_album_name") != Null {
          values := values[SpeakerAlbum := Attr(e, "media_album_name")];
        } else if Attr(e, "app_name") != Null {
          values := values[SpeakerAlbum := Attr(e, "app_name")];
        }
      }
    }

    method UpdateTrack(e: Event)
      modifies this`values
      ensures values == Write(old(values), capabilities, e, SpeakerTrack)
    {
      if SpeakerTrack in capabilities {
        if Attr(e, "media_title") != Null {
          values := values[SpeakerTrack := Attr(e, "media_title")];
        } else {
          values := values[SpeakerTrack := Str("")];
        }
      }
    }

    method UpdateDuration(e: Event)
      modifies this`values
      ensures values == Write(old(values), capabilities, e, SpeakerDuration)
    {
      if SpeakerDuration in capabilities && Attr(e, "media_duration") != Null {
        values := values[SpeakerDuration := Attr(e, "media_duration")];
      }
    }

    method UpdatePosition(e: Event)
      modifies this`values
      ensures values == Write(old(values), capabilities, e, SpeakerPosition)
    {
      if SpeakerPosition in capabilities && Attr(e, "media_position") != Null {
        values := values[SpeakerPosition := Attr(e, "media_position")];
      }
    }

    method UpdateOnOff(e: Event)
      modifies this`values
      ensures values == Write(old(values), capabilities, e, OnOff)
    {
      if OnOff in capabilities && e.state.Some? {
        values := values[OnOff := Bool(IsOnState(e.state.value))];
      }
    }

    // -- Outbound projection: one service call per capability write

    method OnCapabilityOnOff(value: bool)
      modifies this`calls
      ensures calls == old(calls) + [ServiceCall("media_player", if value then "turn_on" else "turn_off",
                                                 map["entity_id" := Str(entityId)])]
    {
      if value {
        calls := calls + [ServiceCall("media_player", "turn_on", map["entity_id" := Str(entityId)])];
      } else {
        calls := calls + [ServiceCall("media_player", "turn_off", map["entity_id" := Str(entityId)])];
      }
    }

    method OnCapabilityVolumeSet(value: Value)
      modifies this`calls
      ensures calls == old(calls) + [ServiceCall("media_player", "volume_set",
                                                 map["entity_id" := Str(entityId), "volume_level" := RoundVolume(value)])]
    {
      var outputValue := RoundVolume(value);
      calls := calls + [ServiceCall("media_player", "volume_set",
                                    map["entity_id" := Str(entityId), "volume_level" := outputValue])];
    }

    /** The current `volume_set` value; one never set reads as `null`. */
    function CurrentVolume(): Value
      reads this
    {
      if VolumeSet in values then values[VolumeSet] else Null
    }

    method OnCapabilityVolumeUp()
      modifies this`calls
      ensures calls == old(calls) + [ServiceCall("media_player", "volume_set",
                                                 map["entity_id" := Str(entityId),
                                                     "volume_level" := RoundVolume(VolumeUpLevel(CurrentVolume()))])]
    {
      var volume := VolumeUpLevel(CurrentVolume());
      OnCapabilityVolumeSet(volume);
    }

    method OnCapabilityVolumeDown()
      modifies this`calls
      ensures calls == old(calls) + [ServiceCall("media_player", "volume_set",
                                                 map["entity_id" := Str(entityId),
                                                     "volume_level" := RoundVolume(VolumeDownLevel(CurrentVolume()))])]
    {
      var volume := VolumeDownLevel(CurrentVolume());
      OnCapabilityVolumeSet(volume);
    }

    method OnCapabilityVolumeMute(value: bool)
      modifies this`calls
      ensures calls == old(calls) + [ServiceCall("media_player", "volume_mute",
                                                 map["entity_id" := Str(entityId), "is_volume_muted" := Bool(value)])]
    {
      calls := calls + [ServiceCall("media_player", "volume_mute",
                                    map["entity_id" := Str(entityId), "is_volume_muted" := Bool(value)])];
    }

    method OnCapabilitySpeakerPlaying(value: bool)
      modifies this`calls
      ensures calls == old(calls) + [ServiceCall("media_player", if value then "media_play" else "media_pause",
                                                 map["entity_id" := Str(entityId)])]
    {
      if value {
        calls := calls + [ServiceCall("media_player", "media_play", map["entity_id" := Str(entityId)])];
      } else {
        calls := calls + [ServiceCall("media_player", "media_pause", map["entity_id" := Str(entityId)])];
      }
    }

    method OnCapabilitySpeakerNext()
      modifies this`calls
      ensures calls == old(calls) + [ServiceCall("media_player", "media_next_track", map["entity_id" := Str(entityId)])]
    {
      calls := calls + [ServiceCall("media_player", "media_next_track", map["entity_id" := Str(entityId)])];
    }

    method OnCapabilitySpeakerPrev()
      modifies this`calls
      ensures calls == old(calls) + [ServiceCall("media_player", "media_previous_track", map["entity_id" := Str(entityId)])]
    {
      calls := calls + [ServiceCall("media_player", "media_previous_track", map["entity_id" := Str(entityId)])];
    }

    method OnCapabilitySpeakerShuffle(value: bool)
      modifies this`calls
      ensures calls == old(calls) + [ServiceCall("media_player", "shuffle_set",
                                                 map["entity_id" := Str(entityId), "shuffle" := Bool(value)])]
    {
      calls := calls + [ServiceCall("media_player", "shuffle_set",
                                    map["entity_id" := Str(entityId), "shuffle" := Bool(value)])];
    }

    /** The repeat mode goes out under the key `is_volume_muted`, as the
        adapter sends it. */
    method OnCapabilitySpeakerRepeat(value: string)
      modifies this`calls
      ensures calls == old(calls) + [ServiceCall("media_player", "repeat_set",
                                                 map["entity_id" := Str(entityId), "is_volume_muted" := Str(RepeatToHub(value))])]
    {
      var outputValue := "off";
      match value {
        case "none" => outputValue := "off";
        case "track" => outputValue := "one";
        case "playlist" => outputValue := "all";
        case _ =>
      }
      calls := calls + [ServiceCall("media_player", "repeat_set",
                                    map["entity_id" := Str(entityId), "is_volume_muted" := Str(outputValue)])];
    }

    // -- Autocomplete lists and flow actions

    method GetSourceList() returns (result: seq<PickerOption>)
      ensures |result| == |StoredList(store, "canSelectSource", "sourceList")|
      ensures forall i :: 0 <= i < |result| ==>
        result[i] == PickerOption(StoredList(store, "canSelectSource", "sourceList")[i],
                                  StoredList(store, "canSelectSource", "sourceList")[i])
    {
      result := ReadList("canSelectSource", "sourceList");
    }

    method GetSoundModeList() returns (result: seq<PickerOption>)
      ensures |result| == |StoredList(store, "canSelectSoundMode", "soundModeList")|
      ensures forall i :: 0 <= i < |result| ==>
        result[i] == PickerOption(StoredList(store, "canSelectSoundMode", "soundModeList")[i],
                                  StoredList(store, "canSelectSoundMode", "soundModeList")[i])
    {
      result := ReadList("canSelectSoundMode", "soundModeList");
    }

    /** The body shared by the two list readers. */
    method ReadList(flagKey: string, listKey: string) returns (result: seq<PickerOption>)
      ensures |result| == |StoredList(store, flagKey, listKey)|
      ensures forall i :: 0 <= i < |result| ==>
        result[i] == PickerOption(StoredList(store, flagKey, listKey)[i], StoredList(store, flagKey, listKey)[i])
    {
      if flagKey in store && store[flagKey] == Flag(true) {
        if listKey !in store {
          return [];
        }
        var list: seq<Value>;
        match store[listKey] {
          case Encoded(v) => list := Elements(v);
          case Text(s) =>
            var pieces := SplitComma(s);
            list := seq(|pieces|, i requires 0 <= i < |pieces| => Str(pieces[i]));
          case Flag(_) => list := [];
        }
        result := PickerOptions(list);
      } else {
        result := [];
      }
    }

    method SetSource(source: Value)
      modifies this`calls
      ensures calls == old(calls) + [ServiceCall("media_player", "select_source",
                                                 map["entity_id" := Str(entityId), "source" := source])]
    {
      calls := calls + [ServiceCall("media_player", "select_source",
                                    map["entity_id" := Str(entityId), "source" := source])];
    }

    method SetSoundMode(mode: Value)
      modifies this`calls
      ensures calls == old(calls) + [ServiceCall("media_player", "select_sound_mode",
                                                 map["entity_id" := Str(entityId), "sound_mode" := mode])]
    {
      calls := calls + [ServiceCall("media_player", "select_sound_mode",
                                    map["entity_id" := Str(entityId), "sound_mode" := mode])];
    }
  }
}
