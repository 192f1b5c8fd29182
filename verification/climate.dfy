/** The climate adapter: projects a `climate` entity of the hub onto the
    device's thermostat capabilities and its four mode-list caches, and turns
    each capability write into one `climate` service call. */
module Climate {
  import opened Hub

  /** The capabilities the adapter reads or writes (`target_temperature`,
      `measure_temperature`, ..., `button.reconnect`). */
  datatype Capability =
    | TargetTemperature | MeasureTemperature | MeasureHumidity | ClimateAction
    | ClimateOn | ClimateMode | ClimateModeFan | ClimateModePreset | ClimateModeSwing
    | ButtonReconnect

  /** The device settings `add_power_entity` and `power_entity` (the latter
      possibly unset). */
  datatype Settings = Settings(addPowerEntity: bool, powerEntity: Option<string>)

  // ----------------------------------------------------------------------
  // Temperatures

  /** `(f - 32) * 5 / 9`. */
  function FahrenheitToCelsius(f: real): (c: real)
    ensures c * 9.0 / 5.0 + 32.0 == f
    ensures f < 32.0 <==> c < 0.0
  {
    (f - 32.0) * 5.0 / 9.0
  }

  /** A temperature attribute as a capability value, given the hub's
      temperature unit: converted to Celsius under `°F` (with JavaScript's
      numeric coercion first), passed through under any other unit or none. */
  function Temperature(v: Value, unit: Option<string>): (t: Value)
    ensures unit != Some("°F") ==> t == v
    ensures unit == Some("°F") ==> (t.Num? <==> ToNumber(v).Num?) && (t.NaN? <==> ToNumber(v).NaN?)
    ensures unit == Some("°F") && t.Num? ==> t.r * 9.0 / 5.0 + 32.0 == ToNumber(v).r
  {
    if unit == Some("°F") then
      match ToNumber(v)
      case Num(f) => Num(FahrenheitToCelsius(f))
      case _ => NaN
    else v
  }

  // ----------------------------------------------------------------------
  // Inbound projection

  /** Whether the adapter gets past `data && data.entity_id && this.entityId
      == data.entity_id`: the event is present and names this very entity
      with a non-empty id. */
  predicate Addressed(data: Option<Event>, entityId: string)
  {
    data.Some? && data.value.entityId.Some? && data.value.entityId.value != "" &&
    entityId == data.value.entityId.value
  }

  /** A capability the pass writes only after checking that the device has
      it. `climate_on`, `measure_temperature` and `climate_mode` are written
      without that check. */
  predicate Gated(c: Capability)
  {
    !(c == ClimateOn || c == MeasureTemperature || c == ClimateMode)
  }

  // Each rule below gives the value the inbound pass writes to one
  // capability (when it is not gated, or the device has it), or `None` when
  // the pass leaves the capability alone.

  /** Whether the state is neither `unavailable` nor `off`, when there is a
      state. */
  function OnInbound(e: Event): Option<Value>
  {
    match e.state
    case Some(state) => Some(Bool(!(state == "unavailable" || state == "off")))
    case None => None
  }

  /** A temperature attribute, converted, unless absent or `unavailable`. */
  function TemperatureInbound(e: Event, key: string, unit: Option<string>): Option<Value>
  {
    var t := Attr(e, key);
    if t != Null && t != Str("unavailable") then Some(Temperature(t, unit)) else None
  }

  /** `current_humidity` unless absent, `off` or `unavailable`. */
  function HumidityInbound(e: Event): Option<Value>
  {
    var h := Attr(e, "current_humidity");
    if h != Null && h != Str("off") && h != Str("unavailable") then Some(h) else None
  }

  /** `hvac_action` unless absent. */
  function ActionInbound(e: Event): Option<Value>
  {
    var a := Attr(e, "hvac_action");
    if a != Null then Some(a) else None
  }

  /** The state itself, unless there is none or it is `unavailable`. */
  function ModeInbound(e: Event): Option<Value>
  {
    match e.state
    case Some(state) => if state != "unavailable" then Some(Str(state)) else None
    case None => None
  }

  /** An enumerated mode attribute unless absent or `unavailable`. */
  function ScalarModeInbound(e: Event, key: string): Option<Value>
  {
    var m := Attr(e, key);
    if m != Null && m != Str("unavailable") then Some(m) else None
  }

  /** The swing rule checks `swing_mode` but writes `preset_swing`. */
  function SwingInbound(e: Event): Option<Value>
  {
    var guard := Attr(e, "swing_mode");
    if guard != Null && guard != Str("unavailable") then Some(Attr(e, "preset_swing")) else None
  }

  /** The rule of capability `c`. */
  function Inbound(c: Capability, e: Event, unit: Option<string>): Option<Value>
  {
    match c
    case ClimateOn => OnInbound(e)
    case MeasureTemperature => TemperatureInbound(e, "current_temperature", unit)
    case TargetTemperature => TemperatureInbound(e, "temperature", unit)
    case MeasureHumidity => HumidityInbound(e)
    case ClimateAction => ActionInbound(e)
    case ClimateMode => ModeInbound(e)
    case ClimateModeFan => ScalarModeInbound(e, "fan_mode")
    case ClimateModePreset => ScalarModeInbound(e, "preset_mode")
    case ClimateModeSwing => SwingInbound(e)
    case ButtonReconnect => None
  }

  /** Whether one step of the pass writes capability `c`. */
  predicate Writes(caps: set<Capability>, e: Event, unit: Option<string>, c: Capability)
  {
    (c in caps || !Gated(c)) && Inbound(c, e, unit).Some?
  }

  /** One step of the pass: capability `c` receives its inbound value if the
      step applies. */
  function Write(values: map<Capability, Value>, caps: set<Capability>, e: Event, unit: Option<string>, c: Capability): map<Capability, Value>
  {
    if Writes(caps, e, unit, c) then values[c := Inbound(c, e, unit).value] else values
  }

  /** Only the two temperature rules depend on the unit. */
  lemma WriteIgnoresUnit(values: map<Capability, Value>, caps: set<Capability>, e: Event, unit: Option<string>, c: Capability)
    requires c != MeasureTemperature && c != TargetTemperature
    ensures Write(values, caps, e, unit, c) == Write(values, caps, e, None, c)
  {
  }

  /** The first part of the pass: power, temperatures, humidity, action. */
  function ReadingSteps(values: map<Capability, Value>, caps: set<Capability>, e: Event, unit: Option<string>): map<Capability, Value>
  {
    var v1 := Write(values, caps, e, unit, ClimateOn);
    var v2 := Write(v1, caps, e, unit, MeasureTemperature);
    var v3 := Write(v2, caps, e, unit, TargetTemperature);
    var v4 := Write(v3, caps, e, unit, MeasureHumidity);
    Write(v4, caps, e, unit, ClimateAction)
  }

  /** The last part of the pass: the HVAC, fan, preset and swing modes. */
  function ModeSteps(values: map<Capability, Value>, caps: set<Capability>, e: Event, unit: Option<string>): map<Capability, Value>
  {
    var v6 := Write(values, caps, e, unit, ClimateMode);
    var v7 := Write(v6, caps, e, unit, ClimateModeFan);
    var v8 := Write(v7, caps, e, unit, ClimateModePreset);
    Write(v8, caps, e, unit, ClimateModeSwing)
  }

  /** The capability values after a whole inbound pass: the steps in the
      order the adapter takes them (the mode lists, handled in between, do
      not touch capability values). */
  function Project(values: map<Capability, Value>, caps: set<Capability>, e: Event, unit: Option<string>): map<Capability, Value>
  {
    ModeSteps(ReadingSteps(values, caps, e, unit), caps, e, unit)
  }

  /** What one step does to capability `d`. */
  lemma WriteAt(values: map<Capability, Value>, caps: set<Capability>, e: Event, unit: Option<string>, c: Capability, d: Capability)
    ensures d in Write(values, caps, e, unit, c) <==> d in values || (d == c && Writes(caps, e, unit, c))
    ensures d in Write(values, caps, e, unit, c) ==>
      Write(values, caps, e, unit, c)[d] == if d == c && Writes(caps, e, unit, c) then Inbound(c, e, unit).value else values[d]
  {
  }

  /** What the first part of the pass does to capability `c`. */
  lemma ReadingStepsAt(values: map<Capability, Value>, caps: set<Capability>, e: Event, unit: Option<string>, c: Capability)
    ensures var r := ReadingSteps(values, caps, e, unit);
      var hit := c in {ClimateOn, MeasureTemperature, TargetTemperature, MeasureHumidity, ClimateAction} && Writes(caps, e, unit, c);
      (c in r <==> c in values || hit) && (c in r ==> r[c] == if hit then Inbound(c, e, unit).value else values[c])
  {
    var v1 := Write(values, caps, e, unit, ClimateOn);
    var v2 := Write(v1, caps, e, unit, MeasureTemperature);
    var v3 := Write(v2, caps, e, unit, TargetTemperature);
    var v4 := Write(v3, caps, e, unit, MeasureHumidity);
    WriteAt(values, caps, e, unit, ClimateOn, c);
    WriteAt(v1, caps, e, unit, MeasureTemperature, c);
    WriteAt(v2, caps, e, unit, TargetTemperature, c);
    WriteAt(v3, caps, e, unit, MeasureHumidity, c);
    WriteAt(v4, caps, e, unit, ClimateAction, c);
  }

  /** What the last part of the pass does to capability `c`. */
  lemma ModeStepsAt(values: map<Capability, Value>, caps: set<Capability>, e: Event, unit: Option<string>, c: Capability)
    ensures var r := ModeSteps(values, caps, e, unit);
      var hit := c in {ClimateMode, ClimateModeFan, ClimateModePreset, ClimateModeSwing} && Writes(caps, e, unit, c);
      (c in r <==> c in values || hit) && (c in r ==> r[c] == if hit then Inbound(c, e, unit).value else values[c])
  {
    var v6 := Write(values, caps, e, unit, ClimateMode);
    var v7 := Write(v6, caps, e, unit, ClimateModeFan);
    var v8 := Write(v7, caps, e, unit, ClimateModePreset);
    WriteAt(values, caps, e, unit, ClimateMode, c);
    WriteAt(v6, caps, e, unit, ClimateModeFan, c);
    WriteAt(v7, caps, e, unit, ClimateModePreset, c);
    WriteAt(v8, caps, e, unit, ClimateModeSwing, c);
  }

  /** After a pass, a capability holds its inbound value exactly when its
      step applies; every other capability keeps its value or its absence. */
  lemma ProjectAt(values: map<Capability, Value>, caps: set<Capability>, e: Event, unit: Option<string>, c: Capability)
    ensures c in Project(values, caps, e, unit) <==> c in values || Writes(caps, e, unit, c)
    ensures c in Project(values, caps, e, unit) ==>
      Project(values, caps, e, unit)[c] == if Writes(caps, e, unit, c) then Inbound(c, e, unit).value else values[c]
  {
    ReadingStepsAt(values, caps, e, unit, c);
    ModeStepsAt(ReadingSteps(values, caps, e, unit), caps, e, unit, c);
  }

  /** A gated capability the device lacks keeps its value (or its absence). */
  lemma AbsentCapabilityUntouched(values: map<Capability, Value>, caps: set<Capability>, e: Event, unit: Option<string>, c: Capability)
    requires c !in caps && Gated(c)
    ensures c in Project(values, caps, e, unit) <==> c in values
    ensures c in values ==> Project(values, caps, e, unit)[c] == values[c]
  {
    ProjectAt(values, caps, e, unit, c);
  }

  /** Power and mode: with a state, `climate_on` is false exactly for
      `unavailable` and `off`; `climate_mode` becomes the state unless it is
      `unavailable`. Neither depends on the capability set, and without a
      state both keep their values. */
  lemma StateProjection(values: map<Capability, Value>, caps: set<Capability>, e: Event, unit: Option<string>)
    ensures var r := Project(values, caps, e, unit);
      e.state.Some? ==> r[ClimateOn] == Bool(e.state.value != "unavailable" && e.state.value != "off")
    ensures var r := Project(values, caps, e, unit);
      e.state.Some? && e.state.value != "unavailable" ==> r[ClimateMode] == Str(e.state.value)
    ensures var r := Project(values, caps, e, unit);
      e.state.None? || e.state == Some("unavailable") ==>
        (ClimateMode in r <==> ClimateMode in values) &&
        (ClimateMode in values ==> r[ClimateMode] == values[ClimateMode])
    ensures var r := Project(values, caps, e, unit);
      e.state.None? ==>
        (ClimateOn in r <==> ClimateOn in values) &&
        (ClimateOn in values ==> r[ClimateOn] == values[ClimateOn])
  {
    ProjectAt(values, caps, e, unit, ClimateOn);
    ProjectAt(values, caps, e, unit, ClimateMode);
  }

  /** Temperatures: `measure_temperature` receives `current_temperature`
      whether or not the device has that capability, `target_temperature`
      receives `temperature` only when it does; both are converted from
      Fahrenheit exactly under `°F`, and both are skipped when the attribute is
      absent or `unavailable`. */
  lemma TemperatureProjection(values: map<Capability, Value>, caps: set<Capability>, e: Event, unit: Option<string>)
    ensures var r := Project(values, caps, e, unit); var t := Attr(e, "current_temperature");
      t != Null && t != Str("unavailable") ==> r[MeasureTemperature] == Temperature(t, unit)
    ensures var r := Project(values, caps, e, unit); var t := Attr(e, "temperature");
      TargetTemperature in caps && t != Null && t != Str("unavailable") ==> r[TargetTemperature] == Temperature(t, unit)
    ensures var r := Project(values, caps, e, unit); var t := Attr(e, "current_temperature");
      t == Null || t == Str("unavailable") ==>
        (MeasureTemperature in r <==> MeasureTemperature in values) &&
        (MeasureTemperature in values ==> r[MeasureTemperature] == values[MeasureTemperature])
    ensures var r := Project(values, caps, e, unit); var t := Attr(e, "temperature");
      t == Null || t == Str("unavailable") ==>
        (TargetTemperature in r <==> TargetTemperature in values) &&
        (TargetTemperature in values ==> r[TargetTemperature] == values[TargetTemperature])
  {
    ProjectAt(values, caps, e, unit, MeasureTemperature);
    ProjectAt(values, caps, e, unit, TargetTemperature);
  }

  /** Humidity is written exactly when the device has the capability and the
      value is neither absent, `off` nor `unavailable`; the action exactly when
      the device has the capability and the value is present. */
  lemma HumidityAndActionProjection(values: map<Capability, Value>, caps: set<Capability>, e: Event, unit: Option<string>)
    ensures var r := Project(values, caps, e, unit); var h := Attr(e, "current_humidity");
      MeasureHumidity in caps && h != Null && h != Str("off") && h != Str("unavailable") ==> r[MeasureHumidity] == h
    ensures var r := Project(values, caps, e, unit); var h := Attr(e, "current_humidity");
      h == Null || h == Str("off") || h == Str("unavailable") ==>
        (MeasureHumidity in r <==> MeasureHumidity in values) &&
        (MeasureHumidity in values ==> r[MeasureHumidity] == values[MeasureHumidity])
    ensures var r := Project(values, caps, e, unit); var a := Attr(e, "hvac_action");
      ClimateAction in caps && a != Null ==> r[ClimateAction] == a
    ensures var r := Project(values, caps, e, unit);
      Attr(e, "hvac_action") == Null ==>
        (ClimateAction in r <==> ClimateAction in values) &&
        (ClimateAction in values ==> r[ClimateAction] == values[ClimateAction])
  {
    ProjectAt(values, caps, e, unit, MeasureHumidity);
    ProjectAt(values, caps, e, unit, ClimateAction);
  }

  /** Fan and preset modes pass through when the device has the capability
      and the attribute is neither absent nor `unavailable`; the swing mode
      is decided by `swing_mode` but takes the value of `preset_swing`, which
      is `undefined` when the hub does not send that attribute. */
  lemma ModeProjection(values: map<Capability, Value>, caps: set<Capability>, e: Event, unit: Option<string>)
    ensures var r := Project(values, caps, e, unit); var m := Attr(e, "fan_mode");
      ClimateModeFan in caps && m != Null && m != Str("unavailable") ==> r[ClimateModeFan] == m
    ensures var r := Project(values, caps, e, unit); var m := Attr(e, "preset_mode");
      ClimateModePreset in caps && m != Null && m != Str("unavailable") ==> r[ClimateModePreset] == m
    ensures var r := Project(values, caps, e, unit); var m := Attr(e, "swing_mode");
      ClimateModeSwing in caps && m != Null && m != Str("unavailable") ==> r[ClimateModeSwing] == Attr(e, "preset_swing")
    ensures var r := Project(values, caps, e, unit); var m := Attr(e, "swing_mode");
      ClimateModeSwing in caps && m != Null && m != Str("unavailable") && "preset_swing" !in e.attributes ==>
        r[ClimateModeSwing] == Null
  {
    ProjectAt(values, caps, e, unit, ClimateModeFan);
    ProjectAt(values, caps, e, unit, ClimateModePreset);
    ProjectAt(values, caps, e, unit, ClimateModeSwing);
  }

  // ----------------------------------------------------------------------
  // Mode-list caches

  /** Whether a mode-list attribute replaces its cache: it is defined and
      `attr != cache` holds. A list attribute is an array freshly decoded
      from the event, so as a reference it differs from every cached array;
      other values are compared by value. */
  predicate Replaces(attr: Value, cache: Value)
  {
    attr != Null && (attr.List? || attr != cache)
  }

  /** A cache after the pass. */
  function NextCache(attr: Value, cache: Value): (next: Value)
    ensures next == if attr == Null then cache else attr
    ensures attr.List? ==> next == attr
  {
    if Replaces(attr, cache) then attr else cache
  }

  /** One list step: the enumerated options of capability `c` become the
      attribute when it replaces the cache. */
  function PushList(lists: map<Capability, Value>, attr: Value, cache: Value, c: Capability): map<Capability, Value>
  {
    if Replaces(attr, cache) then lists[c := attr] else lists
  }

  /** The enumerated option lists after a pass, given the caches before it. */
  function ListsAfter(lists: map<Capability, Value>, e: Event, hvac: Value, fan: Value, preset: Value, swing: Value): map<Capability, Value>
  {
    var l1 := PushList(lists, Attr(e, "hvac_modes"), hvac, ClimateMode);
    var l2 := PushList(l1, Attr(e, "fan_modes"), fan, ClimateModeFan);
    var l3 := PushList(l2, Attr(e, "preset_modes"), preset, ClimateModePreset);
    PushList(l3, Attr(e, "swing_modes"), swing, ClimateModeSwing)
  }

  /** The mode-list attribute and the cache that belong to one of the four
      mode capabilities. */
  function ModeListAttribute(c: Capability): string
  {
    match c
    case ClimateMode => "hvac_modes"
    case ClimateModeFan => "fan_modes"
    case ClimateModePreset => "preset_modes"
    case ClimateModeSwing => "swing_modes"
    case _ => ""
  }

  function CacheOf(c: Capability, hvac: Value, fan: Value, preset: Value, swing: Value): Value
  {
    match c
    case ClimateMode => hvac
    case ClimateModeFan => fan
    case ClimateModePreset => preset
    case ClimateModeSwing => swing
    case _ => Null
  }

  /** What one list step does to the options of capability `d`. */
  lemma PushListAt(lists: map<Capability, Value>, attr: Value, cache: Value, c: Capability, d: Capability)
    ensures d in PushList(lists, attr, cache, c) <==> d in lists || (d == c && Replaces(attr, cache))
    ensures d in PushList(lists, attr, cache, c) ==>
      PushList(lists, attr, cache, c)[d] == if d == c && Replaces(attr, cache) then attr else lists[d]
  {
  }

  /** Each of the four mode capabilities gets the attribute list as its
      options exactly when that list replaces its own cache, and keeps its
      options otherwise; no other capability's options change. */
  lemma ListsAfterAt(lists: map<Capability, Value>, e: Event, hvac: Value, fan: Value, preset: Value, swing: Value, c: Capability)
    ensures var r := ListsAfter(lists, e, hvac, fan, preset, swing);
      c in {ClimateMode, ClimateModeFan, ClimateModePreset, ClimateModeSwing} &&
      Replaces(Attr(e, ModeListAttribute(c)), CacheOf(c, hvac, fan, preset, swing)) ==>
        c in r && r[c] == Attr(e, ModeListAttribute(c))
    ensures var r := ListsAfter(lists, e, hvac, fan, preset, swing);
      !(c in {ClimateMode, ClimateModeFan, ClimateModePreset, ClimateModeSwing} &&
        Replaces(Attr(e, ModeListAttribute(c)), CacheOf(c, hvac, fan, preset, swing))) ==>
        (c in r <==> c in lists) && (c in lists ==> r[c] == lists[c])
  {
    var l1 := PushList(lists, Attr(e, "hvac_modes"), hvac, ClimateMode);
    var l2 := PushList(l1, Attr(e, "fan_modes"), fan, ClimateModeFan);
    var l3 := PushList(l2, Attr(e, "preset_modes"), preset, ClimateModePreset);
    PushListAt(lists, Attr(e, "hvac_modes"), hvac, ClimateMode, c);
    PushListAt(l1, Attr(e, "fan_modes"), fan, ClimateModeFan, c);
    PushListAt(l2, Attr(e, "preset_modes"), preset, ClimateModePreset, c);
    PushListAt(l3, Attr(e, "swing_modes"), swing, ClimateModeSwing, c);
  }

  // ----------------------------------------------------------------------
  // Power entity

  /** The characters of `s` before its first `.` (all of `s` if it has none). */
  function UpToDot(s: string): (r: string)
    ensures '.' !in r && |r| <= |s| && r == s[..|r|]
    ensures |r| < |s| ==> s[|r|] == '.'
  {
    if s == [] || s[0] == '.' then [] else [s[0]] + UpToDot(s[1..])
  }

  /** `s.split('.')[1]`: the piece between the first and the second `.`, or
      `None` (`undefined`) when `s` has no `.`. */
  function SecondPiece(s: string): (r: Option<string>)
    ensures r.None? <==> '.' !in s
  {
    if s == [] then None
    else if s[0] == '.' then Some(UpToDot(s[1..]))
    else SecondPiece(s[1..])
  }

  /** Whether `add_power_entity` is on and `power_entity` is a non-empty
      string (the truthiness test of the adapter). */
  predicate UsesPowerSetting(settings: Settings)
  {
    settings.addPowerEntity && settings.powerEntity.Some? && settings.powerEntity.value != ""
  }

  /** The id of the companion power entity: the `power_entity` setting when
      `add_power_entity` is on and the setting is non-empty, otherwise
      `climate.<object id>_power`, with `undefined` standing in for a missing
      object id. */
  function PowerEntityId(entityId: string, settings: Settings): (id: string)
    ensures UsesPowerSetting(settings) ==> id == settings.powerEntity.value
    ensures !UsesPowerSetting(settings) ==>
      |id| >= |"climate._power"| && id[..8] == "climate." && id[|id| - 6..] == "_power"
    ensures !UsesPowerSetting(settings) && '.' !in entityId ==> id == "climate.undefined_power"
  {
    if UsesPowerSetting(settings) then
      settings.powerEntity.value
    else
      var objectId := match SecondPiece(entityId) case Some(p) => p case None => "undefined";
      "climate." + objectId + "_power"
  }

  /** `UpToDot` finds the object id before a following `.` or the end. */
  lemma {:induction false} UpToDotOfPrefix(o: string, tail: string)
    requires '.' !in o
    requires tail == [] || tail[0] == '.'
    ensures UpToDot(o + tail) == o
  {
    if o == [] {
    } else {
      assert (o + tail)[1..] == o[1..] + tail;
      UpToDotOfPrefix(o[1..], tail);
    }
  }

  /** For an entity id `<domain>.<object id>` (optionally followed by a
      further `.` part), the default power entity is
      `climate.<object id>_power`, whatever the domain. */
  lemma {:induction false} DefaultPowerEntity(domain: string, o: string, tail: string, settings: Settings)
    requires '.' !in domain && '.' !in o
    requires tail == [] || tail[0] == '.'
    requires !UsesPowerSetting(settings)
    ensures PowerEntityId(domain + "." + o + tail, settings) == "climate." + o + "_power"
  {
    assert domain + "." + o + tail == domain + "." + (o + tail);
    SecondPieceAfterDomain(domain, o + tail);
    UpToDotOfPrefix(o, tail);
  }

  lemma {:induction false} SecondPieceAfterDomain(domain: string, rest: string)
    requires '.' !in domain
    ensures SecondPiece(domain + "." + rest) == Some(UpToDot(rest))
  {
    if domain == [] {
      assert domain + "." + rest == ['.'] + rest;
    } else {
      assert (domain + "." + rest)[1..] == domain[1..] + "." + rest;
      SecondPieceAfterDomain(domain[1..], rest);
    }
  }

  // ----------------------------------------------------------------------
  // Outbound calls

  /** The call `callService("climate", service, {entity_id, [key]: value})`
      that every outbound handler issues. */
  function Command(entityId: string, service: string, key: string, value: Value): ServiceCall
  {
    ServiceCall("climate", service, map["entity_id" := Str(entityId), key := value])
  }

  // ----------------------------------------------------------------------
  // The device

  class ClimateDevice {
    const entityId: string
    var settings: Settings
    var capabilities: set<Capability>
    /** The current value of each capability the adapter has written. */
    var values: map<Capability, Value>
    /** The enumerated options pushed to each mode capability. */
    var enumLists: map<Capability, Value>
    var modesHvac: Value
    var modesFan: Value
    var modesPreset: Value
    var modesSwing: Value
    /** Every service call issued, oldest first. */
    var calls: seq<ServiceCall>

    /** No mode cache is ever null: each starts as an empty list and is only
        replaced by a defined attribute. */
    predicate Valid()
      reads this
    {
      modesHvac != Null && modesFan != Null && modesPreset != Null && modesSwing != Null
    }

    /** A freshly initialised device: all four mode caches are empty lists,
        nothing has been written and no call issued. */
    constructor(entityId: string, settings: Settings, capabilities: set<Capability>)
      ensures Valid()
      ensures this.entityId == entityId && this.settings == settings && this.capabilities == capabilities
      ensures values == map[] && enumLists == map[] && calls == []
      ensures modesHvac == List([]) && modesFan == List([]) && modesPreset == List([]) && modesSwing == List([])
    {
      this.entityId := entityId;
      this.settings := settings;
      this.capabilities := capabilities;
      values := map[];
      enumLists := map[];
      modesHvac := List([]);
      modesFan := List([]);
      modesPreset := List([]);
      modesSwing := List([]);
      calls := [];
    }

    /** Adds `button.reconnect` and `climate_on` when missing. */
    method UpdateCapabilities()
      modifies this`capabilities
      ensures capabilities == old(capabilities) + {ButtonReconnect, ClimateOn}
    {
      if ButtonReconnect !in capabilities {
        capabilities := capabilities + {ButtonReconnect};
      }
      if ClimateOn !in capabilities {
        capabilities := capabilities + {ClimateOn};
      }
    }

    /** The id of the companion power entity under the current settings. */
    function GetPowerEntityId(): string
      reads this
    {
      PowerEntityId(entityId, settings)
    }

    /** The inbound pass, under the hub's temperature unit `unit`. An event
        that does not name this entity changes nothing. Otherwise the
        capability values, the four caches and the enumerated options move
        to what the specification functions above describe. */
    method OnEntityUpdate(data: Option<Event>, unit: Option<string>)
      requires Valid()
      modifies this`values, this`enumLists, this`modesHvac, this`modesFan, this`modesPreset, this`modesSwing
      ensures Valid()
      ensures !Addressed(data, entityId) ==>
        values == old(values) && enumLists == old(enumLists) &&
        modesHvac == old(modesHvac) && modesFan == old(modesFan) &&
        modesPreset == old(modesPreset) && modesSwing == old(modesSwing)
      ensures Addressed(data, entityId) ==>
        values == Project(old(values), capabilities, data.value, unit) &&
        enumLists == ListsAfter(old(enumLists), data.value, old(modesHvac), old(modesFan), old(modesPreset), old(modesSwing)) &&
        modesHvac == NextCache(Attr(data.value, "hvac_modes"), old(modesHvac)) &&
        modesFan == NextCache(Attr(data.value, "fan_modes"), old(modesFan)) &&
        modesPreset == NextCache(Attr(data.value, "preset_modes"), old(modesPreset)) &&
        modesSwing == NextCache(Attr(data.value, "swing_modes"), old(modesSwing))
    {
      if !Addressed(data, entityId) {
        return;
      }
      var e := data.value;
      UpdateReadings(e, unit);
      UpdateModeLists(e);
      UpdateModes(e, unit);
    }

    // -- Inbound steps, in the order of the source pass

    /** Power, temperatures, humidity and action. */
    method UpdateReadings(e: Event, unit: Option<string>)
      modifies this`values
      ensures values == ReadingSteps(old(values), capabilities, e, unit)
    {
      ghost var v0 := values;
      UpdateClimateOn(e);
      WriteIgnoresUnit(v0, capabilities, e, unit, ClimateOn);
      UpdateMeasureTemperature(e, unit);
      UpdateTargetTemperature(e, unit);
      ghost var v3 := values;
      UpdateHumidity(e);
      WriteIgnoresUnit(v3, capabilities, e, unit, MeasureHumidity);
      ghost var v4 := values;
      UpdateAction(e);
      WriteIgnoresUnit(v4, capabilities, e, unit, ClimateAction);
    }

    /** The HVAC, fan, preset and swing modes. */
    method UpdateModes(e: Event, unit: Option<string>)
      modifies this`values
      ensures values == ModeSteps(old(values), capabilities, e, unit)
    {
      ghost var v5 := values;
      UpdateMode(e);
      WriteIgnoresUnit(v5, capabilities, e, unit, ClimateMode);
      ghost var v6 := values;
      UpdateFanMode(e);
      WriteIgnoresUnit(v6, capabilities, e, unit, ClimateModeFan);
      ghost var v7 := values;
      UpdatePresetMode(e);
      WriteIgnoresUnit(v7, capabilities, e, unit, ClimateModePreset);
      ghost var v8 := values;
      UpdateSwingMode(e);
      WriteIgnoresUnit(v8, capabilities, e, unit, ClimateModeSwing);
    }

    method UpdateClimateOn(e: Event)
      modifies this`values
      ensures values == Write(old(values), capabilities, e, None, ClimateOn)
    {
      if e.state.Some? {
        if e.state.value == "unavailable" || e.state.value == "off" {
          values := values[ClimateOn := Bool(false)];
        } else {
          values := values[ClimateOn := Bool(true)];
        }
      }
    }

    method UpdateMeasureTemperature(e: Event, unit: Option<string>)
      modifies this`values
      ensures values == Write(old(values), capabilities, e, unit, MeasureTemperature)
    {
      if Attr(e, "current_temperature") != Null && Attr(e, "current_temperature") != Str("unavailable") {
        var temp := Attr(e, "current_temperature");
        if unit == Some("°F") {
          temp := match ToNumber(temp) case Num(f) => Num((f - 32.0) * 5.0 / 9.0) case _ => NaN;
        }
        values := values[MeasureTemperature := temp];
      }
    }

    method UpdateTargetTemperature(e: Event, unit: Option<string>)
      modifies this`values
      ensures values == Write(old(values), capabilities, e, unit, TargetTemperature)
    {
      if TargetTemperature in capabilities && Attr(e, "temperature") != Null && Attr(e, "temperature") != Str("unavailable") {
        var temp := Attr(e, "temperature");
        if unit == Some("°F") {
          temp := match ToNumber(temp) case Num(f) => Num((f - 32.0) * 5.0 / 9.0) case _ => NaN;
        }
        values := values[TargetTemperature := temp];
      }
    }

    method UpdateHumidity(e: Event)
      modifies this`values
      ensures values == Write(old(values), capabilities, e, None, MeasureHumidity)
    {
      if MeasureHumidity in capabilities && Attr(e, "current_humidity") != Null &&
         Attr(e, "current_humidity") != Str("off") && Attr(e, "current_humidity") != Str("unavailable") {
        values := values[MeasureHumidity := Attr(e, "current_humidity")];
      }
    }

    method UpdateAction(e: Event)
      modifies this`values
      ensures values == Write(old(values), capabilities, e, None, ClimateAction)
    {
      if ClimateAction in capabilities && Attr(e, "hvac_action") != Null {
        values := values[ClimateAction := Attr(e, "hvac_action")];
      }
    }

    /** The four list steps: each cache and its capability's options follow
        their own attribute. */
    method UpdateModeLists(e: Event)
      modifies this`enumLists, this`modesHvac, this`modesFan, this`modesPreset, this`modesSwing
      ensures enumLists == ListsAfter(old(enumLists), e, old(modesHvac), old(modesFan), old(modesPreset), old(modesSwing))
      ensures modesHvac == NextCache(Attr(e, "hvac_modes"), old(modesHvac))
      ensures modesFan == NextCache(Attr(e, "fan_modes"), old(modesFan))
      ensures modesPreset == NextCache(Attr(e, "preset_modes"), old(modesPreset))
      ensures modesSwing == NextCache(Attr(e, "swing_modes"), old(modesSwing))
    {
      UpdateHvacModes(e);
      UpdateFanModes(e);
      UpdatePresetModes(e);
      UpdateSwingModes(e);
    }

    method UpdateHvacModes(e: Event)
      modifies this`modesHvac, this`enumLists
      ensures modesHvac == NextCache(Attr(e, "hvac_modes"), old(modesHvac))
      ensures enumLists == PushList(old(enumLists), Attr(e, "hvac_modes"), old(modesHvac), ClimateMode)
    {
      var modes := Attr(e, "hvac_modes");
      if modes != Null && (modes.List? || modes != modesHvac) {
        modesHvac := modes;
        enumLists := enumLists[ClimateMode := modes];
      }
    }

    method UpdateFanModes(e: Event)
      modifies this`modesFan, this`enumLists
      ensures modesFan == NextCache(Attr(e, "fan_modes"), old(modesFan))
      ensures enumLists == PushList(old(enumLists), Attr(e, "fan_modes"), old(modesFan), ClimateModeFan)
    {
      var modes := Attr(e, "fan_modes");
      if modes != Null && (modes.List? || modes != modesFan) {
        modesFan := modes;
        enumLists := enumLists[ClimateModeFan := modes];
      }
    }

    method UpdatePresetModes(e: Event)
      modifies this`modesPreset, this`enumLists
      ensures modesPreset == NextCache(Attr(e, "preset_modes"), old(modesPreset))
      ensures enumLists == PushList(old(enumLists), Attr(e, "preset_modes"), old(modesPreset), ClimateModePreset)
    {
      var modes := Attr(e, "preset_modes");
      if modes != Null && (modes.List? || modes != modesPreset) {
        modesPreset := modes;
        enumLists := enumLists[ClimateModePreset := modes];
      }
    }

    method UpdateSwingModes(e: Event)
      modifies this`modesSwing, this`enumLists
      ensures modesSwing == NextCache(Attr(e, "swing_modes"), old(modesSwing))
      ensures enumLists == PushList(old(enumLists), Attr(e, "swing_modes"), old(modesSwing), ClimateModeSwing)
    {
      var modes := Attr(e, "swing_modes");
      if modes != Null && (modes.List? || modes != modesSwing) {
        modesSwing := modes;
        enumLists := enumLists[ClimateModeSwing := modes];
      }
    }

    method UpdateMode(e: Event)
      modifies this`values
      ensures values == Write(old(values), capabilities, e, None, ClimateMode)
    {
      if e.state.Some? && e.state.value != "unavailable" {
        values := values[ClimateMode := Str(e.state.value)];
      }
    }

    method UpdateFanMode(e: Event)
      modifies this`values
      ensures values == Write(old(values), capabilities, e, None, ClimateModeFan)
    {
      if ClimateModeFan in capabilities && Attr(e, "fan_mode") != Null && Attr(e, "fan_mode") != Str("unavailable") {
        values := values[ClimateModeFan := Attr(e, "fan_mode")];
      }
    }

    method UpdatePresetMode(e: Event)
      modifies this`values
      ensures values == Write(old(values), capabilities, e, None, ClimateModePreset)
    {
      if ClimateModePreset in capabilities && Attr(e, "preset_mode") != Null && Attr(e, "preset_mode") != Str("unavailable") {
        values := values[ClimateModePreset := Attr(e, "preset_mode")];
      }
    }

    method UpdateSwingMode(e: Event)
      modifies this`values
      ensures values == Write(old(values), capabilities, e, None, ClimateModeSwing)
    {
      if ClimateModeSwing in capabilities && Attr(e, "swing_mode") != Null && Attr(e, "swing_mode") != Str("unavailable") {
        values := values[ClimateModeSwing := Attr(e, "preset_swing")];
      }
    }

    // -- Outbound projection: one service call per capability write

    method OnCapabilityClimateMode(value: Value) returns (handled: bool)
      modifies this`calls
      ensures handled
      ensures calls == old(calls) + [Command(entityId, "set_hvac_mode", "hvac_mode", value)]
    {
      calls := calls + [Command(entityId, "set_hvac_mode", "hvac_mode", value)];
      handled := true;
    }

    method OnCapabilityClimateModeFan(value: Value)
      modifies this`calls
      ensures calls == old(calls) + [Command(entityId, "set_fan_mode", "fan_mode", value)]
    {
      calls := calls + [Command(entityId, "set_fan_mode", "fan_mode", value)];
    }

    method OnCapabilityClimateModePreset(value: Value)
      modifies this`calls
      ensures calls == old(calls) + [Command(entityId, "set_preset_mode", "preset_mode", value)]
    {
      calls := calls + [Command(entityId, "set_preset_mode", "preset_mode", value)];
    }

    method OnCapabilityClimateModeSwing(value: Value)
      modifies this`calls
      ensures calls == old(calls) + [Command(entityId, "set_swing_mode", "swing_mode", value)]
    {
      calls := calls + [Command(entityId, "set_swing_mode", "swing_mode", value)];
    }

    method OnCapabilityTargetTemperature(value: Value)
      modifies this`calls
      ensures calls == old(calls) + [Command(entityId, "set_temperature", "temperature", value)]
    {
      calls := calls + [Command(entityId, "set_temperature", "temperature", value)];
    }

    // -- Flow actions and autocomplete lists

    method SetMode(mode: Value)
      modifies this`calls
      ensures calls == old(calls) + [Command(entityId, "set_hvac_mode", "hvac_mode", mode)]
    {
      var _ := OnCapabilityClimateMode(mode);
    }

    method SetModeFan(mode: Value)
      modifies this`calls
      ensures calls == old(calls) + [Command(entityId, "set_fan_mode", "fan_mode", mode)]
    {
      OnCapabilityClimateModeFan(mode);
    }

    method SetModePreset(mode: Value)
      modifies this`calls
      ensures calls == old(calls) + [Command(entityId, "set_preset_mode", "preset_mode", mode)]
    {
      OnCapabilityClimateModePreset(mode);
    }

    method SetModeSwing(mode: Value)
      modifies this`calls
      ensures calls == old(calls) + [Command(entityId, "set_swing_mode", "swing_mode", mode)]
    {
      OnCapabilityClimateModeSwing(mode);
    }

    /** The fan modes as `{id, name}` entries, in cache order. */
    method GetModesFanList() returns (result: seq<PickerOption>)
      ensures |result| == |Elements(modesFan)|
      ensures forall i :: 0 <= i < |result| ==> result[i] == PickerOption(Elements(modesFan)[i], Elements(modesFan)[i])
    {
      result := PickerOptions(Elements(modesFan));
    }

    /** The preset modes as `{id, name}` entries, in cache order. */
    method GetModesPresetList() returns (result: seq<PickerOption>)
      ensures |result| == |Elements(modesPreset)|
      ensures forall i :: 0 <= i < |result| ==> result[i] == PickerOption(Elements(modesPreset)[i], Elements(modesPreset)[i])
    {
      result := PickerOptions(Elements(modesPreset));
    }

    /** The swing modes as `{id, name}` entries, in cache order. */
    method GetModesSwingList() returns (result: seq<PickerOption>)
      ensures |result| == |Elements(modesSwing)|
      ensures forall i :: 0 <= i < |result| ==> result[i] == PickerOption(Elements(modesSwing)[i], Elements(modesSwing)[i])
    {
      result := PickerOptions(Elements(modesSwing));
    }
  }

  // ----------------------------------------------------------------------
  // Commands and their echoes

  /** The hub echoes a commanded HVAC mode back as the entity's state; the
      inbound pass then shows exactly the commanded mode, unless the mode is
      `unavailable`. */
  lemma ModeCommandEcho(values: map<Capability, Value>, caps: set<Capability>, id: string, mode: string,
                        attrs: map<string, Value>, unit: Option<string>)
    requires mode != "unavailable"
    ensures var call := Command(id, "set_hvac_mode", "hvac_mode", Str(mode));
      Project(values, caps, Event(Some(id), Some(mode), attrs), unit)[ClimateMode] == call.data["hvac_mode"]
  {
    StateProjection(values, caps, Event(Some(id), Some(mode), attrs), unit);
  }

  /** The commanded target temperature is sent as it is. When the hub echoes
      it as the `temperature` attribute, the inbound pass shows the commanded
      value again under any unit but `°F`; under `°F` it shows the value read
      as Fahrenheit and converted, since the outbound direction does not
      convert back. */
  lemma TargetTemperatureEcho(values: map<Capability, Value>, caps: set<Capability>, id: string, e: Event,
                              target: real, unit: Option<string>)
    requires TargetTemperature in caps
    requires Attr(e, "temperature") == Command(id, "set_temperature", "temperature", Num(target)).data["temperature"]
    ensures unit != Some("°F") ==> Project(values, caps, e, unit)[TargetTemperature] == Num(target)
    ensures unit == Some("°F") ==> Project(values, caps, e, unit)[TargetTemperature] == Num(FahrenheitToCelsius(target))
  {
    TemperatureProjection(values, caps, e, unit);
  }
}
