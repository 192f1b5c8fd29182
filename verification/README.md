# Media-player and climate device adapters, modelled in Dafny

The adapters bind a local smart-home device to an entity of a home-automation
hub. Each adapter works in two directions:

- **Inbound projection** (`onEntityUpdate`). An entity event carries
  `entity_id`, `state` and `attributes`. The adapter applies it to the
  device's capability values, to its key/value store (media) or to its
  mode-list caches and the enumerated options of the mode capabilities
  (climate).
- **Outbound projection** (`_onCapability*` and the flow actions). One
  capability write becomes exactly one hub service call: a domain, a service
  and a payload that always carries `entity_id`.

The project has three modules:

- `Hub` (`hub.dfy`) holds what both adapters share:
  - JavaScript values as the `Value` datatype. `Null` stands for both `null`
    and `undefined`.
  - Entity events, service calls and `{id, name}` picker entries.
  - JavaScript's numeric coercion (`ToNumber`).
  - The counting loop that turns a list into picker entries (`PickerOptions`).
- `Media` (`media.dfy`) is the media-player adapter.
  - Pure functions give the volume arithmetic and the repeat and on/off
    mappings.
  - One rule per capability says what the inbound pass writes.
  - `Project` composes those rules in the adapter's order, and `StoreLists`
    gives the store after a pass.
  - The `MediaDevice` class holds the state: the capability set, the value
    map, the store and the call log.
  - `MediaDevice.OnEntityUpdate` performs the pass step by step. It is proved
    equal to `Project` and `StoreLists`. The outbound methods each append one
    call to the log.
- `Climate` (`climate.dfy`) is the climate adapter, organised the same way.
  - The `ClimateDevice` class additionally holds the four caches `modesHvac`,
    `modesFan`, `modesPreset` and `modesSwing`. It also holds `enumLists`,
    the options pushed to each mode capability.
  - The hub's temperature unit (`unit_system.temperature`) is a parameter of
    the pass. `Some("°F")` selects the Fahrenheit-to-Celsius conversion.
  - The power-entity id is computed by `PowerEntityId` from the entity id and
    the device settings.

Behaviour that follows the code rather than a plain-language reading of it:

- The media pass runs for any event that has an `entity_id`, whichever entity
  it names. The climate pass runs only for an event whose non-empty
  `entity_id` equals the device's own.
- `measure_temperature`, `climate_on` and `climate_mode` are written without
  checking that the device has the capability. Every other inbound write is
  gated on the capability.
- The swing step is guarded by `swing_mode` but writes `preset_swing`. That
  value is `undefined` when the hub does not send the attribute.
- The outbound repeat call sends the mode under the key `is_volume_muted`.
- The default power entity is `"climate." + entityId.split('.')[1] + "_power"`.
  The middle part is the piece between the first and the second `.`, not
  everything after the first `.`. An id without a `.` yields
  `climate.undefined_power`.
- A mode-list attribute is compared with its cache by reference. A list
  attribute is a freshly decoded array, so it always replaces the cache and
  is pushed again as the options of its capability, even when its contents
  are unchanged.
- A target temperature is commanded as it is. Under `°F` the echoed
  `temperature` attribute is read back as Fahrenheit and converted, so the
  capability does not show the commanded number again
  (`Climate.TargetTemperatureEcho`).

## Model

| member | source | states |
|---|---|---|
| Hub.ToNumber | drivers/climate/device.js:96 | numeric coercion gives a number or NaN, and leaves a number as it is |
| Hub.Elements | drivers/media/device.js:357 | defines what iterating a value visits: a list's elements, a string's characters, nothing for anything else |
| Hub.PickerOptions | drivers/media/device.js:356-363 | the picker list has one `{id, name}` entry per list element, both fields equal to that element, in order |
| Media.Round2 | drivers/media/device.js:244 | rounding to hundredths moves a level by at most half a hundredth and yields a whole number of hundredths |
| Media.Round2Idempotent | drivers/media/device.js:244 | rounding an already rounded level changes nothing |
| Media.RoundVolume | drivers/media/device.js:243-244 | the rounded volume is a number exactly when the input coerces to one, and lies within half a hundredth of it |
| Media.VolumeEchoIsStable | drivers/media/device.js:93-96 | a commanded level echoed back by the hub is stored unchanged, since rounding twice equals rounding once |
| Media.VolumeUpLevel | drivers/media/device.js:251-257 | volume up gives the current level plus 0.05, capped at 1; it never exceeds either bound |
| Media.VolumeDownLevel | drivers/media/device.js:260-266 | volume down gives the current level minus 0.05, floored at 0; it never goes below either bound |
| Media.VolumeStepsStayInRange | drivers/media/device.js:251-267 | from a level in [0, 1], up does not decrease the level, down does not increase it, and the rounded command stays in [0, 1] |
| Media.RepeatFromHub | drivers/media/device.js:117-136 | the inbound repeat mapping is total, gives `track` exactly for `one` and `playlist` exactly for `all`, and `none` for anything else |
| Media.RepeatToHub | drivers/media/device.js:316-329 | the outbound repeat mapping gives `one` exactly for `track` and `all` exactly for `playlist`, and `off` for anything else |
| Media.RepeatRoundTrip | drivers/media/device.js:117-136 | the inbound and outbound repeat mappings are inverse to each other on the three modes each side knows |
| Media.IsOnState | drivers/media/device.js:168-184 | a player state counts as on exactly when it is `on`, `idle`, `playing`, `paused` or `buffering` |
| Media.VolumeInbound | drivers/media/device.js:93-96 | defines the `volume_set` rule: `volume_level` rounded to hundredths, when present |
| Media.MuteInbound | drivers/media/device.js:97-99 | defines the `volume_mute` rule: `is_volume_muted`, when present |
| Media.PlayingInbound | drivers/media/device.js:100-108 | defines the `speaker_playing` rule: whether the state is `playing`, when there is a state |
| Media.ShuffleInbound | drivers/media/device.js:109-116 | defines the `speaker_shuffle` rule: `shuffle`, or `false` when absent |
| Media.RepeatInbound | drivers/media/device.js:117-136 | defines the `speaker_repeat` rule: the mapped `repeat` mode |
| Media.ArtistInbound | drivers/media/device.js:137-144 | defines the `speaker_artist` rule: `media_artist`, or `""` when absent |
| Media.AlbumInbound | drivers/media/device.js:145-152 | defines the `speaker_album` rule: `media_album_name`, else `app_name`, else no write |
| Media.TrackInbound | drivers/media/device.js:153-160 | defines the `speaker_track` rule: `media_title`, or `""` when absent |
| Media.DurationInbound | drivers/media/device.js:161-163 | defines the `speaker_duration` rule: `media_duration`, when present |
| Media.PositionInbound | drivers/media/device.js:164-166 | defines the `speaker_position` rule: `media_position`, when present |
| Media.OnOffInbound | drivers/media/device.js:168-184 | defines the `onoff` rule: whether the state is a switched-on state, when there is a state |
| Media.Inbound | drivers/media/device.js:93-184 | defines which rule belongs to which capability |
| Media.Write | drivers/media/device.js:93-184 | defines one step: a capability the device has takes its rule's value when the rule gives one |
| Media.Project | drivers/media/device.js:93-184 | defines the pass as the steps in the adapter's order |
| Media.ProjectAt | drivers/media/device.js:93-184 | after a pass, a capability holds its rule's value exactly when the device has it and the event supplies one; otherwise it keeps its value or its absence |
| Media.AbsentCapabilityUntouched | drivers/media/device.js:93-184 | the pass never writes a capability the device lacks |
| Media.PlaybackProjection | drivers/media/device.js:100-184 | `speaker_playing` is true exactly for `playing`; `onoff` is true exactly for the switched-on states; `speaker_repeat` always gets one of its three modes, `none` when the attribute is absent |
| Media.MetadataDefaults | drivers/media/device.js:109-160 | shuffle, artist and track default to `false`, `""` and `""`; the album falls back to `app_name` and otherwise keeps its value |
| Media.VolumeProjection | drivers/media/device.js:93-96 | `volume_set` receives `volume_level` rounded to hundredths, a value that rounding leaves fixed |
| Media.StoreLists | drivers/media/device.js:185-200 | the pass writes the four store keys unconditionally and leaves all other keys alone; each list is stored as the encoded attribute, or `''` when the attribute is absent, and each "can select" flag is set exactly when its list attribute is present |
| Media.StoredList | drivers/media/device.js:339-355 | defines how a stored list is read back: `[]` unless the flag is `true`, else the decoded JSON, else the comma-separated pieces |
| Media.SplitComma | drivers/media/device.js:350 | splitting at commas gives at least one piece and no piece contains a comma |
| Media.SplitCommaJoins | drivers/media/device.js:350 | joining the pieces with commas gives the text back |
| Media.StoredListsAfterUpdate | drivers/media/device.js:185-200 | after a pass, the stored source list reads back as `[]` when `source_list` was absent and as the elements of `L` when it was `L`; likewise for sound modes |
| Media.MediaDevice.constructor | drivers/media/device.js:7-10 | a restored device keeps its capability set, its persisted capability values and its store as given, and has issued no call |
| Media.MediaDevice.UpdateCapabilities | drivers/media/device.js:71-82 | `button.reconnect` is added to the capability set and nothing else changes |
| Media.MediaDevice.OnEntityUpdate | drivers/media/device.js:85-223 | a null event or one without `entity_id` changes nothing; any other event moves the values to `Project` of the old ones and the store to `StoreLists` of the old one |
| Media.MediaDevice.UpdateVolume | drivers/media/device.js:93-96 | the volume step writes the rounded `volume_level` exactly when the device has `volume_set` and the level is present |
| Media.MediaDevice.UpdateMute | drivers/media/device.js:97-99 | the mute step writes `is_volume_muted` exactly when the device has `volume_mute` and the attribute is present |
| Media.MediaDevice.UpdatePlaying | drivers/media/device.js:100-108 | the playing step writes whether the state is `playing`, when the device has `speaker_playing` and there is a state |
| Media.MediaDevice.UpdateShuffle | drivers/media/device.js:109-116 | the shuffle step writes `shuffle`, or `false` when it is absent |
| Media.MediaDevice.UpdateRepeat | drivers/media/device.js:117-136 | the repeat step writes the mapped repeat mode |
| Media.MediaDevice.UpdateArtist | drivers/media/device.js:137-144 | the artist step writes `media_artist`, or `""` when it is absent |
| Media.MediaDevice.UpdateAlbum | drivers/media/device.js:145-152 | the album step writes `media_album_name`, else `app_name`, else nothing |
| Media.MediaDevice.UpdateTrack | drivers/media/device.js:153-160 | the track step writes `media_title`, or `""` when it is absent |
| Media.MediaDevice.UpdateDuration | drivers/media/device.js:161-163 | the duration step writes `media_duration` when it is present |
| Media.MediaDevice.UpdatePosition | drivers/media/device.js:164-166 | the position step writes `media_position` when it is present |
| Media.MediaDevice.UpdateOnOff | drivers/media/device.js:168-184 | the on/off step writes whether the state is a switched-on state, when there is a state |
| Media.MediaDevice.OnCapabilityOnOff | drivers/media/device.js:226-239 | appends exactly one `turn_on` or `turn_off` call for the entity |
| Media.MediaDevice.OnCapabilityVolumeSet | drivers/media/device.js:241-249 | appends exactly one `volume_set` call with the level rounded to hundredths |
| Media.MediaDevice.CurrentVolume | drivers/media/device.js:252 | defines the current `volume_set` value that the volume steps start from, `undefined` when unset |
| Media.MediaDevice.OnCapabilityVolumeUp | drivers/media/device.js:251-258 | appends exactly one `volume_set` call for the current level plus one step, capped at 1, then rounded |
| Media.MediaDevice.OnCapabilityVolumeDown | drivers/media/device.js:260-267 | appends exactly one `volume_set` call for the current level minus one step, floored at 0, then rounded |
| Media.MediaDevice.OnCapabilityVolumeMute | drivers/media/device.js:269-276 | appends exactly one `volume_mute` call carrying the value |
| Media.MediaDevice.OnCapabilitySpeakerPlaying | drivers/media/device.js:278-291 | appends exactly one `media_play` or `media_pause` call |
| Media.MediaDevice.OnCapabilitySpeakerNext | drivers/media/device.js:293-298 | appends exactly one `media_next_track` call |
| Media.MediaDevice.OnCapabilitySpeakerPrev | drivers/media/device.js:300-305 | appends exactly one `media_previous_track` call |
| Media.MediaDevice.OnCapabilitySpeakerShuffle | drivers/media/device.js:307-314 | appends exactly one `shuffle_set` call carrying the value |
| Media.MediaDevice.OnCapabilitySpeakerRepeat | drivers/media/device.js:316-335 | appends exactly one `repeat_set` call with the mapped mode under the key `is_volume_muted` |
| Media.MediaDevice.GetSourceList | drivers/media/device.js:338-368 | returns one `{id, name}` entry per element of the stored source list, in order, and `[]` unless the flag is `true` |
| Media.MediaDevice.GetSoundModeList | drivers/media/device.js:383-413 | returns one `{id, name}` entry per element of the stored sound-mode list, in order, and `[]` unless the flag is `true` |
| Media.MediaDevice.ReadList | drivers/media/device.js:339-363 | reads the stored list as decoded JSON, or as comma-separated text, and returns its picker entries |
| Media.MediaDevice.SetSource | drivers/media/device.js:370-381 | appends exactly one `select_source` call carrying the source |
| Media.MediaDevice.SetSoundMode | drivers/media/device.js:415-426 | appends exactly one `select_sound_mode` call carrying the mode |
| Climate.FahrenheitToCelsius | drivers/climate/device.js:96 | the converted temperature converts back to the Fahrenheit reading, and is below zero exactly when the reading is below 32 |
| Climate.Temperature | drivers/climate/device.js:94-97 | under `°F` the value is converted to Celsius (NaN for a non-number); under any other unit it passes through unchanged |
| Climate.Addressed | drivers/climate/device.js:77 | defines when the pass runs: an event with a non-empty `entity_id` equal to the device's own |
| Climate.OnInbound | drivers/climate/device.js:84-91 | defines the `climate_on` rule: false for `unavailable` or `off`, true for any other state |
| Climate.TemperatureInbound | drivers/climate/device.js:92-108 | defines the temperature rules: the attribute converted for the unit, unless absent or `unavailable` |
| Climate.HumidityInbound | drivers/climate/device.js:109-114 | defines the `measure_humidity` rule: `current_humidity` unless absent, `off` or `unavailable` |
| Climate.ActionInbound | drivers/climate/device.js:115-118 | defines the `climate_action` rule: `hvac_action`, when present |
| Climate.ModeInbound | drivers/climate/device.js:140-146 | defines the `climate_mode` rule: the state unless absent or `unavailable` |
| Climate.ScalarModeInbound | drivers/climate/device.js:147-156 | defines the fan and preset rules: the attribute unless absent or `unavailable` |
| Climate.SwingInbound | drivers/climate/device.js:157-161 | defines the swing rule: guarded by `swing_mode`, writes `preset_swing` |
| Climate.Inbound | drivers/climate/device.js:84-161 | defines which rule belongs to which capability |
| Climate.Write | drivers/climate/device.js:84-161 | defines one step: the rule's value is written when it gives one and the capability is ungated or present |
| Climate.Project | drivers/climate/device.js:84-161 | defines the pass as the steps in the adapter's order |
| Climate.WriteIgnoresUnit | drivers/climate/device.js:84-161 | only the two temperature steps depend on the temperature unit |
| Climate.ProjectAt | drivers/climate/device.js:84-161 | after a pass, a capability holds its rule's value exactly when its step applies; otherwise it keeps its value or its absence |
| Climate.AbsentCapabilityUntouched | drivers/climate/device.js:100-161 | a gated capability the device lacks is never written |
| Climate.StateProjection | drivers/climate/device.js:84-91 | with a state, `climate_on` is false exactly for `unavailable` and `off`; `climate_mode` becomes the state unless it is `unavailable`; without a state both keep their values |
| Climate.TemperatureProjection | drivers/climate/device.js:92-108 | `measure_temperature` gets the converted `current_temperature` whatever the capability set; `target_temperature` gets the converted `temperature` only if the device has it; both are skipped for absent or `unavailable` |
| Climate.HumidityAndActionProjection | drivers/climate/device.js:109-118 | humidity is written exactly when present and neither `off` nor `unavailable` (and gated); action is written when present (and gated) |
| Climate.ModeProjection | drivers/climate/device.js:147-161 | fan and preset modes pass through when present and not `unavailable`; the swing mode, guarded by `swing_mode`, receives `preset_swing`, `undefined` when that attribute is missing |
| Climate.Replaces | drivers/climate/device.js:121-137 | defines when an attribute replaces its cache: present, and either a freshly decoded list or different from the cache |
| Climate.NextCache | drivers/climate/device.js:121-137 | the new cache is the old one when the attribute is absent and the attribute otherwise; a list attribute always replaces it |
| Climate.PushList | drivers/climate/device.js:121-137 | defines one list step: a replacing list becomes its capability's options |
| Climate.ListsAfter | drivers/climate/device.js:121-137 | defines the four list steps in the adapter's order |
| Climate.ListsAfterAt | drivers/climate/device.js:121-137 | each mode capability's options become its attribute list exactly when that list replaces its own cache; all other options are unchanged |
| Climate.UpToDot | drivers/climate/device.js:63 | the piece before the first `.` is a dot-free prefix, followed by a `.` or the end |
| Climate.SecondPiece | drivers/climate/device.js:63 | `split('.')[1]` is undefined exactly when the id has no `.` |
| Climate.UsesPowerSetting | drivers/climate/device.js:59 | defines when the setting wins: `add_power_entity` on and `power_entity` set and non-empty |
| Climate.PowerEntityId | drivers/climate/device.js:56-71 | the non-empty `power_entity` setting wins when `add_power_entity` is on; otherwise the id has the form `climate.…_power`, and is `climate.undefined_power` for an entity id without a `.` |
| Climate.UpToDotOfPrefix | drivers/climate/device.js:63 | the piece before the first `.` of `o` followed by `.`-text or nothing is `o` |
| Climate.SecondPieceAfterDomain | drivers/climate/device.js:63 | for a dot-free domain, `split('.')[1]` of `domain.rest` is the piece of `rest` before its first `.` |
| Climate.DefaultPowerEntity | drivers/climate/device.js:56-66 | when the setting does not win, for `domain.object_id` (optionally followed by `.…`), the power entity is `climate.object_id_power` |
| Climate.ClimateDevice.Valid | drivers/climate/device.js:12-15 | defines the invariant that none of the four mode caches is null |
| Climate.ClimateDevice.constructor | drivers/climate/device.js:7-15 | a new device has four empty mode caches, so it is `Valid`, and no values, no options and no calls |
| Climate.ClimateDevice.GetPowerEntityId | drivers/climate/device.js:56-71 | defines the device's power entity as `PowerEntityId` of its entity id and settings |
| Climate.ClimateDevice.UpdateCapabilities | drivers/climate/device.js:39-54 | `button.reconnect` and `climate_on` are added to the capability set |
| Climate.ClimateDevice.OnEntityUpdate | drivers/climate/device.js:74-168 | an event not addressed to this entity changes nothing; otherwise values, options and each cache move to `Project`, `ListsAfter` and `NextCache` of the old state; the caches stay non-null |
| Climate.ClimateDevice.UpdateReadings | drivers/climate/device.js:84-118 | the power, temperature, humidity and action steps, in order |
| Climate.ClimateDevice.UpdateModes | drivers/climate/device.js:140-161 | the HVAC, fan, preset and swing mode steps, in order |
| Climate.ClimateDevice.UpdateClimateOn | drivers/climate/device.js:84-91 | with a state, writes `climate_on` false for `unavailable` or `off` and true otherwise |
| Climate.ClimateDevice.UpdateMeasureTemperature | drivers/climate/device.js:92-99 | writes the converted `current_temperature` unless absent or `unavailable`, without a capability check |
| Climate.ClimateDevice.UpdateTargetTemperature | drivers/climate/device.js:100-108 | writes the converted `temperature` when the device has the capability and the value is usable |
| Climate.ClimateDevice.UpdateHumidity | drivers/climate/device.js:109-114 | writes `current_humidity` when gated and neither absent, `off` nor `unavailable` |
| Climate.ClimateDevice.UpdateAction | drivers/climate/device.js:115-118 | writes `hvac_action` when gated and present |
| Climate.ClimateDevice.UpdateModeLists | drivers/climate/device.js:120-137 | the four list steps: each cache and its capability's options follow their own attribute |
| Climate.ClimateDevice.UpdateHvacModes | drivers/climate/device.js:121-124 | a replacing `hvac_modes` becomes the cache and the options of `climate_mode` |
| Climate.ClimateDevice.UpdateFanModes | drivers/climate/device.js:126-129 | a replacing `fan_modes` becomes the cache and the options of `climate_mode_fan` |
| Climate.ClimateDevice.UpdatePresetModes | drivers/climate/device.js:130-133 | a replacing `preset_modes` becomes the cache and the options of `climate_mode_preset` |
| Climate.ClimateDevice.UpdateSwingModes | drivers/climate/device.js:134-137 | a replacing `swing_modes` becomes the cache and the options of `climate_mode_swing` |
| Climate.ClimateDevice.UpdateMode | drivers/climate/device.js:140-146 | writes the state to `climate_mode` unless absent or `unavailable`, without a capability check |
| Climate.ClimateDevice.UpdateFanMode | drivers/climate/device.js:147-151 | writes `fan_mode` when gated and neither absent nor `unavailable` |
| Climate.ClimateDevice.UpdatePresetMode | drivers/climate/device.js:152-156 | writes `preset_mode` when gated and neither absent nor `unavailable` |
| Climate.ClimateDevice.UpdateSwingMode | drivers/climate/device.js:157-161 | writes `preset_swing` when gated and `swing_mode` is neither absent nor `unavailable` |
| Climate.ClimateDevice.OnCapabilityClimateMode | drivers/climate/device.js:171-179 | appends exactly one `set_hvac_mode` call with the value under `hvac_mode`, and reports the write handled |
| Climate.ClimateDevice.OnCapabilityClimateModeFan | drivers/climate/device.js:181-187 | appends exactly one `set_fan_mode` call with the value under `fan_mode` |
| Climate.ClimateDevice.OnCapabilityClimateModePreset | drivers/climate/device.js:189-195 | appends exactly one `set_preset_mode` call with the value under `preset_mode` |
| Climate.ClimateDevice.OnCapabilityClimateModeSwing | drivers/climate/device.js:197-203 | appends exactly one `set_swing_mode` call with the value under `swing_mode` |
| Climate.ClimateDevice.OnCapabilityTargetTemperature | drivers/climate/device.js:205-211 | appends exactly one `set_temperature` call with the value under `temperature` |
| Climate.ClimateDevice.SetMode | drivers/climate/device.js:214-216 | the flow action issues the same single call as a `climate_mode` write |
| Climate.ClimateDevice.SetModeFan | drivers/climate/device.js:234-236 | the flow action issues the same single call as a `climate_mode_fan` write |
| Climate.ClimateDevice.SetModePreset | drivers/climate/device.js:254-256 | the flow action issues the same single call as a `climate_mode_preset` write |
| Climate.ClimateDevice.SetModeSwing | drivers/climate/device.js:274-276 | the flow action issues the same single call as a `climate_mode_swing` write |
| Climate.ClimateDevice.GetModesFanList | drivers/climate/device.js:218-232 | one `{id, name}` entry per element of the fan-mode cache, in order |
| Climate.ClimateDevice.GetModesPresetList | drivers/climate/device.js:238-252 | one `{id, name}` entry per element of the preset-mode cache, in order |
| Climate.ClimateDevice.GetModesSwingList | drivers/climate/device.js:258-272 | one `{id, name}` entry per element of the swing-mode cache, in order |
| Climate.Command | drivers/climate/device.js:171-211 | defines the `climate` service call with `entity_id` and one payload key, shared by the outbound methods and the echo lemmas |
| Climate.ModeCommandEcho | drivers/climate/device.js:140-146 | the `hvac_mode` of the call `climate_mode` issues, echoed back as the state, is exactly what `climate_mode` then shows (unless `unavailable`) |
| Climate.TargetTemperatureEcho | drivers/climate/device.js:100-108 | the `temperature` of the call `target_temperature` issues, echoed back, shows the commanded number under any unit but `°F`; under `°F` it shows that number converted from Fahrenheit |

## Left out

- Listener registration in `onInit`, `clientReconnect` and the `button.reconnect` listener, `onSettings` and `connectPowerEntity` are not modelled. They are plumbing of the host framework.
- The `BaseDevice` superclass is not part of this model. That includes `super.onEntityUpdate`, which the climate pass calls first.
- `setCapabilityEnumList` is also a `BaseDevice` member. It is modelled as recording the list as the capability's options.
- The transport behind `callService` is not modelled. Every call is appended to the call log and succeeds.
- Host-side failures are not modelled. A rejected `setCapabilityValue`, `setStoreValue` or `addCapability` never happens in the model. So the model does not show the media pass's single `try` block, where the first failure skips all remaining steps. Nor does it show the climate pass's outer `try`, or the swallowed failure of the `climate_mode` write.
- `async`/`await` ordering and concurrent events are left out. That includes the two media writes that are not awaited (`volume_mute`, `speaker_artist`).
- The input and output converters of `volume_set` are taken to be the identity.
- `JSON.stringify`/`JSON.parse` are an encode/decode pair that round-trips. A stored list is kept as the value it encodes.
- Text that is not JSON is taken to go to the comma split. So text that happens to be valid JSON, and `JSON.parse` of a list that is not an array, are not modelled.
- Real arithmetic replaces IEEE doubles. So `Math.round(x * 100) / 100` and `(t - 32) * 5 / 9` are exact.
- JavaScript's numeric coercion of strings is not modelled. A numeric string becomes NaN where the adapters do arithmetic. A string volume plus 0.05 (string concatenation) also ends as NaN, as it does after the adapter's own rounding.
- Loose equality (`==`, `!=`) is modelled as value equality against `null`/`undefined` and string literals. The only exception is the reference comparison of the mode lists.
  - Coercions between arrays, numbers and strings are not modelled, for example `["off"] != "off"` being false.
- A stored "can select" flag that is not a boolean is not modelled either. It is only ever written as a boolean.
- An event without an `attributes` object is not modelled. The adapters would throw on it inside their `try`, and every event in the model has attributes.
- Climate reads the temperature unit from `getClient().getConfig().unit_system`. The model takes that unit as a parameter.
  - A configuration without `unit_system`, which would abort the pass when a temperature is present, is not modelled.
- The failure paths of `getPowerEntityId` (settings unset) and of `getModes*List` are not modelled. For the latter, `ClimateDevice.Valid` states that a cache is never null, and the constructor and the pass keep it.
- The commented-out cover-art code of the media pass is not modelled.
