# Relay controller firmware core, in Dafny

This project models the ESP32 relay controller in `firmware/esp32/src/main.cpp`. The controller drives four relay channels through a co-processor, and its state is the global `mySettings`:

- five per-channel configuration arrays:
  - duty cycle `dc`, in percent
  - duty period `dr`, in seconds
  - fail-safe duty cycle `dcfs` and fail-safe period `drfs`
  - relay pin `relayPin`
- three per-channel scheduler arrays:
  - relay level `dutyState`
  - time of the last transition `dutyCounter`
  - change-not-yet-reported flag `publishSwitch`
- four scalars:
  - polarity `ON`, the level that means "on"
  - device telemetry `fTeleDev`
  - `publishInterval`
  - `lastUpdated`

The model covers these parts of the firmware:

- **the duty-cycle scheduler `dutyRuntime`**: each channel with a duty cycle strictly between 0 and 100 alternates between an ON phase of `dc*dr*10` ms and an OFF phase of `(100-dc)*dr*10` ms. Elapsed time is measured in 32-bit unsigned arithmetic. The duty cycle is never clamped: above 100 the OFF phase has a negative length, so an OFF channel turns ON again at the next tick; at 100 an ON channel stays on.
- **the switch actuator `setSwitch`** and the remote procedures around it, `setSwitch` (`processSetSwitch`) and `getSwitchCh1..4` (`processGetSwitch`).
- **the publish flush `publishSwitch`**: one telemetry message per raised flag.
- **settings persistence**: `saveSettings`, `loadSettings`, `processSaveSettings`.
- **the attribute sync**: the inbound partial update `processSharedAttributesUpdate` and the three settings chunks of `syncClientAttributes`.

The layout:

- `types.dfy`: the data model. It holds machine integers, JSON values with the conversions `as<uint8_t>`, `as<unsigned long>`, `as<int>`, `as<bool>` and `as<String>` under one reading of ArduinoJson 6 (see "Left out"), callback replies, pin writes and `SettingsValue`, the value of `mySettings`.
- `scheduler.dfy`, `switch.dfy`, `publish.dfy`, `persistence.dfy`, `attributes.dfy`: one specification function per operation, with the lemmas about it.
- `config.dfy`: the identity strings of the global `config` as a class, `DeviceConfig`.
- `firmware.dfy`: `mySettings` as a class, `Firmware.Settings`, over eight four-entry arrays.
  - Its methods follow the source's loops and branches.
  - Each method is proved to leave `Model()` equal to the specification function of the old state.

Behaviour of the source that the model keeps and the lemmas make explicit:

- **Unknown channel names.** `setSwitch` with an unknown channel name changes no channel, but it still sends a pin write, to pin 0.
- **State strings.** Every state string other than exactly `"ON"` means off.
- **Repeated switching.** Switching a channel again changes no state, yet it sends the write again and raises the publish flag again.
- **Reply polarity.**
  - `processSetSwitch` replies with the level written. So with inverted polarity (`ON` false), switching a channel `"ON"` replies 0.
  - `getSwitchCh*` replies 1 when the level equals `ON`. So reading back after `"ON"` gives 1 whatever the polarity.
- **Published level.** `publishSwitch` sends the raw level, not the level compared with `ON`.
- **Scheduler edge cases.**
  - A duty cycle of 0 freezes a channel.
  - An ON channel at 100 % stays on.
  - A period of 0 makes a switching channel flip on every tick.
- **Boot wrap.** `loadSettings` seeds every counter with 86400, and the intent is that this keeps channels quiet after boot. It does not: while `millis()` is below 86400 the unsigned difference wraps to nearly 2^32, so the first tick ends any phase shorter than that (`Scheduler.BootWrapFlips`). The model follows the code.
- **Null values.** A key that holds a JSON null reads as absent, both when loading and when merging.
- **Non-array values.** An array key holding a non-array value leaves every entry as it was when loading. A missing key zeroes them.
- **Ignored keys.** The `port` key of an update is read and ignored.
- **Truncated strings.** Identity strings are cut to their buffer size minus one. The model counts characters where `strlcpy` counts UTF-8 bytes, so this matches the source for ASCII strings (see "Left out").
- **Storage round trip.** Saving then loading keeps every configured field and resets only the duty counters.
- **Sync chunks.** The outbound settings chunks use exactly the inbound key names. Feeding a chunk back in changes no setting.

## Model

| member | source | states |
|---|---|---|
| `Types.AsU8` | firmware/esp32/src/main.cpp:119 | `as<uint8_t>()`: an in-range number reads as itself, an out-of-range number as 0, a boolean as 1 or 0, anything else as 0 |
| `Types.AsU32` | firmware/esp32/src/main.cpp:136 | `as<unsigned long>()`: an in-range number reads as itself, an out-of-range number as 0, a boolean as 1 or 0, anything else as 0 |
| `Types.AsInt32` | firmware/esp32/src/main.cpp:210 | `as<int>()`: always a 32-bit signed value; an in-range number reads as itself, an out-of-range number as 0, a boolean as 1 or 0, anything else as 0 |
| `Types.AsBool` | firmware/esp32/src/main.cpp:201 | `as<bool>()`: a boolean reads as itself, a number as true exactly when non-zero, anything else as false |
| `Types.AsText` | firmware/esp32/src/main.cpp:317-318 | `as<String>()`: a string reads as itself, anything else as the empty string |
| `Scheduler.Elapsed` | firmware/esp32/src/main.cpp:379 | `millis() - dutyCounter[i]` in `unsigned long`: the plain difference when the counter is not ahead, the difference plus 2^32 when it is |
| `Scheduler.Transition` | firmware/esp32/src/main.cpp:375-400 | a transition always flips the level, and happens exactly when dc is non-zero and the current phase (ON unless dc is 100, or OFF) has lasted its length |
| `Scheduler.StepChannel` | firmware/esp32/src/main.cpp:375-400 | a channel either stays as it was or flips with counter `now` and flag raised, and it flips exactly when a transition is due |
| `Scheduler.StepAt` | firmware/esp32/src/main.cpp:375-401 | one iteration of the loop keeps the settings well formed (four entries per array) |
| `Scheduler.TickUpTo` | firmware/esp32/src/main.cpp:373-402 | the first n iterations keep the settings well formed |
| `Scheduler.WritesUpTo` | firmware/esp32/src/main.cpp:373-402 | the first n iterations send at most n writes |
| `Scheduler.Tick` | firmware/esp32/src/main.cpp:371-403 | a tick keeps the settings well formed and changes no configuration or scalar |
| `Scheduler.TickWrites` | firmware/esp32/src/main.cpp:371-403 | a tick sends at most four writes; `Scheduler.TickWritesMatchChanges` states that they are one per switched channel |
| `Scheduler.TickUpToFrame` | firmware/esp32/src/main.cpp:373-402 | after n iterations the configuration is unchanged, channels below n have taken their own step and channels from n on are untouched |
| `Scheduler.TickIsPerChannel` | firmware/esp32/src/main.cpp:371-403 | a tick changes only the scheduler arrays, and each channel moves by its own state and configuration alone |
| `Scheduler.ZeroDutyIsFrozen` | firmware/esp32/src/main.cpp:375 | a channel with duty cycle 0 keeps its level, counter and flag |
| `Scheduler.FullDutyStaysOn` | firmware/esp32/src/main.cpp:377-379 | an ON channel with duty cycle 100 never turns off |
| `Scheduler.OnPhaseEnds` | firmware/esp32/src/main.cpp:377-387 | an ON phase that has lasted `dc*dr*10` ms ends: level `!ON`, counter `now`, flag raised |
| `Scheduler.OnPhaseHolds` | firmware/esp32/src/main.cpp:377-379 | before that the channel is untouched |
| `Scheduler.OffPhaseEnds` | firmware/esp32/src/main.cpp:389-399 | an OFF phase that has lasted `(100-dc)*dr*10` ms ends: level `ON`, counter `now`, flag raised |
| `Scheduler.OffPhaseHolds` | firmware/esp32/src/main.cpp:389-391 | before that the channel is untouched |
| `Scheduler.OverfullDutyOffLastsOneTick` | firmware/esp32/src/main.cpp:391-396 | with dc above 100 an OFF channel turns ON at the next tick, whatever the period |
| `Scheduler.ZeroPeriodFlipsEveryTick` | firmware/esp32/src/main.cpp:379-399 | with period 0 a channel that can switch flips at every tick |
| `Scheduler.WritesUpToMatchChanges` | firmware/esp32/src/main.cpp:373-402 | the writes of the first n iterations are one per channel below n whose level the tick changes, to its relay pin, with its new level |
| `Scheduler.TickWritesMatchChanges` | firmware/esp32/src/main.cpp:371-403 | a tick sends exactly one pin write per channel it switches, in channel order, with the new level |
| `Scheduler.BootWrapFlips` | firmware/esp32/src/main.cpp:217-220 | with the boot seed 86400 and `millis()` below it, any phase shorter than 2^32 - 86400 ms ends at the first tick |
| `Scheduler.ThirtyPercentScenario` | firmware/esp32/src/main.cpp:371-403 | 30 % of 10 s: ON until 3000 ms, OFF from 3000 ms, ON again at 10000 ms |
| `Switch.ChannelIndex` | firmware/esp32/src/main.cpp:355-358 | a recognised name is the name of the channel it selects |
| `Switch.ChannelNameRoundTrip` | firmware/esp32/src/main.cpp:382 | the name `"ch" + (i+1)` selects channel i |
| `Switch.SwitchWrite` | firmware/esp32/src/main.cpp:352-368 | the write carries the level "ON" or anything else asks for, to the selected channel's relay pin, or to pin 0 for an unknown name |
| `Switch.GetSwitch` | firmware/esp32/src/main.cpp:328-348 | for the method name of channel i the reply is 1 exactly when that channel's level equals `ON`; any other name gets (`getSwitch`, 0) |
| `Switch.SetSwitchReply` | firmware/esp32/src/main.cpp:315-325 | an integer reply exactly when `ch` and `state` are present, named after `ch`, 1 exactly when the state's `"ON"`-ness matches `ON`; otherwise the `err` reply |
| `Switch.Switched` | firmware/esp32/src/main.cpp:350-369 | `setSwitch` keeps the settings well formed |
| `Switch.SwitchTouchesOneChannel` | firmware/esp32/src/main.cpp:355-368 | for a known channel, only that channel's level (`ON` for "ON", `!ON` otherwise) and flag change; the write goes to its relay pin |
| `Switch.UnknownChannelWritesPinZero` | firmware/esp32/src/main.cpp:352-368 | an unknown name changes nothing, but a write still goes to pin 0 |
| `Switch.NonOnStateMeansOff` | firmware/esp32/src/main.cpp:359-366 | any state string other than "ON" acts as "OFF" |
| `Switch.SwitchTwice` | firmware/esp32/src/main.cpp:355-368 | repeating a call changes no state but resends the same write and leaves the flag raised |
| `Switch.GetAfterSet` | firmware/esp32/src/main.cpp:331-346 | reading a channel back after switching it reports 1 for "ON" and 0 otherwise, whatever the polarity |
| `Switch.SetReplyMatchesWrite` | firmware/esp32/src/main.cpp:313-326 | the reply of `setSwitch` carries the channel name and the level written, which is the level stored |
| `Publish.PublishOnePerFlag` | firmware/esp32/src/main.cpp:548-557 | the flush sends one message per raised flag |
| `Publish.TelemetryMessage` | firmware/esp32/src/main.cpp:550-552 | a message has the one key `chN` and the level as 1 or 0 |
| `Publish.PublishedUpTo` | firmware/esp32/src/main.cpp:548-558 | the first n iterations send at most n messages |
| `Publish.Published` | firmware/esp32/src/main.cpp:547-559 | a flush sends at most four messages; `Publish.PublishOnePerFlag` and `Publish.PublishedExactly` state that they are one per raised flag |
| `Publish.PublishedUpToCount` | firmware/esp32/src/main.cpp:548-557 | the first n iterations send as many messages as flags are raised among the first n |
| `Publish.PublishedUpToExactly` | firmware/esp32/src/main.cpp:548-557 | a channel's message with a given level is among the first n sent exactly when the channel is below n, its flag is raised and the level is its own |
| `Publish.PublishedExactly` | firmware/esp32/src/main.cpp:549-553 | a channel's message, with its raw level, is sent exactly when its flag is raised; never with the other level |
| `Publish.ChannelNameInjective` | firmware/esp32/src/main.cpp:551 | distinct channels have distinct message keys |
| `Publish.Flushed` | firmware/esp32/src/main.cpp:556 | after the flush every flag is lowered and nothing else changed |
| `Publish.FlushReportsOnce` | firmware/esp32/src/main.cpp:546-559 | a second flush right after the first sends nothing |
| `Persistence.LoadArray` | firmware/esp32/src/main.cpp:114-129 | a loaded array keeps four entries |
| `Persistence.LoadArrayEntries` | firmware/esp32/src/main.cpp:114-129 | missing key: every entry 0; present: entry i is the converted item i if there is one, else the old entry |
| `Persistence.SaveDoc` | firmware/esp32/src/main.cpp:232-272 | the saved document has exactly the eight canonical keys |
| `Persistence.LoadSavedArray` | firmware/esp32/src/main.cpp:114-121 | an array saved as numbers and read back with the matching conversion is unchanged |
| `Persistence.Load` | firmware/esp32/src/main.cpp:109-230 | loading keeps four entries per array, sets every counter to 86400 and leaves levels, flags and `lastUpdated` alone |
| `Persistence.LoadEmptyDefaults` | firmware/esp32/src/main.cpp:123-229 | loading an empty store gives polarity on, telemetry on, 30000 ms, zero arrays, counters 86400 |
| `Persistence.SaveDocShape` | firmware/esp32/src/main.cpp:232-272 | the saved document has exactly the eight canonical keys and arrays of four entries |
| `Persistence.SaveLoadRoundTrip` | firmware/esp32/src/main.cpp:280-287 | loading what was saved restores every configured field and resets only the counters |
| `Attributes.ChannelKeyScheme` | firmware/esp32/src/main.cpp:422-445 | every per-channel key is the field name, `Ch`, and the channel number |
| `Attributes.ChannelKeyInjective` | firmware/esp32/src/main.cpp:422-445 | two per-channel keys are equal exactly when field and channel are |
| `Attributes.ChannelKeyNotScalar` | firmware/esp32/src/main.cpp:412-449 | no per-channel key is `ON`, `fTeleDev`, `publishInterval` or `port` |
| `Attributes.MergeChannels` | firmware/esp32/src/main.cpp:422-445 | a merged array keeps four entries |
| `Attributes.MergeChannelsAbsent` | firmware/esp32/src/main.cpp:422-445 | a field none of whose keys is present keeps its entries |
| `Attributes.MergeChannelsSame` | firmware/esp32/src/main.cpp:422-445 | keys whose values convert to the current entries change nothing |
| `Attributes.MergeChannelsAgree` | firmware/esp32/src/main.cpp:422-445 | a field's merge depends only on its four keys |
| `Attributes.MergeSettings` | firmware/esp32/src/main.cpp:421-462 | the merge keeps levels, counters and flags and stamps `lastUpdated` |
| `Attributes.MergeSettingsAgree` | firmware/esp32/src/main.cpp:421-449 | two updates that agree on every settings key give the same settings |
| `Attributes.MergeReadsOnlySettingsKeys` | firmware/esp32/src/main.cpp:421-449 | keys outside the 23 settings keys do not affect the settings |
| `Attributes.MergeWithoutSettingsKeys` | firmware/esp32/src/main.cpp:421-462 | an update without settings keys only stamps `lastUpdated` |
| `Attributes.PortIsIgnored` | firmware/esp32/src/main.cpp:412 | the `port` key has no effect on the settings |
| `Attributes.SingleDutyCycleKey` | firmware/esp32/src/main.cpp:422-425 | one duty-cycle key sets exactly that channel's duty cycle; a null value counts as no key |
| `Attributes.DcCh2Example` | firmware/esp32/src/main.cpp:423 | `{"dcCh2": 40}` sets the second duty cycle to 40 and nothing else |
| `Attributes.MergeIdempotent` | firmware/esp32/src/main.cpp:421-462 | applying the same update twice is applying it once |
| `Attributes.DutyChunk` | firmware/esp32/src/main.cpp:504-512 | the first chunk carries exactly the duty-cycle and period keys |
| `Attributes.FailSafeChunk` | firmware/esp32/src/main.cpp:514-522 | the second chunk carries exactly the fail-safe keys |
| `Attributes.PinChunk` | firmware/esp32/src/main.cpp:524-531 | the third chunk carries exactly the relay-pin keys, `ON`, `fTeleDev` and `publishInterval` |
| `Attributes.SettingsChunks` | firmware/esp32/src/main.cpp:504-531 | three chunks are sent, every key of each a settings key the merge reads |
| `Attributes.ChunkKeysAreSettingsKeys` | firmware/esp32/src/main.cpp:504-531 | together the chunks carry exactly the settings keys the merge reads, and no key is in two chunks |
| `Attributes.DutyChunkCarries` | firmware/esp32/src/main.cpp:504-511 | the first chunk carries exactly the duty-cycle and period keys, each with its channel's value |
| `Attributes.FailSafeChunkCarries` | firmware/esp32/src/main.cpp:514-521 | the second chunk carries exactly the fail-safe keys, each with its channel's value |
| `Attributes.PinChunkCarries` | firmware/esp32/src/main.cpp:524-527 | the third chunk carries exactly the relay-pin keys among the per-channel keys, each with its channel's pin |
| `Attributes.DutyChunkFedBack` | firmware/esp32/src/main.cpp:504-511 | merging the first chunk back changes no setting |
| `Attributes.FailSafeChunkFedBack` | firmware/esp32/src/main.cpp:514-521 | merging the second chunk back changes no setting |
| `Attributes.PinChunkFedBack` | firmware/esp32/src/main.cpp:524-530 | merging the third chunk back changes no setting |
| `Attributes.ChunkFeedbackIsNoop` | firmware/esp32/src/main.cpp:504-531 | merging any settings chunk back changes nothing but `lastUpdated` |
| `Attributes.Truncate` | firmware/esp32/src/main.cpp:409 | `strlcpy` keeps a prefix shorter than the buffer, and the whole string when it fits |
| `Attributes.CopyText` | firmware/esp32/src/main.cpp:409 | one `strlcpy` line: without the key the buffer keeps its string; with it, a prefix of the sent string that fits the buffer |
| `Attributes.CopyTextMeaning` | firmware/esp32/src/main.cpp:409-419 | a copied string is a prefix of the one sent, of length `min(len, size-1)`; without the key the buffer is unchanged |
| `Attributes.MergeIdentity` | firmware/esp32/src/main.cpp:409-419 | strings that fit their buffers still fit after the update |
| `Attributes.TruncateIdempotent` | firmware/esp32/src/main.cpp:409 | truncating twice is truncating once |
| `Attributes.MergeIdentityIdempotent` | firmware/esp32/src/main.cpp:409-419 | applying the same update twice to the strings is applying it once |
| `Attributes.MergeIdentityWithoutKeys` | firmware/esp32/src/main.cpp:409-419 | an update without identity keys leaves the strings alone |
| `Attributes.ModelCopied` | firmware/esp32/src/main.cpp:409 | `model` is copied whole when it fits, cut to `size-1` characters otherwise (bytes in the source, see "Left out"), and no other string changes |
| `Config.DeviceConfig.MergeStrings` | firmware/esp32/src/main.cpp:409-419 | each string field becomes the truncated string under its key when present, else stays |
| `Firmware.Settings.constructor` | firmware/esp32/src/main.cpp:10 | the zero-initialised global: all arrays zero or false, scalars zero |
| `Firmware.Settings.SwitchChannel` | firmware/esp32/src/main.cpp:355 | one branch of `setSwitch`: the channel's level and flag change, its pin is returned |
| `Firmware.Settings.SetSwitch` | firmware/esp32/src/main.cpp:350-369 | new state is `Switched` of the old, the write sent is `SwitchWrite` of the old |
| `Firmware.Settings.SwitchPhase` | firmware/esp32/src/main.cpp:381-384 | a transition stores the level, raises the flag, restarts the counter at `now`, and writes the pin |
| `Firmware.Settings.DutyChannel` | firmware/esp32/src/main.cpp:375-401 | one loop iteration performs `StepAt` and sends `StepWrites` |
| `Firmware.Settings.DutyRuntime` | firmware/esp32/src/main.cpp:371-403 | new state is `Tick` of the old and the writes are `TickWrites` of the old |
| `Firmware.Settings.PublishSwitch` | firmware/esp32/src/main.cpp:546-559 | when connected, sends `Published` of the old state and lowers every flag; otherwise sends nothing and changes nothing |
| `Firmware.Settings.ProcessSetSwitch` | firmware/esp32/src/main.cpp:313-326 | with `ch` and `state` present: switches and replies with the level written; otherwise replies `err` and changes nothing |
| `Firmware.Settings.ProcessGetSwitch` | firmware/esp32/src/main.cpp:328-348 | replies `GetSwitch` of the state, always 0 or 1 |
| `Firmware.Settings.LoadArrays` | firmware/esp32/src/main.cpp:114-197 | each of the five arrays becomes `LoadArray` of its old contents |
| `Firmware.Settings.LoadSettings` | firmware/esp32/src/main.cpp:109-230 | new state is `Load` of the old state and the document |
| `Firmware.Settings.SeedCounters` | firmware/esp32/src/main.cpp:217-220 | every counter becomes 86400 |
| `Firmware.Settings.SaveSettings` | firmware/esp32/src/main.cpp:232-272 | the document built is `SaveDoc` of the state, with the canonical keys |
| `Firmware.Settings.ProcessSaveSettings` | firmware/esp32/src/main.cpp:280-287 | save then load leaves every setting as it was except counters reset to 86400 and `lastUpdated` stamped |
| `Firmware.Settings.MergeArrays` | firmware/esp32/src/main.cpp:422-445 | each of the five arrays becomes `MergeChannels` of its old contents |
| `Firmware.Settings.MergeAttributes` | firmware/esp32/src/main.cpp:421-462 | new state is `MergeSettings` of the old |
| `Firmware.Settings.SyncClientAttributes` | firmware/esp32/src/main.cpp:504-531 | the chunks sent are `SettingsChunks` of the state, in order |
| `Firmware.LoadArrayInto` | firmware/esp32/src/main.cpp:114-129 | the array becomes `LoadArray` of its old contents |
| `Firmware.NumbersOf` | firmware/esp32/src/main.cpp:236-240 | the saved array has one number per entry, in order |
| `Firmware.MergeChannelsInto` | firmware/esp32/src/main.cpp:422-425 | the array becomes `MergeChannels` of its old contents |
| `Firmware.ProcessSharedAttributesUpdate` | firmware/esp32/src/main.cpp:405-464 | settings become `MergeSettings` of the old, strings `MergeIdentity` of the old and still within their buffers, log level set when present; replies 1 |

## Left out

- `setup`, `loop`, the task manager, over-the-air update, and subscribing the callbacks: these are scheduling and wiring, with no state of the core.
- `processSaveConfig`, `processReboot`, `processConfigCoMCUSave` and `processSyncConfigCoMCU`: each only calls a collaborator that is not part of this model.
- `processSyncClientAttributes` (lines 307-311): it calls `syncClientAttributes`, whose settings chunks are modelled by `Firmware.Settings.SyncClientAttributes`, and adds only the reply (`syncClientAttributes`, 1).
- Water telemetry and the serial exchange with the co-processor: the pin writes are returned as `PinWrite` values instead of being sent.
- `publishDeviceTelemetry` and the first four chunks of `syncClientAttributes` (lines 470-502): they read Wi-Fi, flash and network information that the model has no state for.
- The `configcomcu` fields of `processSharedAttributesUpdate` (lines 451-460): floats and co-processor settings outside the modelled state.
- Logging (`recordLog`, the `logLev >= 4` dump): no effect on state.
- `Scheduler.Transition`: `dutyRuntime` converts both the elapsed time and the threshold to single-precision floats before comparing them (lines 379 and 391), while the model compares the exact integers. The two differ only where float rounding changes the comparison.
- `Firmware.Settings.DutyRuntime`: `millis()` is read separately for the comparison and for the new counter, while the model uses one time `now` per call.
- `Firmware.Settings.LoadSettings`: requires arrays of at most four entries (`ArraysFit`). The source writes past its four-entry arrays on a longer one, which the model cannot represent.
- `Types.AsU8`: assumes one reading of ArduinoJson 6's `as<uint8_t>()`, whose release the source does not pin. An integer outside 0-255 reads as 0, a boolean as 1 or 0, and a string or array as 0. Releases that parse numeric strings (`"40"` as 40) are not modelled.
- `Types.AsU32`: the same assumption for `as<unsigned long>()`, with the range 0 to 2^32-1.
- `Types.AsInt32`: the same assumption for `as<int>()`, with the 32-bit signed range.
- `Types.AsBool`: assumes `as<bool>()` reads a number as true exactly when it is non-zero, and a string or array as false.
- JSON floating-point values and JSON objects: `Value` has no float or object case, so a value such as `40.0`, which the library truncates, or `{"dc": {}}` cannot be expressed.
- `Types.AsText`: `as<String>` on a non-string value gives the empty string in the model. ArduinoJson's rendering of numbers or booleans as text is not modelled.
- `Firmware.Settings.ProcessSetSwitch` requires `ch` and `state`, when present, to be strings (`IsText`). Otherwise `as<const char*>()` gives a null pointer, which line 320 passes to `strcmp` and into the reply after `setSwitch` has already run; that is undefined behaviour.
- `Switch.SetSwitchReply`: requires `ch` and `state`, when present, to be strings, for the same null `strcmp` at line 320.
- `Switch.SetReplyMatchesWrite`: carries the same precondition as `Switch.SetSwitchReply`.
- `Firmware.ProcessSharedAttributesUpdate`: requires identity values that are strings (`TextValuesAreStrings`). The source hands a null pointer to `strlcpy` otherwise, which is undefined behaviour.
- `Firmware.Settings.ProcessSaveSettings`: reading and writing the settings file is taken to return exactly what was written. `readSettings` and `writeSettings` are not part of this model.
- `Attributes.Truncate`: counts the length in Unicode characters where `strlcpy` counts the bytes of the UTF-8 text, and it never splits a multi-byte character as `strlcpy` can; it matches the source only for ASCII strings.
- `Attributes.CopyText`: the prefix that fits the buffer is measured in characters, not UTF-8 bytes, so it matches the source only for ASCII strings.
- `Attributes.CopyTextMeaning`: the length `min(len, size-1)` is in characters, not UTF-8 bytes, so it matches the source only for ASCII strings.
- `Attributes.MergeIdentity`: the ten string copies truncate by characters, not UTF-8 bytes, so they match the source only for ASCII strings.
- `Attributes.IdentityFits`: "fits its buffer" is counted in characters, not UTF-8 bytes, so the invariant matches the source only for ASCII strings.
- `Attributes.ModelCopied`: `model` is cut to `size-1` characters where the source keeps `size-1` UTF-8 bytes; for `"éé"` in a 3-byte buffer the source keeps one `é` and the model keeps both. It matches the source only for ASCII strings.
- `Config.DeviceConfig.MergeStrings`: each string is truncated by characters, not UTF-8 bytes, and `Valid()` counts characters; it matches the source only for ASCII strings.
- `Firmware.ProcessSharedAttributesUpdate`: the identity strings are truncated by characters, not the UTF-8 bytes `strlcpy` counts, so it matches the source only for ASCII strings.
- The element types of `mySettings` are declared in `main.h`, which is not part of this model. The model takes `dc`, `dcfs` and `relayPin` as 8-bit unsigned; `dr`, `drfs`, `dutyCounter`, `publishInterval` and `lastUpdated` as 32-bit unsigned; `dutyState`, `publishSwitch`, `ON` and `fTeleDev` as `bool`.
- The buffer sizes of the `config` strings are declared in `main.h`, which is not part of this model. They are a parameter (`DeviceConfig.size`).
