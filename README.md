# HP 5316 frequency-counter driver, modelled in Dafny

The driver `HP5316x.py` talks to an HP 5316 universal counter over GPIB. It has three parts, and this project models each of them:

- **The reply decoder** `_decode` (`decoder.dfy`, module `Decoder`). It turns the counter's fixed-format reply into a `Measurement`:
  - the raw text;
  - the value read from characters 1 to 19;
  - an overflow flag;
  - a unit picked by the first character.
  Python's `float()` is a parameter `parseFloat: string -> Option<real>`, a partial function that is `None` where `float()` raises.
- **The command tables and enumerations** (`commands.dfy`, module `Commands`):
  - the measurement functions, trigger-level modes, trigger slopes and gate modes;
  - the tables `MEASMODES_LIST`, `TRIGGERLEVELMODES_LIST`, `TRIGGERSLOPES_A_LIST`, `TRIGGERSLOPES_B_LIST` and `GATEMODES_LIST`;
  - the command each setter writes.
  The module also gives `SettingOf`, the model's assumed reading of a command by the counter. The source does not say how the counter reads commands. `SettingOf` takes a table token as the setting it indexes, a level command as that channel's level, and any other command as changing no setting. It is the inverse against which the tables are proved one to one.
- **The driver object** `HP5316X` (`driver.dfy`, module `Driver`). This is a class whose setters overwrite its fields and write one command each.
  - The instrument is abstracted as `log`, the sequence of commands written to it.
  - The class invariant `Valid()` states that the mirror agrees with the command log, as `SettingOf` reads it. Each mirrored setting is the last setting of its kind in the log. No gate-mode command was ever written. Both trigger levels are within ±2.5 V. The resource's timeout equals the driver's. For trigger levels the log holds the exact level. The counter itself receives the level rounded to two decimals, so this agreement is with the model's abstract level command (see "## Left out").
  - Every setter preserves `Valid()`, and `_init_settings` establishes it.

`wrappers.dfy` holds `Option`, `Result`, `Outcome` and the Python exceptions the driver raises (`ValueError`, `IndexError`, `AttributeError`).

Three behaviours of the code are reproduced as written:

- **Gate mode is never written.** The class defines the `measmode` property twice (lines 248-270) and has no `gatemode` property. So `self.gatemode = ...` in `_init_settings` only stores a plain attribute. The counter never receives `GA<n>`, and `GATEMODES_LIST` is unused. A reader might expect the driver to write the gate mode like every other setting; the model follows the code. `Valid()` records that no gate-mode command is in the log, and `INIT_SEQUENCE` has no gate-mode command.
- **The trigger-level getters always fail.** They read `triggerlevel_A` and `triggerlevel_B`, but the setters assign `_triggerlevel_A` and `_triggerlevel_B`. See "## Findings".
- **The value is converted before the tag is examined** (line 74). A value field that `float()` rejects therefore fails whatever the tag is. On an empty reply the slice is empty and `float("")` raises `ValueError` first. Because `parseFloat` is abstract, the model also covers a parser that accepts the empty field. `rawdata[0]` then raises `IndexError`.

## Model

| member | source | states |
|---|---|---|
| Commands.TriggerLevelMode.Value | HP5316x.py:91-93 | the value of a trigger-level mode is its position in declaration order, and it indexes `TRIGGERLEVELMODES_LIST` |
| Commands.TriggerSlope.Value | HP5316x.py:95-97 | the value of a slope is its position in declaration order, and it indexes both slope tables |
| Commands.GateMode.Value | HP5316x.py:99-103 | the value of a gate mode is its position in declaration order, and it indexes `GATEMODES_LIST` |
| Commands.MeasMode.Value | HP5316x.py:105-120 | the value of a measurement function is its position in declaration order, and it indexes `MEASMODES_LIST` |
| Commands.TablesMatchEnums | HP5316x.py:19-61 | each table has exactly one entry per member of its enumeration (15, 2, 2 and 2, 4); the enumeration's value of the i-th member is i; every member is listed |
| Commands.MeasModeCommand | HP5316x.py:45-61 | the measurement-function command for mode m is `FN` followed by the decimal of m's value |
| Commands.TriggerLevelModeCommand | HP5316x.py:27-30 | the trigger-level-mode command is `TR` followed by the decimal of the mode's value |
| Commands.TriggerSlopeCommand | HP5316x.py:33-42 | the slope command is `AS` (channel A) or `BS` (channel B) followed by the decimal of the slope's value |
| Commands.GateModeCommand | HP5316x.py:19-24 | the gate-mode command is `GA` followed by the decimal of the mode's value |
| Commands.MeasModeCommandInjective | HP5316x.py:45-61 | two measurement functions have the same command if and only if they are equal |
| Commands.TriggerLevelModeCommandInjective | HP5316x.py:27-30 | two trigger-level modes have the same command if and only if they are equal |
| Commands.TriggerSlopeCommandInjective | HP5316x.py:33-42 | two (channel, slope) pairs have the same command if and only if both channel and slope are equal |
| Commands.GateModeCommandInjective | HP5316x.py:19-24 | two gate modes have the same command if and only if they are equal |
| Commands.ReadMeasModeCommand | HP5316x.py:45-61 | the counter reads `FN<v>` back as the measurement function whose value is v |
| Commands.ReadTriggerLevelModeCommand | HP5316x.py:27-30 | the counter reads `TR<v>` back as the trigger-level mode whose value is v |
| Commands.ReadTriggerSlopeCommand | HP5316x.py:33-42 | the counter reads `AS<v>`/`BS<v>` back as the slope whose value is v, on the matching channel |
| Commands.ReadGateModeCommand | HP5316x.py:19-24 | the counter reads `GA<v>` back as the gate mode whose value is v |
| Commands.SettingOfEncode | HP5316x.py:182-270 | under the assumed reading `SettingOf`, every command a setter writes is read back as exactly the setting it was written for; a level command carries the exact level |
| Commands.EncodeInjective | HP5316x.py:182-270 | two settings are written as the same command if and only if they are equal; for trigger levels this holds of the abstract level command, not of the rounded text |
| Commands.BareTokenSetsNothing | HP5316x.py:158-165 | under the assumed reading `SettingOf`, a bare command that starts with no table mnemonic, such as `RE`, `IN` or `WA1`, changes no setting |
| Decoder.ValueField | HP5316x.py:74 | `rawdata[1:20]` with Python's clamping: empty for a reply of at most one character, otherwise at most 19 characters, the k-th being reply character k+1 |
| Decoder.Decode | HP5316x.py:71-86 | decoding succeeds if and only if the reply is non-empty and its value field converts. A field that does not convert gives ValueError whatever the tag. An empty reply whose field converts gives IndexError. On success: `raw` is the reply and `value` is the converted field; overflow holds exactly for tag `O`; the unit is `HZ` exactly for `F`, `SEC` exactly for `T`, `ERROR` exactly for `X`, and `NONE` for every other tag, space and `O` included |
| Decoder.UnrecognisedTagKeepsDefaults | HP5316x.py:10-15 | a reply tagged with none of `O`, `F`, `T`, `X` decodes to the defaults of `Measurement()` (overflow false, unit `NONE`), with the reply as `raw` and the converted field as `value` |
| Decoder.ReplyRoundTrip | HP5316x.py:71-86 | decoding a reply made of a tag and a field of at most 19 characters gives back the reply, the field's value, and the tag (a space for an unrecognised tag) |
| Decoder.TrailingCharactersIgnored | HP5316x.py:74 | characters after the twentieth change neither the outcome nor the decoded fields, `raw` apart |
| Decoder.FrequencyExample | HP5316x.py:78-79 | a reply `F00001000.000000000` decodes to 1000.0 Hz without overflow |
| Decoder.OverflowExample | HP5316x.py:76-77 | a reply tagged `O` sets the overflow flag and leaves the unit at its default `NONE` |
| Driver.AgreesAfterWrite | HP5316x.py:182-270 | after a setter stores a setting and writes its command, that setting is the last of its kind in the log and every other kind keeps its last setting, so log and mirror still agree (for levels, with the exact level in the log) |
| Driver.AgreesAfterBareToken | HP5316x.py:158-165 | under the assumed reading `SettingOf`, writing `RE` or `IN` keeps log and mirror in agreement |
| Driver.InitSequenceText | HP5316x.py:136-148 | the default sequence is `WA1 FN1 TR0 AS0 BS0`, then the level commands for channel A at 0.0 and channel B at 0.0; there is no gate-mode command |
| Driver.InitSequenceLast | HP5316x.py:136-148 | on its own the default sequence sets FREQ_A, FRONT_CONTROL, POSITIVE, POSITIVE and levels 0.0 and 0.0, and writes no gate mode |
| Driver.AgreesAfterInit | HP5316x.py:136-148 | after the default sequence the instrument agrees with the default mirror, whatever came before, provided no gate-mode command did |
| Driver.HP5316X.Write | HP5316x.py:138 | `self._inst.write(command)`: appends the command to the log and changes nothing else |
| Driver.HP5316X.constructor | HP5316x.py:123-131 | a new driver has written exactly the default sequence, holds the default settings and timeout 2, and is valid |
| Driver.HP5316X.InitSettings | HP5316x.py:136-148 | appends exactly the default sequence through the setters. Afterwards the mirror holds FREQ_A, FRONT_CONTROL, POSITIVE, POSITIVE, levels 0.0 and 0.0, gate mode LONG_FRONT and timeout 2 on driver and resource. The driver is valid if no gate-mode command was written before |
| Driver.HP5316X.Reset | HP5316x.py:158-160 | appends exactly `RE`; no mirrored setting and no timeout changes; validity is kept |
| Driver.HP5316X.Initialize | HP5316x.py:162-165 | appends `IN` and then the default sequence; the mirror holds the defaults; validity is kept |
| Driver.HP5316X.SetTimeout | HP5316x.py:171-176 | stores the timeout on the driver and on the resource, writes nothing, changes no other setting and keeps validity |
| Driver.HP5316X.GetTimeout | HP5316x.py:167-169 | returns the driver's timeout, which equals the resource's |
| Driver.HP5316X.SetTriggerLevelMode | HP5316x.py:182-188 | stores the mode, appends exactly `TRIGGERLEVELMODES_LIST[mode.value]`, changes no other setting and keeps validity |
| Driver.HP5316X.GetTriggerLevelMode | HP5316x.py:178-180 | returns the stored mode, which is the last trigger-level mode written to the instrument |
| Driver.HP5316X.SetTriggerSlopeA | HP5316x.py:194-200 | stores the slope, appends exactly `TRIGGERSLOPES_A_LIST[slope.value]`, changes no other setting and keeps validity |
| Driver.HP5316X.GetTriggerSlopeA | HP5316x.py:190-192 | returns the stored slope, which is the last channel-A slope written |
| Driver.HP5316X.SetTriggerSlopeB | HP5316x.py:206-212 | stores the slope, appends exactly `TRIGGERSLOPES_B_LIST[slope.value]`, changes no other setting and keeps validity |
| Driver.HP5316X.GetTriggerSlopeB | HP5316x.py:202-204 | returns the stored slope, which is the last channel-B slope written |
| Driver.HP5316X.SetTriggerLevelA | HP5316x.py:218-229 | fails with ValueError exactly when the level is outside [-2.5, 2.5], and then writes nothing and changes nothing. Otherwise it stores the level and appends one channel-A level command. Validity is kept either way |
| Driver.HP5316X.SetTriggerLevelB | HP5316x.py:235-246 | as SetTriggerLevelA, for channel B |
| Driver.HP5316X.GetTriggerLevelAAsWritten | HP5316x.py:214-216 | always fails with AttributeError on `triggerlevel_A` |
| Driver.HP5316X.GetTriggerLevelBAsWritten | HP5316x.py:231-233 | always fails with AttributeError on `triggerlevel_B` |
| Driver.HP5316X.GetTriggerLevelA | HP5316x.py:214-216 | as intended: returns the stored level, which is within range and is the last channel-A level written |
| Driver.HP5316X.GetTriggerLevelB | HP5316x.py:231-233 | as intended: returns the stored level, which is within range and is the last channel-B level written |
| Driver.HP5316X.SetMeasMode | HP5316x.py:252-258 | stores the mode, appends exactly `MEASMODES_LIST[mode.value]`, changes no other setting and keeps validity (the second, identical definition at lines 264-270 is the one Python keeps) |
| Driver.HP5316X.GetMeasMode | HP5316x.py:248-250 | returns the stored measurement function, which is the last one written to the instrument |
| Driver.HP5316X.GetMeasurement | HP5316x.py:150-156 | returns no measurement exactly when the read failed. Otherwise it returns the decoded reply, or propagates the decoder's error |

## Left out

- pyvisa plumbing is not modelled: `get_available_devices`, the resource manager, `open_resource`, read and write terminations, `clear()` and `__del__`. It is foreign I/O. The instrument is the write log `log`, and a read is its outcome, passed to `GetMeasurement` as an `Option<string>`.
- The `address` and `settle_time` constructor parameters are not modelled. They only reach the I/O layer and `time.sleep`.
- `time.sleep` settle pauses are not modelled: they are timing only.
- `float()` is the abstract parameter `parseFloat`; how it parses the value field is not modelled.
- A NaN or infinite reading is not modelled: the decoded value is whatever `parseFloat` returns, and reals have no NaN.
- The text of a level command, `AT`/`BT` with the `+.2f` rounding, is not modelled. A level command is the constructor `Level(channel, level)` with the exact real level. So `Driver.InitSequenceText` says `Level(A, 0.0)`, not `AT+0.00`.
- Driver.HP5316X.SetTriggerLevelA and Driver.HP5316X.SetTriggerLevelB do not model a NaN level. In Python a NaN passes the range check; reals have no NaN.
- `isinstance` checks and their `TypeError`s are not modelled. Dafny's static types make them vacuous. The int-to-float coercion of a level is the identity on reals.
- The `__main__` demonstration (lines 272-300) is not modelled.
- Commands.SettingOfEncode, Commands.EncodeInjective, Driver.AgreesAfterWrite: for trigger levels these hold of the abstract `Level(channel, level)` command only. The source sends the level as text rounded to two decimals (lines 227 and 244), so 0.001 and 0.004 are both sent as `AT+0.00`. On the real bus the level command is not one to one, and after `triggerlevel_a = 0.004` the counter holds 0.00 while the mirror holds 0.004. `Valid()` and the level getters speak of the exact level in the log, not of the counter's rounded level.
- Commands.SettingOf is an assumption, not something the source states. The model assumes that the counter applies each table token as the setting it indexes, and each level command as that channel's level. It also assumes that `RE`, `IN` and `WA1` change no mirrored setting. The counter's `IN` may well reset its settings; `initialize` re-sends every default right after it. The model's "agreement" between log and mirror, `Valid()`, is relative to this assumption.

## Findings

| source | as written | input that shows it | evidently intended | confidence | as-written member | corrected member |
|---|---|---|---|---|---|---|
| HP5316x.py:214-216 | the `triggerlevel_a` getter returns `self.triggerlevel_A`, an attribute nothing assigns | set `triggerlevel_a = 1.0`, then read `triggerlevel_a`: AttributeError | return `self._triggerlevel_A`, the level last set | not executed | Driver.HP5316X.GetTriggerLevelAAsWritten | Driver.HP5316X.GetTriggerLevelA |
| HP5316x.py:231-233 | the `triggerlevel_b` getter returns `self.triggerlevel_B`, an attribute nothing assigns | set `triggerlevel_b = 1.0`, then read `triggerlevel_b`: AttributeError | return `self._triggerlevel_B`, the level last set | not executed | Driver.HP5316X.GetTriggerLevelBAsWritten | Driver.HP5316X.GetTriggerLevelB |
