# py-z906 command layer, modelled in Dafny

py-z906 drives a Logitech Z906 amplifier over its serial port. It also
translates two kinds of events into amplifier commands: Bluetooth media
events (play, pause, volume) and HDMI-CEC events (volume keys, mute, ARC,
standby, source change).

This project models the command layer and the two translators as pure
transitions over small immutable records:

- `z906client.dfy`, module `Z906Client`. The amplifier client keeps a mirror
  of the 23-byte status record, a mute flag, and the log `sent` of opcodes
  written to the serial link. Writing a command (`request`) appends its
  opcode to the log. The only reply the client reads, the status frame, is
  a parameter of `Update`. Each operation returns the next client and either
  `Done` or the exception the Python code raises. A raised exception does
  not roll back what was already done.
- `btclient.dfy`, module `BtClient`. The Bluetooth signal handlers keep a
  registry from transport object path to stored volume. A property change
  returns the callbacks it makes, in order.
- `z906bt.dfy`, module `Z906Bt`. The Bluetooth translator handles play and
  pause, which remember and restore the input. It also handles volume
  convergence: the protocol has no set-level command, so the main level is
  walked to `43 * v / 127` one step at a time.
- `z906cec.dfy`, module `Z906Cec`. The CEC translator dispatches event
  names. The CEC client it calls defines none of the methods the
  translator uses. The CEC side is therefore an abstract record: the ARC
  gate, the current source's physical address, and a log of `enable`,
  `disable` and audio-status report calls.

Behaviour of the code worth noting:

- The level guards compare for equality with 43 and 0. A device-reported
  level above 43 can therefore still be stepped up, until a bytearray
  element would reach 256, which raises after the opcode was sent.
- The serial port is opened without a timeout (z906client.py:65), so the
  blocking read in `update` always delivers a full 23-byte frame. `Update`
  also accepts a shorter reply and stores it as it is, after which reading a
  level raises IndexError. The program never receives such a frame; the
  short-reply cases are a generalisation, kept because they cost nothing.
- The Bluetooth translator's constructor takes the input chosen on the
  command line (z906bt.py:23, passed from `--input` at z906bt.py:71) and
  never uses it. `last_input` therefore always starts at 1, as in
  `Z906Bt.Start`, whatever the command line says.
- Powering on is `pwm(True)`: opcode 0x11, then unmute (0x39).
- The translators call `get_input`, `power_on` and `power_off`, which the
  client does not define. Here `power_on` and `power_off` are `pwm(True)`
  and `pwm(False)`. `get_input` is the value `Answers.input`, supplied with
  the event, and it sends nothing.

## Model

| member | source | states |
|---|---|---|
| `Z906Client.Request` | z906client.py:79-86 | Writing a command appends exactly its opcode to the link; the mirror and the mute flag are untouched, as the reply is not stored |
| `Z906Client.Update` | z906client.py:104-107 | Sends 0x34, keeps the mute flag, and replaces the mirror with the reply's first bytes, at most 23 |
| `Z906Client.UpdateReplacesStatus` | z906client.py:104-107 | The refreshed mirror does not depend on the previous one |
| `Z906Client.UpdateThenMainLevel` | z906client.py:104-107 | After a refresh the main level is byte 3 of the reply |
| `Z906Client.LevelTablesAgree` | z906client.py:58-62 | The level-field dictionary accepts exactly main, rear, center and sub, with indices 3, 4, 5 and 6, and the opcode chains match the reference opcode table |
| `Z906Client.LevelUp` | z906client.py:112-134 | An unknown channel, a mirror too short for the field, or a level already at 43 all fail with nothing sent and no change. Level 255 sends the opcode and then raises. Otherwise exactly the channel's up opcode is sent and only that field rises by one |
| `Z906Client.LevelDown` | z906client.py:137-158 | The mirror image: fails at 0 with nothing sent; otherwise sends the channel's down opcode and lowers only that field by one |
| `Z906Client.LevelStepRejectsUnknownChannel` | z906client.py:114-115 | Any name outside {main, rear, center, sub}, 'subwoofer' included, is rejected by both steps with the client unchanged |
| `Z906Client.LevelStepOpcodes` | z906client.py:119-157 | For each channel separately: a step up from a level below 43 sends that channel's opcode (main 0x08, sub 0x0A, center 0x0C, rear 0x0E) and raises that field alone by one; a step down from a level above 0 sends 0x09, 0x0B, 0x0D or 0x0F and lowers that field alone. The other channels' levels play no part |
| `Z906Client.LevelUpThenDown` | z906client.py:129-157 | From a level in [0, 42], up then down on the same channel both succeed and restore the mirror and mute flag |
| `Z906Client.LevelDownThenUp` | z906client.py:129-157 | From a nonzero level, down then up succeeds exactly when the level is not 44, and then restores the mirror |
| `Z906Client.GetLevel` | z906client.py:160-166 | Rejects an unknown channel; otherwise returns the channel's mirrored byte, or IndexError on a short mirror |
| `Z906Client.FreshClient` | z906client.py:54-56 | A client that was never refreshed reads 0 on every channel and is unmuted: a step down raises with nothing sent, and a step up succeeds and reads back 1 |
| `Z906Client.GetLevelIndices` | z906client.py:160-166 | main, rear, center and sub read status bytes 3, 4, 5 and 6 |
| `Z906Client.InputOpcodeRoundTrip` | z906client.py:175-190 | Decoding the selected opcode gives back the requested input (1 to 6, 'aux' as 6); an argument with no input gets opcode 0 |
| `Z906Client.SelectInput` | z906client.py:169-192 | Succeeds exactly for inputs 1 to 6 and 'aux', sending one opcode that selects that input; otherwise raises with nothing sent |
| `Z906Client.SelectInputTable` | z906client.py:175-192 | 1→0x02, 2→0x05, 3→0x03, 4→0x04, 5→0x06, 6 and 'aux'→0x07; 0 and the string '6' are rejected |
| `Z906Client.Mute` | z906client.py:194-205 | Sends 0x38 for on and 0x39 for off, and the flag becomes the requested one |
| `Z906Client.MuteToggle` | z906client.py:207-211 | Flips the mute flag by sending 0x38 when unmuted and 0x39 when muted, and leaves the mirror alone |
| `Z906Client.IsMuted` | z906client.py:213-217 | Reports the client's own mute flag, without asking the amplifier |
| `Z906Client.IsMutedTracksRequests` | z906client.py:194-234 | The reported flag is the one the last mute, toggle or power-on set (unmuted at first); level steps, input selection and refreshes leave it alone |
| `Z906Client.MuteToggleTwice` | z906client.py:207-211 | Toggling twice restores the flag, after sending one mute and one unmute |
| `Z906Client.Pwm` | z906client.py:219-234 | On sends 0x11 then 0x39 and leaves the client unmuted; off sends 0x10 alone and keeps the flag |
| `Z906Client.Version` | z906client.py:97 | The version exists exactly when the record holds bytes 17 to 19 and is at most 255·111; a shorter record raises IndexError. The formula is stated by `VersionWeights` |
| `Z906Client.VersionWeights` | z906client.py:97 | Bytes 19, 18 and 17 weigh 1, 10 and 100: raising one of them by one raises the version by its weight, and all three at zero give 0, which fixes the version as C + 10·B + 100·A for every record |
| `Z906Client.VersionDigits` | z906client.py:97 | When A, B and C are decimal digits, the version's hundreds, tens and units give them back |
| `BtClient.InterfaceAdded` | btclient.py:33-38 | Only a media transport registers its path, with volume 0, replacing any earlier entry; other entries are unchanged |
| `BtClient.InterfaceRemoved` | btclient.py:40-45 | Deletes only when the interface equals the name with a leading space; deleting an unknown path raises KeyError |
| `BtClient.InterfaceRemovedKeepsTransport` | btclient.py:40-45 | A transport added and then removed under the real interface name stays registered |
| `BtClient.InterfaceRemovedIntended` | btclient.py:40-45 | With the real interface name, the path's entry is deleted and all others are kept |
| `BtClient.AddThenRemoveIntended` | btclient.py:33-45 | Adding a new transport and then removing it gives back the original registry |
| `BtClient.PropertiesChanged` | btclient.py:47-65 | Other interfaces do nothing. For a media transport, an unknown path is registered with volume 0 and known entries are kept. 'pending' emits exactly one play, 'idle' exactly one pause, any other State nothing; a Volume emits one volume event with that value, after any play or pause |
| `BtClient.HandlersKeepVolumesZero` | btclient.py:33-65 | No handler ever stores a volume other than 0 |
| `BtClient.PlayThenVolume` | btclient.py:54-65 | A signal with State 'pending' and Volume v emits exactly play, then volume v |
| `Z906Bt.Start` | z906bt.py:17-19 | A new translator holds its client and remembers input 1, which is a selectable input |
| `Z906Bt.TargetLevel` | z906bt.py:50 | The target is the floor of 43·v/127, and lies in [0, 43] for v in [0, 127] |
| `Z906Bt.Steps` | z906bt.py:52-57 | A run of n steps only appends to the log, sends at most n opcodes, and keeps the mute flag and record length |
| `Z906Bt.StepsUp` | z906bt.py:52-54 | n steps up from a level of at most 43 − n all succeed, raise the main level by n and log n copies of 0x08 |
| `Z906Bt.StepsDown` | z906bt.py:55-57 | n steps down from a level of at least n all succeed, lower the main level by n and log n copies of 0x09 |
| `Z906Bt.StepsDone` | z906bt.py:52-57 | Any run of steps that completes moved the main level by exactly n and logged exactly n opcodes of its direction |
| `Z906Bt.EvtCallback` | z906bt.py:35-57 | Play records the reported input, then sends 0x11, 0x39. Pause selects the remembered input, then sends 0x10; with an invalid input it raises with nothing sent. A volume event sends the status request before anything else |
| `Z906Bt.VolumeConverges` | z906bt.py:48-57 | For v in [0, 127] and a frame with a main level: success; after 0x34, exactly target − current 0x08s, or exactly current − target 0x09s; main ends at the target; every other byte is the frame's |
| `Z906Bt.VolumeDoneReachesTarget` | z906bt.py:48-57 | For any volume, a callback that completes leaves the main level at the target and all other bytes as refreshed |
| `Z906Bt.VolumeShortFrame` | z906bt.py:48-49 | A status frame without a main level stops the callback after the status request, with IndexError (a frame the blocking read never delivers) |
| `Z906Bt.VolumeFromSilence` | z906bt.py:48-57 | Volume 64 from level 0 ends at 21 after exactly 21 steps up |
| `Z906Bt.PlayThenPause` | z906bt.py:36-41 | Pause after play selects the input play recorded, then powers off |
| `Z906Bt.PauseFromStart` | z906bt.py:19-41 | Before any play, pause selects input 1 (0x02) and powers off (0x10) |
| `Z906Cec.AnyPrefix` | z906cec.py:83-86 | True exactly when some allow-list entry is a prefix of the source port |
| `Z906Cec.ReportAudio` | z906cec.py:56 | Reports the main level and mute flag of the translator's own client, or raises IndexError on a short mirror |
| `Z906Cec.CecCallback` | z906cec.py:49-87 | level_up and level_down leave the amplifier exactly as the main-channel step up or down does and end as it ends; mute leaves it exactly as a toggle does and fails only on a mirror without a main level. On success each reports the resulting level and flag, and on failure nothing is reported. give_audio_status leaves the amplifier alone and reports its level and flag, or, on a mirror without a main level, raises IndexError with nothing reported. arc_start and arc_stop act only when ARC is enabled. standby always powers off. src_changed makes no call with an empty allow-list, otherwise one enable or one disable. Other names do nothing |
| `Z906Cec.CecCallbackAsWritten` | z906cec.py:54-64 | As written, every reporting event leaves the amplifier as the corrected callback does and nothing reaches the CEC side. Whenever the amplifier step succeeds, NameError follows, even on a mirror where the corrected report would raise IndexError; a failing step raises as the corrected one does |
| `Z906Cec.GiveAudioStatusAsWrittenRaises` | z906cec.py:63-64 | As written, an audio-status request raises NameError; corrected, it reports the main level and mute flag |
| `Z906Cec.LevelUpAsWrittenRaises` | z906cec.py:54-56 | As written, a volume-up key at level 10 still sends 0x08 and leaves the mirror at 11, then raises NameError with nothing reported |
| `Z906Cec.LevelUpReportsNewLevel` | z906cec.py:54-56 | A volume-up key at level 10 sends 0x08 and reports 11 |
| `Z906Cec.LevelUpAtMaximum` | z906cec.py:54-56 | A volume-up key at 43 raises with nothing sent and nothing reported |
| `Z906Cec.MuteReportsToggledFlag` | z906cec.py:60-62 | The mute key flips the flag and reports the new flag |
| `Z906Cec.SourceChangedSingleRequest` | z906cec.py:77-87 | With a non-empty allow-list, exactly one gate request is made, and it is enable exactly when some entry is a prefix of the port; an empty entry enables every port |

## Findings

| source | as written | input that shows it | evidently intended | confidence | as-written member | corrected member |
|---|---|---|---|---|---|---|
| btclient.py:41 | Deletes a transport only when the interface equals ' org.bluez.MediaTransport1', with a leading space | `_interfaceAdded(p, 'org.bluez.MediaTransport1')`, then `_interfaceRemoved(p, 'org.bluez.MediaTransport1')`: `p` stays registered | Compare with 'org.bluez.MediaTransport1' and delete the entry | high; not executed | `BtClient.InterfaceRemoved`, `BtClient.InterfaceRemovedKeepsTransport` | `BtClient.InterfaceRemovedIntended` |
| z906cec.py:56 | The audio-status report reads a module-level `z906` (also at lines 59, 62 and 64), and the module never defines that name | Event 'give_audio_status' raises NameError. After 'level_up' the step is sent but no report follows | Read `self.z906`: report the translator's own main level and mute flag | high; not executed | `Z906Cec.CecCallbackAsWritten`, `Z906Cec.GiveAudioStatusAsWrittenRaises`, `Z906Cec.LevelUpAsWrittenRaises` | `Z906Cec.CecCallback` |

## Left out

- Serial port construction and framing parameters, the destructor (which powers off), the read loop and the printed output of `print_status`: these are I/O. Only the version formula is modelled.
- Z906Client.Update: the reply is any byte sequence, of which at most 23 bytes are kept. The port has no read timeout, so the program only ever stores exactly 23; the model does not restrict the reply to that length.
- BtClient.InterfaceAdded and BtClient.InterfaceRemoved take the interface argument as one string, which is what the handlers compare it with. The system bus passes InterfacesAdded a dictionary from interface name to properties and InterfacesRemoved an array of names (btclient.py:27-28); neither ever equals a string, so on the real bus both handlers return at once. The model describes the handlers' logic for a string argument and does not model the signal's argument types.
- Serial failures: `request` is modelled as an append to the log that always succeeds. The reply bytes of single-opcode commands are ignored, as the code ignores them.
- Argument parsing, logging set-up, the `__main__` blocks and the sleep loop: command-line plumbing.
- System-bus and GLib set-up, the main loop, and the logging-only default callback: system I/O.
- cecclient.py is not part of this model. It wraps libCEC, whose behaviour is not visible. It also lacks `setEventCallback`, `is_enabled`, `get_src_port`, `enable`, `disable` and `reportAudioStatus`, so the CEC side is an abstract record. The effect of `enable` and `disable` on the gate is not modelled; only the calls are logged.
- `get_input` is not defined by the client. It is an input of the model (`Answers.input`) and sends nothing.
- Exception propagation out of a callback into the Bluetooth signal handler is not modelled. In the program, a play or pause that raises would also suppress the volume callback of the same signal. Here the handler's events and the translator's callback are separate functions.
- `select_input` compares with Python `==`, so `True` counts as 1 and `1.0` as 1. The model's argument is an integer or a string.
- The stored Bluetooth volume and the volume argument are naturals: BlueZ delivers Volume as an unsigned 16-bit value, so the negative case of `int()` truncation never arises.
- `Z906Bt.TargetLevel` computes the exact floor of 43·v/127 instead of the double-precision `int(43.0 / 127.0 * float(v))`. For v from 1 to 126, 43·v/127 is never an integer, since 127 is prime, and it lies at least 1/127 away from one, far beyond rounding error. The two can therefore differ only at v = 127, where the product may round just below 43. The model assumes it yields 43.
- Extended sentinel-prefixed frames, checksums, response disambiguation, CEC frame and opcode decoding, headphone and effect commands, and timeouts: no code for them exists in the modelled files.
