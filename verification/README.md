# VR-4HD scene switcher: a Dafny model

`vr4hd_switch.py` is an OBS script that turns "transition started" events
into MIDI Control Change commands for a Roland VR-4HD video switcher. Each
scene name in a configured, ordered list stands for one switcher input port
(its position in the list). When a transition starts towards such a scene,
the script selects that port on the switcher. If the transition comes from
another listed scene, the switcher itself performs a 400 ms crossfade.
Otherwise the switcher cuts, and OBS shows the change with its own
transition.

The model is a set of pure functions over one state record:

- `Protocol` holds the messages as (channel, control, value) triples and the
  three switch decisions. `Encode` produces the fixed batches. `Decode` is
  its inverse. `Receive`/`Play` give a small reading of how the switcher
  reacts, following the source's comments: control 46 sets cut or mix,
  control 47 sets the fade time, control 14 takes the port.
- `SwitchDecision` holds the classification of a transition: `IndexOf`
  (Python's `list.index`) and `Classify`.
- `DeviceChannel` holds the MIDI connection. It is either absent or open.
  `PickMidiDevice` does the substring match over the enumerated outputs.
  `OpenMidi` makes one open attempt. `Transmit` and `SendSwitch` send a
  batch, stop at the first failing send, close and drop the connection.
  Every call on the transport goes into a log of `DeviceCall`s, so that
  "nothing is sent" and "no device call" can be stated.
- `Registry` holds the set of transition UUIDs with attached handlers.
  `Resync` is the loop shared by `script_load` and `on_fe_event`. `Destroy`
  is `del transitions[uuid]`, which raises `KeyError` for an unknown UUID.
- `Engine` holds the state record (scene list, registry, connection, call
  log) and one function per script entry point.

The transport is an argument, not a side effect. An `Io` record gives the
enumerated output names, whether opening succeeds, and which send attempt
(if any) raises `OSError`.

Three behaviours of the script are worth stating plainly:

- A transition to an unlisted scene still enumerates and opens the device
  when no connection is open. The reopen gate runs before the membership
  test (vr4hd_switch.py:196-206). `StartNonHardwareSendsNothing` states
  this: no message is sent, and no call at all is made only when the
  connection is already open.
- The connection has two states: `midiout` is `None` or an open port
  (vr4hd_switch.py:53, 70-83). The model's `Conn` is `Absent` or `Open`.
  A failed send and an unload both return it to `Absent`.
- `script_unload` disconnects the handlers but never clears `transitions`
  (vr4hd_switch.py:98-113). `ScriptUnload` keeps the registry.

## Model

| member | source | states |
|---|---|---|
| `Protocol.Encode` | vr4hd_switch.py:227-243 | No batch exists only for no switch. Every message is on channel 0. The port is selected exactly once, by the last message, and a mode message comes first. |
| `Protocol.DecodeEncode` | vr4hd_switch.py:231-243 | Every decision can be read back from its batch: direct is (46,0),(14,port) and crossfade is (46,1),(47,4),(14,port). |
| `Protocol.EncodeDecode` | vr4hd_switch.py:231-243 | Any batch that reads back as a decision is exactly that decision's encoding. |
| `Protocol.EncodeDataBytes` | vr4hd_switch.py:233-243 | If the port fits in a MIDI data byte, every value in the batch does too. |
| `Protocol.DirectBatchCuts` | vr4hd_switch.py:231-235 | From any switcher state, the direct batch takes the port with cut mode. |
| `Protocol.CrossfadeBatchFades` | vr4hd_switch.py:236-243 | From any switcher state, the crossfade batch takes the port in mix mode with fade time 4 (400 ms). |
| `Protocol.NoSwitchBatchIsInert` | vr4hd_switch.py:206 | An unlisted destination has an empty batch, which leaves the switcher exactly as it was. |
| `SwitchDecision.IndexOf` | vr4hd_switch.py:208 | The result is a position holding the name, and no earlier position holds it (first match). |
| `SwitchDecision.Classify` | vr4hd_switch.py:206-224 | No switch exactly when the destination is not listed. Otherwise the port is the destination's first position, below the list length. Crossfade exactly when the origin is also listed, direct exactly when it is not. |
| `SwitchDecision.NonHardwareDestinationIgnored` | vr4hd_switch.py:206 | A destination outside the list gives no switch, whatever the origin. |
| `SwitchDecision.OriginIndexIrrelevant` | vr4hd_switch.py:217-224 | Two origins that are both listed, or both unlisted, give the same decision. The origin's position never matters. |
| `SwitchDecision.SelfTransitionCrossfades` | vr4hd_switch.py:206-221 | A listed scene transitioning to itself still crossfades, to its own port. |
| `SwitchDecision.FirstEntryWins` | vr4hd_switch.py:208 | When a name occurs more than once, the port is no later than any of its positions. |
| `DeviceChannel.FirstMatch` | vr4hd_switch.py:61-64 | The index is the first output name containing the pattern, or the list length if there is none. |
| `DeviceChannel.PickMidiDevice` | vr4hd_switch.py:56-67 | None exactly when no output name contains the pattern. Otherwise the result is an enumerated name containing the pattern, and no matching name comes before it. |
| `DeviceChannel.OpenMidi` | vr4hd_switch.py:70-83 | One enumeration always comes first. An open is attempted exactly when a device was picked. The connection is open exactly when a device was picked and opening succeeded, and then it is on the picked device. Nothing is sent. |
| `DeviceChannel.Transmit` | vr4hd_switch.py:230-247 | The log holds sends of the messages before the failing attempt, in order, then a close if a send failed. The connection is dropped exactly when a send failed. |
| `DeviceChannel.TransmitSendsPrefix` | vr4hd_switch.py:230-247 | The messages sent are exactly the prefix of the batch before the failing attempt. |
| `DeviceChannel.SendSwitch` | vr4hd_switch.py:227-247 | It sends the prefix of the direct or crossfade batch before the failure. The connection is dropped exactly when the failure falls inside the batch. It never enumerates or opens. A close happens only when the connection is dropped, once, as the last call. |
| `DeviceChannel.Shutdown` | vr4hd_switch.py:109-113 | The connection ends absent. It is closed, once, exactly when it was open. |
| `Registry.Resync` | vr4hd_switch.py:119-126 | The new registry is the old one plus every live UUID. Handlers are attached exactly to live UUIDs that were not registered, and never twice in one pass. |
| `Registry.ResyncOfCovered` | vr4hd_switch.py:168 | A resync attaches nothing when every live UUID is already registered. |
| `Registry.ResyncIdempotent` | vr4hd_switch.py:167-174 | A second resync with the same live list leaves the registry unchanged and attaches nothing. |
| `Registry.ResyncAttachesOnce` | vr4hd_switch.py:120-126 | A UUID attached by one resync is not attached again by a later one. |
| `Registry.Destroy` | vr4hd_switch.py:185 | `KeyError` exactly when the UUID is not registered. Otherwise exactly that UUID goes, and every other entry is unchanged. |
| `Registry.DestroyThenResync` | vr4hd_switch.py:178-185 | Destroying a registered UUID and then resyncing it restores the registry and attaches it once. |
| `Registry.ResyncThenDestroy` | vr4hd_switch.py:174-185 | Resyncing a new UUID and then destroying it gives back the original registry. |
| `Engine.Initial` | vr4hd_switch.py:44-53 | Startup state: the default four-scene list, an empty registry, no connection, no transport calls. |
| `Engine.ScriptUpdate` | vr4hd_switch.py:86-95 | The scene list becomes the settings array's "value" strings, same length, same order. Registry, connection and log are untouched. |
| `Engine.ScriptUpdateIgnoresFlags` | vr4hd_switch.py:90-92 | Two settings arrays with the same values in the same order give the same state, whatever their other flags. |
| `Engine.ScriptLoad` | vr4hd_switch.py:116-131 | The registry gains every live UUID. The earlier call log is kept. The new calls are exactly one open attempt's calls, starting with an enumeration and sending nothing, and that attempt decides the connection. |
| `Engine.OnFrontendEvent` | vr4hd_switch.py:163-175 | Only "finished loading" and "transition list changed" add the live UUIDs. Any other event leaves the state unchanged. |
| `Engine.FrontendResyncIdempotent` | vr4hd_switch.py:163-175 | Delivering the same frontend event twice with the same live list equals delivering it once. |
| `Engine.OnTransitionDestroy` | vr4hd_switch.py:178-185 | `KeyError` exactly for an unregistered UUID. Otherwise only that UUID leaves the registry, and nothing else changes. |
| `Engine.OnTransitionStart` | vr4hd_switch.py:188-224 | The scene list and registry never change, and the call log only grows. For an unlisted destination, the connection is whatever the reopen gate left. If the gate yields no connection, the connection stays absent. An open connection afterwards is the one the gate provided. The body is `Reopen` (the gate at lines 196-204) followed by `StartEffect` (the dispatch at lines 206-224). The calls it makes are stated by the `Start*` lemmas below. |
| `Engine.ScriptUnload` | vr4hd_switch.py:109-113 | The connection ends absent, with one close exactly when it was open. The earlier call log, the registry and the scene list are kept. |
| `Engine.ScriptUnloadIdempotent` | vr4hd_switch.py:109-113 | A second unload closes nothing and leaves the state unchanged. |
| `Engine.StartReopensOnce` | vr4hd_switch.py:196-199 | With no connection, the event's first call is an enumeration, and exactly one enumeration happens. |
| `Engine.StartOpensAtMostOnce` | vr4hd_switch.py:196-199 | With no connection, the event's log starts with exactly one open attempt's calls (at most one open, lines 72-79). Everything after that is sends and a close. |
| `Engine.StartKeepsOpenConnection` | vr4hd_switch.py:196 | With an open connection, the event only sends and possibly closes. It never enumerates or opens. |
| `Engine.StartWithoutDeviceSendsNothing` | vr4hd_switch.py:196-204 | With no connection, and either no matching output or an open that fails, the event makes only the reopen attempt's calls. Nothing is sent and the connection stays absent, whatever the destination. |
| `Engine.StartNonHardwareSendsNothing` | vr4hd_switch.py:196-206 | An unlisted destination sends nothing and changes the connection only through the reopen gate. With an open connection the state is unchanged. |
| `Engine.StartHardwareSendsBatch` | vr4hd_switch.py:206-247 | A listed destination with a connection sends its classification's batch, in order, up to the failing send. The connection is dropped exactly on a failure inside the batch, and then the last call is a close. |
| `Engine.StartHardwareCallLog` | vr4hd_switch.py:196-247 | For a listed destination with a connection, the event's whole call log is the reopen gate's calls, then sends of the batch before the failing attempt, then one close only if a send failed. |
| `Engine.SendFailureForcesReopen` | vr4hd_switch.py:196-199 | After a failure on any send of the batch, the connection is absent, so the next transition start begins with a new open attempt. |
| `Engine.StartSendsDataBytes` | vr4hd_switch.py:206-243 | With at most 128 listed scenes, every message sent is on channel 0 with a value below 128. |
| `Engine.ExampleDirect` | vr4hd_switch.py:222-224 | With scenes "[empty]", "A", "B", "C", a transition from "Intro" to "A" sends (46,0),(14,1). |
| `Engine.ExampleCrossfade` | vr4hd_switch.py:217-221 | With the same list, a transition from "A" to "B" sends (46,1),(47,4),(14,2). |
| `Engine.ExampleNoSwitch` | vr4hd_switch.py:178-206 | With the same list and an open connection, "A" to "Outro" leaves the state unchanged. Destroying a never-registered UUID raises `KeyError`. |

## Left out

- The OBS object model is not modelled: source references and their release (including the missing release when the destination is not listed), signal-handler plumbing, and `calldata` extraction. Attaching a handler pair is modelled as registry membership. The origin and destination arrive as their names, with `None` for a source that has no name.
- `script_unload` disconnecting each transition's handlers and removing the frontend callback is not modelled. Only the closing of the connection is, and the registry is kept, as in the code.
- `script_properties` and `script_defaults` are not modelled. They only build the host's settings objects.
- The mido/rtmidi transport and the MIDI byte encoding are not modelled. Device enumeration and the outcome of each open and send are arguments.
- Encode: does not model the MIDI library's rejection of values above 127 (it raises `ValueError` while building the message). Values are unbounded, and `StartSendsDataBytes` states when they fit.
- An exception raised by `close()` inside the send-failure handler is not modelled.
- `script_load` calls `open_midi` even when a connection is already open. The model replaces the connection the same way and does not record the old handle being abandoned.
- All `print` logging is left out.
