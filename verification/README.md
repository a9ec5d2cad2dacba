# nova-chatmix in Dafny

A model of the SteelSeries Arctis Nova ChatMix daemon. The daemon listens to
the headset base station over HID. When the ChatMix dial turns, it sets the
volumes of two PipeWire virtual sinks, "NovaGame" and "NovaChat". Each sink is
a `pw-loopback` process that forwards into the real headset sink.

The model covers two programs.

- `nova-chatmix.py` is the feature-based daemon:
  - A `Headset` composes features: SonarIcon, ChatMix, Volume and EQ.
  - It merges their opcode tables into one listener table.
  - It routes every inbound report by its first byte.
  - It runs the features' close hooks when it shuts down.
  - The ChatMix feature keeps the real sink name and the two loopback handles.
  - It restarts only the loopbacks that are not running.
  - The Nova 5X also tears down and restarts the loopbacks on power-off and power-on reports.
- `nova.py` is the older single-class daemon. It has one read loop that filters ChatMix reports (opcode 69).

Modules:

- `Wrappers`: `Option` and `Outcome`. A Python exception that escapes becomes `Fail(fault)`.
- `Wire`:
  - bytes and the outbound packet format, `bytes.ljust(n, b"0")`;
  - the log of packets written to the device;
  - the inbound events a blocking read produces: a packet, an empty read, a timeout, a termination signal or a transport error.
- `Os`:
  - the `pactl list sinks short` listing, split into lines;
  - `pw-loopback` processes as values with a pid and a liveness flag;
  - the log of `pactl set-sink-volume` commands and of `terminate()` calls.
- `SinkSearch`:
  - Python's `in` on strings;
  - `line.split("\t")[1]`;
  - the scan for the first sink whose name contains the device name.
- `Features`:
  - the four feature classes, and `_write` with its refusal when there is no TX byte;
  - the ChatMix sink state machine, specified by pure functions on the sink state (`StartSinks`, `StopSinks`, `EnsureSinks`);
  - the opcode tables and the action and hook datatypes.
- `Registry`:
  - `Headset`: feature attachment, `attempt_action`, `open`, `close` and the `listen` loop;
  - the Nova 5X power handler and the two device set-ups.
- `Legacy`: `nova.py`'s `NovaProWireless`.

Where the code and its documentation differ, the model follows the code.

- The padding byte is ASCII `'0'` (0x30), not NUL.
- On an opcode claimed by two features, the later registration wins (`dict.update`).
- Power-on (byte 3) starts only the loopbacks that are not open.
- `ChatMix.on_close` removes the loopbacks only when its controls were enabled.
  - The Nova 5X has no TX byte, so its controls never become enabled.
  - So closing a Nova 5X leaves its loopbacks running.

One consequence of the code as written is proved rather than assumed: `TerminatedListingFailsWithIndexError`.

- `pactl` ends its output with a newline, so `split("\n")` yields a final empty line.
- That line has no tab, so an unresolved detection stops there with IndexError.
- It never reaches `RuntimeError("Original Sink not found")`.

## Model

| member | source | states |
|---|---|---|
| Wire.CreateMsgData | nova-chatmix.py:37-39 | The packet has length max(len(data), msg_len). The data is a prefix and is never truncated. Every padding byte is 0x30. |
| Wire.ControlRoundTrip | nova-chatmix.py:38-47 | A receiver that knows the parameter count recovers the direction byte, the opcode and the parameters from a padded packet. Everything after them is padding. |
| Wire.PaddingAbsorbsTrailingPad | nova-chatmix.py:38-39 | A trailing data byte equal to '0' gives the same packet as leaving it out, so the padding is not self-delimiting. |
| Features.Sent | nova-chatmix.py:41-47 | With no TX byte, no packet. Otherwise exactly one packet of length max(1+len(data), PACKET_SIZE), made of the TX byte, then the data, then 0x30 padding. |
| Features.Write | nova-chatmix.py:41-47 | `_write` returns true exactly when TX is present. The device log grows by exactly the packets `Sent` describes. |
| Features.SonarIcon.SetSonarIcon | nova-chatmix.py:171-173 | Writes [opt_sonar_icon, int(state)]. The enabled flag follows `state` only when the write went out. |
| Features.Volume.SetVolume | nova-chatmix.py:310-311 | Writes [opt_volume, attenuation] through the guarded write. |
| Features.EQ.SetEQPreset | nova-chatmix.py:327-328 | Writes [opt_eq_preset, preset] through the guarded write. |
| Features.OptCodesClaims | nova-chatmix.py:167-168 | SonarIcon claims no opcode. ChatMix claims opt_chatmix for its report handler. Volume and EQ claim one opcode each, for `ignore` (also lines 201-202, 306-307, 323-324). |
| Features.DetectSink | nova-chatmix.py:218-234 | Passes exactly when a truthy name is already set, or a name containing the device name comes before any line without a tab. A set name is kept. A line without a tab gives IndexError, and no match gives RuntimeError; on failure the name is unchanged. A new name is the matching line's second tab field. |
| Features.DetectSinkSettles | nova-chatmix.py:218-221 | Once detection resolves a name, detecting again against any later listing passes and keeps that name. |
| Features.TerminatedListingFailsWithIndexError | nova-chatmix.py:222-234 | On a newline-terminated listing, detection never raises "Original Sink not found". An unresolved detection raises IndexError instead. |
| Features.Restart | nova-chatmix.py:260-264 | A handle that is open is kept. Any other handle is replaced by a live loopback with the given pid, target and name. |
| Features.Stopped | nova-chatmix.py:266-270 | A present handle is modelled as exited afterwards, as if the SIGTERM ended it at once. An absent one stays absent. |
| Features.StartSinks | nova-chatmix.py:248-264 | The outcome and the cached name are those of detection. On failure nothing changes. On success both loopbacks are open, and an open handle is left untouched. A started game loopback is a live process with pid `pid`, named after the game sink, that forwards to the resolved real sink. A started chat loopback is the same with the chat sink name, and its pid is `pid`, or `pid + 1` when the game loopback was also started. |
| Features.StopSinks | nova-chatmix.py:266-270 | Neither loopback is open afterwards, and the sink name is kept. |
| Features.EnsureSinks | nova-chatmix.py:272-275 | When both loopbacks are open, nothing happens. Otherwise the outcome and the cached sink name are those of detection. A success leaves both open, a failure leaves the state unchanged, and a live handle is never replaced. Each loopback started forwards to the detected sink, with its sink name and the next pid, game first. |
| Features.PowerCycleRestartsBoth | nova-chatmix.py:387-394 | Power-off then power-on starts both loopbacks anew on the real sink: game first with the next pid, then chat. This relies on terminated loopbacks being modelled as exited at once. |
| Features.VolumeCommands | nova-chatmix.py:279-290 | Exactly two commands: game volume msg[1] on input.<game sink>, then chat volume msg[2] on input.<chat sink>. |
| Features.ChatMix.constructor | nova-chatmix.py:176-198 | Controls start disabled, both handles start absent, and the sink name is as given. |
| Features.ChatMix.SetChatMixControls | nova-chatmix.py:205-207 | Writes [opt_chatmix_enable, int(state)]. The flag follows `state` only when the write went out. |
| Features.ChatMix.OnClose | nova-chatmix.py:212-215 | With controls enabled, it writes the disable packet, terminates every present loopback and leaves controls disabled. With controls disabled, nothing changes. |
| Features.ChatMix.DetectOriginalSink | nova-chatmix.py:218-234 | The outcome and the cached name are `DetectSink`'s. The listing is queried only when no name is set. |
| Features.ChatMix.SinksOpen | nova-chatmix.py:236-246 | Each flag is true exactly when that handle is present and not exited. Both are true exactly when both loopbacks are open. |
| Features.ChatMix.StartVirtualSinks | nova-chatmix.py:250-264 | The new state and outcome are `StartSinks` of the old state. One pid is used per loopback started. |
| Features.ChatMix.RemoveVirtualSinks | nova-chatmix.py:266-270 | The state becomes `StopSinks` of the old state. Game, then chat, is terminated when present. |
| Features.ChatMix.Chatmix | nova-chatmix.py:272-290 | The sinks become `EnsureSinks` of the old state. A start failure is raised with no volume set. A packet shorter than 3 bytes raises IndexError. Otherwise `VolumeCommands` is appended to the volume log. When the loopbacks were not both open, the sink list is queried once unless the original sink name was already set, and a start that passes uses one pid per loopback it opens. |
| SinkSearch.IsInfixIff | nova-chatmix.py:229 | `pat in s` holds exactly when `pat` occurs at some index of `s`. |
| SinkSearch.NameField | nova-chatmix.py:228 | None exactly when the line has no tab (the IndexError). Otherwise the field is a tab-free string. |
| SinkSearch.NameFieldOfRow | nova-chatmix.py:228 | For a `pactl` row `index<TAB>name<TAB>...`, the field is `name`. |
| SinkSearch.ScanSinks | nova-chatmix.py:227-234 | Every line before the stop splits and lacks the pattern. It stops at the first name containing the pattern, or at the first line without a tab. It runs off the end exactly when every line is passed over. |
| SinkSearch.FindSink | nova-chatmix.py:227-232 | The loop returns exactly `ScanSinks`. |
| SinkSearch.TerminatedListingNeverMissing | nova-chatmix.py:222-228 | A listing whose last line is empty never ends the scan with no match. |
| Registry.RouteAppend | nova-chatmix.py:131-143 | The handlers invoked for two runs of reads are those of the first run followed by those of the second. |
| Registry.RouteOne | nova-chatmix.py:134-143 | A non-empty packet whose first byte is registered invokes exactly that handler, once. An empty read or an unregistered opcode invokes none. |
| Registry.RouteNothing | nova-chatmix.py:134-143 | Reads that carry no registered opcode invoke no handler at all. |
| Registry.MergeKeepsOrOverrides | nova-chatmix.py:101 | `listeners.update` keeps every entry the new table does not claim. The new table wins on a collision. |
| Registry.DisjointMergeCommutes | nova-chatmix.py:101 | Features with disjoint opcode tables give the same listener table in either order. |
| Registry.MergeCodesKeepsUnclaimed | nova-chatmix.py:96-101 | Attaching features that do not claim an opcode leaves its entry as it was. |
| Registry.MergeCodesLastClaimWins | nova-chatmix.py:96-101 | An opcode claimed by several features maps to the handler of the last one to claim it. |
| Registry.AttachActionsLastWins | nova-chatmix.py:96-102 | `actions[cls]` is the last attached feature of that class. |
| Registry.DisabledHooksAreQuiet | nova-chatmix.py:152-155 | Close hooks whose ChatMix objects all have controls disabled write no packet and terminate no process. |
| Registry.Headset.constructor | nova-chatmix.py:81-86 | A headset starts with empty action and listener tables, no hooks and `closing` false. |
| Registry.Headset.AddFeature | nova-chatmix.py:100-108 | The listeners become old listeners updated by the feature's opt_codes, and actions[class] becomes the feature. The feature's hooks are appended only when present. |
| Registry.Headset.AddFeatures | nova-chatmix.py:96-98 | Attaching a sequence of features equals the left-to-right fold of `_add_feature`, for listeners, actions and the close hooks. No open hook is added, and the attached ChatMix and SonarIcon objects are exactly those among the features. |
| Registry.Headset.AttemptAction | nova-chatmix.py:88-94 | Returns true exactly when the method's class is attached. Otherwise nothing is written and no feature changes. When true, it writes exactly the method's packet, and the enabled flags follow the guarded-write rule (also lines 171-173, 205-207, 310-311, 327-328). Only the invoked ChatMix or SonarIcon changes, and only its enabled flag: no sink name or loopback handle of any ChatMix changes. |
| Registry.Headset.Open | nova-chatmix.py:145-148 | Walks the open hooks. The headset invariant keeps that list empty, so `open` changes nothing. |
| Registry.Headset.RunCloseHooks | nova-chatmix.py:154-155 | Runs every close hook in order (ChatMix's `on_close`, lines 212-215). Every ChatMix whose first hook finds controls enabled has them disabled and its sinks become `StopSinks` of the old state. Every other ChatMix is unchanged. The device log grows by the disable packets, and the terminate log by the game then chat pids, in hook order. |
| Registry.Headset.Close | nova-chatmix.py:150-155 | Sets `closing`, then has exactly the effects `RunCloseHooks` states. Afterwards no hooked ChatMix has controls enabled. A second close writes, terminates and changes nothing. |
| Registry.Headset.Invoke | nova-chatmix.py:141-142 | Calls the bound handler. `ignore` consumes the report with no effect. No handler changes any ChatMix's controls flag. |
| Registry.Headset.Step | nova-chatmix.py:132-142 | One read of the loop. A signal runs `close` (lines 152-155), raises the closing flag and writes the disable packets of the hooks that act. A transport error raises ReadError. A packet runs the listener its first byte is bound to, or nothing. Only a listener other than `ignore` can raise. Nothing but a signal writes a packet or changes a controls flag. |
| Registry.Headset.Listen | nova-chatmix.py:131-155 | The handlers invoked are exactly the routing of the reads consumed. Every read before the last was a packet or a timeout. A last read that is a signal ends the loop `Closed`, and one that is a transport error ends it with ReadError. Otherwise a raise comes from a listener other than `ignore`. Running out of reads means every read was a packet or a timeout. A closed run writes exactly the disable packets of the close hooks that act in the state before the run (`ClosePackets`), and every other run writes nothing. A headset whose every ChatMix lacks a TX byte writes no packet. |
| Registry.OnPowerChange | nova-chatmix.py:387-394 | Power byte 2 terminates each present loopback. Byte 3 is `StartSinks`, which starts only those not open. Any other byte changes nothing. A packet shorter than 2 bytes raises IndexError. Only the ChatMix's sink name and loopback handles and the host's terminate log, query count and pid counter can change. Byte 3 queries the sink list unless the sink name is set, and a start that passes uses one pid per loopback it opens. Every other packet leaves both counters alone. |
| Registry.ProWirelessTables | nova-chatmix.py:346-360 | The Pro Wireless features give listeners {0x45: chatmix, 0x25: ignore, 0x31: ignore}, one action per class, and ChatMix's close hook. |
| Registry.NewNovaProWireless | nova-chatmix.py:346-360 | The Pro Wireless starts with those tables, TX 0x6 and an empty write log. Its one ChatMix and one SonarIcon are new objects, so a caller may drive the headset it gets. The ChatMix is for the sink `SteelSeries_Arctis_Nova_Pro_Wireless`: RX 0x7, opcodes 0x45 and 0x49, sinks `NovaGame` and `NovaChat`, no sink name or loopback yet, and controls disabled. |
| Registry.NewNova5X | nova-chatmix.py:378-385 | The 5X has no TX byte. ChatMix is on 0x45, the power handler on 0xB9, and ChatMix is the only action and close hook. Its one ChatMix is a new object, and it has no SonarIcon. The ChatMix is for the sink `SteelSeries_Arctis_Nova_5X`: RX 0x7, opcodes 0x45 and 0x49, sinks `NovaGame` and `NovaChat`, no sink name or loopback yet, and controls disabled. |
| Registry.RunNova5X | nova-chatmix.py:403-412 | The script entry finds no SonarIcon to enable, finds the ChatMix but cannot enable its controls, and writes no packet, through `listen` and the final `close`. It ends closed, and a `Closed` listen ended on a signal. |
| Legacy.CreateMsgdata | nova.py:71-72 | The data is a prefix padded with 0x30 to 64 bytes, and longer data is not truncated. |
| Legacy.DetectSink | nova.py:105-115 | A set name is kept. Otherwise the first name containing "SteelSeries_Arctis_Nova_5X" is taken. It fails only with IndexError, on a line without a tab. With no match it passes and the name stays unset. |
| Legacy.DetectionsDifferOnlyWhenMissing | nova.py:105-115 | The two detections cache the same name. Their outcomes differ exactly when an unset name meets a listing with no match. |
| Legacy.StartSinks | nova.py:118-128 | Detection's IndexError propagates. A None sink gives TypeError with no process. Otherwise a new game loopback gets the next pid and a new chat loopback the one after, both on the detected sink. |
| Legacy.RestartOrphansOpenLoopbacks | nova.py:118-128 | Starting again replaces two running loopbacks with new ones, where the feature version keeps them. |
| Legacy.CloseVerdict | nova.py:190-195 | `close` fails, with AttributeError from the commented-out disable methods, exactly when an enabled flag is up. |
| Legacy.Reported | nova.py:142-156 | Only a complete opcode-69 report sends volume commands: game msg[1], then chat msg[2]. |
| Legacy.CommandsAppend | nova.py:139-156 | The volume commands of two runs of reads are those of the first run followed by those of the second. |
| Legacy.OnlyReportsSetVolume | nova.py:142-144 | Reads that are not ChatMix reports cause no volume command. |
| Legacy.SentIsCommands | nova.py:139-156 | The commands the first k reads send are the `Commands` of that prefix of the reads. |
| Legacy.RunningAll | nova.py:139-164 | The loop reads on through the first k reads exactly when `Halt` lets every one of them pass. |
| Legacy.CommandsCount | nova.py:148-156 | Every report sets two volumes, so the command count is even and at most twice the reads. |
| Legacy.NovaProWireless.constructor | nova.py:46-60 | No sink name, no handles, and every flag false. |
| Legacy.NovaProWireless.DetectOriginalSink | nova.py:105-115 | The outcome and the cached name are the legacy `DetectSink`'s. |
| Legacy.NovaProWireless.StartVirtualSinks | nova.py:118-128 | The new state and outcome are the legacy `StartSinks`. Two pids are used on success. |
| Legacy.NovaProWireless.RemoveVirtualSinks | nova.py:130-132 | A missing game handle raises AttributeError before anything is terminated. Otherwise game is terminated, and a missing chat handle then raises AttributeError. |
| Legacy.NovaProWireless.Close | nova.py:190-195 | Always sets CLOSE. The outcome is `CloseVerdict` of the flags. |
| Legacy.NovaProWireless.Step | nova.py:140-163 | Each read leaves the loop as `Halt` says and appends that read's `Reported` commands. A signal whose close passes only raises CLOSE. |
| Legacy.NovaProWireless.ReadReports | nova.py:139-164 | The loop reads on exactly through the reads `Halt` passes. The volume log grows by `Sent` of the reads consumed. Afterwards CLOSE is up exactly when it was up before or the last read was a signal. A `Closed` end means CLOSE is up, and running out of reads leaves CLOSE as it was. |
| Legacy.NovaProWireless.Chatmix | nova.py:137-166 | A start failure is raised before any read. Otherwise the loop runs as `ReadReports` says. When it ends on CLOSE, both loopbacks are terminated once, game first. An exception leaves them running. The two enabled flags never change. The sink list is queried once unless the sink name was set, and a start that passes uses two pids. CLOSE ends up as `ReadReports` says. |

## Left out

- HID enumeration, `open_path`, kernel-driver detaching and the USB transport: the device is a log of written packets and a given sequence of read outcomes.
- Signal delivery: a signal is an `Interrupt` event between two reads, not an asynchronous call that can land mid-read.
- `subprocess`:
  - `Popen`, `check_output`, `poll` and `terminate` act on a `Host` value;
  - processes are pids with a liveness flag;
  - the `pactl` and `pw-loopback` binaries are assumed present;
  - a loopback that dies on its own is a handle whose flag is false. This is represented only in the state a handler starts from: no inbound event changes a flag, so a loopback cannot die between two reads of one run.
- A read that blocks for ever is modelled as the reads running out (`Exhausted`).
- `nova.py`'s `__main__` block, the debug `print`s and the `print_output` reader (float arithmetic, output only). `RunNova5X` models `nova-chatmix.py`'s entry block, with the signal handlers as `Interrupt` events.
- `bytes()` raising ValueError for an out-of-range integer: parameters are bytes by type.
- The device constructors' hardware lookup (`DeviceNotFoundException`, `ValueError("Device not found")`): the constructors model only the tables they build.
- Registry.Headset.Open: no feature defines `on_open` (it is commented out at `nova-chatmix.py:209-210`), so the headset invariant keeps the open-hook list empty and running an open hook is not modelled.
- Registry.Headset.Invoke: states only the `ignore` case. The other handlers' effects are stated by `ChatMix.Chatmix` and `OnPowerChange`.
- Registry.Headset.AttemptAction: `attempt_action(cls, method, *args)` calls whatever method of the attached class it is given (`nova-chatmix.py:88-94`). The model offers only the four setters the program calls, as `Action` values, each tied to its class by `Owner()`.
- Registry.Headset.Listen: states the handlers routed, how the loop ends and the packets it writes. It does not state the sink effects of each handler across the run, or the pids `close` terminates.
- Registry.NewNovaProWireless: states the action table by its keys and its ChatMix entry, not the other three feature objects.
- Features.Stopped, Os.Host.Terminate: `Popen.terminate()` only sends SIGTERM, and `poll()` returns None until the child has exited. The model treats the process as exited at once. So `_are_sinks_open` right after `_remove_virtual_sinks` always reports both closed, and `PowerCycleRestartsBoth` holds under this abstraction. In the source, a power-on that arrives before the old loopback has exited finds it still open and does not restart it.
