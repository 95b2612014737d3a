# Termux gamepad: bridge, library and shim

A verification model of one state-replication protocol and the three programs that carry it: the
bridge from XI2 to a local socket, the client library that mirrors the controller, and the preloaded
shim that offers it as evdev and joystick devices. `dafny verify dfyconfig.toml` checks all of it.

## How it is built

- `Bytes`, `Protocol`: little-endian fields, records of 24, 16, 88 and 96 bytes, and streams cut into
  records. A connection's log is the list of whole messages queued on it since connect.
- `Controller`, `Packets`: the bridge's controller state, the twenty cells a client can observe, the
  snapshot and the deltas, the library's fold and the view `View` that relates the two.
- `HubModel`, `HubSteps`, `HubLaws`: the bridge as a value with its sixteen client slots, its steps as a
  relation, and what every run keeps. The device epoch counts removals; histories of connections, the
  motor and the epoch are ghost state the program does not have.
- `ParserLaws`, `MotorLaws`, `Staleness`: what every run does to a client's commands, to the motor, and to
  a reader whose device has gone. `Witnesses`: runs in which an expectation fails.
- `Clients`, `Bridge`: the bridge's objects with their real buffers. Every method is proved against the
  model, up to `Bridge.Server.Turn`, one turn of the main loop. Sockets, clock and X server answer
  nondeterministically: a send takes any positive part, would block or fails, a recv gives any chunk,
  nothing, or the end; time never runs backwards.
- `LibraryModel`, `Library`: the library as a value with its happenings, and the handle with its two
  reassembly buffers, each method a run of those happenings.
- `Links`, `WholeSystem`, `History`, `Recovery`: the bridge and one library client with the bytes in
  flight. The two exchanges that block the library (opening the monitor, opening the event stream) are
  not atomic: the bridge may do anything between the command and the moment the answer has arrived.
- `Joydev`, `JoydevAgreement`, `ForceFeedback`, `ShimModel`, `EvdevShim`: the shim's conversions, its
  table of effects, its table of files, and the hooks on the real arrays.

## Main results

- The replica: `WholeSystem.ReplicaAgrees`, `WholeSystem.AbsenceAgrees`, `WholeSystem.StaleIsTold`,
  `History.ReplicaWas` (it shows only states that were), `Recovery.AgreementRegained` (agreement can
  always be regained), all over every run of the bridge and the library.
- The bridge: `HubLaws.ReachableInv` (every reachable state), `Bridge.Server.Turn` (the program's main loop
  is such a run), `Bridge.Server.QueueConserves`.
- Its commands: `ParserLaws.ReachableParses` and `Bridge.Server.CommandsParsed`, for any chunking.
- The motor: `MotorLaws.MotorFollowsRequests`, `MotorLaws.MotorAfterSwap`, `MotorLaws.DurationsExact`.
- Readers left behind: `Staleness.AgreesAfterRemoval`, `Staleness.StaleCells`, `JoydevAgreement.JoydevStale`.
- Packets: `Controller.PacketSimulation`, `Controller.DeltaMinimal`, `Controller.SilentIffInvisible`.
- The library's calls: `LibraryModel.LifeAlways`, `LibraryModel.CallsAddUp`.
- The shim: `JoydevAgreement.JoydevAgrees`, `ShimModel.JoystickUndisturbed`, `ShimModel.RunOwned`,
  `ForceFeedback.MessagesBounded`.

## What turned out not to hold

- On removal the bridge zeroes its state without telling event clients
  (src/lorie_evdev_bridge.c:619-625): `Witnesses.RemovalStrandsReader` is a run that ends with a reader
  holding a button that is up. Agreement on one event connection is per epoch. Across a removal it
  holds if and only if all was at rest (`Staleness.AgreesAfterRemoval`), and afterwards on exactly the
  cells that were at rest or reported since (`Staleness.StaleCells`, `JoydevAgreement.JoydevStale`). The
  library repairs it through its monitor (`WholeSystem.StaleIsTold`); a joystick reader has none.
- The recorded peak outlives a device, and is updated when nothing could be sent
  (src/lorie_evdev_bridge.c:327-341). After a swap a rumble in progress may stay silent:
  `Witnesses.SwapLosesRumble` is a run that ends so, `MotorLaws.MotorAfterSwap` says for every run since a
  device was selected exactly when the motor is right.
- A RUMBLE with both magnitudes zero leaves an expiry behind (src/lorie_evdev_bridge.c:503-511):
  `Witnesses.ZeroRumbleExpires`. After a RUMBLE an expiry of zero tells silence if and only if some
  magnitude was not zero: `MotorLaws.ExpiryTellsSilence`.
- The joystick's trigger axis wraps at its last step (src/evdev_preload.c:521-523):
  `Joydev.TriggerWraps` and `Joydev.TriggerOrder`.

## Model

| member | source | states |
|---|---|---|
| WholeSystem.ReplicaAgrees | src/termux_gamepad.c:389-424 | in every run of XI2 events, device swaps, partial sends and receives, lost and reopened connections, an idle library that has read all that was queued on both of its connections holds the view of the bridge's state and the projection of the bridge's descriptor, and a device is present |
| WholeSystem.AbsenceAgrees | src/termux_gamepad.c:29-34 | with the monitor connection drained the device shown is the bridge's; without a device both sides are at rest: the library's reset state is the view of the bridge's zeroed one |
| WholeSystem.StaleIsTold | src/termux_gamepad.c:188-206 | in every run, an event connection opened in an older device epoch is only held while a REMOVE, or the end of the monitor stream, is still to be read |
| WholeSystem.ReplicaIsPast | src/termux_gamepad.c:252-285 | at any moment, also inside a packet, the replica is the fold of a beginning of the events queued since the snapshot |
| History.ReplicaWas | src/termux_gamepad.c:252-285 | between two packets, on a stream of the present device, the replica is the view of the bridge's state at some index of the run: it may lag but shows no state that never was |
| WholeSystem.AgreementWithinReach | src/termux_gamepad.c:389-424 | from every state of every run in which the library is idle, its connections stand and the sockets have taken everything, reading alone leads to agreement on the device and, if the library then still has an event stream, on the controls |
| Recovery.AgreementRegained | src/termux_gamepad.c:389-424 | from every such state, without an event stream if some entry of the bridge's table is free, the two can go on to full agreement on the device and its unchanged state: when news of the device has ended the stream, by connecting and asking once more; the library then has an event stream if and only if there is a device |
| WholeSystem.EventsCanDrain | src/termux_gamepad.c:403-415 | whatever was sent on the event connection can be read to its end without leaving it |
| WholeSystem.MonitorCanDrain | src/termux_gamepad.c:354-371 | whatever was sent on the monitor connection can be read to its end; at most the event stream is closed on the way |
| WholeSystem.StepKeeps | src/termux_gamepad.c:153-231 | every move of the bridge and of the library, exchanges answered late, losses and partial reads included, keeps the coupling of the two |
| WholeSystem.DueStep | src/lorie_evdev_bridge.c:619-625 | a device that goes away is announced on every standing monitor connection in the same step |
| WholeSystem.WholeAnnouncement | src/termux_gamepad.c:361-370 | the 96 bytes that are complete are the next announcement of the bridge's log, with a good header |
| WholeSystem.DeviceShown | src/termux_gamepad.c:124-139 | the device shown carries the name, numbers and mode the X server reported, and rumble exactly when the bridge can rumble |
| Links.EventBytes | src/lorie_evdev_bridge.c:517-522 | the bytes of an event connection are one descriptor and then whole records |
| Links.MonitorMessage | src/lorie_evdev_bridge.c:239-254 | the k-th 96 bytes of a monitor connection are the k-th announcement queued on it |
| Links.MonitorStep | src/lorie_evdev_bridge.c:523-533 | a connection that sends one MONITOR stays a monitor connection across every step of the bridge and only grows |
| Links.EventsStep | src/lorie_evdev_bridge.c:517-522 | a connection that sends one QUERY and rumble requests stays an event connection; it belongs to the epoch in which it asked |
| HubLaws.StepKept | src/lorie_evdev_bridge.c:831-884 | every step keeps the laws of every connection and lets none shrink or change kind |
| HubLaws.ReachableInv | src/lorie_evdev_bridge.c:831-884 | every reachable state obeys all laws: event logs fold to the bridge's state, monitor logs alternate and end in the current descriptor, present if and only if a device is selected |
| HubLaws.XiKept | src/lorie_evdev_bridge.c:655-715 | after an XI2 event every event client of the present epoch still folds to the bridge's state |
| HubLaws.PacketDelivered | src/lorie_evdev_bridge.c:165-175 | a client that got the packet has exactly one packet more and folds to the new state; one that could not take it is closed with a well-framed log |
| HubLaws.RefreshKept | src/lorie_evdev_bridge.c:603-653 | a refresh, also one whose selection fails after the removal, keeps every law |
| HubLaws.AnnouncementDelivered | src/lorie_evdev_bridge.c:239-254 | a monitor client's log stays strictly alternating and ends in the descriptor announced |
| HubLaws.RefreshSettles | src/lorie_evdev_bridge.c:611-618 | asked again, the device just added is recognized by all that is compared: it is neither removed nor added a second time |
| Staleness.AgreesAfterRemoval | src/lorie_evdev_bridge.c:619-625 | in every reachable state in which the device goes away, an event client that was told about it still believes the old state, and agrees with the bridge if and only if every cell was at rest |
| Staleness.CellsRecover | src/lorie_evdev_bridge.c:655-715 | over every run without a removal, whatever a reader believed at its start, it agrees with the bridge on exactly the cells on which it agreed then or that were reported since |
| Staleness.StaleCells | src/lorie_evdev_bridge.c:655-715 | over every run after a removal the reader left behind agrees on exactly the cells that were at rest at the removal or reported since |
| Staleness.StepTells | src/lorie_evdev_bridge.c:655-715 | a step with the same device queues for a reader the one packet from the old state to the new, or nothing and the cells are the same |
| Witnesses.RemovalStrandsReader | src/lorie_evdev_bridge.c:619-625 | a run from the initial state (device, connect, QUERY, button down, device gone) after which an up-to-date reader holds a button that is up for the bridge |
| MotorLaws.MotorFollowsRequests | src/lorie_evdev_bridge.c:296-342 | from any state in which the motor is right for a rumble-capable device, over every run without a refresh, it stays right: componentwise maximum and latest expiry of the live requests, silent when there is none; MotorAfterSwap says when a device just added gets there |
| MotorLaws.MotorAfterSwap | src/lorie_evdev_bridge.c:327-341 | for every reachable state in which a rumble-capable device is selected and every run since then: the motor is right if and only if nothing was being asked for at the selection, or a client with a live request was lost in announcing it, or some later step was a rumble command, the loss of such a client, or an update that was forced, found nothing to play or found a peak other than the recorded one; otherwise it is silent |
| MotorLaws.StepFollows | src/lorie_evdev_bridge.c:296-342 | one step with the same device makes the motor right in exactly those cases and otherwise leaves it as right or wrong as it was; the record of the peak and the bound on expiries are kept |
| MotorLaws.EffectMotor | src/lorie_evdev_bridge.c:105-122 | whatever clients a broadcast or an answer loses, the arbitrations they force leave the motor right if one of them had a live request and untouched if none had |
| MotorLaws.ReachableAccounts | src/lorie_evdev_bridge.c:340-341 | in every reachable state the recorded peak is the peak of the requests, also across swaps and without a device |
| MotorLaws.DurationsExact | src/lorie_evdev_bridge.c:328-340 | in every reachable state a command's duration is exactly the time to the last live expiry and lies in 1..2^32-1: neither the clamp nor the floor changes it |
| MotorLaws.ExpiryTellsSilence | src/lorie_evdev_bridge.c:503-511 | after a RUMBLE an expiry of zero is a sign of silence if and only if some magnitude was not zero |
| Witnesses.SwapLosesRumble | src/lorie_evdev_bridge.c:327-341 | a run from the initial state (device, connect, RUMBLE, other device, update) that ends with a live request and a silent motor |
| Witnesses.ZeroRumbleExpires | src/lorie_evdev_bridge.c:503-511 | a run from the initial state that ends with a client that asks for nothing and has an expiry |
| HubLaws.QueryKept | src/lorie_evdev_bridge.c:517-522 | a query is answered with the descriptor and, when a device is present, one whole snapshot |
| HubLaws.MonitorKept | src/lorie_evdev_bridge.c:523-533 | the first announcement of a monitor connection tells what is the case |
| HubLaws.DisobeyKept | src/lorie_evdev_bridge.c:493-538 | a command that fails closes its client and harms no other |
| HubModel.UpdateSteadies | src/lorie_evdev_bridge.c:296-342 | a forced update, or any update from a steady state, leaves the motor with the peak of the unexpired requests although an unchanged peak sends nothing |
| HubModel.PeakIsMaximum | src/lorie_evdev_bridge.c:304-321 | the peak bounds every request being played and is attained by some |
| HubModel.UpdateAfterSwap | src/lorie_evdev_bridge.c:327-341 | one update on a silent rumble-capable device makes the motor right if and only if it is forced, finds nothing to play or finds a peak other than the recorded one |
| ParserLaws.ReachableParses | src/lorie_evdev_bridge.c:471-541 | in every reachable state the commands obeyed since a client connected have good headers and are a beginning of the records of all it has sent, all of them when less than one is left over; a bad header waiting is the next record of the whole stream |
| ParserLaws.TurnsParseWhole | src/lorie_evdev_bridge.c:471-541 | turn by turn for any chunking: complete turns run the records of the concatenated stream, a last turn may stop anywhere, and the bad header where it stops is one of the whole stream |
| ParserLaws.StepParses | src/lorie_evdev_bridge.c:489-502 | every step keeps, for every client, the commands taken and the bytes left as a partition of what was received |
| Bridge.Server.constructor | src/lorie_evdev_bridge.c:787-789 | sixteen free entries, no device, silent motor |
| Bridge.Server.SendRumble | src/lorie_evdev_bridge.c:256-294 | a request is sent if and only if a rumble-capable device is selected: a stop for two zero magnitudes, otherwise the main effect with both magnitudes and the duration, always for that device |
| Bridge.Server.Command | src/lorie_evdev_bridge.c:327-341 | the request sent, if any, leaves the motor doing what the arbitration function says, and goes to the selected device |
| Bridge.Server.Strongest | src/lorie_evdev_bridge.c:298-326 | lapses expired requests in place and finds the peak of the others and the time it lasts |
| Bridge.Server.UpdateRumble | src/lorie_evdev_bridge.c:296-342 | the new state is the arbitration function of the old one; queues are untouched |
| Bridge.Server.CloseClient | src/lorie_evdev_bridge.c:105-122 | frees the entry, its queue and its unparsed bytes, and arbitrates again if it had asked for rumble |
| Bridge.Server.QueueConserves | src/lorie_evdev_bridge.c:124-157 | the socket has taken a beginning of the whole messages queued since connect, the buffer holds exactly the rest, at most 16384 bytes |
| Bridge.Server.QueueTo | src/lorie_evdev_bridge.c:148-157 | a message is queued whole or refused with nothing changed |
| Bridge.Server.Broadcast | src/lorie_evdev_bridge.c:165-175 | every open client of the kind gets exactly this message or is closed; all other queues are untouched, even when a close arbitrates in mid-loop |
| Bridge.Server.AcceptClient | src/lorie_evdev_bridge.c:452-467 | a connection takes the first free entry, cleared, or is refused when all sixteen are open |
| Bridge.Server.Rumble | src/lorie_evdev_bridge.c:503-511 | stores the request with its expiry, zero magnitudes included, and forces an arbitration |
| Bridge.Server.SendSnapshot | src/lorie_evdev_bridge.c:404-431 | queues all twenty cells and a report, or closes the client |
| Bridge.Server.AnswerQuery | src/lorie_evdev_bridge.c:517-522 | descriptor alone without a device, descriptor and snapshot with one |
| Bridge.Server.AnswerMonitor | src/lorie_evdev_bridge.c:523-533 | queues the announcement that matches the present state |
| Bridge.Server.Execute | src/lorie_evdev_bridge.c:503-538 | one command, error branch included, is a step of the model |
| Bridge.Server.ServeCommands | src/lorie_evdev_bridge.c:489-540 | runs commands from the front of the buffer as steps of the model until one is invalid or fails or the client is gone; otherwise less than 16 bytes are left |
| Bridge.Server.ReceiveControl | src/lorie_evdev_bridge.c:471-541 | one recv and its parse: the commands run since connect are a beginning of the records of all received since, all of them when it succeeds and the client stays; it gives up only at the end of the stream, at a failed command or at a bad header of that whole stream |
| Bridge.Server.CommandsParsed | src/lorie_evdev_bridge.c:471-541 | between turns the commands obeyed since a client connected are exactly the records of all it has sent, and its buffer holds exactly the rest |
| Bridge.Server.ServeClient | src/lorie_evdev_bridge.c:863-881 | one client's part of a turn, closing included, is a run of the model that leaves no whole command waiting and no other client's input touched |
| Bridge.Server.ProcessXiEvent | src/lorie_evdev_bridge.c:655-715 | events of other devices are ignored; otherwise the state moves on and the minimal packet, if any, is broadcast |
| Bridge.Server.RefreshDevice | src/lorie_evdev_bridge.c:603-653 | unchanged device, removal, failed selection and addition, with the announcements between them, and the result code |
| Bridge.Server.Turn | src/lorie_evdev_bridge.c:831-884 | one turn of the main loop is a run of the model, whatever the X server, the sockets and the clients do, so every law holds again after it and no whole command is waiting |
| Clients.OutputQueue.FlushClient | src/lorie_evdev_bridge.c:124-146 | bytes accepted followed by bytes buffered stay what was queued, for every sequence of partial sends; success means an empty buffer or a socket that would block, failure a send that failed with bytes left |
| Clients.OutputQueue.QueueBytes | src/lorie_evdev_bridge.c:148-157 | queues all of the data exactly when it fits, otherwise none of it |
| Clients.CommandBuffer.Take | src/lorie_evdev_bridge.c:489-502 | takes the first command out of the buffer, unless its header is bad |
| Clients.CommandBuffer.Receive | src/lorie_evdev_bridge.c:478-488 | received bytes go behind those kept |
| Packets.BuildSnapshot | src/lorie_evdev_bridge.c:404-427 | the events of a snapshot are the twenty cells in order and a report, within the 24-entry array |
| Packets.MoveAxes | src/lorie_evdev_bridge.c:663-679 | for every valuator mask each set axis below 6 is compared with the value at the rank of its bit; axes beyond are skipped but consume values |
| Packets.PressButton | src/lorie_evdev_bridge.c:680-710 | a button event emits exactly the cells it changes |
| Packets.KeyDelta | src/lorie_evdev_bridge.c:706-707 | a plain button changes its own cell and no other |
| Packets.HatDelta | src/lorie_evdev_bridge.c:695-705 | a hat direction changes one hat axis and nothing else |
| Packets.BuildPacket | src/lorie_evdev_bridge.c:655-715 | the packet is the ordered difference of the two states closed by a report, empty when there is none, within the 16-entry array |
| Controller.PacketSimulation | src/lorie_evdev_bridge.c:404-431 | for every k the snapshot and the first k packets fold to the view of the state after the k-th event, whenever the client asked |
| Controller.SnapshotDetermines | src/lorie_evdev_bridge.c:404-431 | a snapshot overwrites whatever was known before |
| Controller.PacketAdvances | src/lorie_evdev_bridge.c:711-714 | a packet takes a client from the old state to the new one |
| Controller.SilentIffInvisible | src/lorie_evdev_bridge.c:711-714 | a packet is sent if and only if the view of the state changed |
| Controller.DeltaMinimal | src/lorie_evdev_bridge.c:655-715 | every event of a packet before its report changes the replica when its turn comes |
| Controller.NextPadValid | src/lorie_evdev_bridge.c:655-710 | axes stay in range and hats stay determined by their buttons |
| Controller.ReplayCommutes | src/termux_gamepad.c:252-285 | the library's fold is the pointwise view of the cells, for any events at all |
| Controller.ReplayCounts | src/termux_gamepad.c:281-284 | the packet counter counts the reports modulo 2^32 |
| Controller.ViewExplicit | src/termux_gamepad.c:257-271 | on states the bridge can be in no narrowing cast of the library wraps |
| Controller.ResetIsViewOfZero | src/termux_gamepad.c:29-34 | the library's reset state is the view of the zeroed bridge state |
| Controller.TriggerNearest | src/lorie_evdev_bridge.c:368-373 | a trigger value is the nearest of 256 steps; ties cannot occur |
| Controller.TriggerMonotone | src/lorie_evdev_bridge.c:368-373 | trigger conversion keeps order over all integers |
| Controller.TriggerOnto | src/lorie_evdev_bridge.c:368-373 | every step 0..255 is reached |
| Controller.TriggerEndToEnd | src/termux_gamepad.c:263-268 | from valuator to 16-bit axis: fits, keeps order, hits both ends, stays within 257*16383/32767 of exact |
| Bytes.CutsAreExact | src/lorie_evdev_bridge.c:489-502 | cutting a stream into records loses and invents nothing |
| Bytes.CutsCompose | src/termux_gamepad.c:403-415 | cutting may stop anywhere and go on with what was left over |
| Bytes.ChunkingIrrelevant | src/termux_gamepad.c:403-415 | records and rest do not depend on how the stream was broken up |
| Protocol.RecordRoundTrip | src/tg_common.h:15-21 | decoding an encoded input record gives it back |
| Protocol.ControlRoundTrip | src/tg_evdev_protocol.h:47-54 | decoding an encoded command gives it back |
| Protocol.ControlBytesRoundTrip | src/tg_evdev_protocol.h:47-54 | a command has no padding: re-encoding gives the same 16 bytes |
| Protocol.DescriptorRoundTrip | src/tg_evdev_protocol.h:26-37 | decoding an encoded descriptor gives it back |
| Protocol.HotplugRoundTrip | src/tg_evdev_protocol.h:39-45 | decoding an encoded announcement gives it back |
| Protocol.RecordsOfPrefix | src/lorie_evdev_bridge.c:148-163 | however much of an encoded stream has arrived, it decodes to a beginning of the records sent |
| LibraryModel.LifeAlways | src/termux_gamepad.c:153-231 | over every sequence of happenings: an open event stream needs a monitor and a present device, without one the replica is reset, without a monitor no device is present |
| LibraryModel.SplitIrrelevant | src/termux_gamepad.c:403-415 | any two ways to break up the event stream leave the same replica and the same rest, shorter than a record |
| LibraryModel.ReportsAddUp | src/termux_gamepad.c:281-284 | the reports counted call by call add up to those of the whole stream |
| LibraryModel.CallsAddUp | src/termux_gamepad.c:389-424 | over any series of update calls on one stream, its end included, the results add up to the reports of everything received, and while the stream is open the replica is what that says |
| LibraryModel.TakeIsFeed | src/termux_gamepad.c:404-414 | one recv into the 24-byte buffer is a step of that fold |
| LibraryModel.TextSurvives | src/termux_gamepad.c:138 | a name survives the fixed, zero-padded field |
| Library.Gamepad.Create | src/termux_gamepad.c:307-331 | no handle without memory or for a path of 108 bytes or more; the path is the argument, the environment's or the default; a handle is usable whether or not the bridge is there |
| Library.Gamepad.OpenEventStream | src/termux_gamepad.c:162-186 | 0 if and only if the stream is open, on a good answer with a present device; -ENODEV or the error on the way otherwise, with nothing changed; the device shown does not change |
| Library.Gamepad.ApplyHotplug | src/termux_gamepad.c:188-206 | -EPROTO for a bad header, 0 for no news, 1 for a changed device, whose predecessor's stream is closed |
| Library.Gamepad.OpenMonitor | src/termux_gamepad.c:208-231 | opens the monitor and applies its first announcement, or changes nothing |
| Library.Gamepad.ReadMonitor | src/termux_gamepad.c:359-371 | bytes complete the 96-byte buffer or wait in it; a complete announcement is applied |
| Library.Gamepad.DropMonitor | src/termux_gamepad.c:376-384 | without the monitor no device is present |
| Library.Gamepad.Refresh | src/termux_gamepad.c:346-387 | the result is 1 exactly when the device shown changed on the way, through any sequence of partial reads, interruptions and losses |
| Library.Gamepad.Drain | src/termux_gamepad.c:403-423 | what was received is folded record by record and its reports are counted; at the end of the stream all of it is dropped |
| Library.Gamepad.Update | src/termux_gamepad.c:389-424 | refresh, reopening and draining as one run that keeps the lifecycle invariant; a result that is no error is the number of reports received, also when the stream ends during the call |
| Joydev.ReadsCompose | src/evdev_preload.c:584-599 | over any read calls and any splitting of the stream the output is the conversion of the whole stream, nothing lost, repeated or reordered |
| Joydev.InitialEvents | src/evdev_preload.c:534-561 | a reader first sees twenty initial events, one for each axis and button, and no initial event afterwards |
| Joydev.EachControlOnce | src/evdev_preload.c:488-518 | the cells of the snapshot and the joystick's eight axes and twelve buttons correspond one to one |
| Joydev.HearFold | src/evdev_preload.c:534-561 | what a reader folds is the pointwise conversion of what the records say |
| Joydev.InitialDetermines | src/evdev_preload.c:534-561 | after the initial events nothing depends on what the reader believed before |
| Joydev.TriggerWraps | src/evdev_preload.c:521-524 | the last trigger step wraps to the lowest value |
| Joydev.TriggerOrder | src/evdev_preload.c:521-524 | trigger order is kept if and only if the larger step is not the last one |
| Joydev.StickOrder | src/evdev_preload.c:525-532 | sticks and hats stay within -32767..32767 and keep order |
| JoydevAgreement.JoydevAgrees | src/evdev_preload.c:534-600 | in every reachable state a joystick connection carries exactly twenty initial events first and tells, whatever the reader believed, the conversion of the cells queued on it; within its epoch these are the bridge's |
| JoydevAgreement.JoydevStale | src/evdev_preload.c:534-600 | a joystick reader has no monitor: over every run after a removal an axis or button shows the bridge's state if and only if its cell was at rest at the removal or reported since |
| JoydevAgreement.ReadsPrefix | src/evdev_preload.c:563-600 | reading such a connection in pieces gives a beginning of its events, all of them once all is read |
| ShimModel.OperationKeeps | src/evdev_preload.c:160-177 | open, upload, remove, read and close keep files distinct and every used effect owned by a live evdev file |
| ShimModel.RunOwned | src/evdev_preload.c:160-177 | so does every run of them |
| ShimModel.CloseFrees | src/evdev_preload.c:667-678 | closing frees exactly that file's effects and leaves every other file's entry as it was |
| ShimModel.ReopenIsFresh | src/evdev_preload.c:164-174 | a file number used again starts without effects and without a partial record |
| ShimModel.DeletedLookup | src/evdev_preload.c:175-177 | swap-deletion loses the deleted file only; others keep their own partial records |
| ShimModel.AddedLookup | src/evdev_preload.c:164-174 | a file is added once, while there is room, and no other entry changes |
| ShimModel.JoystickUndisturbed | src/evdev_preload.c:563-600 | over all its reads a joystick that stays open hands out the conversion of its whole stream, whatever happens to other files and wherever its entry moves |
| EvdevShim.Tables.AddFakeFd | src/evdev_preload.c:164-174 | adds the file unless it is there or the table is full |
| EvdevShim.Tables.ConnectDevice | src/evdev_preload.c:179-212 | only a good answer with a present device gives a file |
| EvdevShim.Tables.UploadEffect | src/evdev_preload.c:343-381 | a refused upload changes nothing; an accepted one fills exactly the slot chosen |
| EvdevShim.Tables.PlaceEffect | src/evdev_preload.c:349-355 | the lowest free slot, or the slot asked for unless it is another file's |
| EvdevShim.Tables.RemoveEffect | src/evdev_preload.c:383-388 | frees the slot for its owner only |
| EvdevShim.Tables.Close | src/evdev_preload.c:667-678 | effects freed, entry deleted |
| EvdevShim.Tables.PlayEvent | src/evdev_preload.c:615-632 | gain, stop, start with the gain applied and the default duration, or refusal |
| EvdevShim.Tables.Write | src/evdev_preload.c:602-635 | obeys the events before the first that is refused or cannot be sent; the result is the length exactly when that is all of them |
| EvdevShim.Tables.FillRecord | src/evdev_preload.c:587-594 | completes the entry's record as far as the stream goes, other entries untouched |
| EvdevShim.Tables.ReadJoydev | src/evdev_preload.c:585-599 | fills the caller's array with the conversion of what was received and keeps the rest; 0 is returned at the end of the stream only |
| EvdevShim.Tables.Read | src/evdev_preload.c:563-600 | the same for the table, with the error for a missing or too small buffer |
| ForceFeedback.ScaledAbsExact | src/evdev_preload.c:321-325 | twice the magnitude for every 16-bit level except -32768, and monotone |
| ForceFeedback.ConditionIsMaximum | src/evdev_preload.c:332-342 | the strongest of two saturations and two coefficients |
| ForceFeedback.SignsIgnored | src/evdev_preload.c:358-377 | levels and coefficients of equal magnitude give equal strengths |
| ForceFeedback.GainLaws | src/evdev_preload.c:626-627 | with gain a strength never exceeds the stored one, grows with the gain, is unchanged at full gain, and the product fits 32 bits |
| ForceFeedback.UploadOwns | src/evdev_preload.c:349-357 | an upload takes one slot that was free or its own, the lowest free one when automatic |
| ForceFeedback.UploadRefused | src/evdev_preload.c:346-355 | an automatic upload is refused only when all slots are taken, another only for a bad or foreign number |
| ForceFeedback.EraseOwns | src/evdev_preload.c:383-388 | removing frees one slot of its owner |
| ForceFeedback.MessagesBounded | src/evdev_preload.c:614-632 | for every gain history no message is stronger than an effect the writer owns, and every start lasts some time |
| ForceFeedback.FullGainPlaysUploaded | src/evdev_preload.c:625-630 | at full gain an effect is played as uploaded |

## Left out

- X11 and XI2 calls, the error handler, the encoding of LORIE requests and the version query: a refresh
  takes an arbitrary answer, the motor obeys every request sent and stops at its deadline. A bridge whose X server
  lacks the LORIE extension behaves like one without a device.
- Sockets, poll and signals as system calls: only their possible results are modelled, in any order. An
  uninterrupted series of EINTR, and an unending stream of input within one call, are taken to be finite.
- The shutdown path of the bridge (src/lorie_evdev_bridge.c:886-893): a stop and sixteen closes.
- Timestamps: carried through records unchanged; that they are monotone is not claimed. The product
  `tv_sec * 1000` is taken modulo 2^32 at the end and not at 64 bits.
- The conversion of a valuator from double to int, and 64-bit overflow of the millisecond clock.
- A newly selected device is taken to start without vibrating.
- Valuator masks are a list of bits with one value per set bit; the button word is a list of sixteen bits.
- Descriptor names are compared as their zero-padded fields, which is what comparing the strings comes to
  for the names the bridge stores.
- The library's rumble calls: on an event connection RUMBLE and STOP may arrive at any time.
- The DirectInput translation of evdev reads (src/evdev_preload.c:572-582), and that it only sees records
  aligned within one call.
- The hooks for open, stat and ioctl numbers, capability bitmaps, environment variables and debug output;
  of ioctl only upload and removal of effects.
- A file closed behind the shim's back stays in its table; the model's files are closed by the close hook.
- src/libudev_fake.c, src/event_server.c, the diagnostic programs and the packaging: no algorithm of
  interest, or only members that would be easy.
- Bridge.Server.SendRumble: does not model the extension's opcode, which never changes, nor the padding.
