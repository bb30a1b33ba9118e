# The MX Remote client, modelled and verified

The repository is a client for the MX Remote UDP protocol: it discovers devices (matrices,
amplifiers, OneIP transmitters and receivers), caches what they announce about themselves and
their bays, tells the program about changes through callbacks, and sends control frames.

This project models the parts of it that carry state or hard layouts, and proves what they
promise. `dafny verify dfyconfig.toml` checks everything.

| files | about |
|---|---|
| `Bytes`, `Frame`, `Opcodes` | bytes, fixed-width text, records, the 24-byte frame header |
| `Uid`, `Network`, `Control`, `Growth`, `Peers` | payloads: printing and parsing, ambiguous layouts, builders against their handlers, growth of payloads, what a control call does at a peer |
| `V2ipConfig` | the incremental merge of V2IP device configurations |
| `AudioGraph`, `AudioTree`, `AudioLoops` | the audio endpoint report: parent entries as a graph, the two-pass parser and the recursive walk on objects, reports that cannot be followed |
| `CallbackQueue` | the lock and the queue of callbacks as a protocol between goroutines |
| `Hello`, `Gate` | the announcement timer, the protocol gate of every send |
| `BayModel`, `DeviceModel`, `Links`, `Registry` | the cached state as values: one bay, one device, the link book, the whole registry and its runs |
| `Reports`, `Announcements` | what every datagram and control call leaves of the registry, said of the bytes of its payload and of what a reader sees afterwards |
| `History`, `OnlineRuns`, `LinkSymmetry`, `LinkRuns`, `StaleLinks` | what runs do to each device, when a device is online, when the two ends of a link agree, runs after which they always do, and runs after which they do not |
| `Bays`, `Devices`, `Remotes`, `Calls`, `Interleaving` | the same as objects that handlers and control calls update in place, each method proved against the value it stands for, under any schedule of the goroutines |

The cached state is modelled twice on purpose. As values, every handler is a function and the
properties of runs are theorems about those functions. As objects, every handler is a method
with loops and field updates, and its contract equates the object's new value with the function
of its old one. `Interleaving.Scheduled` says turn by turn what a schedule of datagrams, probe
ticks, control calls and callbacks can make of the registry and of the callback queue;
`Interleaving.Serve` takes every schedule on the objects and ends where it can lead, and
`Interleaving.ScheduledCoherent` shows that to be a run of both, so the theorems hold of the objects.

## Where the code differs from its words, or from what one would expect

The code is followed in each case.

- `network.go:94-102` says a one-character early-form name is ambiguous. An early-form report
  without features whose name is empty is read correctly as well, and there is one more family of
  unpadded names that is; `Network.EarlyIsRecognised` gives the exact condition. A late-form report
  with wider features is read correctly only in two corner cases; `Network.LateIsRecognised`.
- `bay.go:437` passes a rise/fall distinction to `setBoolStatus`. A change always has true on one
  side, so it makes no difference.
- `links.go:122` ignores a link whose far bay name alone has changed.
- `links.go:51-97` reads as symmetric, but a link stays stored under the key its origin had when it
  was made. After a bay mapping has moved that key, a connected link can lead to a link that is not:
  `LinkSymmetry.ConnectedBack` says exactly when, for every link, and
  `StaleLinks.StaleKeyBreaksSymmetry` gives runs of datagrams that end there, one kind for each end.
- `links.go:126` tells the bay now holding the key that its link is gone, which after such a mapping
  is not the bay that was told of the link: `Links.UnlinkedWhereLinked` says exactly when it is,
  `StaleLinks.StaleKeyUnlinksAnother` gives a run where it is not.
- `multiviewer.go:442-445` stamps 0x20 while the floor of its opcode is 0x16; receivers in between
  pass the gate and drop the frame (`Gate.MultiviewerStamp`).
- `control.go:204-230` stores what it sends, but a peer does not always end up with the same:
  `types.go:153-157` sends an unspecified mute state as unmuted, `types.go:142-149` a negative volume
  as 0, and `dispatch.go:245-250` ignores one above 100. `Peers.VolumeReachesPeer` says exactly when
  the two agree, `Peers.StepsReachPeer` what that means for the calls that step the volume shown
  (`control.go:250-275`, which send 101 at 100 and -1 at 0), `Peers.VolumeDrifts` shows them apart.
- `remote.go:380-382` speaks of announcements 3, 4 or 5 seconds apart. That is exact when the first
  attempt succeeds (`Hello.ConsecutiveAnnouncements`).
- `audio.go:96-101` walks child lists without a visited set. An endpoint with two parent entries can
  close a cycle below a root, and an amplifier starts the walk at any endpoint, so one that names
  itself as its parent is enough there. The walk then never returns. `AudioTree.WalksIffAcyclic` says
  exactly which reports can be taken, `AudioLoops.LoopingReport` and `AudioLoops.SelfReport` give
  frames that cannot.
- `device.go:1082-1085` replaces the collection on a repeated report without handing its endpoints to
  the bays again, so a repeated report leaves them without a bay and the bays pointing to endpoints
  no longer there (`AudioTree.AudioDevice.TakeFeatures`).

## Model

| member | source | states |
|---|---|---|
| Bytes.FixedFieldRoundTrip | bayconfig.go:53-71 | a name survives its fixed-width field if and only if what fits of it is ASCII without a NUL |
| Bytes.DecodeCStr | bayconfig.go:57-71 | the byte loop gives the text before the first NUL, with U+FFFD for each byte above 0x7F, and never a NUL |
| Bytes.AppendFixedStr | remote.go:544-555 | appends exactly the truncated, NUL-padded field to what was there |
| Bytes.RecordsAppend | dispatch.go:97-113 | cutting a payload after whole records cuts its records there, and a short rest adds none |
| Frames.BuildFrame | frame.go:55-65 | the buffer filled in place is the header fields in wire order followed by the payload |
| Frames.FrameRoundTrip | frame.go:44-90 | parsing a built frame gives back every header field, and the payload if and only if it has at most 65535 bytes (beyond that the length wraps) |
| Frames.AccessorsReadPayload | frame.go:92-153 | every bounded accessor of a built frame reads the payload it was built from, and none reads past it |
| Frames.FrameBytes | frame.go:44-90 | a frame byte by byte: magic 0x50 0x38, version, sender, opcode and length with their low bytes first; nothing else is taken for one |
| Opcodes.FloorOf | constants.go:161-224 | the floor of every opcode, as a table in the order of the opcodes |
| Gate.CallNumbers | constants.go:75-137 | the opcode each control call goes out under and the version it stamps |
| Uids.ParseDeviceUid | uid.go:19-33 | the loop over the parts accepts and yields what the four-word specification does |
| Uids.PrintUid | uid.go:62-74 | the builder loop prints the four words, each most significant byte first |
| Uids.PrintedAt | uid.go:62-74 | each printed word starts every nine characters with its last byte, in lower-case hex digits |
| Uids.PrintThenParse | uid.go:19-74 | printing then parsing any 16-byte uid gives it back across the word reversal |
| Uids.ParseThenPrint | uid.go:19-74 | parsing then printing a string gives it back if and only if it is four dotted words of eight lower-case hex digits |
| V2ipConfig.CacheIsLastValidWrite | dispatch.go:344-376 | after any frames the merged cache is, per field group, the last frame's value carrying it validly, else the first frame's; undefined flag bits are never cached (where a group lies in the payload: Announcements.DetailsRoundTrip; when it is carried: Announcements.MergedOnto) |
| V2ipConfig.DeclaredNext | types.go:349-369 | one merge step extends the declarative last-valid-write reading by one frame |
| V2ipConfig.MergeAssociative | types.go:341-369 | the merge is associative as an operation on (earlier, later) |
| V2ipConfig.ScalingMergeAssociative | types.go:248-273 | so is the merge of scaling settings with its two validity bits |
| V2ipConfig.MergeIdempotent | types.go:349-369 | merging the same configuration twice is merging it once, also onto nothing |
| V2ipConfig.ChunkMerges | dispatch.go:759-763 | a chunk of a run may be merged on its own first and onto the cache after |
| V2ipConfig.DuplicateDelivery | dispatch.go:344-376 | delivering a frame twice in a row anywhere in a run leaves the same cache |
| Network.ParseNetworkStatus | network.go:111-158 | the report is filled in step by step to the chosen layout's reading of it |
| Network.ParseCablePairs | network.go:24-38 | the pairs at the given offsets up to the first that does not fit |
| Network.ReadsAsLaidOut | network.go:111-158 | a report laid out in either layout says, read in that layout, what was laid out: addresses with an uplink, the querier, errors and cables by their bits |
| Network.CablesReadBack | network.go:24-38 | four cables behind the fixed part are read back as they were laid out |
| Network.LateIsRecognised | network.go:77-158 | a late-form report is read with all its own values if and only if its port is below 256 and its features are too, or one of two corner cases holds |
| Network.LateTerminatedName | network.go:77-158 | for a terminated name: port below 256, and features below 256 or with a zero low byte and the name empty |
| Network.LateWidePortIsLost | network.go:77-108 | a late-form port above 255 never survives |
| Network.EarlyIsRecognised | network.go:77-158 | an early-form report is read with all its own values if and only if an explicit condition on its first bytes holds |
| Network.EarlyPaddedName | network.go:77-158 | for a NUL-padded name that is: features or second name character non-zero, or the name empty |
| Network.EarlyOneCharacterNameIsLost | network.go:100-102 | a concrete one-character early report that is misread |
| Control.VolumeBytes | types.go:141-165 | the bytes a volume is sent as: an unknown channel as the other one, and one bit for each channel known to be muted |
| Control.RequestBytes | commands.go:533-600 | where a rename, a profile and an action carry their target, port and value |
| Control.SelectionBytes | audio.go:226-247 | where an input selection carries its sink and its source |
| Control.VolumeRoundTrip | control.go:205-230 | a volume arrives as sent if and only if it lies in 0..100, a mute state always, an absent one as unmuted |
| Control.NameRoundTrip | commands.go:533-553 | a name arrives as sent, cut to 16 bytes, if and only if it is ASCII without a NUL |
| Control.BuildName | control.go:129-146 | the name is cut before it is appended to the payload, and padded there |
| Control.HiddenRoundTrip | control.go:149-172 | target, port and flag arrive as sent |
| Control.EdidRoundTrip | commands.go:586-600 | the profile arrives as sent if and only if it fits 16 bits |
| Control.ActionRoundTrip | commands.go:810-828 | the action arrives as sent if and only if it fits 16 bits |
| Control.ManualSwitchRoundTrip | dispatch.go:319-342 | all three stream addresses and the optional audio format arrive as sent |
| Control.AudioSelectRoundTrip | audio.go:226-247 | sink and source arrive in their own places although the body names the sink first |
| Control.BuildAmpZone | amp.go:142-161 | the two append loops build the 56-byte record with its padding |
| Control.ReadEqBands | amp.go:116-119 | the loop reads both sets of equaliser bands |
| Control.AmpZoneRoundTrip | amp.go:70-161 | zone settings arrive as sent if and only if every byte-wide field is a byte |
| Peers.HiddenReachesPeer | dispatch.go:411-429 | handling the frame of SetHidden is the operation the caller stores of the bay |
| Peers.VolumeReachesPeer | dispatch.go:210-260 | a peer that knows the sender and has the same bay ends up with the volume the caller has cached if and only if the mute state is given or known to be off, and the volume is in range or moves neither side |
| Peers.StepsReachPeer | control.go:250-275 | so raising keeps a peer in step exactly below 100, lowering above 0 or with both channels at 0, both with the mute known to be off, and setting the mute whenever the volume shown can be sent |
| Peers.VolumeDrifts | types.go:141-157 | three concrete bays on which caller and peer end up apart |
| Peers.HelloRoundTrip | remote.go:421-426 | an announcement is heard as it was made, names cut to 16 bytes, if and only if they are ASCII without a NUL |
| Peers.AmpZoneReachesPeer | amp.go:70-121 | for settings in range a peer applies the operation the caller stores |
| Peers.ManualSwitchReachesPeer | dispatch.go:319-342 | the target ends up subscribed to exactly the route sent, whatever the addresses are looked up as |
| Growth.StatsRoundTrip | stats.go:315-395 | every counter of a report is read back in its own place, the decoder's reading behind a stamp of at least 0x29 alone |
| Growth.VideoWallRoundTrip | commands.go:858-881 | every field of a video-wall command is read back in its own place |
| Growth.StatsGrow | stats.go:374-395 | appending bytes changes no counter nor a decoder block already there; one newly appears if and only if length and stamp say so |
| Growth.DeviceConfigGrows | dispatch.go:344-409 | appending bytes changes neither the merged details nor a window or sink whose block was whole |
| Growth.AmpZoneGrows | amp.go:70-121 | appending bytes to an accepted amp-zone payload changes nothing it yields |
| Growth.WindowsGrow | commands.go:681-707 | appending bytes to an accepted tiling or video-wall payload changes nothing it yields |
| Growth.FilterGrows | commands.go:626-653 | the filter list keeps its entries and grows by exactly the whole uids appended |
| Calls.Client.SendThenStore | control.go:140-145 | a call's frame goes out through the gate first; nothing is stored of a call that was refused or failed |
| Calls.Client.SetName | control.go:128-146 | what is sent is stored of the bay: its name cut to 16 bytes |
| Calls.Client.SetHidden | control.go:148-172 | what is sent is stored of the bay |
| Calls.Client.SelectEdidProfile | control.go:174-189 | what is sent is stored of the bay |
| Calls.Client.SetPower | control.go:232-248 | the power action is sent, and the status stored once it is away |
| Calls.Client.VolumeSet | control.go:204-230 | a bay without volume control is refused with nothing sent; otherwise what is sent is stored |
| Calls.Client.SetZoneSettings | control.go:396-408 | what is sent is stored of the bay |
| Calls.Client.StepVolume | control.go:250-275 | a step from the volume shown, or a mute state at it, is sent and stored; a bay that shows none is refused with nothing sent |
| Calls.Client.SelectAudioSourceAddr | control.go:106-125 | only V2IP sinks are routed, port 0 stands for the standard one, and nothing is stored |
| Calls.Client.AudioSelectInput | control.go:385-394 | the sink-first body is sent to the sink's device and nothing is stored |
| Hello.IntervalBounds | remote.go:385-397 | every draw lies in [2.5s, 5s) and its product fits a 64-bit duration |
| Hello.IntervalSpreads | remote.go:386-397 | the draw, high byte first, spreads evenly over the 2.5s above the base, a later draw is a longer wait, and without one the wait is 3.75s |
| Hello.HelloTimer.TxHello | remote.go:409-441 | the timer is re-armed only by a send that succeeded |
| Hello.HelloTimer.Probe | remote.go:483-532 | the ticking loop on the fields has the outcomes of the timer as a value |
| Hello.Cadence | remote.go:399-441 | before the draw has run out every tick is idle, after it every tick attempts until one succeeds or the client closes |
| Hello.ConsecutiveAnnouncements | remote.go:376-441 | two consecutive announcements are the rounded draw apart, 3, 4 or 5 ticks, if and only if the first attempt succeeds, and later exactly by the failures |
| Calls.CallBytes | control.go:106-125 | an audio route leaves the other two streams blank and takes port 50022 where none is given; power on is action 1, off action 2 |
| Gate.Connection.Transmit | remote.go:331-366 | a frame reaches the wire if and only if there is a connection and the target is not known to be too old for the opcode in its header, if it has one |
| Gate.RefusalMatchesReceiver | device.go:206-224 | a call is refused if and only if its known receiver would drop the frame |
| Gate.MultiviewerStamp | multiviewer.go:433-447 | the multiviewer's frames pass the gate and are dropped exactly by receivers from 0x16 up to below 0x20 |
| Gate.UnknownIsNeverRefused | device.go:214-224 | over every run of calls, what reaches everyone and devices that have reported no version is all that was sent to them, in order |
| Gate.EverySendIsSafe | remote.go:331-366 | over every run of calls nothing on the wire is below its opcode's floor or stamped above a known version |
| CallbackQueue.ReachableInv | remote.go:119-136 | in every interleaving whose callbacks are queued in draining sections, each section's callbacks are accounted for: fired, still to fire, or still queued |
| CallbackQueue.FreeMeansDrained | remote.go:126-136 | in every interleaving the queue is empty whenever the lock is free if and only if no short section that is over has queued anything |
| CallbackQueue.FiresOnceInOrder | remote.go:126-136 | every callback fires at most once, on the goroutine whose critical section queued it, in queue order within its batch |
| CallbackQueue.BatchOrder | remote.go:483-532 | what has fired of a section is always a prefix of what it queued, and all of it once its goroutine is done |
| CallbackQueue.QuiescentMeansAllFired | remote.go:126-136 | with the lock free and no batch under way every callback ever queued has fired |
| AudioGraph.InverseIffOneParent | audio.go:267-323 | parent and children pointers are exact inverses without duplicates if and only if no endpoint has two parent entries |
| AudioGraph.FinishesIffAcyclic | audio.go:96-101 | the walk down from an endpoint returns if and only if nothing below it lies on a cycle |
| AudioGraph.TreeUnderRoot | audio.go:137-163 | with at most one parent entry each, what lies below a parentless endpoint is a finite tree, whatever cycles there are elsewhere |
| AudioGraph.TreesApart | audio.go:137-163 | with at most one parent entry each, the trees of two parentless endpoints have no endpoint in common |
| AudioGraph.TwoParentsCanLoop | audio.go:96-101 | two parent entries of one endpoint can close a cycle below a parentless endpoint |
| AudioLoops.ReportArrives | dispatch.go:622-640 | the reports below are frames the audio handler is given, as features reports of their sender |
| AudioLoops.LoopingReport | audio.go:267-323 | a concrete report, from any sender, no transmitter with an input can take |
| AudioLoops.SelfReport | device.go:1095-1107 | a concrete report, from any sender, with one parent entry that every transmitter can take and no amplifier with a bay for its endpoint |
| AudioTree.ParseAudioEndpoints | audio.go:267-323 | the two passes leave objects whose child lists and parent pointers are those of the parent entries, in the order the endpoints first appear |
| AudioTree.EndpointNamed | audio.go:267-300 | an endpoint of a report is one an entry of kind 1 names |
| AudioTree.LastEntryCounts | audio.go:267-300 | it has the features of the last entry that names it |
| AudioTree.EdgesAreEntries | audio.go:300-323 | the edges are those the entries of kind 5 give between endpoints there are |
| AudioTree.AudioEndpoints.Add | audio.go:113-118 | an endpoint replaces the one of its id and keeps that one's place in wire order |
| AudioTree.AudioEndpoint.SetBay | audio.go:96-101 | the recursion sets the bay on exactly the endpoint and its descendants |
| AudioTree.AudioEndpoints.TreeFirst | audio.go:137-163 | the first parentless endpoint in wire order with the feature |
| AudioTree.AudioEndpoints.AttachFirst | audio.go:147-163 | whenever the walk from the chosen root returns, its whole tree and nothing else gets the bay, which points to the root |
| AudioTree.AudioEndpoints.AttachBoth | device.go:1087-1094 | a device's first input gets its first output tree and its first output its first input tree |
| AudioTree.AudioEndpoints.AttachEach | device.go:1095-1107 | an amplifier hands each listed endpoint that has a bay of its own, and what lies below it, to that bay, in order |
| AudioTree.AudioEndpoints.Equal | audio.go:165-179 | two collections are equal if and only if they have the same endpoints with the same features and named parents |
| AudioTree.AudioDevice.TakeFeatures | device.go:1081-1109 | a report is parsed and its trees and the device's bays are introduced to each other, unless it repeats the one before, which leaves its endpoints without a bay and every bay pointing to an endpoint no longer there |
| AudioTree.AudioDevice.HandleAudio | dispatch.go:622-640 | of an audio frame only a features report concerns the collection |
| AudioTree.WalksIffAcyclic | audio.go:96-101 | a report can be taken if and only if no cycle lies below an endpoint it is followed down from |
| AudioTree.OneParentReport | audio.go:137-163 | with at most one parent entry each every report can be taken by a transmitter, and exactly the two chosen roots' trees get their bays |
| AudioTree.LastCoverWins | device.go:1095-1107 | an amplifier's endpoint ends up with the bay of the last endpoint listed that has one and this one below it |
| BayModel.Roles | bay.go:118-155 | inputs, outputs, HDMI inputs, volume control, V2IP sources and local bays by literal feature bits |
| BayModel.NothingKnown | bay.go:222-300 | what a reader sees of a bay before anything is set |
| BayModel.ClearingIsSilent | bay.go:393-432 | an output loses a route without a notice, and any other bay keeps what it has |
| BayModel.LogReplays | bay.go:383-615 | over any operations and descriptors, replaying a bay's notices gives what is cached, attribute by attribute, and no notice repeats the one before |
| BayModel.SetFaithful | bay.go:434-502 | storing a value and notifying it only when a reader sees a change keeps that |
| BayModel.FlagNoticesAlternate | bay.go:434-440 | a flag's notices alternate strictly starting with true, and the flag is set if and only if there has been an odd number |
| BayModel.StatusIsCached | bay.go:553-585 | after a status word every flag is its bit, power is on or off by its own bits and only with a CEC device, the return channel is the first of HDMI, optical and analogue whose bit is set, and nothing else has changed |
| BayModel.DuplicateDescriptorIsSilent | bay.go:595-615 | a descriptor leaves cached what it says, and taking it again changes and notifies nothing |
| Bays.Bay.SetFlag | bay.go:434-440 | the field, the value of the model and the queue change together, the rise/fall flag making no difference |
| Bays.Bay.SetFiltered | bay.go:463-478 | the element-by-element comparison queues a notice if and only if the list differs |
| Bays.Bay.SetVideoSource | bay.go:393-406 | only outputs are routed, clearing is silent, and a notice is queued if and only if the source changes |
| Bays.Bay.SetAudioSource | bay.go:408-432 | the same for audio, compared as a reader sees it with the video source standing in |
| Bays.UpdateVolume | bay.go:848-868 | the accumulated flag is set if and only if merging the known fields changed the value |
| Bays.Bay.SetVolumeStatus | bay.go:526-543 | only bays with volume control keep a volume, notified if and only if it changes |
| Bays.Bay.ApplyBayStatus | bay.go:553-585 | the sequence of setters leaves the bay as the status word does in the model, which BayModel.StatusIsCached pins bit by bit, and queues exactly its notices in order |
| Bays.Bay.ApplyBayConfig | bay.go:595-615 | the same for a whole descriptor |
| Reports.RoutingReport | dispatch.go:155-181 | the bay at 4 is shown on the output at 0 and the bay at 7 played there, as far as the sender has them, each notified if and only if a reader sees a change; no other bay changes |
| Reports.ConnectionReport | dispatch.go:115-133 | byte 1 says of an input that it has a signal and of any other bay that something is plugged in; nothing else changes |
| Reports.PowerReport | dispatch.go:135-153 | byte 1 says whether the bay at 0 is on; nothing else changes |
| Reports.VolumeReport | commands.go:443-470 | the levels up to 100 and both mute bits are kept of a bay with volume control; nothing else changes |
| Reports.VolumeRequested | dispatch.go:210-260 | the same of the bay the payload names, in both forms of the request, 0xFF leaving the mute alone |
| Reports.StatusReport | dispatch.go:431-459 | features, status word and signal name are taken as far as the report reaches, the name not from a V2IP device with a signal; nothing else changes |
| Reports.SignalReport | svd.go:114-131 | the bay at 100 has a signal by bit 1 of byte 2, and the description found for it; nothing else changes |
| Reports.HideReport | dispatch.go:411-429 | the bay the payload names is hidden if and only if byte 18 is 1; nothing else changes |
| Reports.ZoneReport | amp.go:60-121 | the zone of the target, or of the sender where that is zero, has the settings at their offsets; nothing else changes |
| Reports.FilterReport | commands.go:626-653 | the sender's first output filters the whole uids after the first; nothing else changes |
| Reports.MirrorReport | dispatch.go:516-536 | a device's report about itself says whom its first output mirrors, no one for a zero uid or its own; nothing else changes |
| Reports.SwitchReport | dispatch.go:301-317 | the first output of the device named is routed to bays whose device advertises the two addresses for its first input, where there are any; nothing else changes |
| Reports.MappingReport | dispatch.go:553-580 | the uids from 8 on go to the sender's inputs or outputs numbered from the first on, as far as the frame reaches; no other bay changes |
| Reports.ShortIsIgnored | dispatch.go:115-128 | a payload below its opcode's shortest length changes no bay, link or device |
| Reports.StrangerIsIgnored | dispatch.go:76-76 | nothing from a device that has not said hello changes anything, unless it is addressed to another one |
| Reports.CallReport | control.go:128-248 | a call that went out changes the bay it was for as it asked, and nothing else |
| Announcements.HelloReport | dispatch.go:78-95 | a hello is kept as far as it reaches; the first makes the device, with nothing else known of it, and one that differs is notified |
| Announcements.DescriptorReport | bayconfig.go:32-51 | a descriptor, byte by byte, is kept of one bay: name, number, features, status, signal, and sources of an output or profile and remote control of an HDMI input; nothing else changes |
| Announcements.LinkReport | dispatch.go:461-481 | a link, byte by byte, is stored under the key of its bay, unless it repeats device and features of the one there; the sender has its links |
| Announcements.SourcesReport | dispatch.go:280-299 | the advertised sources are those of the last report, one for every 40 bytes; nothing else changes |
| Announcements.DetailsRoundTrip | dispatch.go:344-376 | all streams, the rate from 5 to 100, each marking behind its highest bit, mode, refresh and the three defined flags are read as they were laid out on the wire |
| Announcements.MergedOnto | types.go:341-369 | which fields a configuration replaces, by literal conditions: usable streams, a rate, a video marking, the two validity bits |
| Announcements.ConfigurationReport | dispatch.go:344-409 | the first configuration is cached whole and a later one merged, a window counts if and only if its uid is not zero, a subscription if and only if it fits; nothing else changes |
| Announcements.WindowReport | commands.go:681-707 | a window is stored of the device it is for, where that is known; nothing else changes |
| Announcements.SubscriptionReport | dispatch.go:319-342 | the target is subscribed to the streams of the payload and its first output routed to bays advertising the first two addresses; nothing else changes |
| DeviceModel.CompleteMeans | device.go:519-539 | a device is complete if and only if it has as many bays as visible inputs and outputs together, its sources if it is V2IP, its links if it routes, by literal feature bits |
| DeviceModel.SourceMeans | device.go:502-517 | an input finds its source by its number, from 0 if the device's first input is local and from 1 if it is remote |
| DeviceModel.KeyMeans | bay.go:821-834 | a V2IP source goes by the device advertised, else by the one mapped, any other bay by its own device and port |
| DeviceModel.CompletionIsTold | device.go:778-809 | links or a new bay complete the configuration if and only if nothing is missing then, which is notified once |
| OnlineRuns.RunTracks | device.go:973-978 | over every run a device is known if and only if its hello was heard, and is kept with when it was last heard and the version it announced last, both told from the datagrams alone |
| OnlineRuns.OnlineAfterTick | device.go:294-300 | after a tick that checks, a device is online if and only if less than 15s, or 120s below version 0x20, have passed since it was last heard; the tick queues exactly the change |
| OnlineRuns.OnlineAfterFrame | device.go:975-991 | after a datagram of its own, if and only if that was handled within the same time |
| OnlineRuns.FirstSilentTick | remote.go:483-532 | a device heard in time stays online until the first checking tick that finds it silent for so long, and that one queues that it is offline |
| DeviceModel.OnlineAndConfigured | device.go:973-991 | over any work on a device with any clock readings online notices alternate starting with offline, the stored flag is the last of them, and between two completed configurations the device has been offline |
| DeviceModel.ConfiguredMeansComplete | device.go:778-801 | work that notifies a completed configuration leaves the device complete, with that notice its last |
| Histories.StepLeads | remote.go:461-481 | every step of a run is such work, piece by piece, on the devices it changes |
| Histories.EveryDeviceInOrder | device.go:973-991 | so over every run of the registry each device's online and configured notices are in that order |
| Histories.ConfiguredWhenComplete | device.go:531-539 | over every run each completed configuration was notified in a step of the run, at a moment the device was complete |
| Histories.EveryBayIsTold | bay.go:77-100 | over every run each device has passed on of every bay exactly what the bay has noted, in order |
| DeviceModel.PagesCompose | dispatch.go:97-113 | a bay-config payload leaves bays, routes and notices as its two pages do one after the other, and a partial record is ignored |
| DeviceModel.PageKeepsBays | device.go:786-801 | no earlier page's bay is lost and every descriptor's bay is there |
| Devices.Device.CheckOnline | device.go:980-991 | the transition of the stored flag, the forgotten configuration and the queued notice are those of the model (when a device counts as alive: OnlineRuns.OnlineAfterTick) |
| Devices.Device.CheckConfigComplete | device.go:531-539 | the completeness of the fields is that of the model, and completion is notified once |
| Devices.Device.ApplyHello | device.go:767-776 | an advertisement is stored and notified if and only if it differs |
| Devices.Device.ApplyBayConfig | device.go:786-801 | the bay is made on first sight and changed in place after, and registering it may complete the configuration |
| Devices.Device.TakeConfigPage | dispatch.go:104-113 | the loop over offsets takes exactly the whole records of the page in order |
| Devices.Device.TakeDeviceConfig | dispatch.go:344-409 | details merge, a window counts only with its uid set, a sink whenever its block is there, as in the model (from which bytes: Announcements.ConfigurationReport) |
| Devices.Device.KeyOf | bay.go:821-834 | a V2IP source is keyed by the device it comes from, any other bay by its own device and port |
| Links.LinkLogBracketed | links.go:117-140 | over any updates the origin-side log is well bracketed under every key and folds to whether the stored link is configured, with which serial and made by which bay |
| Links.UnlinkClosesItsLink | links.go:117-140 | every unlink closes one link of the same key and serial, made earlier and not touched since |
| Links.UnlinkedWhereLinked | links.go:117-140 | every unlink is told to the bay that was told of the link it closes if and only if no update closes a link another bay made |
| LinkSymmetry.MaskIsCommonMedia | links.go:78-97 | a bit of a connected link's mask is set if and only if one of its two bays has the output and the other the input of its medium, by literal feature bits; the mask of any other link is empty |
| LinkSymmetry.ConnectedBack | links.go:51-97 | under distinct names, for every connected link wherever it is stored: the link at its other end is connected if and only if the link under this bay's present key names the bay the other one was made by; it then leads back |
| LinkSymmetry.ConnectionSymmetric | links.go:51-97 | for a link stored under its bay's present key: if and only if the other link was made by the bay found there, and then both compute the same mask, one bit for each medium one bay puts out and the other takes in |
| LinkSymmetry.CurrentKeysSymmetric | links.go:51-97 | where links are stored under their origins' present keys connection is symmetric, and so is the mask of what the two bays have in common |
| LinkRuns.KeysStayCurrent | bay.go:821-834 | all through a run every link is stored under the present key of the bay that made it if and only if no step of the run moves the key of a bay whose link is stored |
| LinkRuns.RunSymmetric | links.go:51-97 | so over every such run, with distinct names, a connected link's other end is connected and both compute the mask of what the two bays have in common |
| StaleLinks.StaleKeyBreaksSymmetry | bay.go:821-834 | a family of runs of datagrams that end with distinct names and a connected link whose other end is not connected, for either end |
| StaleLinks.StaleKeyUnlinksAnother | links.go:126-127 | continued, a bay is told that a link another bay made is gone |
| StaleLinks.SetupExists | bay.go:821-834 | there are such runs, of either kind |
| Registry.RegistryStaysWellFormed | remote.go:461-481 | over every run devices are stored under their own uid and never this client's, bays under their own port, and every source and link origin is a bay of the registry |
| Registry.RegistryOnlyGrows | remote.go:535-542 | devices and bays are only ever added |
| Registry.EveryBayReplays | dispatch.go:713-741 | so over every run each bay's notices replay to its cached attributes and a flag's alternate |
| Registry.ConfigPagesCompose | dispatch.go:97-113 | one bay-config frame leaves the registry as its two pages do |
| Registry.LinkPagesCompose | dispatch.go:461-481 | one links frame leaves the registry, link book included, as its two pages do, and a partial record is ignored |
| Registry.HandleKeeps | dispatch.go:13-74 | every modelled handler keeps the registry well formed and only grows it |
| Remotes.Remote.ByStreamIp | remote.go:307-328 | walking the devices in any order finds a bay advertising the address if and only if there is one |
| Remotes.Remote.HandleHello | remote.go:534-542 | a device is made on its first hello and updated after |
| Remotes.Remote.HandleVolumeSet | dispatch.go:222-260 | the bay named by the payload changes, in both forms of the request |
| Remotes.Remote.HandleManualSwitch | dispatch.go:319-342 | the target's first output is routed by the looked-up addresses and the subscription stored |
| Remotes.Remote.HandleDeviceConfig | dispatch.go:344-409 | the sender's configuration is merged in place as in the model (from which bytes: Announcements.ConfigurationReport) |
| Remotes.Remote.HandleBayHide | dispatch.go:411-429 | the bay named by the payload is hidden or shown |
| Remotes.Remote.HandleBayStatus | dispatch.go:431-459 | features, status word and signal description are applied in that order as far as the frame carries them |
| Remotes.Remote.UpdateLink | links.go:117-140 | the stored link and the origin-side log are those of the link book |
| Remotes.Remote.HandleLinks | dispatch.go:463-481 | the loop over link records stores exactly the whole ones, then the device has its links |
| Remotes.Remote.HandleBayMapping | dispatch.go:553-580 | the mapped uids go to the bays numbered from the first, as far as the frame reaches |
| Remotes.Remote.ProcessFrame | remote.go:461-481 | a datagram changes the registry as the model says (for each opcode: Reports and Announcements), own frames not at all, and hands out exactly what each device has notified, in order |
| Remotes.Remote.ProbeTick | remote.go:483-532 | a tick checks every device once some device is complete, in any order, as in the model (which are online then: OnlineRuns.OnlineAfterTick), and hands out exactly what that notified |
| Remotes.Remote.RunLocked | remote.go:126-136 | a control call's update of a bay leaves the queue empty and hands out exactly what it notified |
| Remotes.Remote.ReceiveLoop | remote.go:443-459 | over any datagrams the objects follow the run of the registry that takes exactly those datagrams in order (what each does there: Reports and Announcements), stay well formed, and every notice is handed out once in each device's order |
| Interleaving.Section | remote.go:461-532 | a turn's critical section on the objects is its own step of the registry - the datagram that arrived, a tick at the clock's readings, the operation stored - and queues exactly what the devices notify in it |
| Interleaving.FireOne | remote.go:126-136 | a goroutine fires the next callback of its innermost batch, or leaves the batch when there is none left |
| Interleaving.Serve | remote.go:483-532 | under any schedule of datagrams, probe ticks, control calls, lookups and callbacks calling back in, the objects and what is fired end up where that schedule leads, turn by turn |
| Interleaving.ScheduledCoherent | remote.go:119-136 | wherever a schedule leads, the registry is at the end of a run whose devices have notified exactly what was queued, and the lock and queue at the end of a run of the callback protocol in which only draining sections queue |
| Interleaving.EveryNoticeFiredOnce | remote.go:126-136 | under any schedule, once the goroutines are done with their batches, every notice has been fired exactly once, on the goroutine whose section queued it, in queue order |

## Left out

- Sockets, multicast membership, the uid file and random bytes: a send succeeds or fails, random bytes are arbitrary input, the loaded uid is a parameter.
- The clock: every reading is an arbitrary input; one frame's handler and one device of a probe tick see a single reading each.
- IPv4 addresses are four bytes; their dotted text, labels and error texts are not modelled.
- Frame rates, the SVD table and PDU readings: the text a signal report is described by is an arbitrary input.
- Callback fan-out: a specific callback, the generic one and the registered ones queued together count as one notice, and notices that carry no value (per-device and per-bay registrations alone) are not modelled.
- Link notices: the objects record what origin bays are told in the link book's log; what the bay at the far end is told, and both in the callback queue, is not modelled.
- Routes are held by device and port instead of by pointer; the registry never replaces a bay, so the two agree.
- Replaying route notices: clearing a route notifies nothing, so it does not hold.
- A bay number without a descriptor: the fallback that reads it out of the port name is unreachable, since every registered bay has had a descriptor.
- Remotes.Remote.HandleSourceSwitch: looks the two addresses up before it looks for the output, where the code looks for the output first; neither lookup changes anything.
- Discovery requests of the probe and the grace period they depend on.
- Most control calls that only send (source selection by port or name, audio endpoint mute and trigger, statistics, reboot): they store nothing; their stamps and refusals are those of the gate.
- Audio frames in runs: the registry's runs and the objects of `Remotes` take an audio frame as changing nothing. Taking one is modelled on a device of its own (`AudioTree.AudioDevice`), because a report can make the code never return and then ends every run.
- Audio endpoint addresses, routes and notices; which bays a device hands its endpoints to (its first input and output, an amplifier's bays by number) is a parameter of taking a report.
- The volume shown of a bay that keeps none of its own is that of the bay it is linked to; calls that step it are refused either way.
- The network-status layout before stamp 0x22, whose offsets are fixed.
- Handlers that only forward a decoded struct to a callback, multiviewer getters and setters, temperatures, topology, firmware and system status: flat reads and thin wrappers.
- Reconfiguring and closing the client, which are about socket and goroutine lifetime.
- Liveness, such as a configuration eventually being complete: it depends on what devices send.
