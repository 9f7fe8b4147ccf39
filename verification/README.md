# Verified model of the KS X 4506 / EW11 integration

This Dafny project models the parts of the Home Assistant integration `ksx4506_ew11` whose behaviour is hardest to
see from the code, and proves what they promise. `dafny verify dfyconfig.toml` checks everything.

The integration talks to a wall pad over an EW11 serial-to-TCP bridge: it cuts a byte stream into frames of two mixed
framings, decides with the user's help which devices are real, sends commands that must be confirmed, and recovers
the link and, as a last resort, the power of the hub. The model follows these parts.

## How the model is built

**The byte stream.** `Bytes` has bytes and the two sums of the wire format. `Scanner` is a theory of incremental
scanners: a step function looks at the front of a buffer and emits, skips or waits, a run repeats it, and the theory
says what runs conserve, when cutting the input does not matter, and when a stream comes out as it was sent. It is
used twice. `Frame` and `FrameStream` are the plain frame decoder. `CodecStep` gives every decision of the
two-framing codec as one step, `CodecState` one call of the codec as a function, and `Codec` the codec itself: a class
whose methods have the loops, deletions and mutual recursion of the original, each proved to take exactly the steps
of `CodecStep`. `CodecRun` relates the two; `CodecLaws` has the laws of whole runs. Termination of the recursive
parser is proved with the length of the buffer as its measure.

**Admission.** `Evidence`, `GuardState` and `Guard` are the bounded evidence log and the discovery guard, as classes
proved against functions of their abstract state. `Registry` gives the devices and zones that a frame proposes and
the routes of lights; `GuardedState` and `GuardedRegistry` insert tentatively, ask the guard, and roll back.
`GuardTrace`, `Admission` and `GuardedTrace` are about whole runs, `LightRoutes` about routing, `LightTopology` about the
confirmation of channel counts, and `PacketLru` about the records of packets nobody could use. `GuardBlocks` and
`GuardRecords` say whom the guard keeps out and what it writes down; `Proposals` says which devices each kind of
frame names. `Runtime` is the protocol that saves evidence before it may take effect, and `RuntimeDisk` what the
disk then holds.

**Coroutines.** `Runtime`, `Client`, `Power` and `Recovery` model asyncio code as state machines: one action for one
stretch of code between two suspension points, with the outcome of sockets, saves, switch calls and clock readings as
parameters of the action. A run is any sequence of actions; an action that is not enabled does nothing. The theorems
hold for every interleaving. `ClientLaws`, `ClientLife`, `ClientOutcome` and `RecoveryLaws` hold the theorems of the
larger ones.

**Policies.** `Alert`, `AutoReconnect` and `HubPolicy` are classes proved against functions; their trace properties
are proved by characterising the policy's fields as functions of the run so far; `AlertTrack` does so endpoint by
endpoint.

Times are real numbers. Where a property needs a clock that does not run backwards, it says so; most do not.

## Where the code does not do what one would expect

These are proved as lemmas, together with the exact extent of what does hold.

- The codec's result on corrupt bytes can depend on how the stream was cut (`CodecLaws.CutsCanMatter`): after a
  rejected F7 frame it may resume at a frame start that has not arrived whole. A cut is harmless, whatever follows,
  exactly when no move before it is such a guess (`CodecLaws.CutsAreHarmless`).
- After a rejected F7 frame the four bytes behind its header are not searched. A complete frame that starts there is
  passed over exactly when a plausible start further on is found (`CodecStep.LosesFrameExactly`,
  `CodecStep.FrameIsLost`).
- Exchanging two payload bytes is not detected by either checksum (`Frames.PayloadSwapUndetected`).
- A frame that makes the registry raise leaves behind, unadmitted, all that it proposed
  (`GuardedState.EntersUnadmitted`). Two kinds do. An outlet group reply with fifteen or more channels is refused by
  the decoder half-way (`GuardedState.OversizedBypassesTheGuard`). And an evidence event cannot name more than 32
  keys, so the first group reply of a thermostat with more zones raises out of the guard
  (`GuardedState.FirstGroupReply`). Its candidate is never admitted, and every call that has to record it, the
  next counted observation, a review, its expiry, raises as well and cuts short what else that call had to do
  (`GuardState.ExpireDrops`). Without such frames every device is restored or admitted
  (`GuardedTrace.TameRunsOnlyAdmit`).
- A light restored from a saved key may share the route of another, exactly as `LightRoutes.RoutesSharedExactly` says.
- The day between power cycles counts from the attempts, not from the moments the power went; the cuts are apart by
  a day less the delay of the earlier one, and no more than that is guaranteed (`Power.GuaranteedExactly`).
- An endpoint that is missing from one scan loses its probe history and may be probed again at once
  (`AlertTrace.DistanceExactly`).
- The automatic reconnection counts an incident restored from storage, so its first reading may trigger
  (`AutoReconnect.RestoredIncidentCounts`).
- The samples of a packet record are the last to have entered, not the last to have been seen
  (`PacketLru.RepeatDoesNotRefresh`).
- A sender whose worker dies with its command is not told anything by a shutdown; its own deadline ends the wait
  (`ClientOutcome.ShutdownTellsAll`).
- A command that is stopped before its task has begun shows `pending` for good; no other command that is over does
  (`RecoveryLaws.EndsDecided`, `RecoveryLaws.StoppedBeforeItBegan`).

## Model

| member | source | states |
|---|---|---|
| Bytes.XorSumDetects | custom_components/ksx4506_ew11/frame.py:39-50 | changing one byte always changes the XOR sum, the reason why single-byte errors are found |
| Bytes.SumsOfSwap | custom_components/ksx4506_ew11/frame.py:39-50 | both sums are blind to the order of bytes |
| Bytes.XorBits | custom_components/ksx4506_ew11/frame.py:39-50 | XOR bit by bit: a bit of the result is set exactly when it is set in one operand only |
| Scanner.RunConserves | custom_components/ksx4506_ew11/frame.py:196-234 | the pieces a scan cuts, in order, and what it leaves are the buffer byte for byte |
| Scanner.RunInTwo | custom_components/ksx4506_ew11/protocol.py:53-97 | feeding in two pieces equals feeding at once if and only if no step of the first would have gone differently with the second present |
| Scanner.StreamDelivered | custom_components/ksx4506_ew11/protocol.py:53-97 | a stream of packets that the step function understands, with noise between, comes out as the packets in order, for any chunks |
| Frames.MakeFrame | custom_components/ksx4506_ew11/frame.py:85-104 | a frame is built exactly from three byte-sized fields and at most 255 data bytes |
| Frames.CalculateChecksums | custom_components/ksx4506_ew11/frame.py:39-50 | the loop computes the two checksums and refuses exactly the empty input; what they are, over bytes, is in `Frames.DecodesExactly` |
| Frames.WireLayout | custom_components/ksx4506_ew11/frame.py:125-142 | where header, fields, length byte and data stand in an encoding |
| Frames.EncodingIsChecked | custom_components/ksx4506_ew11/frame.py:39-50 | all bytes of an encoding up to the XOR checksum XOR to zero, and the last byte is the low byte of the sum of all before it |
| Frames.DecodesExactly | custom_components/ksx4506_ew11/frame.py:144-178 | bytes decode if and only if there are seven or more, the header and the length byte are right, and both checksums close in that sense |
| Frames.DecodeEncode | custom_components/ksx4506_ew11/frame.py:125-178 | decoding undoes encoding for every frame |
| Frames.EncodeDecode | custom_components/ksx4506_ew11/frame.py:144-178 | whatever decodes is the encoding of what it decodes to |
| Frames.SingleByteErrorDetected | custom_components/ksx4506_ew11/frame.py:139-178 | changing any one byte of an encoded frame, length byte included, makes decoding fail |
| Frames.PayloadSwapUndetected | custom_components/ksx4506_ew11/frame.py:139-178 | exchanging two payload bytes is accepted as the frame with the bytes exchanged |
| FrameStream.FrameStreamDecoder.Feed | custom_components/ksx4506_ew11/frame.py:196-234 | frames, buffer and both counters after a feed are those of the reference run over buffer plus chunk |
| FrameStream.FrameStreamDecoder.TakeCandidate | custom_components/ksx4506_ew11/frame.py:208-232 | handling of one candidate: wait, emit, or drop one byte and count the error |
| FrameStream.OnlyChecksumErrors | custom_components/ksx4506_ew11/frame.py:216-232 | a complete candidate that is rejected was rejected for its checksums |
| FrameStream.ChunkIndependence | custom_components/ksx4506_ew11/frame.py:196-234 | on all bytes, any cutting into chunks gives the frames, rest and counts of the whole stream |
| FrameStream.Conservation | custom_components/ksx4506_ew11/frame.py:181-234 | bytes fed are discarded plus buffered plus the lengths of emitted frames, each of which stands in the stream as its own encoding |
| FrameStream.RestIsUnfinished | custom_components/ksx4506_ew11/frame.py:196-234 | what stays buffered is empty or an unfinished frame of at most 261 bytes |
| FrameStream.CleanStreamDelivered | custom_components/ksx4506_ew11/frame.py:181-234 | encoded frames with header-free noise between come out exactly, in order, for any chunks |
| CodecStep.EmitsOnlyEncodings | custom_components/ksx4506_ew11/protocol_f7.py:85-193 | an emitted frame re-encodes from its own fields to the bytes it was cut from |
| CodecStep.StepOnF7Packet | custom_components/ksx4506_ew11/protocol_f7.py:58-193 | the codec waits on every proper prefix of a built F7 packet and emits it when complete, whatever its payload holds |
| CodecStep.StepOnStxPacket | custom_components/ksx4506_ew11/protocol_stx.py:28-136 | the same for STX packets of either checksum mode |
| CodecStep.StxLayout | custom_components/ksx4506_ew11/protocol.py:149-152 | where header, masked fields, payload, checksum and trailer stand in a built STX packet, and that its checksum closes |
| CodecStep.StxAcceptsExactly | custom_components/ksx4506_ew11/protocol_stx.py:59-110 | a complete STX candidate is accepted if and only if the trailer is right and the bytes XOR to zero, or the checksum is the low byte of their sum |
| CodecStep.FieldsOf | custom_components/ksx4506_ew11/protocol_f7.py:176-193 | the fields of an emitted frame are the bytes at their places in the buffer |
| CodecStep.F7PacketsNeedOwnHeader | custom_components/ksx4506_ew11/protocol.py:131-138 | F7 packets are recognised exactly when 0xF7 is not configured as STX header |
| CodecStep.F7ResyncIsLeast | custom_components/ksx4506_ew11/protocol_f7.py:28-55 | a rejected F7 frame resumes at the least F7 byte from offset 5 inside it that is incomplete or valid, else one byte on |
| CodecStep.ResyncLosesNoFrame | custom_components/ksx4506_ew11/protocol_f7.py:92-112 | resuming passes over no complete valid F7 frame from offset 5 on, and after a rejected STX frame over no header at all |
| CodecStep.LosesFrameExactly | custom_components/ksx4506_ew11/protocol_f7.py:28-112 | a rejected F7 frame passes over a complete valid frame if and only if one starts at offset 1 to 4 and a plausible one further on is found to resume at |
| CodecStep.FrameIsLost | custom_components/ksx4506_ew11/protocol_f7.py:28-112 | bytes for which that happens |
| CodecStep.WaitingIsShort | custom_components/ksx4506_ew11/protocol_f7.py:58-84 | a buffer on which the codec waits has at most 261 bytes and starts with a header |
| CodecStep.MovesAreSettled | custom_components/ksx4506_ew11/protocol_f7.py:28-193 | a move that is no guess about an unfinished frame is the same whatever bytes follow |
| CodecStep.SpeculationCanFail | custom_components/ksx4506_ew11/protocol_f7.py:36-46 | for every such guess there are later bytes that would have changed it |
| CodecState.FedFrames | custom_components/ksx4506_ew11/protocol.py:53-114 | a feed that finds the fragment expired emits exactly what the new bytes alone give; otherwise what buffer and new bytes give |
| Codec.Ksx4506Codec.constructor | custom_components/ksx4506_ew11/protocol.py:26-41 | a new codec is empty, with the assembly timeout raised to its minimum |
| Codec.Ksx4506Codec.ResetStream | custom_components/ksx4506_ew11/protocol.py:43-47 | buffer and fragment timer are cleared |
| Codec.Ksx4506Codec.ExpirePartialFrame | custom_components/ksx4506_ew11/protocol.py:99-114 | a fragment is dropped exactly when it is older than the timeout |
| Codec.Ksx4506Codec.CalcChecksum | custom_components/ksx4506_ew11/protocol.py:162-175 | the loop computes the configured sum |
| Codec.Ksx4506Codec.BuildPacket | custom_components/ksx4506_ew11/protocol.py:149-152 | the built packet is the STX encoding with every field masked to a byte |
| Codec.Ksx4506Codec.ValidEmbeddedF7Pos | custom_components/ksx4506_ew11/protocol_f7.py:28-55 | the scan finds the least plausible F7 position from 5 below the limit, or -1 when there is none |
| Codec.Ksx4506Codec.NextHeaderPos | custom_components/ksx4506_ew11/protocol.py:116-129 | the nearest of the two headers from a start position, or -1 |
| Codec.Ksx4506Codec.ParseStxFrame | custom_components/ksx4506_ew11/protocol_stx.py:28-136 | the recursive parser takes a sequence of reference steps and stops at a frame or at a wait |
| Codec.Ksx4506Codec.ParseF7Frame | custom_components/ksx4506_ew11/protocol_f7.py:58-193 | the same for the F7 side, with the length of the buffer as measure of the mutual recursion |
| Codec.Ksx4506Codec.ParseBufferHead | custom_components/ksx4506_ew11/protocol.py:131-138 | chooses the framing by the first byte |
| Codec.Ksx4506Codec.Feed | custom_components/ksx4506_ew11/protocol.py:53-97 | new buffer, new timer and emitted frames are those of the reference call; the state stays valid |
| CodecLaws.RunConservation | custom_components/ksx4506_ew11/protocol.py:43-114 | over all calls and bytes the input is, in order, what was dropped, expired, emitted and buffered; at most 261 bytes are buffered; the timer runs exactly while the buffer is not empty; every frame re-encodes to its slice |
| CodecLaws.OnlyFramesRestartTheTimer | custom_components/ksx4506_ew11/protocol.py:53-114 | while a fragment is pending only an emitted frame restarts its timer |
| CodecLaws.TimerExactly | custom_components/ksx4506_ew11/protocol.py:53-114 | the exact timer after a feed, and that a poll drops a fragment exactly when it is as old as the timeout |
| CodecLaws.ExactDelivery | custom_components/ksx4506_ew11/protocol.py:53-97 | packets of both framings with header-free noise between, in any chunks, come out exactly once, in order, with their fields, and nothing else does |
| CodecLaws.StxPayloadMustFit | custom_components/ksx4506_ew11/protocol.py:149-152 | an STX packet comes back with its payload if and only if the payload fits the masked length byte |
| CodecLaws.CutsAreHarmless | custom_components/ksx4506_ew11/protocol.py:53-97 | on arbitrary bytes a cut changes nothing, whatever follows, if and only if no move before it was a guess |
| CodecLaws.OnlySpeculationDependsOnCuts | custom_components/ksx4506_ew11/protocol_f7.py:36-46 | a move survives every continuation if and only if it is not such a guess |
| CodecLaws.CutsCanMatter | custom_components/ksx4506_ew11/protocol_f7.py:36-46 | bytes that yield one frame more in one piece than in two |
| Evidence.Pruned | custom_components/ksx4506_ew11/discovery_evidence.py:110-114 | pruning keeps exactly the fresh events, and bumps the revision exactly when it drops one |
| Evidence.MakeEvent | custom_components/ksx4506_ew11/discovery_evidence.py:19-40 | an event that names more than 32 keys cannot be made |
| Evidence.DiscoveryEvidence.Record | custom_components/ksx4506_ew11/discovery_evidence.py:105-108 | the event joins the bounded log with its context and the revision grows |
| Evidence.RecordedIsLast | custom_components/ksx4506_ew11/discovery_evidence.py:105-108 | a fresh event that is recorded is the last of the log, with the context of the moment |
| Evidence.OldestGoesFirst | custom_components/ksx4506_ew11/discovery_evidence.py:96-108 | while nothing is outdated the log holds the latest 256 events, the oldest going first |
| Evidence.ContextIsRecent | custom_components/ksx4506_ew11/discovery_evidence.py:102-103 | the context is the last four frames heard |
| Evidence.FreshExactly | custom_components/ksx4506_ew11/discovery_evidence.py:110-114 | events are kept for thirty days |
| Evidence.DiscoveryEvidence.Prune | custom_components/ksx4506_ew11/discovery_evidence.py:110-114 | the loop is the pruning function |
| Evidence.DiscoveryEvidence.Restore | custom_components/ksx4506_ew11/discovery_evidence.py:116-118 | stored events replace the log without counting as a change |
| GuardState.ExpireDrops | custom_components/ksx4506_ew11/discovery_guard.py:134-143 | expiry drops exactly the candidates of 24 hours or more, or from the future; it raises exactly when one of those names too many keys, and then still drops no other |
| GuardState.RevisionTracksSnapshot | custom_components/ksx4506_ew11/discovery_guard.py:58-143 | no operation, raising or not, lowers the revision, and one that leaves it alone leaves the snapshot alone |
| Guard.DiscoveryGuard.ObserveFrame | custom_components/ksx4506_ew11/discovery_guard.py:64-96 | observing expires first and then judges the observation; where an event cannot be made it raises, with the changes made before |
| Guard.DiscoveryGuard.Record | custom_components/ksx4506_ew11/discovery_guard.py:58-62 | makes and records an event, or raises exactly when it names too many keys |
| Guard.DiscoveryGuard.ReviewEndpoint | custom_components/ksx4506_ew11/discovery_guard.py:110-124 | the user's decision on a candidate or a blocked endpoint, and when recording it raises |
| Guard.DiscoveryGuard.ProbeResult | custom_components/ksx4506_ew11/discovery_guard.py:98-108 | probe results count at most once a minute, for unchanged keys |
| Guard.DiscoveryGuard.Discard | custom_components/ksx4506_ew11/discovery_guard.py:126-132 | the method is the discarding function, which blocks the endpoint as `GuardBlocks.RejectionBlocks` and `GuardBlocks.ExpiryExactly` say; a candidate that cannot be recorded is dropped, and the call raises |
| Guard.DiscoveryGuard.Expire | custom_components/ksx4506_ew11/discovery_guard.py:134-143 | the two loops over a snapshot of the keys are the expiry function, up to the candidate that raises |
| Guard.DiscoveryGuard.RestoreSnapshot | custom_components/ksx4506_ew11/discovery_guard.py:156-159 | blocks outside the legal span are not read back; candidates never are |
| GuardBlocks.BlockedExactly | custom_components/ksx4506_ew11/discovery_guard.py:126-132 | a new block stands until exactly its time, and of a hundred blocks the one that ends first makes room for it |
| GuardBlocks.RejectionBlocks | custom_components/ksx4506_ew11/discovery_guard.py:110-132 | a rejected endpoint is blocked until exactly 86400 seconds later |
| GuardBlocks.ExpiryExactly | custom_components/ksx4506_ew11/discovery_guard.py:134-143 | expiry ends exactly the blocks whose time has come, leaves the others unless displaced, and blocks every candidate it expires for a day |
| GuardBlocks.RunFenced | custom_components/ksx4506_ew11/discovery_guard.py:47-56 | over all runs at most a hundred candidates wait and a hundred blocks stand, and nobody is both |
| GuardBlocks.BlockStands | custom_components/ksx4506_ew11/discovery_guard.py:64-69 | over all runs a block stands, and no observation begins a candidate there, until its time comes, a user lifts it, or it is displaced from a full table |
| GuardBlocks.BlockedIsRefused | custom_components/ksx4506_ew11/discovery_guard.py:64-69 | an observation at a blocked endpoint is refused |
| GuardBlocks.BlockRunsOut | custom_components/ksx4506_ew11/discovery_guard.py:134-139 | once its time has come the block is gone and the endpoint begins anew |
| GuardBlocks.FullGuardRefuses | custom_components/ksx4506_ew11/discovery_guard.py:79-80 | a hundred candidates leave no room for another |
| GuardBlocks.InForceExactly | custom_components/ksx4506_ew11/discovery_guard.py:156-159 | exactly the stored blocks that end after now and within a day are read back |
| GuardRecords.JudgedIsSaid | custom_components/ksx4506_ew11/discovery_guard.py:64-96 | an admission, a new or counted candidate and a vanished topology each end the log with their own event |
| GuardRecords.ReviewIsSaid | custom_components/ksx4506_ew11/discovery_guard.py:110-124 | so does a user's decision, with the keys it was about |
| GuardRecords.DiscardIsSaid | custom_components/ksx4506_ew11/discovery_guard.py:126-128 | so does a rejection or expiry |
| GuardRecords.ProbeIsSaid | custom_components/ksx4506_ew11/discovery_guard.py:98-108 | so does a probe that counts, with its outcome |
| GuardTrace.EveryCandidateHasAStory | custom_components/ksx4506_ew11/discovery_guard.py:64-143 | in every reachable state the counters of every candidate that can be recorded are those of real observations of the run, a minute apart, with the same keys since its creation, and its approval is a real one |
| GuardTrace.AdmissionIsBacked | custom_components/ksx4506_ew11/discovery_guard.py:64-96 | an admission is backed by an approval after the candidate's creation, unchanged keys at every observation that had its effect, three or more spaced observations, an age within [600, 86400) seconds, and both flags |
| GuardTrace.SpacedPairwise | custom_components/ksx4506_ew11/discovery_guard.py:78-88 | the counted observations are pairwise a minute or more apart |
| Admission.SeenAndApprovedIsAdmitted | custom_components/ksx4506_ew11/discovery_guard.py:64-124 | a device first seen in any reachable state with room for it is admitted, whatever else happens meanwhile, if and only if its own later observations and reviews make it ripe and approved and both flags are on |
| Admission.AdmittedExactly | custom_components/ksx4506_ew11/discovery_guard.py:64-96 | in every reachable state a proposal is admitted if and only if a candidate for the same keys waits at its endpoint, in time, ripe and approved, both flags are on, and nothing fails to be recorded |
| Admission.AdmissionHappens | custom_components/ksx4506_ew11/discovery_guard.py:64-124 | a new device seen three times with spacing, approved in between and ten minutes old gets into a new guard if and only if both flags are on |
| Admission.RunSpares | custom_components/ksx4506_ew11/discovery_guard.py:64-143 | a candidate that nothing ends is what its own events make of it, whatever else happens |
| Admission.CandidateBegins | custom_components/ksx4506_ew11/discovery_guard.py:76-83 | an endpoint neither waiting nor blocked begins a candidate when there is room |
| Registry.Apply | custom_components/ksx4506_ew11/discovery.py:290-564 | upserts keep every device and add only devices they name |
| Registry.RestoreDevice | custom_components/ksx4506_ew11/discovery.py:241-278 | restoring adds at most the key asked for |
| Proposals.RestoresExactly | custom_components/ksx4506_ew11/discovery.py:241-278 | a saved key is entered exactly when its address is legal, with its zones and its own route, and nothing else changes |
| Proposals.ConsideredExactly | custom_components/ksx4506_ew11/discovery.py:1105-1140 | which device, command and address a frame must have to be considered |
| Proposals.ProposalTells | custom_components/ksx4506_ew11/guarded_registry.py:24-29 | the endpoint, the bytes and the automatic flag the guard is told |
| Proposals.ExaminedExactly | custom_components/ksx4506_ew11/guarded_registry.py:30-38 | the guard is asked exactly about frames that update a device and propose something or are status replies |
| Proposals.UnconsideredProposeNothing | custom_components/ksx4506_ew11/discovery.py:290-330 | requests and frames that are not considered propose nothing |
| Proposals.PlainProposes | custom_components/ksx4506_ew11/discovery.py:547-564 | gas valves, entrance panels, common entrances and sensors propose the device at the frame's own address |
| Proposals.OutletChannelsExactly | custom_components/ksx4506_ew11/discovery.py:1142-1156 | the number of outlets in a reply, by its command and length |
| Proposals.OutletProposes | custom_components/ksx4506_ew11/discovery.py:874-927 | an outlet reply names the outlets of its group, or the one it is about |
| Proposals.MeterProposes | custom_components/ksx4506_ew11/discovery.py:966-1002 | a meter reply names the meter it is about, or one for each six bytes, or none |
| Proposals.ThermostatProposes | custom_components/ksx4506_ew11/discovery.py:835-872 | a single zone belongs to its registered group; any other thermostat reply names its own device |
| Proposals.LightProposes | custom_components/ksx4506_ew11/discovery.py:340-464 | which lights a light reply names |
| Proposals.ProposesNew | custom_components/ksx4506_ew11/guarded_registry.py:19-29 | what a frame proposes are the named devices that are not registered |
| Proposals.GateRefusesExactly | custom_components/ksx4506_ew11/response_validation.py:4-16 | exactly which payloads the gate refuses |
| Proposals.RollbackKeepsUpdates | custom_components/ksx4506_ew11/guarded_registry.py:39-46 | a rollback keeps what the frame told about registered devices, but for zones they did not have |
| Proposals.RegisteredAreUpdated | custom_components/ksx4506_ew11/guarded_registry.py:13-52 | admitted or not, a frame updates the registered devices it is about |
| Proposals.WithZoneExactly | custom_components/ksx4506_ew11/discovery.py:858-867 | a zone joins the list of its group, once |
| GuardedState.RegisteredStay | custom_components/ksx4506_ew11/guarded_registry.py:13-52 | a frame never removes a registered device |
| GuardedState.OnlyAdmissionAdds | custom_components/ksx4506_ew11/guarded_registry.py:13-52 | every frame adds exactly the devices and zones it proposes when it is admitted or makes the registry raise, and none otherwise |
| GuardedState.EntersUnadmitted | custom_components/ksx4506_ew11/guarded_registry.py:13-52 | a device or zone enters without admission if and only if the registry raises and the frame proposes it |
| GuardedState.OversizedBypassesTheGuard | custom_components/ksx4506_ew11/discovery.py:874-927 | an outlet group reply with too many channels raises and leaves, unadmitted, exactly those of its first fifteen outlets that were not registered |
| GuardedState.OversizedExists | custom_components/ksx4506_ew11/devices/outlet.py:252-253 | every 16-byte control reply at 0x1F is such a frame |
| GuardedState.ObserveRaisesExactly | custom_components/ksx4506_ew11/discovery_guard.py:64-96 | a guard without an oversized candidate raises if and only if it has to begin one |
| GuardedState.FirstGroupReply | custom_components/ksx4506_ew11/discovery_evidence.py:29-40 | a first thermostat group reply makes the registry raise, and leaves all its zones unadmitted, if and only if it has more than 32 of them |
| GuardedState.GroupReplyProposes | custom_components/ksx4506_ew11/guarded_registry.py:20-29 | a group reply proposes exactly the zones its group does not have |
| GuardedRegistry.GuardedDevices.UpsertFromFrame | custom_components/ksx4506_ew11/guarded_registry.py:13-52 | the method's devices and guard are those of the functions; it reports the devices the frame names, new ones only when they stay; it raises exactly on oversized outlet replies and when the guard raises |
| GuardedRegistry.GuardedDevices.RollBack | custom_components/ksx4506_ew11/guarded_registry.py:38-52 | new devices and new zones go, everything else stays updated |
| GuardedTrace.SystemGuard | custom_components/ksx4506_ew11/guarded_registry.py:13-52 | the guard inside the registry goes through exactly the events its frames are seen as |
| GuardedTrace.EveryDeviceIsAccountedFor | custom_components/ksx4506_ew11/guarded_registry.py:13-52 | in every run each registered device was there before, was restored, or was proposed as new by a frame that was admitted with full backing or made the registry raise; and none is ever removed |
| GuardedTrace.TameRunsOnlyAdmit | custom_components/ksx4506_ew11/guarded_registry.py:13-52 | when every frame is one the decoder accepts and proposes at most 32 keys, nothing raises, so each such device was restored or admitted with full backing |
| LightRoutes.LightsAreRouted | custom_components/ksx4506_ew11/discovery.py:340-464 | after any run of frames and restores every light has the route that restoring its key computes |
| LightRoutes.RoutesAreInjective | custom_components/ksx4506_ew11/discovery.py:1047-1058 | keys of the shapes that frames bring in have different routes |
| LightRoutes.NoSharedRoute | custom_components/ksx4506_ew11/discovery.py:340-464 | two different lights discovered from frames never share a route |
| LightRoutes.RoutesSharedExactly | custom_components/ksx4506_ew11/discovery.py:1047-1058 | two different light keys, with any channel numbers, have the same route if and only if both are group channels whose numbers agree after the spill, or one is and the other is the plain light at its address |
| LightRoutes.LightsShareExactly | custom_components/ksx4506_ew11/discovery.py:241-278 | so after any run, restores included, two lights share a route exactly when their keys say so |
| LightRoutes.RestoredLightMayShareRoute | custom_components/ksx4506_ew11/discovery.py:1047-1058 | a plain light and the same channel of its group, both restored, share a route |
| LightTopology.LightTopologyTracker.Observe | custom_components/ksx4506_ew11/devices/lighting.py:16-38 | a report is believed exactly when its count is the newest one its group reported twice in a row |
| LightTopology.StableIsNewestPair | custom_components/ksx4506_ew11/devices/lighting.py:16-38 | what the stable count is, in terms of positions in the history |
| LightTopology.StrayReportIsIgnored | custom_components/ksx4506_ew11/devices/lighting.py:16-38 | one stray count changes nothing |
| PacketLru.PacketRecords.RecordPacket | custom_components/ksx4506_ew11/discovery.py:566-658 | after any history the two dictionaries are the reference: the most recently seen signatures with their lives |
| PacketLru.Enter | custom_components/ksx4506_ew11/discovery.py:613-658 | counting and evicting in one dictionary |
| PacketLru.Oldest | custom_components/ksx4506_ew11/discovery.py:653-658 | the eviction picks a record not seen for longest |
| PacketLru.KeptAreMostRecent | custom_components/ksx4506_ew11/discovery.py:566-658 | signatures on record all occurred, at most 50 unsupported and 100 candidate ones; one that occurred and is not on record was last seen before all that are, and there is no room |
| PacketLru.CountsSinceInsertion | custom_components/ksx4506_ew11/discovery.py:628-651 | a record counts the occurrences since its signature was last put on record |
| PacketLru.LifeHoldsNewest | custom_components/ksx4506_ew11/discovery.py:645-651 | a record holds the payload and raw bytes of its newest packet, which is among its samples |
| PacketLru.FewSamples | custom_components/ksx4506_ew11/discovery.py:649-651 | at most five samples are kept |
| PacketLru.SamplesAreOfRaws | custom_components/ksx4506_ew11/discovery.py:649-651 | the samples of a record are made of its packets since it was put on record |
| PacketLru.SamplesAreDistinct | custom_components/ksx4506_ew11/discovery.py:649-651 | samples are distinct, at most five, include the newest packet, and with fewer than five leave none out |
| PacketLru.RepeatDoesNotRefresh | custom_components/ksx4506_ew11/discovery.py:649-651 | a packet seen again does not move up, so it may go before ones seen less recently |
| Runtime.Reachable | custom_components/ksx4506_ew11/discovery_runtime.py:67-121 | in every reachable state with verification enabled each approved candidate that can be recorded was approved by the last verified save, no tick or review is in the middle of its save, and the locks agree with the coroutines |
| RuntimeDisk.DurableBeforeEffective | custom_components/ksx4506_ew11/discovery_runtime.py:67-121 | when a frame is admitted, the approval it rests on had been saved and read back, and its very event, for these keys, is on disk unless the bounded log has let go of it |
| RuntimeDisk.SavedMeansOnDisk | custom_components/ksx4506_ew11/discovery_runtime.py:67-82 | in every reachable state after a verified save, while the guard's revision is the saved one the disk holds exactly the guard's events and blocks |
| RuntimeDisk.KeptWhileHeld | custom_components/ksx4506_ew11/discovery_runtime.py:67-82 | an approval counts as let go of only when its event has left the log |
| Runtime.SwitchedOnExactly | custom_components/ksx4506_ew11/discovery_runtime.py:101-121 | admission is switched on if and only if a tick's save has gone through, or had nothing to save, and the link is healthy |
| Runtime.GuardedStepsDoNotApprove | custom_components/ksx4506_ew11/discovery_guard.py:64-143 | only a review approves |
| Client.Limit | custom_components/ksx4506_ew11/ew11_client.py:217-237 | the number of attempts is what the caller asked for, clamped to 1 and retry + 1 |
| ClientLaws.RunKeeps | custom_components/ksx4506_ew11/ew11_client.py:106-152 | queue, commands, workers and lock stay consistent over all interleavings; how futures are settled is in `ClientOutcome.ToldExactly` |
| ClientLaws.WriteIsSafe | custom_components/ksx4506_ew11/ew11_client.py:406-493 | a command is written only while running, before its deadline, with its future unresolved, with attempts left, and in the session it was queued in |
| ClientLife.AttemptsAreBounded | custom_components/ksx4506_ew11/ew11_client.py:406-493 | the number of socket writes of a command in a run never exceeds its attempts |
| ClientLife.WrittenAsAsked | custom_components/ksx4506_ew11/ew11_client.py:217-237 | that bound in terms of what the sender asked for |
| ClientLife.NoWriteAfterShutdown | custom_components/ksx4506_ew11/ew11_client.py:125-152 | a command queued before a stop or reconnect took the client down is never written after it |
| ClientLife.NoWriteAfterReturn | custom_components/ksx4506_ew11/ew11_client.py:249-265 | once `send_with_retry` has returned or was cancelled its command is never written |
| ClientLife.RunningNeedsAStart | custom_components/ksx4506_ew11/ew11_client.py:106-152 | when all stops called have returned, a client runs only if a start was called after the last of them |
| ClientLife.RevivalIsUncontested | custom_components/ksx4506_ew11/ew11_client.py:350-359 | a start or reconnect in progress brings a client up only if no stop was called since it was |
| ClientLife.OnlyCallsRevive | custom_components/ksx4506_ew11/ew11_client.py:106-118 | nothing but a start or reconnect brings the client up |
| ClientOutcome.ToldExactly | custom_components/ksx4506_ew11/ew11_client.py:217-265 | over all runs a future is settled once, by the first of: drained, given up, cut off by a shutdown, withdrawn; and to the value that belongs to it |
| ClientOutcome.TrueMeansDelivered | custom_components/ksx4506_ew11/ew11_client.py:394-468 | a sender is told True if and only if its command was drained while it was waiting |
| ClientOutcome.ShutdownTellsAll | custom_components/ksx4506_ew11/ew11_client.py:125-140 | every command pending at a shutdown is told False there and then, unless its worker had died with it |
| ClientOutcome.NobodyWaitsWhileDown | custom_components/ksx4506_ew11/ew11_client.py:125-152 | while the client is down nobody waits, but for those |
| ClientOutcome.ComesUpExactly | custom_components/ksx4506_ew11/ew11_client.py:106-118 | a start that gets the lock, and a reconnect whose shutdown has ended, bring the client up if and only if no stop was called since they were |
| ClientOutcome.ComesUpReady | custom_components/ksx4506_ew11/ew11_client.py:112-118 | the client that has come up has a worker of its own, waiting for commands |
| ClientOutcome.StopTakesDown | custom_components/ksx4506_ew11/ew11_client.py:120-140 | a stop that gets the lock takes the client down and empties the queue |
| ClientOutcome.QueueMoves | custom_components/ksx4506_ew11/ew11_client.py:238-247 | commands are worked on in the order they were queued, and the queue holds at most 64 |
| Power.Reachable | custom_components/ksx4506_ew11/power_recovery.py:37-63 | the invariant of journal, stored journal, phase and power, kept by every step and failure; that power is always switched on again is in `Power.CutIsAnswered` |
| Power.CutIsOnRecord | custom_components/ksx4506_ew11/power_recovery.py:37-63 | power cut by a cycle is marked as to be restored in the stored journal, and no cycle goes on before it is back |
| Power.SuccessMeansPowerOn | custom_components/ksx4506_ew11/power_recovery.py:37-42 | a restore that ends normally leaves the power on and the stored mark cleared |
| Power.RestartRestores | custom_components/ksx4506_ew11/power_recovery.py:98-114 | after a crash with the power cut, the next start switches it on |
| Power.CutIsAnswered | custom_components/ksx4506_ew11/power_recovery.py:52-63 | however a switch-off or the rest after it ends, the next thing is to switch the power on, unless the process crashes |
| Power.CutOnlyAfterFailure | custom_components/ksx4506_ew11/power_recovery.py:52-63 | an operation is over with the power cut only when switching it on was tried since and failed |
| Power.NextCycleRestores | custom_components/ksx4506_ew11/power_recovery.py:44-46 | and the next cycle begins by trying again |
| Power.AttemptExactly | custom_components/ksx4506_ew11/power_recovery.py:47-51 | an attempt begins if and only if the switch is ready and the last one is 86400 seconds old; a refusal changes nothing |
| Power.CutOnlyAfterSave | custom_components/ksx4506_ew11/power_recovery.py:50-53 | power is only cut for an attempt whose journal is on disk |
| Power.CycleGoesThrough | custom_components/ksx4506_ew11/power_recovery.py:44-63 | what a cycle does in which everything succeeds |
| Power.CutsAreDaysApart | custom_components/ksx4506_ew11/power_recovery.py:44-51 | any two cuts belong to attempts at least 86400 seconds apart, across restarts and clock changes |
| Power.CutsApartByDelay | custom_components/ksx4506_ew11/power_recovery.py:44-53 | over all runs the moments of two cuts are apart by a day less the delay of the earlier one |
| Power.DelayIsFelt | custom_components/ksx4506_ew11/power_recovery.py:44-53 | for every delay there is a run whose cuts are apart by just that |
| Power.GuaranteedExactly | custom_components/ksx4506_ew11/power_recovery.py:44-53 | a distance is guaranteed under a given delay if and only if it is at most a day less the delay; a whole day only without any |
| Alert.AlertPolicy.Scan | custom_components/ksx4506_ew11/alert_policy.py:44-74 | the scan's state, alerts and probes are those of the walk over the endpoints and the sorted due list |
| Alert.AlertPolicy.Inspect | custom_components/ksx4506_ew11/alert_policy.py:58-72 | when an endpoint is due for a probe and when it is reported |
| Alert.AlertPolicy.RecordProbe | custom_components/ksx4506_ew11/alert_policy.py:76-84 | what a probe's outcome does to the policy |
| AlertTrace.SortedOrders | custom_components/ksx4506_ew11/alert_policy.py:73-74 | the sort loses nothing and orders by last probe, then key |
| AlertTrace.ScanIsFair | custom_components/ksx4506_ew11/alert_policy.py:44-74 | at most four distinct probes, all due, and each due endpoint passed over comes after four that are not |
| AlertTrace.ProbedInTurn | custom_components/ksx4506_ew11/alert_policy.py:73-84 | an endpoint that stays due among n is probed within ceil(n / 4) complete scans |
| AlertTrace.PassedOverByFewer | custom_components/ksx4506_ew11/device_alerts.py:154-171 | even with scans cut short, fewer than n probes pass over an endpoint that stays due |
| AlertTrace.ProbesKeepTheirDistance | custom_components/ksx4506_ew11/alert_policy.py:65-68 | an endpoint that scans keep listing is not selected within 30 seconds of its probe, or 300 after three failures |
| AlertTrace.AbsenceForgets | custom_components/ksx4506_ew11/alert_policy.py:45-48 | one scan without the endpoint, and the next that finds it known and silent probes it at once |
| AlertTrace.DistanceExactly | custom_components/ksx4506_ew11/alert_policy.py:44-68 | a recorded probe keeps the next selection 30 seconds away, whatever the endpoint looks like, if and only if the scan in between lists the endpoint |
| AlertTrace.AlertsAreEarned | custom_components/ksx4506_ew11/alert_policy.py:65-72 | a no-response alert follows three failed probes with no successful one since |
| AlertTrace.OnlySilenceCounts | custom_components/ksx4506_ew11/alert_policy.py:58-74 | every alert and every probe concerns an endpoint silent for 180 seconds, or 900 when it cannot be asked, after three minutes of running |
| AlertTrack.TracksExactly | custom_components/ksx4506_ew11/alert_policy.py:44-84 | over every run, what the policy knows of an endpoint is a function of that endpoint's own history |
| AlertTrack.DueAndReportedExactly | custom_components/ksx4506_ew11/alert_policy.py:51-72 | a listed endpoint is due, and is reported, if and only if its own history says so |
| AlertTrack.ScanExactly | custom_components/ksx4506_ew11/alert_policy.py:51-72 | the same for one scan, with the numbers |
| AutoReconnect.AutoReconnectPolicy.Evaluate | custom_components/ksx4506_ew11/auto_reconnect.py:16-46 | the method is the evaluation function |
| AutoReconnect.FiresExactly | custom_components/ksx4506_ew11/auto_reconnect.py:16-46 | from any starting policy, restored ones included, a reconnection is triggered if and only if no attempt waits to be verified, an unbroken outage spans three minutes, and the link is up and idle |
| AutoReconnect.FiresAfterThreeMinutes | custom_components/ksx4506_ew11/auto_reconnect.py:30-46 | each trigger ends an unbroken series of shared-outage readings spanning 180 seconds, counted from the restored incident when the series began before the run |
| AutoReconnect.RestoredIncidentCounts | custom_components/ksx4506_ew11/auto_reconnect.py:8-14 | the first reading after a restart triggers if and only if the restored incident has lasted three minutes |
| AutoReconnect.OneShot | custom_components/ksx4506_ew11/auto_reconnect.py:21-28 | between two triggers, from any starting policy, some reading shows two addresses that answered after the first |
| AutoReconnect.OneShotAcrossRestart | custom_components/ksx4506_ew11/auto_reconnect.py:8-28 | a restored attempt has to be verified in the same way before anything triggers |
| AutoReconnect.RestartGoesOn | custom_components/ksx4506_ew11/device_alerts.py:72-76 | a policy stored and restored goes on as if the readings before and after were one run |
| AutoReconnect.SharedOutageExactly | custom_components/ksx4506_ew11/auto_reconnect.py:30-37 | a reading is a shared outage if and only if all that was ever seen has failed, at two addresses or more, and three of them answered within the last day |
| AutoReconnect.VerifiesExactly | custom_components/ksx4506_ew11/auto_reconnect.py:21-24 | a reading verifies an attempt if and only if endpoints at two addresses answered after it |
| HubPolicy.HubRecoveryPolicy.Act | custom_components/ksx4506_ew11/recovery.py:183-210 | the method is the policy function |
| HubPolicy.ActsExactly | custom_components/ksx4506_ew11/recovery.py:183-210 | the exact conditions of a reconnect and of a power cycle, in terms of the run |
| HubPolicy.IncidentExactly | custom_components/ksx4506_ew11/recovery.py:187-195 | where the present incident began, over the link and the failed endpoints of the readings |
| HubPolicy.HealthyEndsIncident | custom_components/ksx4506_ew11/recovery.py:187-193 | with a healthy link and at most one failed endpoint nothing is done and the incident is over |
| HubPolicy.ReconnectsApart | custom_components/ksx4506_ew11/recovery.py:197-202 | reconnects are at least 300 seconds apart |
| HubPolicy.PowerCyclesApart | custom_components/ksx4506_ew11/recovery.py:203-210 | power cycles are at least 150 seconds apart when time does not run backwards |
| HubPolicy.ActsOncePerIncident | custom_components/ksx4506_ew11/recovery.py:187-210 | between two equal actions there is a reading that ends the incident |
| HubPolicy.ReconnectComesFirst | custom_components/ksx4506_ew11/recovery.py:197-210 | a power cycle comes 120 seconds after a reconnect of the same unbroken incident |
| Recovery.SendLimit | custom_components/ksx4506_ew11/coordinator.py:839-841 | how often one send loop sends |
| Recovery.Reachable | custom_components/ksx4506_ew11/recovery.py:46-169 | the invariant of commands, waiters, status and tasks over all runs |
| RecoveryLaws.LatestIsOnShow | custom_components/ksx4506_ew11/recovery.py:53-60 | the status on show for a key is that of the latest command for it |
| RecoveryLaws.OthersLeaveStatusAlone | custom_components/ksx4506_ew11/recovery.py:67-120 | no step of another command's task changes it |
| RecoveryLaws.HealthyMeansAnswered | custom_components/ksx4506_ew11/recovery.py:67-135 | healthy is shown only on the strength of a frame received since the command that satisfies its caller's confirmation, with a plausible payload |
| RecoveryLaws.ResultsAnswer | custom_components/ksx4506_ew11/coordinator.py:824-919 | a command that returns a frame returns such a frame |
| RecoveryLaws.TurnSucceedsExactly | custom_components/ksx4506_ew11/recovery.py:75-86 | a turn succeeds, and turns healthy, if and only if it finds its waiter served by a confirming frame |
| RecoveryLaws.FailsOnlyWhenSpent | custom_components/ksx4506_ew11/recovery.py:70-87 | a turn fails only when no round is left |
| RecoveryLaws.FrameDoesExactly | custom_components/ksx4506_ew11/coordinator.py:446-456 | a frame serves exactly the waiters it satisfies and heals exactly the failed status on show whose matcher it satisfies |
| RecoveryLaws.FailedUntilConfirmed | custom_components/ksx4506_ew11/recovery.py:122-135 | a failed status stays failed through frames that do not confirm it, and the first that does heals it |
| RecoveryLaws.RunAsks | custom_components/ksx4506_ew11/coordinator.py:882-907 | the control waits for the caller's reply, the status request for the confirmation, the probe for any state |
| RecoveryLaws.RoundsFollowProbes | custom_components/ksx4506_ew11/recovery.py:71-81 | a further F7 round begins only after a probe that confirmed nothing |
| RecoveryLaws.ConfirmsAfterControl | custom_components/ksx4506_ew11/coordinator.py:885-907 | a status request follows only a control loop without confirmation |
| RecoveryLaws.StopRefusesAll | custom_components/ksx4506_ew11/recovery.py:161-166 | stop cancels every task, and refuses commands from then on |
| RecoveryLaws.ReturnExactly | custom_components/ksx4506_ew11/recovery.py:111-120 | a command that has returned no longer holds its key, and no other task is touched |
| RecoveryLaws.EffortIsBounded | custom_components/ksx4506_ew11/recovery.py:70-87 | over any run a command takes at most one round more than there are delays, one without retry, and sends at most once per round (STX), or two loops per round and a probe between rounds (F7) |
| RecoveryLaws.SupersededStops | custom_components/ksx4506_ew11/recovery.py:53-55 | the task of a superseded command begins no further round |
| RecoveryLaws.EndsDecided | custom_components/ksx4506_ew11/recovery.py:88-106 | a command that is over shows failed or healthy if and only if it was refused at once or its task began |
| RecoveryLaws.StoppedBeforeItBegan | custom_components/ksx4506_ew11/recovery.py:161-166 | one stopped before its task begins ends showing pending |
| RecoveryLaws.UndecidedStays | custom_components/ksx4506_ew11/recovery.py:122-135 | and stays so, whatever happens |

## Left out

- Home Assistant itself: entities, config flow, notifications, diagnostics reports, the storage format, and Korean
  texts are not part of this model.
- Sockets, asyncio and storage: a connect, write, drain, save or switch call has the outcome given in its action. A call
  has its effect, or not, by the time it returns; a late effect of a call that was given up is not modelled.
- Coroutines: objects that several coroutines update in place are values here, replaced by each action of a state machine.
- Cancellation: a cancelled task takes its last step some time after the cancellation and none before it. Locks are given
  to any waiter, not to the one that waits longest.
- The receive loop of the client, its health report and its back-off are left out; connections appear as an outcome of
  each attempt to write.
- Clock readings: the guard's methods take one reading per call where the code reads the clock several times; reals stand
  for floats, without rounding; readings are taken to be valid event times, finite and not negative.
- Evidence: raw bytes stand for hex texts, which are not truncated; JSON and the validation of stored snapshots are left
  out, and so are the limits on event texts other than the number of keys, which no call reaches. The evidence of frames
  from registered devices that would clean up old keys is left out.
- GuardTrace.EveryCandidateHasAStory: says nothing of candidates that name more than 32 keys, because the calls that would
  end them raise before they do; no such candidate is ever admitted.
- GuardedTrace.EveryDeviceIsAccountedFor: has a case for frames that make the registry raise, because the code then leaves
  entered what they proposed.
- Device state beyond routes and zones: decoding of states, levels, meters and temperatures, `status_sub_id`, and the
  parsing of saved keys from text.
- Packet classification: which frames become unsupported or candidate records is left out; `PacketLru` takes the calls
  as given. Its reports and their sorting are left out.
- Frame errors: the branches for totals over 512 bytes and for frame errors other than checksums cannot be reached with a
  one-byte length field and have no counterpart.
- Power: a change of the configured switch is left out; the start-up restore is taken to end before cycles are called.
- Command confirmation: the transaction lock is left out, so more interleavings are allowed than occur; the acknowledgement
  time stamps, transmission receipts and time limits of sends are left out. Matchers are functions of the frame.
- AlertTrace.ProbedInTurn: assumes, as the property does, that every probe asked for is made; the other lemma covers scans
  that are cut short.
- Display-only state: the recovery ladder's state word, the time stamps of statuses, and logging.
- Alert keys, recovery keys and addresses are integers; only their order or identity matters.
