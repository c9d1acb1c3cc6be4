# SlipStream core, modelled in Dafny

SlipStream streams a Windows desktop to a browser. The server (C++) captures the screen and encodes it with a hardware encoder. It cuts each encoded frame into chunks with XOR parity and sends them over WebRTC data channels. It also takes mouse, keyboard and clipboard input back from the browser. The browser client (JavaScript) reassembles the chunks, recovers a lost chunk from parity, decodes and presents frames, keeps its clock in sync with the server, and asks for keyframes when decoding breaks.

This project models that core and proves properties of the model. One Dafny module stands for each core source file:

- Server side:
  - `WebRtc`: the packetiser, the channel open and close handlers, the control channel, the send queue and its drain of src/webrtc.cpp.
  - `Capture`: the frame slot ring of src/capture.cpp.
  - `Pacing`: the encoder thread's pacing loop and the wiggle manager of src/main.cpp.
  - `Encoder`: vendor choice, the codec probe and the per-frame bookkeeping of src/encoder.cpp.
  - `Input`: the input handler of src/input.cpp.
  - `Common`: the salt and password helpers and the login rate limiter of src/common.cpp.
  - `AppSupport`: the validators, cookie, address and CORS rules and the monitor list of src/app_support.cpp.
- Client side:
  - `ClientState`: the session state and clock sync of client/js/state.js.
  - `NetworkVideo`, `NetworkFec`, `VideoSession`, `VideoFacts`, `FrameTable` and `KeyRequests`: frame reassembly, FEC recovery, expiry, eviction and keyframe requests of client/js/network.js.
  - `NetworkControl`: the control-channel gates and their effects, from client/js/network.js.
  - `Media` and `AudioWorklet`: the decoder handling and the audio ring buffer of build/bin/Release/js/media.js.
  - `Renderer`: the viewport, the presentation timing and the cursor of client/js/renderer.js.
  - `ClientInput`: the input messages and move coalescing of client/js/input.js.
  - `Ui`: the stored preferences, the codec fallback, the fps dropdown and the uptime text of client/js/ui.js.
- Shared:
  - `Bytes`: bytes and little-endian fields.
  - `VideoHeader`: the 31-byte video packet header.
  - `FecRoundTrip`: the server's parity against the client's recovery.
  - `Decimal`: decimal number text.

The video header layout follows the writer in src/webrtc.cpp:518-530 and the reader in client/js/network.js:519-529. The declaration in include/webrtc.hpp:6-12 disagrees with both, and the model follows the code.

State that the source updates in place is a Dafny `class`, with methods proved against specification functions. Byte formats are functions with round-trip lemmas that tie the server's writer to the client's reader.

## Model

| member | source | states |
|---|---|---|
| Bytes.ReadLEOfLE | src/webrtc.cpp:5-15 | a value below 256^n written little-endian into n bytes (`WritePod`, `DataView.setUintN`) reads back unchanged |
| Bytes.LEOfReadLE | src/webrtc.cpp:10-15 | writing back a value read little-endian from n bytes (`ReadPod`, `DataView.getUintN`) reproduces those bytes |
| Bytes.Wrap | src/webrtc.cpp:518-530 | a `static_cast` to an n-byte unsigned field gives a value below 256^n, and leaves values already in range unchanged |
| Bytes.FromInt16 | client/js/input.js:54-58 | `setInt16` writes a value below 2^16 that `getInt16` reads back as the original for every value in -32768..32767 |
| Bytes.ToInt16 | src/input.cpp:215-219 | a 16-bit field read as two's complement lies in -32768..32767 |
| Bytes.XorColumnRemove | client/js/network.js:358-366 | taking one chunk out of a column XOR leaves the XOR of the other chunks with that chunk's byte, which is what recovery relies on |
| Bytes.XorColumnCons | src/webrtc.cpp:559-563 | a chunk placed first in the fold contributes its byte first: the parity fold is order-independent |
| Bytes.MaxLenFacts | src/webrtc.cpp:560 | the parity length, the running `max` of chunk lengths, bounds every chunk and is attained by one |
| VideoHeader.Encode | src/webrtc.cpp:518-530 | the header `Send` writes in front of each chunk is 31 bytes, its 11 fields little-endian in wire order |
| VideoHeader.DecodeEncode | client/js/network.js:519-528 | the client's reads at offsets 0, 12, 16, 20-30 give back exactly the header the server wrote, whatever payload follows |
| VideoHeader.Decode | client/js/network.js:519-528 | reference definition of the client's header reads; its properties are in VideoHeader.DecodeEncode, VideoHeader.EncodeDecode and VideoHeader.DecodeWellFormed |
| VideoHeader.EncodeDecode | client/js/network.js:519-528 | conversely, any 31 bytes are the encoding of the header read from them |
| VideoHeader.DecodeWellFormed | client/js/network.js:519-528 | every header read from the wire has each field within its wire width |
| VideoHeader.WireDecode | src/webrtc.cpp:548-551 | a queued packet (header copied in front of the chunk bytes) splits back into that header and that payload |
| VideoHeader.DecodeEncodeFields | client/js/network.js:519-528 | values that fit their widths are read back unchanged by consecutive little-endian reads |
| ClientState.SortSorted | client/js/state.js:166-170 | the `[...arr].sort((a, b) => a - b)` copy is sorted and holds exactly the input's samples (a permutation) |
| ClientState.Sort | client/js/state.js:168 | reference definition of the sorted copy; its properties are in ClientState.SortSorted and ClientState.CountSort |
| ClientState.InsertPerm | client/js/state.js:168 | each insertion step of the sort keeps every sample |
| ClientState.CountSort | client/js/state.js:168 | sorting changes neither how many samples lie below a value nor how many lie above it |
| ClientState.SortedRank | client/js/state.js:169 | in a sorted window at most k samples lie below element k and at most n-1-k above it |
| ClientState.MedianRank | client/js/state.js:166-170 | `median` of a non-empty window is one of its samples, with at most n/2 samples below it and at most n-1-n/2 above it (the upper median) |
| ClientState.Median | client/js/state.js:166-170 | reference definition of `median`; its properties are in ClientState.MedianRank and ClientState.MedianExample |
| ClientState.MedianExample | client/js/state.js:166-170 | the window [10, 12, 11, 500] has median 12: one outlying probe does not move the estimate |
| ClientState.Push | client/js/state.js:181-185 | pushing a probe onto a window grows it by one until it exceeds its capacity, then keeps its length; the newest probe is last |
| ClientState.PushKeepsNewest | client/js/state.js:181-185 | the window after `push`/`shift` is the newest suffix of the old window plus the probe |
| ClientState.Slide | client/js/state.js:181-185 | the push-then-shift steps compute `Push` |
| ClientState.UpdateClock | client/js/state.js:171-194 | a probe whose round trip is negative or above 5 s changes nothing; an accepted one is last in both windows, the offset and round trip are the medians of their windows, the count grows by one, and the clock is valid exactly when two offsets are held |
| ClientState.UpdateClockAccepted | client/js/state.js:180-190 | the whole new clock state after an accepted probe, field by field |
| ClientState.UpdateClockBy | client/js/state.js:171-194 | the step-by-step update computes `UpdateClock` |
| ClientState.ClockWindows | client/js/state.js:183-190 | both windows stay within 8 probes, the offset window holds min(count, 8), and the clock is valid from the second accepted probe on |
| ClientState.ServerFrameAgeMs | client/js/state.js:161-164 | the age is never negative, is 0 without a valid clock, and otherwise is the client time elapsed since the server's capture, in milliseconds |
| ClientState.Avg | client/js/state.js:239 | `avg` is the mean of the counted samples, and 0 when none were counted |
| ClientState.JitterSnapshot | client/js/state.js:214-237 | the jitter report carries the late-drop count, the two mean ages (0 with no samples), and, once more than one interval was seen, the mean presentation interval and the population variance of the intervals about that mean (never negative); otherwise the stored mean and deviation are reported unchanged |
| ClientState.SteadyPresentationNoJitter | client/js/state.js:217-225 | frames presented at one steady interval report exactly that interval as the mean and zero deviation |
| ClientState.RecordPacket | client/js/state.js:262-270 | a packet is counted once, its bytes added, and it is counted under exactly one of video, audio, mic or control |
| ClientState.RecordDecodeTime | client/js/state.js:272-276 | the decode is counted, its time added, and the largest queue size is the larger of the old one and this one |
| ClientState.NetSnapshot | client/js/state.js:241-249 | the network snapshot keeps every counter and adds the mean packet size (0 with no packets) |
| ClientState.DecodeSnapshot | client/js/state.js:241-250 | the decode snapshot keeps every counter and adds the mean decode time |
| ClientState.RenderSnapshot | client/js/state.js:241-251 | the render snapshot keeps every counter and adds the mean render time |
| ClientState.AudioSnapshot | client/js/state.js:241-252 | the audio snapshot keeps every counter and adds the mean buffer health |
| ClientState.Best | client/js/state.js:102-106 | the best decoder is AV1 exactly when AV1 decodes, H.265 exactly when AV1 does not and H.265 does, otherwise H.264; hardware acceleration is reported for the chosen codec's hardware support |
| ClientState.Session.constructor | client/js/state.js:139-156 | the page starts not ready, waiting for a keyframe, with no frames, fresh counters and clock, codec 1 and 60 fps |
| ClientState.Session.LogVideoDrop | client/js/state.js:55-58 | every dropped packet or frame adds one to `framesDropped` and changes no other counter |
| ClientState.Session.SendControl | client/js/network.js:25-31 | a control message goes out exactly when the control channel is open, and the result says whether it did |
| ClientState.Session.UpdateClockOffset | client/js/state.js:171-194 | the session's clock becomes `UpdateClock` of the old one |
| ClientState.Session.ResetClockSync | client/js/state.js:196-199 | the clock state is fresh again |
| ClientState.Session.ResetStats | client/js/state.js:207-212 | the counters so far and the time they cover are returned, and counting restarts |
| ClientState.Session.ResetJitterMetrics | client/js/state.js:214-237 | the report is `JitterSnapshot` of the old metrics, which restart keeping only the last presentation time |
| ClientState.Session.ResetNetworkMetrics | client/js/state.js:249 | returns the network snapshot and restarts the counters |
| ClientState.Session.ResetDecodeMetrics | client/js/state.js:250 | returns the decode snapshot and restarts the counters |
| ClientState.Session.ResetRenderMetrics | client/js/state.js:251 | returns the render snapshot and restarts the counters |
| ClientState.Session.ResetAudioMetrics | client/js/state.js:252 | returns the audio snapshot and restarts the counters |
| ClientState.Session.RecordPacketOf | client/js/state.js:262-270 | the session's network counters become `RecordPacket` of the old ones |
| ClientState.Session.RecordRenderTime | client/js/state.js:278-281 | one more render is counted and its time added |
| KeyRequests.KeyRequestMessage | client/js/network.js:62 | the request is the four bytes of the REQUEST_KEY magic |
| KeyRequests.RequestKey | client/js/network.js:40-68 | a request sends the message, records the time and disarms the timer exactly when the channel is open and 350 ms have passed; otherwise nothing is sent, and the timer is armed while the channel is open; no other part of the state changes |
| KeyRequests.Sends | client/js/network.js:40-68 | reference definition of when a key request goes out at once; its properties are in KeyRequests.RequestKey and KeyRequests.SentRequestsSpaced |
| KeyRequests.SentRequestsSpaced | client/js/network.js:44-47 | two requests that both go out are at least 350 ms apart |
| KeyRequests.DeferralIsSingle | client/js/network.js:47-54 | asking again while a request is deferred changes nothing: there is one timer |
| KeyRequests.TimerSendsWhenDue | client/js/network.js:49-52 | when the deferred timer fires once the interval is over, with the channel open, the coalesced request goes out and the timer is clear |
| KeyRequests.RequestKeyframe | client/js/network.js:40-68 | the session method changes the session as `RequestKey` says and returns whether the message went out |
| KeyRequests.OnKeyTimer | client/js/network.js:49-52 | the timer callback clears the handle and makes the request again, as `KeyTimerFires` says |
| Media.RetryTickFacts | build/bin/Release/js/media.js:23-34 | each 250 ms tick of the retry interval requests a keyframe while one is awaited and the decoder is ready, sends nothing otherwise, and the interval stops once no keyframe is awaited |
| Media.RetryTick | build/bin/Release/js/media.js:23-34 | reference definition of one retry tick; its properties are in Media.RetryTickFacts |
| Media.Ascending | build/bin/Release/js/media.js:168 | the sorted key list holds each key of the map once, in strictly increasing order |
| Media.PruneKeepsNewest | build/bin/Release/js/media.js:167-170 | past 30 entries, `frameMeta` keeps exactly the 20 newest capture times, each with its own entry, and every deleted time is older than every kept one |
| Media.Prune | build/bin/Release/js/media.js:162-170 | reference definition of the `frameMeta` pruning; its properties are in Media.PruneKeepsNewest, Media.PruneOrder and Media.PruneSmall |
| Media.PruneOrder | build/bin/Release/js/media.js:168-169 | a deleted capture time is below every kept one |
| Media.PruneSmall | build/bin/Release/js/media.js:167 | a map of at most 30 entries is left as it is |
| Media.PruneFrameMeta | build/bin/Release/js/media.js:167-170 | the sort-then-delete loop computes `Prune` |
| Media.GateOrder | build/bin/Release/js/media.js:131-160 | the checks run in the source's order: not ready, then waiting for a keyframe (delta frames only), then decoder not configured, then queue above 6 (delta frames only), then the timestamp; each outcome holds exactly under its condition |
| Media.GateOf | build/bin/Release/js/media.js:131-160 | reference definition of the first failing decode gate; its properties are in Media.GateOrder |
| Media.Duration | build/bin/Release/js/media.js:171-173 | a frame's duration is the gap to the previous capture time when that is known and earlier, otherwise 16667 µs |
| Media.GateDrops | build/bin/Release/js/media.js:131-160 | a refused frame is counted as dropped and decodes nothing, leaving the metadata, the last capture time, the flags and the frame table as they were |
| Media.Decode | build/bin/Release/js/media.js:131-198 | reference definition of `decodeFrame`; its properties are in Media.GateDrops, Media.GateRequests, Media.GateRetry, Media.AcceptedDecodes and Media.RejectedDecode |
| Media.GateReinit | build/bin/Release/js/media.js:145-149 | a refusal schedules a decoder reinit exactly when the decoder was not configured |
| Media.GateRequests | build/bin/Release/js/media.js:132-155 | refusals for not ready, waiting for a keyframe and a full queue ask for a keyframe; the other two send nothing |
| Media.GateRetry | build/bin/Release/js/media.js:138-143 | the retry interval starts exactly on the waiting-for-keyframe refusal |
| Media.DecodeLeavesTable | build/bin/Release/js/media.js:131-198 | decoding never touches the frame table, the cursor, the first-frame flags or the network counters |
| Media.AcceptedDecodes | build/bin/Release/js/media.js:162-189 | an accepted frame is handed to the decoder with its buffer, capture time, key flag and duration, its metadata is stored (then pruned), and a keyframe ends the wait for one and the retry |
| Media.RejectedDecode | build/bin/Release/js/media.js:190-197 | a frame the decoder throws on is counted as a decode error and a drop, and the client waits for a keyframe, ready, with the retry running |
| Media.StartKeyframeRetry | build/bin/Release/js/media.js:23-34 | the retry interval is running afterwards |
| Media.StopKeyframeRetry | build/bin/Release/js/media.js:15-21 | the retry interval is stopped afterwards |
| Media.OnRetryTick | build/bin/Release/js/media.js:25-33 | one tick of the interval changes the session as `RetryTick` says |
| Media.TryReinitDecoder | build/bin/Release/js/media.js:35-44 | a reinit is scheduled exactly when none was pending, and the pending flag is set |
| Media.TryReinit | build/bin/Release/js/media.js:35-44 | reference definition of `tryReinitDecoder`; its property is in Media.TryReinitDecoder |
| Media.CheckGates | build/bin/Release/js/media.js:131-160 | the method's checks return `GateOf` |
| Media.DecodeFrame | build/bin/Release/js/media.js:131-198 | `decodeFrame` changes the session as `Decode` says |
| Media.RefuseFrame | build/bin/Release/js/media.js:131-160 | a refusal changes the session as `Refuse` says |
| Media.SubmitFrame | build/bin/Release/js/media.js:162-197 | an accepted frame changes the session as `Submit` says, for a decoder that accepts or throws |
| Media.RememberFrame | build/bin/Release/js/media.js:162-174 | the metadata is stored and pruned, the last capture time moves, and the duration is `Duration` |
| Media.DecodeFailed | build/bin/Release/js/media.js:190-197 | the exception path changes the session as `Failed` says |
| Media.RecordDecodeError | build/bin/Release/js/media.js:84-91 | a decoder error is counted and the client waits, ready, for a keyframe |
| Media.Decoded | build/bin/Release/js/media.js:182-189 | the chunk is appended to the decoder's input; a keyframe ends the wait for one and stops the retry |
| FrameTable.Find | client/js/network.js:611 | `S.chunks.get(id)` finds an entry exactly when the id is pending, and the entry found carries that id |
| FrameTable.Remove | client/js/network.js:382 | `S.chunks.delete(id)` keeps exactly the entries with other ids and never grows the table |
| FrameTable.MinAt | client/js/network.js:597 | the eviction candidate holds the smallest pending id |
| FrameTable.RemoveAbsent | client/js/network.js:414 | deleting an id that is not pending changes nothing |
| FrameTable.RemovePresent | client/js/network.js:414 | deleting a pending id removes exactly one entry |
| FrameTable.RemoveDistinct | client/js/network.js:414 | deleting keeps the ids distinct, as the keys of a `Map` are |
| FrameTable.RemoveOk | client/js/network.js:414 | deleting keeps the table's invariant (distinct ids, every frame's bookkeeping right) |
| FrameTable.ReplaceOk | client/js/network.js:617-624 | a frame updated in place under its own id keeps the invariant |
| FrameTable.RemoveHas | client/js/network.js:414 | after a delete, exactly the other ids that were pending still are |
| NetworkVideo.Payloads | client/js/network.js:385-393 | a complete frame's parts give one payload per slot, in slot order |
| NetworkVideo.FinishTable | client/js/network.js:378-415 | `processFrame` deletes the frame's entry and no other, complete or not |
| NetworkVideo.Finish | client/js/network.js:378-415 | reference definition of `processFrame`; its properties are in NetworkVideo.FinishTable and VideoFacts.FinishSteps |
| NetworkVideo.ExpireTable | client/js/network.js:571-573 | a timed-out frame's entry is deleted and no other |
| NetworkVideo.SweepOneTable | client/js/network.js:554-578 | a sweep step deletes the entry it visits exactly when that frame is older than 900 ms and incomplete, and otherwise changes nothing |
| NetworkVideo.SweepShaped | client/js/network.js:554-578 | the sweep keeps one slot per chunk in every pending frame |
| NetworkVideo.EvictTable | client/js/network.js:596-607 | past 20 pending frames the smallest id is deleted, unless it is the newcomer's |
| NetworkVideo.Evict | client/js/network.js:596-607 | reference definition of capacity eviction; its properties are in NetworkVideo.EvictTable, VideoFacts.EvictsSmallest and VideoFacts.SmallestNewcomerKept |
| NetworkVideo.TrackChunks | client/js/network.js:580-608 | tracking's effect on the table depends on the table alone |
| NetworkVideo.NewFrameOk | client/js/network.js:581-594 | a new entry has one empty slot per chunk and nothing counted |
| NetworkVideo.TrackedShaped | client/js/network.js:580-608 | after tracking, the packet's frame is pending and every frame is shaped |
| NetworkVideo.RecoverEachOk | client/js/network.js:561-564 | trying each parity group keeps the frame's bookkeeping right |
| NetworkVideo.FillOk | client/js/network.js:622-624 | filling an empty slot counts it once |
| NetworkVideo.StoreDataOk | client/js/network.js:617-629 | storing a new data chunk succeeds and keeps the frame's bookkeeping right |
| NetworkVideo.AddParityOk | client/js/network.js:635 | a parity of a new group is recorded once, in arrival order |
| NetworkVideo.StoreFecOk | client/js/network.js:630-637 | storing a new parity succeeds and keeps the frame's bookkeeping right |
| NetworkVideo.StoreOk | client/js/network.js:617-637 | any successful store keeps the frame's bookkeeping right |
| NetworkVideo.FinishOk | client/js/network.js:378-415 | `processFrame` keeps the table's invariant |
| NetworkVideo.SweepOk | client/js/network.js:554-578 | the sweep keeps the table's invariant |
| NetworkVideo.TrackOk | client/js/network.js:580-608 | tracking keeps the table's invariant |
| NetworkVideo.StoredOk | client/js/network.js:610-642 | a stored packet puts its frame back under its id, and the frame leaves once complete, keeping the invariant |
| NetworkVideo.Store | client/js/network.js:617-637 | reference definition of storing a data or parity chunk; its properties are in VideoFacts.StoreRefusesDuplicates, VideoFacts.StoreKeepsChunks and NetworkVideo.StoreOk |
| NetworkVideo.UnstoredOk | client/js/network.js:612-634 | a packet with mismatched metadata, or a duplicate chunk or parity, leaves the table as it was |
| NetworkVideo.DeliverOk | client/js/network.js:610-642 | filing a packet keeps the table's invariant |
| NetworkVideo.MalformedDropped | client/js/network.js:512-547 | a packet that is too short, has a zero field, a data index past the total, an unknown type or a size mismatch is counted as dropped and changes nothing else |
| NetworkVideo.WellFormedPacket | client/js/network.js:512-547 | reference definition of the packet checks; its properties are in NetworkVideo.MalformedDropped and VideoSession.CheckPacket |
| NetworkVideo.StaleCounted | client/js/network.js:548-553 | a packet of a frame at or behind the last completed one is counted and otherwise ignored |
| NetworkVideo.FreshArrives | client/js/network.js:548-642 | a well-formed packet ahead of the cursor is counted, then the table is swept, the frame tracked and the packet filed |
| NetworkVideo.OnVideo | client/js/network.js:509-642 | reference definition of `handleVideo`; its properties are in NetworkVideo.MalformedDropped, NetworkVideo.StaleCounted, NetworkVideo.FreshArrives and NetworkVideo.OnVideoOk |
| NetworkVideo.OnVideoOk | client/js/network.js:509-642 | `handleVideo` keeps the table's invariant for every packet |
| NetworkVideo.CountedComplete | client/js/network.js:640-641 | a frame whose count reached its total has every part, so `processFrame` is handed a complete frame here |
| NetworkVideo.SweepChunks | client/js/network.js:554-578 | the sweep's effect on the table depends only on which frames are overdue |
| NetworkVideo.SweepClears | client/js/network.js:554-578 | after the sweep no frame that was overdue is pending, and no entry was added |
| NetworkVideo.Sweep | client/js/network.js:554-579 | reference definition of the expiry sweep; its properties are in NetworkVideo.SweepClears, VideoFacts.SweepDeletesBehind, VideoFacts.SweepExpires and VideoFacts.SweepSalvages |
| NetworkFec.FilledUpdate | client/js/network.js:622-624 | filling one empty slot raises the filled count by exactly one |
| NetworkFec.FilledAll | client/js/network.js:379 | the filled count equals the slot count exactly when every part is present (`frame.parts.every(p => p)`) |
| NetworkFec.ExpectedChunkSize | client/js/network.js:331-337 | 0 outside the frame, the data chunk size before the last chunk, and for the last chunk what the earlier chunks leave of the frame size (the chunk size when they leave nothing) |
| NetworkFec.GroupSize | client/js/network.js:343 | the group size is at least 1 and is the frame's own when that is positive |
| NetworkFec.Missing | client/js/network.js:348-351 | the scan lists exactly the empty slots of the group, in increasing order |
| NetworkFec.XorAllColumn | client/js/network.js:358-366 | byte j of the rebuilt chunk is the XOR of parity byte j and byte j of every other chunk, a shorter chunk counting as zero there |
| NetworkFec.RecoverWhen | client/js/network.js:339-357 | recovery succeeds exactly when the group has a parity, starts inside the frame, has exactly one empty slot, and that slot's expected size is positive and within the parity's length |
| NetworkFec.Recover | client/js/network.js:339-376 | reference definition of `tryRecoverFrameGroup`; its properties are in NetworkFec.RecoverWhen, NetworkFec.RecoverBytes, NetworkFec.RecoverCounts and NetworkFec.RecoverOnce |
| NetworkFec.RecoverSlot | client/js/network.js:353-369 | a recovery fills the group's one empty slot, all its other slots being filled, and no other slot changes |
| NetworkFec.RecoverBytes | client/js/network.js:355-366 | the recovered chunk has the expected size and each byte is the XOR of the parity and the other chunks |
| NetworkFec.RecoverCounts | client/js/network.js:368-371 | a recovery records the chunk's size and raises `received` and `fecRecovered` by one, keeping the frame's bookkeeping consistent |
| NetworkFec.RecoverFills | client/js/network.js:353-369 | when slot m is the only gap and c is what the parity rebuilds, recovery puts c in slot m |
| NetworkFec.RecoverOnce | client/js/network.js:348-352 | after a recovery the group has no gap, so trying it again fails |
| NetworkFec.XorPart | client/js/network.js:364-365 | the in-place XOR loop leaves the buffer equal to `XorInto` of its old contents |
| NetworkFec.FindMissing | client/js/network.js:348-351 | the loop computes `Missing` |
| NetworkFec.CopyParity | client/js/network.js:358-359 | the fresh buffer holds the first `size` bytes of the parity |
| NetworkFec.Rebuild | client/js/network.js:358-366 | the nested loops leave the XOR of the parity copy with every other chunk of the group |
| NetworkFec.FillMissing | client/js/network.js:358-371 | once the checks pass, the method's frame is `Recover`'s |
| NetworkFec.TryRecoverFrameGroup | client/js/network.js:339-377 | the result says whether a chunk was recovered, and the frame is `Recover`'s when it was and unchanged when not |
| FecRoundTrip.RecoverLostChunk | client/js/network.js:339-377 | the round trip with src/webrtc.cpp:539-578: from the server's parity of a group and every chunk of that group but one, the client's recovery succeeds, restores exactly the lost chunk and counts it |
| FecRoundTrip.RebuiltChunk | src/webrtc.cpp:559-563 | the server's parity XORed with the chunks still held is the lost chunk, and the parity is long enough for it |
| FecRoundTrip.RebuiltByte | client/js/network.js:364-365 | byte j of the rebuilt chunk equals byte j of the lost chunk |
| FecRoundTrip.OthersAreRest | client/js/network.js:361-366 | the chunks the client XORs in are the group's chunks without the lost one |
| FecRoundTrip.ExpectedIsChunkLength | client/js/network.js:331-337 | the size the client expects for chunk m is the length `Send` gave it (src/webrtc.cpp:545) |
| FecRoundTrip.OnlyMissing | client/js/network.js:348-352 | with every chunk of the group but one held, that one is the group's only gap |
| WebRtc.NumChunksIsCeil | src/webrtc.cpp:510 | the chunk count is `(sz + DATA_CHUNK - 1) / DATA_CHUNK` |
| WebRtc.NumChunks | src/webrtc.cpp:510 | reference definition of the chunk count; its properties are in WebRtc.NumChunksIsCeil and WebRtc.ChunkCountFacts |
| WebRtc.ChunkCountFacts | src/webrtc.cpp:510 | a non-empty frame has at least one chunk, the last chunk starts inside the frame and the chunks cover all of it |
| WebRtc.SendableChunks | src/webrtc.cpp:507-512 | a frame `Send` accepts has 1..65535 chunks, so every index fits the u16 header fields |
| WebRtc.Chunk | src/webrtc.cpp:543-545 | each chunk is non-empty and at most DATA_CHUNK bytes |
| WebRtc.ChunkLength | src/webrtc.cpp:543-545 | every chunk but the last is exactly DATA_CHUNK bytes and the last holds the remainder |
| WebRtc.ChunkIs | src/webrtc.cpp:543-552 | chunk i is the slice of the frame at offset i·DATA_CHUNK, `min(DATA_CHUNK, sz - off)` long |
| WebRtc.GroupBound | src/webrtc.cpp:539 | the loop condition `g * 4 < nch` holds exactly for the group indices |
| WebRtc.ChunksMaxLen | src/webrtc.cpp:537-560 | no chunk, hence no parity, is longer than DATA_CHUNK, so the parity fits its buffer |
| WebRtc.ChunksJoin | src/webrtc.cpp:539-555 | the chunks of the first groups, joined in order, are the frame's first bytes |
| WebRtc.AllChunksJoin | src/webrtc.cpp:539-555 | all of a frame's chunks, joined in order, are the frame |
| WebRtc.FramePackets | src/webrtc.cpp:539-575 | reference definition of the packets `Send` queues for a frame; its properties are in WebRtc.Packetise, WebRtc.AllChunksJoin and FecRoundTrip.RecoverLostChunk |
| WebRtc.Parity | src/webrtc.cpp:545-563 | the parity's length is the longest chunk's and byte j is the XOR of byte j of every chunk of the group, zero-padded |
| WebRtc.GroupParity | src/webrtc.cpp:545-575 | a group's parity is at most DATA_CHUNK bytes |
| WebRtc.Trim | src/webrtc.cpp:534-537 | trimming leaves min(queue length, limit) packets |
| WebRtc.TrimKeepsNewest | src/webrtc.cpp:534-537 | the packets kept are the newest ones, in order |
| WebRtc.NameLen | src/webrtc.cpp:80 | at most 63 name bytes are written, and never more than the name has |
| WebRtc.MonitorEntry | src/webrtc.cpp:73-84 | a monitor's record is 9 bytes plus its name bytes |
| WebRtc.WriteMonitorEntry | src/webrtc.cpp:73-84 | the record written field by field is `MonitorEntry` |
| WebRtc.WriteMonitorList | src/webrtc.cpp:63-87 | the buffer `SendMonitorList` builds is the head followed by every record, in order |
| WebRtc.MonitorListMessage | src/webrtc.cpp:63-87 | reference definition of the MONITOR_LIST message; its properties are in WebRtc.WriteMonitorList and NetworkControl.MonitorListRoundTrip |
| WebRtc.MonitorListHead | src/webrtc.cpp:69-71 | the head is six bytes: magic, count, current monitor |
| WebRtc.VersionMessage | src/webrtc.cpp:96-103 | the VERSION message is five bytes plus the version text |
| WebRtc.PingReply | src/webrtc.cpp:113-116 | the ping reply is the client's 16 bytes unchanged, followed by 8 bytes of server time |
| WebRtc.PingKeepsFresh | src/webrtc.cpp:436-441 | a ping answered at time t keeps the connection from being stale for the next three seconds |
| WebRtc.Stale | src/webrtc.cpp:436-441 | reference definition of `IsStale`; its properties are in WebRtc.PingKeepsFresh and WebRtc.FailuresMakeStale |
| WebRtc.Ctrl | src/webrtc.cpp:105-211 | a message shorter than 4 bytes or arriving before all five channels are open changes nothing; any other is counted once; no message clears `needsKey`, moves the key-request time except to an accepted request's time, or switches to a codec other than a CODEC_SET's |
| WebRtc.CtrlMessage | src/webrtc.cpp:109-210 | the magic-number switch never touches the receive counter and keeps the same `Grows` guarantees |
| WebRtc.Server.constructor | include/webrtc.hpp:51-52 | a new server is disconnected, with no channels open or counted ready, an empty queue, frame id 0, and a keyframe due |
| WebRtc.Server.Reset | src/webrtc.cpp:325-350 | every channel is closed (the control channel included), the connection flags, channel count, overflow and ping time are cleared and the video queue is empty |
| WebRtc.Server.SendCtrl | src/webrtc.cpp:39-54 | a control message is recorded as sent exactly when the control channel is open |
| WebRtc.FullIncludesControl | src/webrtc.cpp:409-432 | once all five labelled channels are open, the control channel is among them, so the connection completes only with the control channel open |
| WebRtc.Server.OnChannelOpen | src/webrtc.cpp:227-244 | one more channel is ready and open, the control channel's opening making control sends possible; the fifth completes the connection, asks for a keyframe, restarts liveness and always sends host info, codec caps, monitor list and version, in that order, because the control channel is then open; earlier ones change nothing else |
| WebRtc.Server.Connect | src/webrtc.cpp:231-242 | with the control channel open, completing the connection sets it up, asks for a keyframe, restarts liveness, sends host info, codec caps, monitor list and version in that order, and reports the connection |
| WebRtc.Server.OnChannelClose | src/webrtc.cpp:246-259 | any channel closing takes the connection down: that channel is no longer open (control sends stop when it is the control channel), no channels ready, not connected, no fps received, no overflow, and a disconnect is reported |
| WebRtc.Server.SendGreeting | src/webrtc.cpp:236-239 | the four greeting messages go out in order while the channel is open |
| WebRtc.Server.SendHostInfo | src/webrtc.cpp:56-61 | HOST_INFO carries the host rate |
| WebRtc.Server.SendCodecCaps | src/webrtc.cpp:89-94 | CODEC_CAPS carries the capability byte |
| WebRtc.Server.SendVersion | src/webrtc.cpp:96-103 | VERSION carries the version text |
| WebRtc.Server.SendMonitorList | src/webrtc.cpp:63-87 | MONITOR_LIST carries `MonitorListMessage` of the monitors and the current index |
| WebRtc.Server.HandleCtrl | src/webrtc.cpp:105-211 | the handler changes the server as `Ctrl` says |
| WebRtc.Server.Dispatch | src/webrtc.cpp:109-210 | the switch changes the server as `CtrlMessage` says |
| WebRtc.Server.OnPing | src/webrtc.cpp:110-118 | PING as `Ping` says: only a 16-byte ping refreshes liveness and is echoed |
| WebRtc.Server.OnKeyRequest | src/webrtc.cpp:151-162 | REQUEST_KEY as `KeyRequest` says: accepted only 350 ms after the last accepted one |
| WebRtc.KeyRequest | src/webrtc.cpp:151-162 | reference definition of REQUEST_KEY's rate limit; its property is in WebRtc.Server.OnKeyRequest |
| WebRtc.Server.OnClipboardData | src/webrtc.cpp:174-180 | CLIPBOARD_DATA as `ClipboardData` says: non-empty, complete, at most 1 MiB |
| WebRtc.Server.OnClipboardGet | src/webrtc.cpp:182-193 | CLIPBOARD_GET as `ClipboardGet` says |
| WebRtc.Server.OnSwitch | src/webrtc.cpp:195-208 | CURSOR_CAPTURE, AUDIO_ENABLE and MIC_ENABLE as `Switch` says: a 5-byte message turns the feature on exactly when its byte is non-zero |
| WebRtc.Server.OnFpsSet | src/webrtc.cpp:120-137 | FPS_SET as `FpsSet` says: 1..240 fps and mode 0..2, mode 1 taking the host rate, then acknowledged |
| WebRtc.FpsSet | src/webrtc.cpp:120-137 | reference definition of FPS_SET; its properties are in WebRtc.Server.OnFpsSet and NetworkControl.FpsAckRoundTrip |
| WebRtc.Server.OnCodecSet | src/webrtc.cpp:139-149 | CODEC_SET as `CodecSet` says: codec 0..2, switched if the application accepts, the ack carrying the current codec |
| WebRtc.CodecSet | src/webrtc.cpp:139-149 | reference definition of CODEC_SET; its properties are in WebRtc.Server.OnCodecSet and NetworkControl.CodecAckRoundTrip |
| WebRtc.Server.OnMonitorSet | src/webrtc.cpp:164-172 | MONITOR_SET as `MonitorSet` says: on an accepted switch a keyframe is due and the list and host info are resent |
| WebRtc.Server.Send | src/webrtc.cpp:503-581 | not streaming: nothing changes; stale: the connection is reset and a disconnect reported, nothing sent; an empty or oversized frame: nothing changes; otherwise the frame is accepted as `Accept` says and the queue then drained to the video channel as `Drain` says, each failed send counting as an overflow and forcing a keyframe |
| WebRtc.Server.DrainVideo | src/webrtc.cpp:287-305 | with the video channel closed (the link is open exactly while the video channel is among the open channels) nothing changes; otherwise the queue is drained as `Drain` says: the packets taken are appended to what the channel received, the rest stay queued, and every send that threw adds one video error and one overflow and makes a keyframe due |
| WebRtc.DrainQueue | src/webrtc.cpp:295-304 | the send loop yields exactly the drain `Drain` describes |
| WebRtc.Drain | src/webrtc.cpp:295-304 | a drain reaches the first packets up to the channel's room, each either taken or counted as a failed send, and leaves the remaining suffix of the queue untouched |
| WebRtc.DrainDeliversAll | src/webrtc.cpp:295-304 | a channel with room for the whole queue and no failing send receives every queued packet in order and leaves the queue empty |
| WebRtc.FailuresMakeStale | src/webrtc.cpp:436-441 | ten failed video sends make a live connection stale by overflow |
| WebRtc.Server.Deliver | src/webrtc.cpp:510-577 | the accepting half of `Send` queues the frame as `Accept` says and then drains the queue as `Drain` says |
| WebRtc.Server.Enqueue | src/webrtc.cpp:510-576 | the queuing step of `Send` changes the video fields as `Accept` says |
| WebRtc.FrameHeaderBase | src/webrtc.cpp:518-530 | the base header of an accepted frame has every field within its width |
| WebRtc.Accept | src/webrtc.cpp:509-581 | the frame id advances by one modulo 2^32, one more frame is counted, and a keyframe is due exactly when one was or the queue had to be trimmed |
| WebRtc.AcceptFrame | src/webrtc.cpp:509-578 | the method computes `Accept` |
| WebRtc.CeilDiv | src/webrtc.cpp:510 | the division computes the chunk count |
| WebRtc.TrimFront | src/webrtc.cpp:534-537 | the pop loop leaves `Trim` of the queue and reports whether it dropped anything |
| WebRtc.FramePacketsStep | src/webrtc.cpp:539-576 | group g+1's packets follow those of the first g groups |
| WebRtc.Packetise | src/webrtc.cpp:539-576 | the group loop enqueues every group's packets, in order |
| WebRtc.GroupStep | src/webrtc.cpp:539-576 | one pass of the group loop carries the loop invariant from g to g+1 |
| WebRtc.EmitGroup | src/webrtc.cpp:540-575 | one group's data packets, then its parity packet when the group is full and the parity non-empty |
| WebRtc.GroupPacketsOf | src/webrtc.cpp:566-575 | a group's packets are its data packets followed by its parity packet, if any |
| WebRtc.GroupData | src/webrtc.cpp:545-564 | the chunk loop yields the group's data packets and its parity |
| WebRtc.NewParityBuffer | src/webrtc.cpp:545 | the parity buffer starts as DATA_CHUNK zero bytes |
| WebRtc.ChunkStep | src/webrtc.cpp:547-564 | one pass of the chunk loop carries the invariant: packets, chunk list, parity length and buffer all extended by chunk i |
| WebRtc.PaddedParityPrefix | src/webrtc.cpp:569-573 | the parity packet carries the first `parityLen` bytes of the buffer, which are the group's parity |
| WebRtc.StepLists | src/webrtc.cpp:547-561 | one more chunk extends the packet list, the chunk list and the maximum length by its own entry |
| WebRtc.EmitChunk | src/webrtc.cpp:547-563 | chunk i's data packet is built and the chunk is XORed into the parity buffer |
| WebRtc.XorInto | src/webrtc.cpp:563 | each buffer byte is XORed with the chunk's byte, zero past the chunk's end |
| WebRtc.DataPacketAt | src/webrtc.cpp:547-556 | the packet built from the offset and length `Send` computes is chunk i's |
| WebRtc.NumChunksBound | src/webrtc.cpp:510 | if k chunks of DATA_CHUNK bytes cover the frame, the chunk count is at most k |
| WebRtc.ChunkStartInRange | src/webrtc.cpp:543-545 | every chunk index below the count starts inside the frame, so `sz - off` is positive |
| WebRtc.Chunks | src/webrtc.cpp:546-552 | the chunk slices from lo to hi number `hi - lo` |
| WebRtc.ChunksAt | src/webrtc.cpp:546-552 | entry k of the chunk list from lo is chunk lo+k |
| WebRtc.DataPackets | src/webrtc.cpp:546-556 | one data packet per chunk index from lo to hi |
| WebRtc.PaddedParity | src/webrtc.cpp:545 | the parity buffer is always DATA_CHUNK bytes long |
| VideoFacts.StoreRefusesDuplicates | client/js/network.js:617-637 | a packet is refused exactly when its data slot is already filled, or its group's parity is already held |
| VideoFacts.RecoverOrKeepKeeps | client/js/network.js:628-629 | trying a group's recovery never changes a filled slot, the slot count or any parity |
| VideoFacts.StoreKeepsChunks | client/js/network.js:617-629 | a new data chunk lands in its slot and every chunk already there stays |
| VideoFacts.StoreKeepsParity | client/js/network.js:631-637 | a new parity is kept under its group and every chunk already there stays |
| VideoFacts.DuplicateIgnored | client/js/network.js:617-634 | a duplicate chunk or parity leaves the whole client state unchanged |
| VideoFacts.MismatchDropped | client/js/network.js:612-615 | a packet whose total, frame size or chunk size disagree with the pending frame's only counts a drop |
| VideoFacts.FinishSteps | client/js/network.js:378-415 | `processFrame` of a complete frame is `decodeFrame` of its bytes, then the entry is deleted, the first-frame wait ends and the connection is marked up |
| VideoFacts.FinishDecodes | client/js/network.js:385-415 | a complete frame the decoder takes is submitted as its joined parts with its capture time and duration; one more frame is complete, none dropped, the cursor moves to the larger id |
| VideoFacts.FinishFields | client/js/network.js:395-415 | the decode queue and stats come from `decodeFrame`; the cursor and table are set by `processFrame` itself |
| VideoFacts.FinishRefused | client/js/network.js:395-415 | a complete frame stopped by a decode gate counts as complete and as dropped, and nothing is decoded |
| VideoFacts.FinishIncomplete | client/js/network.js:379-384 | an incomplete frame is counted as dropped twice (the log and the counter) and deleted, with nothing else changed |
| VideoFacts.EvictsSmallest | client/js/network.js:596-607 | a full table taking a frame whose id is not the smallest deletes the entry with the smallest id and keeps its size |
| VideoFacts.SmallestNewcomerKept | client/js/network.js:596-598 | a new frame below every pending id is kept even in a full table, which then holds one frame more than the limit |
| VideoFacts.EvictionReacts | client/js/network.js:599-606 | an eviction counts one drop; an evicted keyframe while none is awaited starts the wait and may send a request |
| VideoFacts.SweepDeletesBehind | client/js/network.js:556-559 | an overdue frame behind the cursor is deleted without being counted |
| VideoFacts.SalvagedComplete | client/js/network.js:561-565 | a frame whose parity recovery reached its total has every slot filled |
| VideoFacts.ExpireLost | client/js/network.js:571-577 | a timed-out keyframe that had begun to arrive, while none was awaited, starts the wait and sends a request if one is due |
| VideoFacts.ExpireReacts | client/js/network.js:571-577 | a timeout counts one drop and one timeout, deletes the entry and decodes nothing |
| VideoFacts.SweepExpires | client/js/network.js:555-577 | an overdue frame at or past the cursor that parity cannot complete times out |
| VideoFacts.SweepSalvages | client/js/network.js:561-567 | an overdue frame that parity completes is processed like any complete frame |
| VideoFacts.PayloadsAreChunks | client/js/network.js:385-393 | slots holding the server's chunks are complete and their payloads are those chunks |
| VideoFacts.AssembledIsData | client/js/network.js:385-393 | reassembly undoes the server's chunking (src/webrtc.cpp:543-552): the joined slots are the frame |
| VideoSession.CopyAt | client/js/network.js:391 | `combined.set(p, offset)` writes p at the offset and keeps every byte before it |
| VideoSession.TotalSize | client/js/network.js:388 | the reducer's sum is the length of all parts joined |
| VideoSession.Assemble | client/js/network.js:385-393 | the buffer handed to the decoder is the frame's parts joined in slot order, a one-chunk frame's only part included |
| VideoSession.CountComplete | client/js/network.js:395-397 | one more complete frame, one more keyframe for a keyframe, and the cursor moves to the larger id |
| VideoSession.EndWait | client/js/network.js:407-413 | the first frame ends the wait and marks the connection up |
| VideoSession.ClearEntry | client/js/network.js:415 | the frame's entry is deleted and nothing else changes |
| VideoSession.DecodeComplete | client/js/network.js:385-413 | a complete frame is joined, counted and handed to `decodeFrame`, then the wait ends |
| VideoSession.ProcessFrame | client/js/network.js:378-415 | the session changes as `Finish` says, complete or not |
| VideoSession.RecoverGroups | client/js/network.js:562-564 | every held parity group is tried, in arrival order |
| VideoSession.DropEntry | client/js/network.js:380-382 | an incomplete frame is counted as dropped and deleted |
| VideoSession.AskKey | client/js/network.js:574-576 | a lost keyframe starts the wait and goes through `requestKeyframe` |
| VideoSession.TimeOut | client/js/network.js:571-573 | a timed-out frame is counted as dropped and timed out, and deleted |
| VideoSession.ExpireFrame | client/js/network.js:571-577 | a frame given up on changes the session as `Expire` says |
| VideoSession.SweepEntry | client/js/network.js:555-578 | one pass of the sweep loop changes the session as `SweepOne` says |
| VideoSession.SweepTimeouts | client/js/network.js:554-579 | the sweep visits every entry of the table as it stood when the packet arrived, as `Sweep` says |
| VideoSession.EvictOldest | client/js/network.js:596-607 | over capacity the smallest id goes unless it is the newcomer's, as `Evict` says |
| VideoSession.TrackFrame | client/js/network.js:580-608 | a frame id not yet pending gets its entry and the table is trimmed, as `Track` says |
| VideoSession.StoreChunk | client/js/network.js:617-637 | storing a chunk or parity, and trying its group, gives `Store`'s result, None for a duplicate |
| VideoSession.PutEntry | client/js/network.js:623-635 | the entry at k is replaced and nothing else changes |
| VideoSession.DeliverChunk | client/js/network.js:610-642 | a packet is filed into its frame and the frame processed once every chunk is in, as `Deliver` says |
| VideoSession.CheckPacket | client/js/network.js:512-546 | the checks keep a packet exactly when it is `WellFormedPacket` |
| VideoSession.FileVideo | client/js/network.js:554-642 | sweep, tracking and filing of a counted packet ahead of the cursor, as `Arrive` says |
| VideoSession.HandleVideo | client/js/network.js:509-642 | `handleVideo` changes the session as `OnVideo` says |
| Renderer.RoundDiv | client/js/renderer.js:117-121 | `Math.round` of an exact quotient: the nearest integer, halves rounded up |
| Renderer.HalfGap | client/js/renderer.js:118-121 | half a gap, rounded, lies within the gap and splits it evenly to within one pixel |
| Renderer.FittedSide | client/js/renderer.js:117-120 | the fitted side is never negative and never exceeds the display's |
| Renderer.ViewportFits | client/js/renderer.js:108-122 | with every dimension positive the viewport lies inside the display, fills it along one axis, keeps the video's aspect to within rounding along the other, and is centred to within a pixel |
| Renderer.CalcVp | client/js/renderer.js:108-122 | reference definition of `calcVp`; its properties are in Renderer.ViewportFits and Renderer.DegenerateViewport |
| Renderer.DegenerateViewport | client/js/renderer.js:109-111 | a zero or negative dimension gives the whole display at the origin, a zero side counted as 1 |
| Renderer.CursorShown | client/js/renderer.js:198-202 | the cursor is hidden exactly in relative or pointer-locked mode; otherwise it is the named shape, or `default` for an unknown id |
| Renderer.CursorStyle | client/js/renderer.js:198-202 | reference definition of `setCursorStyle`'s value; its property is in Renderer.CursorShown |
| Renderer.SetCursorStyle | client/js/renderer.js:198-202 | the canvas cursor becomes `CursorStyle` of the shape and the two mode flags |
| Renderer.Presented | client/js/renderer.js:217-230 | a frame on time adds its age to the sum and the sample count, stamps the present time and leaves the late count alone |
| Renderer.QueuedEffects | client/js/renderer.js:207-233 | a late frame only counts as dropped late; one on time adds its age, its server age exactly when one was taken, and an interval exactly when a frame was presented before |
| Renderer.Queued | client/js/renderer.js:207-233 | reference definition of the jitter update in `queueFrameForPresentation`; its properties are in Renderer.QueuedEffects, Renderer.IntervalsBounded and Renderer.ResetRecordsNoInterval |
| Renderer.IntervalsBounded | client/js/renderer.js:224-229 | the interval list never holds more than 60 entries and keeps the newest, last |
| Renderer.RenderEffects | client/js/renderer.js:142-197 | a frame without a size is a render error that leaves metadata and render counters alone; any other is counted as rendered, its metadata entry deleted, an error counted exactly when the upload failed, and a successful upload leaves a valid texture and the viewport remembered |
| Renderer.Render | client/js/renderer.js:142-197 | reference definition of `renderFrame`'s bookkeeping; its property is in Renderer.RenderEffects |
| Renderer.RenderFrame | client/js/renderer.js:142-197 | `renderFrame` changes the session's render fields as `Render` says |
| Renderer.TimeFrame | client/js/renderer.js:208-230 | the frame is on time exactly when its local age is at most the limit; the jitter becomes `Queued` and a late frame counts one drop |
| Renderer.QueueFrameForPresentation | client/js/renderer.js:207-233 | a late frame only updates the jitter and counts a drop; any other is rendered after the jitter update |
| Renderer.OnFrameOutput | build/bin/Release/js/media.js:69-84 | the decode time is recorded exactly when the frame's metadata holds a start time, then the frame is presented at once with the metadata's capture time or the frame's timestamp |
| Renderer.ResetRenderer | client/js/renderer.js:234-240 | no frame counts as presented, no texture is valid, no viewport is remembered and the cursor is the default |
| Renderer.ResetRecordsNoInterval | client/js/renderer.js:224-235 | after a reset the next frame on time records no interval |
| AudioWorklet.Slot | build/bin/Release/js/media.js:221 | a ring index `(a + k) % n` is always a valid slot |
| AudioWorklet.Input | build/bin/Release/js/media.js:220-221 | a write takes `src[i] \|\| 0` for each of its frames: samples past the source's end are silence |
| AudioWorklet.WriteIndex | build/bin/Release/js/media.js:216-223 | after a write, a surviving old sample sits in a slot the write did not reach and a new sample sits where the write put it |
| AudioWorklet.RingBuffer.constructor | build/bin/Release/js/media.js:207-211 | the rows are allocated, the read and write slots are 0 and nothing is buffered |
| AudioWorklet.RingBuffer.FillChannel | build/bin/Release/js/media.js:221 | sample j of the source goes to slot w + j of channel c, a write longer than the ring keeping its newest samples; other channels and unreached slots keep their values |
| AudioWorklet.RingBuffer.FillOne | build/bin/Release/js/media.js:221 | one step writes one slot of one channel and no other |
| AudioWorklet.RingBuffer.FillSamples | build/bin/Release/js/media.js:219-222 | every channel takes its own source, or the first one when it has none, from slot w on |
| AudioWorklet.RingBuffer.FillAll | build/bin/Release/js/media.js:216-223 | after the read slot moves past the overwritten samples, the channel loop leaves every channel's contents as `Written` says |
| AudioWorklet.RingBuffer.Write | build/bin/Release/js/media.js:212-225 | a non-positive count writes nothing; otherwise the oldest samples that do not fit are overwritten, `overflow` counts them, every frame is written and the count is min(length + frames, capacity) |
| AudioWorklet.RingBuffer.Consume | build/bin/Release/js/media.js:232-235 | the read slot and count move past the n oldest samples and the write slot stays |
| AudioWorklet.RingBuffer.ReadChannel | build/bin/Release/js/media.js:230 | one output channel is the oldest min(frames, length) samples followed by silence up to frames |
| AudioWorklet.RingBuffer.ReadRows | build/bin/Release/js/media.js:228-231 | every output channel is filled as `ReadChannel` says |
| AudioWorklet.RingBuffer.Read | build/bin/Release/js/media.js:226-234 | every output channel gets the oldest min(frames, length) samples then silence, and exactly those samples are consumed |
| AudioWorklet.RingBuffer.Skip | build/bin/Release/js/media.js:235 | the min(n, length) oldest samples are dropped and that count is returned |
| AudioWorklet.RingBuffer.Clear | build/bin/Release/js/media.js:237 | both slots go back to 0 and nothing is buffered |
| AudioWorklet.Relinked | build/bin/Release/js/media.js:216-223 | after the channel loop, sample k of every channel of the new contents is in slot k from the moved read slot |
| AudioWorklet.Inputs | build/bin/Release/js/media.js:219-222 | every channel's input to a write is frames samples long |
| AudioWorklet.WriteLength | build/bin/Release/js/media.js:212-225 | a write keeps every channel the same length, min(length + frames, capacity), and only the oldest samples are lost to overflow |
| AudioWorklet.FifoRoundTrip | build/bin/Release/js/media.js:212-234 | first in, first out: frames samples written into an empty ring come back, in order, from a read of frames |
| AudioWorklet.ReadSplits | build/bin/Release/js/media.js:226-234 | what a read outputs followed by what it leaves is each channel as it was, and the padding is silence |
| AudioWorklet.Initial | build/bin/Release/js/media.js:241-247 | a new processor is prebuffering with an empty ring, within every bound |
| AudioWorklet.Times | build/bin/Release/js/media.js:273 | each sample of a channel is multiplied by the volume |
| AudioWorklet.HandlersStaySane | build/bin/Release/js/media.js:248-285 | every handler keeps the volume in [0, 1], the ring within its capacity and the underrun streak under 5 |
| AudioWorklet.AudioLength | build/bin/Release/js/media.js:250-259 | after an `audio` message the ring holds min(trimmed length + frames, capacity) samples, a lagging ring is trimmed to 4800 first and counted as an overflow |
| AudioWorklet.OnAudio | build/bin/Release/js/media.js:250-259 | reference definition of the `audio` message handler; its properties are in AudioWorklet.AudioLength, AudioWorklet.ContentsAgree and AudioWorklet.HandlersStaySane |
| AudioWorklet.ContentsAgree | build/bin/Release/js/media.js:250-283 | the ring's contents keep the length the counters record, through `audio` and `process` |
| AudioWorklet.UnderrunStreak | build/bin/Release/js/media.js:272-278 | a full read ends an underrun streak; the fifth short read in a row sends the processor back to prebuffering with the streak reset |
| AudioWorklet.ReportCadence | build/bin/Release/js/media.js:279-283 | while playing, a report goes out once 4800 samples have passed since the last, and it zeroes the counters it reports |
| AudioWorklet.ProcessPlays | build/bin/Release/js/media.js:266-285 | at full volume the processor plays exactly what the ring reads; at volume 0, muted or prebuffering it plays silence, and muted or prebuffering it reads nothing |
| AudioWorklet.OnProcess | build/bin/Release/js/media.js:266-285 | reference definition of one render quantum; its properties are in AudioWorklet.ProcessPlays, AudioWorklet.UnderrunStreak and AudioWorklet.ReportCadence |
| AudioWorklet.ScaleChannel | build/bin/Release/js/media.js:273 | the inner volume loop computes `Times` of the channel |
| AudioWorklet.ScaleOutput | build/bin/Release/js/media.js:273 | the volume pass is skipped at volume 1 and otherwise scales every channel |
| AudioWorklet.StreamAudioProcessor.constructor | build/bin/Release/js/media.js:241-247 | a stereo ring of 9600 samples, empty, prebuffering, full volume, counters at zero |
| AudioWorklet.StreamAudioProcessor.Audio | build/bin/Release/js/media.js:250-259 | an `audio` message trims a lagging ring, writes the frames and updates the counters as `OnAudio` says |
| AudioWorklet.StreamAudioProcessor.Store | build/bin/Release/js/media.js:256-259 | the write counts an overwrite as one overflow, any written sample ends an underrun streak and enough buffered samples end prebuffering |
| AudioWorklet.StreamAudioProcessor.Trim | build/bin/Release/js/media.js:251-255 | a ring holding more than 7200 samples keeps its newest 4800 and counts one overflow |
| AudioWorklet.StreamAudioProcessor.SetVolume | build/bin/Release/js/media.js:260 | the volume is the message's value clamped to [0, 1] |
| AudioWorklet.StreamAudioProcessor.SetMuted | build/bin/Release/js/media.js:261 | the muted flag is the message's value and nothing else changes |
| AudioWorklet.StreamAudioProcessor.Clear | build/bin/Release/js/media.js:262 | the ring is emptied, the counters since the last report zeroed and prebuffering restarts |
| AudioWorklet.StreamAudioProcessor.Process | build/bin/Release/js/media.js:266-285 | one render quantum outputs `ProcessOutput`, consumes what it read, reports as `ProcessStats` says and updates the counters as `OnProcess` says |
| AudioWorklet.StreamAudioProcessor.Play | build/bin/Release/js/media.js:272-273 | the read and volume pass output the read samples scaled by the volume and consume them |
| AudioWorklet.StreamAudioProcessor.Account | build/bin/Release/js/media.js:274-278 | a short read counts an underrun and extends the streak, the fifth resetting it into prebuffering; a full read ends the streak |
| AudioWorklet.StreamAudioProcessor.Report | build/bin/Release/js/media.js:280-283 | once 4800 samples have passed since the last report the counters are posted and zeroed; otherwise nothing changes |
| Capture.Released | include/capture.hpp:11 | releasing a frame drops its texture, pool slot, sync flag and generation and keeps its timestamp and fence |
| Capture.QueueOf | src/capture.cpp:40-52 | the queue read from the ring holds exactly the counted frames |
| Capture.PushedQueue | src/capture.cpp:40-52 | storing at head, after moving the tail on a full ring, gives `PushQueue` of the queue: the oldest frame goes only when the ring is full |
| Capture.PoppedQueue | src/capture.cpp:68-71 | taking the frame at tail and emptying its slot leaves the rest of the queue in order |
| Capture.PushKeepsNewest | src/capture.cpp:32-55 | the ring always holds the newest four frames pushed into it, oldest first |
| Capture.PushQueue | src/capture.cpp:32-55 | reference definition of `Push` on the queue of frames; its properties are in Capture.PushedQueue and Capture.PushKeepsNewest |
| Capture.LatestAppend | src/capture.cpp:40-52 | dropping frames beyond the newest four before more arrive changes nothing about the newest four after |
| Capture.FrameSlot.Queue | src/capture.cpp:40-52 | the queue has `cnt` frames, and each pool index fits the 32-bit in-flight mask |
| Capture.FrameSlot.constructor | src/capture.cpp:10-16 | a new ring is empty, with no slot in flight and generation 0 |
| Capture.FrameSlot.SetGeneration | src/capture.cpp:24-26 | only the generation changes |
| Capture.FrameSlot.Push | src/capture.cpp:32-55 | a null texture changes nothing; otherwise a full ring drops its oldest frame and clears its in-flight bit, and the new frame, stamped with the current generation, is queued with its slot in flight |
| Capture.FrameSlot.DropOldest | src/capture.cpp:40-46 | the oldest frame is released, the tail moves on and its pool slot leaves flight |
| Capture.FrameSlot.Store | src/capture.cpp:48-52 | the frame goes in at head and its pool slot, if any, enters flight |
| Capture.FrameSlot.Pop | src/capture.cpp:57-75 | an empty ring returns nothing and changes nothing; otherwise the oldest frame is returned and its slot emptied, and the in-flight mask is untouched |
| Capture.FrameSlot.MarkReleased | src/capture.cpp:81-86 | a negative index changes nothing; otherwise exactly that slot leaves flight |
| Capture.FrameSlot.IsInFlight | src/capture.cpp:88-94 | true exactly for a non-negative index whose bit is set |
| Capture.FrameSlot.Reset | src/capture.cpp:96-104 | every entry is released, the ring is empty and no slot is in flight |
| Capture.At | src/capture.cpp:182 | the round-robin index `(texIdx + i) % POOL` is a pool slot |
| Capture.FirstFitFinds | src/capture.cpp:181-199 | a scan returns -1 exactly when no slot from there on fits; otherwise the first slot, in scan order, that fits |
| Capture.FirstFit | src/capture.cpp:181-199 | reference definition of one round-robin scan; its property is in Capture.FirstFitFinds |
| Capture.Reached | src/capture.cpp:181-199 | the round-robin scan reaches every pool slot |
| Capture.ChooseTexSound | src/capture.cpp:180-202 | `FindTex` returns -1 exactly when every pool slot is in flight; otherwise a slot not in flight, one whose fence is complete whenever such a slot exists |
| Capture.HostRate | src/capture.cpp:303-311 | the host rate is the monitor's display frequency when the settings query succeeds, otherwise 60 Hz |
| Capture.ChooseTex | src/capture.cpp:180-202 | reference definition of `FindTex`'s choice; its property is in Capture.ChooseTexSound |
| Capture.ScreenCapture.constructor | src/capture.cpp:367-423 | a new capture scans from slot 0 on monitor 0, not capturing; `InitMon` on the primary monitor without keepFps makes the target rate the monitor's refresh rate (60 when the query fails) and stamps generation 1 on the ring |
| Capture.ScreenCapture.Scan | src/capture.cpp:181-199 | one pass of the scan returns the first fitting slot, as `FirstFit` says |
| Capture.ScreenCapture.FindTex | src/capture.cpp:180-202 | the slot chosen is `ChooseTex`'s, and the next scan starts after it; -1 leaves the position as it was |
| Capture.ScreenCapture.SetFPS | src/capture.cpp:531-543 | only 1..240 is accepted, and an accepted rate becomes the target |
| Capture.ScreenCapture.SwitchMonitor | src/capture.cpp:478-529 | an index out of range is refused with nothing changed; the monitor already captured is accepted with nothing changed; any other switch pauses capture, advances the generation, empties the ring and restarts the pool scan; a successful `InitMon` advances the generation once more (two in all), moves to the monitor and resumes capture if it was running, while a failed one leaves capture paused on the old monitor, one generation on; the target rate is kept |
| Capture.ScreenCapture.InitMon | src/capture.cpp:302-365 | the host rate is the monitor's (60 when the query fails) and becomes the target unless keepFps; only when the capture objects are created is capture marked not started and a new generation stamped on the ring |
| Pacing.Period | src/main.cpp:505-507 | the period is `1000000 / fps` rounded down, and 16666 µs for a non-positive rate |
| Pacing.Count | src/main.cpp:549-570 | an encode attempt only moves the counters, never the held frame or the pacing clock |
| Pacing.CatchUpLands | src/main.cpp:633 | the catch-up moves the due time by whole periods to the first one no earlier than now - period, and leaves one already there alone |
| Pacing.CatchUp | src/main.cpp:631-633 | reference definition of the catch-up loop; its properties are in Pacing.CatchUpLands and Pacing.CatchUpLoop |
| Pacing.CatchUpLoop | src/main.cpp:633 | the `while` loop computes `CatchUp` |
| Pacing.CatchUpCount | src/main.cpp:633 | a step count that reaches now - period without overshooting by a period is the closed form's |
| Pacing.Hold | src/main.cpp:592-617 | choosing the candidate never moves the pacing clock |
| Pacing.Seeded | src/main.cpp:521-536 | each turn's period is `Period` of the current rate |
| Pacing.SlotsAccounted | src/main.cpp:471-686 | no pool slot leaks and none is released twice: a turn's released slots plus the one held after are the popped frame's plus the one held before |
| Pacing.Step | src/main.cpp:471-686 | reference definition of one encoder-loop turn; its properties are in Pacing.SlotsAccounted, Pacing.StaleFrameDropped, Pacing.EarlyFrameDropped, Pacing.HoldCloser, Pacing.EmitRule, Pacing.StaleHeldCatchesUp and Pacing.KeyframePaces |
| Pacing.StaleAccounted | src/main.cpp:478-491 | the same accounting for a frame of a stale generation |
| Pacing.FreshAccounted | src/main.cpp:493-686 | the same accounting for a frame of the current generation |
| Pacing.LiveAccounted | src/main.cpp:502-686 | the streaming edge and the pacing add exactly the popped frame's slot |
| Pacing.PacedAccounted | src/main.cpp:538-686 | the keyframe path, the early drop and the candidate with its emission add exactly the popped frame's slot |
| Pacing.DropAccounted | src/main.cpp:480 | releasing the held frame moves its slot from held to released |
| Pacing.StartAccounted | src/main.cpp:502-512 | the streaming edge loses no slot |
| Pacing.KeyAccounted | src/main.cpp:538-583 | the keyframe path adds exactly the popped frame's slot |
| Pacing.HoldAccounted | src/main.cpp:592-617 | the candidate rule adds exactly the popped frame's slot |
| Pacing.EmitAccounted | src/main.cpp:619-685 | emitting the held frame loses no slot |
| Pacing.StaleFrameDropped | src/main.cpp:478-491 | a frame of a stale generation is released and counted as dropped, a generation change also releases the held frame, and nothing is encoded |
| Pacing.EarlyFrameDropped | src/main.cpp:585-590 | a frame more than one and a half periods before the due time is released and counted, with the held frame and due time unchanged |
| Pacing.HoldCloser | src/main.cpp:598-607 | the new frame replaces the held one exactly when strictly closer to the due time; otherwise the new frame is released |
| Pacing.EmitRule | src/main.cpp:619-685 | a frame encoded on the ordinary path was due, of the current generation and at most two periods old; the due time then advances one period, or snaps to now when more than two periods behind; a frame not due leaves everything unchanged |
| Pacing.StaleHeldCatchesUp | src/main.cpp:627-635 | a held frame more than two periods old is dropped and counted, and the due time catches up by whole periods |
| Pacing.KeyframePaces | src/main.cpp:538-583 | a keyframe request encodes the popped frame as a keyframe, releases any held frame, and a sent keyframe sets the due time one period after it |
| Pacing.EncoderLoop.constructor | src/main.cpp:465-468 | the loop starts with nothing held, period 16667 µs, due time 0 and the ring's generation |
| Pacing.EncoderLoop.DropHeld | src/main.cpp:480 | the held frame, if any, is released and its slot recorded |
| Pacing.EncoderLoop.Prepare | src/main.cpp:478-513 | a generation change, then the streaming edge, as `Regen` and `StartStreaming` say |
| Pacing.EncoderLoop.EncodeKey | src/main.cpp:538-583 | the keyframe path as `KeyPath` says |
| Pacing.EncoderLoop.Candidate | src/main.cpp:592-617 | the candidate choice as `Hold` says |
| Pacing.EncoderLoop.EmitHeld | src/main.cpp:619-685 | the emission of a due frame as `Emit` says |
| Pacing.EncoderLoop.DropStale | src/main.cpp:628-635 | the stale held frame goes and the due time catches up, as `Stale` says |
| Pacing.EncoderLoop.EncodeHeld | src/main.cpp:645-684 | the held frame is encoded and released and the due time advances, as `Encoded` says |
| Pacing.EncoderLoop.Iterate | src/main.cpp:471-686 | one turn of the loop with the popped frame changes the state, releases slots and encodes as `Step` says |
| Pacing.WiggleManager.constructor | src/main.cpp:16 | no wiggle is pending |
| Pacing.WiggleManager.Request | src/main.cpp:45-48 | a wiggle is wanted from now on, restarting any pending wait |
| Pacing.WiggleManager.Poll | src/main.cpp:23-34 | the wiggle fires exactly when one is pending and 100 ms have passed since its request, and firing clears it |
| Input.TableIsIdentity | src/input.cpp:6-18 | every entry of the key table maps a JS key code to the virtual key of the same number |
| Input.JsKeyToVK | src/input.cpp:3-22 | a key maps to a non-zero virtual key exactly when it is a letter, a digit or in the table, and then to itself |
| Input.ExtendedReachable | src/input.cpp:3-22 | every extended key but VK_APPS is reached from its own JS code; JS code 93 is not in the table, so VK_APPS never is |
| Input.U16 | src/input.cpp:201-256 | a little-endian 16-bit field is below 2^16 |
| Input.Decode | src/input.cpp:201-256 | a message is acted on exactly when it has the 4-byte magic, the magic is known, and it is at least its struct's size |
| Input.ResetWin | src/input.cpp:34-46 | once a second has passed since the window start, a new window starts now with every counter at 0; otherwise nothing changes |
| Input.ChkLim | src/input.cpp:48-52 | after renewing the window, the counter always rises by one, the event passes exactly when the counter was below its limit, and a refused event is counted as dropped |
| Input.WindowLimit | include/input.hpp:19 | within one window exactly min(n, limit - used) of n events pass, so never more than 500 moves, 50 clicks or 100 keys a second |
| Input.Block | src/input.cpp:68-77 | the Ctrl and Alt state follows each key event; the Windows keys and Ctrl+Alt+Del are blocked, and a blocked key-down is counted |
| Input.Quot | src/input.cpp:172-186 | C++ division truncates toward zero |
| Input.DisabledIgnores | src/input.cpp:135-199 | a disabled handler injects nothing and changes nothing |
| Input.InjectsOnlyWithinBudget | src/input.cpp:135-199 | at most one input per event, two for a diagonal wheel turn, and only when the event passed its budget; a button above 4 injects nothing |
| Input.OnMove | src/input.cpp:135-144 | reference definition of `MouseMove`; its properties are in Input.DisabledIgnores and Input.InjectsOnlyWithinBudget |
| Input.OnMoveRel | src/input.cpp:146-153 | reference definition of `MouseMoveRel`; its properties are in Input.DisabledIgnores and Input.InjectsOnlyWithinBudget |
| Input.OnButton | src/input.cpp:155-170 | reference definition of `MouseButton`; its properties are in Input.DisabledIgnores, Input.InjectsOnlyWithinBudget and ClientInput.ButtonsLand |
| Input.OnWheel | src/input.cpp:172-186 | reference definition of `MouseWheel`; its properties are in Input.DisabledIgnores and Input.InjectsOnlyWithinBudget |
| Input.OnKey | src/input.cpp:188-199 | reference definition of `Key`; its properties are in Input.KeyRule and Input.CtrlAltDelBlocked |
| Input.Dispatch | src/input.cpp:201-256 | reference definition of `HandleMessage`'s dispatch; its properties are in Input.Decode and the ClientInput round-trip lemmas |
| Input.KeyRule | src/input.cpp:188-199 | a key is injected only when its JS code is known and not blocked, as its own virtual key, up exactly when released, with the mapped scan code when none was given, extended exactly for the extended keys |
| Input.IsExt | src/input.cpp:61-66 | reference definition of the extended-key set; its properties are in Input.KeyRule and Input.ExtendedReachable |
| Input.CtrlAltDelBlocked | src/input.cpp:68-77 | Delete while Ctrl and Alt are held injects nothing |
| Input.SetClipboardText | src/input.cpp:258-312 | empty or oversized (over 1 MiB) text is refused; otherwise the result is whether the clipboard accepted it |
| Input.InputHandler.constructor | include/input.hpp:19 | a new handler is disabled, its window at 0 and its cursor the default |
| Input.InputHandler.Enable | src/input.cpp:105 | only the enabled flag changes, to true |
| Input.InputHandler.ResetWindow | src/input.cpp:34-46 | the handler changes as `ResetWin` says |
| Input.InputHandler.Check | src/input.cpp:48-52 | the result and new state are `ChkLim`'s |
| Input.InputHandler.IsBlocked | src/input.cpp:68-77 | the result and new state are `Block`'s |
| Input.InputHandler.MouseMove | src/input.cpp:135-144 | an enabled handler within budget injects the absolute move, as `OnMove` says |
| Input.InputHandler.MouseMoveRel | src/input.cpp:146-153 | the budget is spent before a zero delta is ignored, as `OnMoveRel` says |
| Input.InputHandler.MouseButton | src/input.cpp:155-170 | a button above 4 is refused before the budget is touched, as `OnButton` says |
| Input.InputHandler.MouseWheel | src/input.cpp:172-186 | the vertical turn with its sign flipped, then the horizontal one, each scaled by 120/100 and truncated, as `OnWheel` says |
| Input.InputHandler.Key | src/input.cpp:188-199 | the key event as `OnKey` says |
| Input.InputHandler.HandleMessage | src/input.cpp:201-256 | true exactly when the message decodes, and then it is dispatched to its handler; otherwise nothing changes and nothing is injected |
| Input.InputHandler.GetCurrentCursor | src/input.cpp:107-122 | a failed query reports the default cursor and changes nothing; otherwise the shown cursor (standard index, none or custom) is reported, and `changed` says whether it differs from the last one |
| ClientInput.LettersAndDigitsPassThrough | client/js/input.js:40-44 | a letter or digit key is sent as its character's code, and the server's `JsKeyToVK` (src/input.cpp:4) passes it through unchanged |
| ClientInput.CodeToVK | client/js/input.js:40-44 | reference definition of `codeToVK`; its properties are in ClientInput.LettersAndDigitsPassThrough and ClientInput.NamedKeysAgree |
| ClientInput.NamedKeysAgree | client/js/input.js:20-38 | every named key the client sends is accepted by the server (src/input.cpp:6-18) as the same virtual key, except ContextMenu (93), which the server drops |
| ClientInput.Modifiers | client/js/input.js:150 | ctrl, alt, shift and meta are bits 0..3 of a value below 16, each bit set exactly when its key is held |
| ClientInput.ButtonOf | client/js/input.js:4 | every browser button maps to one of the server's buttons 0..4 |
| ClientInput.ButtonsLand | client/js/input.js:4 | primary presses the left button, auxiliary the middle, secondary the right, and 3 and 4 the X buttons of src/input.cpp:155-170; the server never refuses one |
| ClientInput.BtnBuf | client/js/input.js:45-52 | the button message is 6 bytes |
| ClientInput.WheelBuf | client/js/input.js:54-58 | the wheel message is 8 bytes |
| ClientInput.KeyBuf | client/js/input.js:60-69 | the key message is 10 bytes |
| ClientInput.RelBuf | client/js/input.js:102-108 | the relative-move message is 8 bytes |
| ClientInput.AbsBuf | client/js/input.js:110-116 | the absolute-move message is 12 bytes |
| ClientInput.BtnRoundTrip | client/js/input.js:45-52 | the server's decoder (src/input.cpp:201-256) reads a button message back as the button and action sent |
| ClientInput.KeyRoundTrip | client/js/input.js:60-69 | the server's decoder reads a key message back as the key code, scan code and action sent |
| ClientInput.KeyFields | client/js/input.js:60-69 | the key message carries the key magic, the key code, the scan code and the down byte at their offsets |
| ClientInput.WheelRoundTrip | client/js/input.js:54-58 | the server's decoder reads a wheel message back as the deltas sent, when they fit in int16 |
| ClientInput.RelRoundTrip | client/js/input.js:102-108 | the server's decoder reads a relative move back as the deltas sent |
| ClientInput.AbsRoundTrip | client/js/input.js:110-116 | the server's decoder reads an absolute move back as the two coordinates sent |
| ClientInput.AbsFields | client/js/input.js:110-116 | the absolute-move message carries the move magic and the two 32-bit coordinates at offsets 4 and 8 |
| ClientInput.Clamp16 | client/js/input.js:129-133 | the clamp lands in int16 and leaves a value already there unchanged |
| ClientInput.Flushed | client/js/input.js:94-118 | `flush` sends nothing when it may not send; otherwise the relative move first when non-zero, then the absolute position when one is pending |
| ClientInput.InputClient.constructor | client/js/input.js:5-16 | control off, nothing pending, no flush scheduled, no paste pending, counters at zero |
| ClientInput.InputClient.SendBtn | client/js/input.js:72-93 | a button message goes out only while control is enabled and the channel open, counted as a click; nothing else changes |
| ClientInput.InputClient.SendKey | client/js/input.js:72-93 | a key message goes out only while control is enabled and the channel open, counted as a key; nothing else changes |
| ClientInput.InputClient.QueueRelMove | client/js/input.js:129-133 | the deltas accumulate, each axis clamped to int16, and a flush is scheduled |
| ClientInput.InputClient.QueueAbsMove | client/js/input.js:124-127 | only the latest absolute position is kept, and a flush is scheduled |
| ClientInput.InputClient.Flush | client/js/input.js:94-118 | the pending moves are sent as `Flushed` says, each counted as a move, and then cleared |
| ClientInput.InputClient.MouseMoved | client/js/input.js:222-233 | in relative mode with the pointer locked a non-zero movement is queued; in absolute mode the position is queued; otherwise, or with control off, nothing changes |
| ClientInput.InputClient.MouseButtonEvent | client/js/input.js:235-252 | with control on, a scheduled flush runs first, so pending moves precede the button, then the button message goes out if the channel is open; with control off nothing changes |
| ClientInput.InputClient.WheelEvent | client/js/input.js:254-258 | a wheel message goes out only while control is enabled and the channel open |
| ClientInput.InputClient.HandleKey | client/js/input.js:155-203 | ignored with control off, an input focused or an unknown code; a Ctrl+V release during a paste is queued; Ctrl+V with clipboard sync starts a paste and sends nothing yet; otherwise the key goes out, and Ctrl+C with clipboard sync also asks for the host's clipboard |
| ClientInput.InputClient.PasteSettled | client/js/input.js:179-184 | once the clipboard push settles the Ctrl+V key-down is sent, then its key-up if one arrived meanwhile, and the paste is no longer pending |
| ClientInput.InputClient.ToggleControl | client/js/input.js:267-289 | nothing happens when the state is unchanged or there is no canvas; otherwise control takes the new value, and disabling drops the pending moves and the scheduled flush |
| Common.HexDigit | src/common.cpp:88 | a nibble prints as one lowercase hex digit |
| Common.HexValue | src/common.cpp:105 | a character has a nibble value exactly when it is a hex digit of either case, and the value is below 16 |
| Common.HexValueOfDigit | src/common.cpp:88-105 | a printed digit reads back as its nibble |
| Common.BytesToHex | src/common.cpp:86-90 | the loop prints `Hex` of the bytes |
| Common.HexShape | src/common.cpp:86-90 | the text is twice as long as the bytes, all lowercase hex, spelling each byte's high then low nibble |
| Common.Hex | src/common.cpp:86-90 | reference definition of `BytesToHex`'s output; its properties are in Common.HexShape, Common.UnhexHex and Common.HexInjective |
| Common.Unhex | src/common.cpp:101-107 | a decoded salt has half as many bytes as the text has characters, a trailing odd character ignored |
| Common.UnhexAt | src/common.cpp:103-107 | pair i decodes to one byte, high nibble first, followed by the rest, or fails when either character is not hex |
| Common.DecodeSalt | src/common.cpp:102-107 | the decoding loop computes `Unhex` of the salt |
| Common.UnhexHex | src/common.cpp:92-107 | the salt round trip: decoding the printed bytes gives them back |
| Common.PairValue | src/common.cpp:88-105 | a byte's two printed digits read back as that byte |
| Common.HexInjective | src/common.cpp:86-90 | distinct byte strings print differently |
| Common.HashText | src/common.cpp:108-114 | a failed key derivation gives "", a successful one 64 characters for its 32 bytes |
| Common.VerifyPassword | src/common.cpp:117-131 | true exactly when the salt and the stored hash are non-empty, the derivation succeeded and its hex equals the stored text |
| Common.VerifyExact | src/common.cpp:117-131 | the stored hash of the right key is never empty, and any other key's hash differs from it |
| Common.Allowed | src/common.cpp:205-219 | an unknown address is allowed; otherwise refused while locked out, allowed with its entry erased once 15 minutes have passed, else allowed while under 5 attempts; no other entry changes |
| Common.Failed | src/common.cpp:229-235 | a first failure or one after the window opens a new window with one attempt; otherwise the count rises and the fifth locks the address out for 30 minutes |
| Common.Recorded | src/common.cpp:221-236 | a success erases the address's entry, a failure records it, and no other address's entry changes |
| Common.Remaining | src/common.cpp:238-242 | 5 for an unknown address, otherwise 5 minus the attempts, never below 0 |
| Common.LockoutLeft | src/common.cpp:244-249 | 0 without a lockout in force; otherwise the whole seconds left of it |
| Common.RateLimiter.constructor | include/common.hpp:174-178 | a new limiter knows no address |
| Common.RateLimiter.IsAllowed | src/common.cpp:205-219 | the answer and the table after it are `Allowed`'s |
| Common.RateLimiter.RecordAttempt | src/common.cpp:221-236 | the table becomes `Recorded` |
| Common.RateLimiter.RemainingAttempts | src/common.cpp:238-242 | the answer is `Remaining` |
| Common.RateLimiter.LockoutSeconds | src/common.cpp:244-249 | the answer is `LockoutLeft` |
| Common.FailuresCount | src/common.cpp:221-236 | failures from a clean slate within 15 minutes of the first count up from 1, and the fifth sets a 30-minute lockout from its own time |
| Common.FailuresSnoc | src/common.cpp:221-236 | one more failure is one more `RecordAttempt` |
| Common.LockedAfterFive | src/common.cpp:205-249 | after five failures the address is refused, has no attempts left and reports the lockout's remaining seconds, until the lockout ends |
| Common.AllowedIffRemaining | src/common.cpp:205-242 | with no lockout in force and a live window, `IsAllowed` agrees with `RemainingAttempts` > 0 |
| Common.SuccessResets | src/common.cpp:223-226 | after a success the address is allowed, with all 5 attempts and no lockout |
| Encoder.EncName | src/encoder.cpp:4-16 | an encoder name exists exactly for the three GPU vendors (NVIDIA, Intel, AMD); an unknown vendor has none |
| Encoder.VendorName | src/encoder.cpp:27-30 | the vendor's display name is "Unknown" exactly when the vendor is not one of the three known ones |
| Encoder.CodecName | src/encoder.cpp:32-35 | the codec's display name is "Unknown" exactly for a codec number past H.264 |
| Encoder.DetectGPU | src/encoder.cpp:37-62 | PCI vendor 0x10DE is NVIDIA, 0x8086 Intel and 0x1002 AMD, each in both directions; any other id or a failed adapter query is UNKNOWN |
| Encoder.VendorPriority | src/encoder.cpp:18-24 | the loop builds the priority list the reference definition gives: the detected vendor first, then the other known vendors in order |
| Encoder.PriorityFacts | src/encoder.cpp:18-24 | the detected vendor heads the list; an unknown GPU gives NVIDIA, Intel, AMD; UNKNOWN never appears; every known vendor appears exactly once; after the head, vendors keep their fixed order |
| Encoder.Priority | src/encoder.cpp:18-24 | reference definition of `GetVendorPriority`; its properties are in Encoder.PriorityFacts and Encoder.VendorPriority |
| Encoder.MaskBit | src/encoder.cpp:64-84 | bit c of the three-flag support mask is set exactly when flag c is set, and or-ing bit c sets flag c and nothing else |
| Encoder.ProbeSupport | src/encoder.cpp:64-84 | the nested vendor/codec loop returns the reference mask, below 8, whose bit c is set exactly when some vendor in priority order provides an encoder for codec c |
| Encoder.Support | src/encoder.cpp:64-84 | reference definition of `ProbeSupport`'s mask; its properties are in Encoder.ProbeSupport, Encoder.SupportIgnoresDetection and Encoder.CoveredByAnyVendor |
| Encoder.ProbeStep | src/encoder.cpp:69-80 | one inner-loop step keeps the mask equal to "some earlier vendor, or this vendor for an earlier codec, covers it" |
| Encoder.CoveredStep | src/encoder.cpp:69-80 | moving to the next vendor, codec c is covered exactly when it was covered before or this vendor provides it |
| Encoder.SupportIgnoresDetection | src/encoder.cpp:64-84 | the support mask does not depend on which GPU was detected, because every order covers all three vendors |
| Encoder.CoveredByAnyVendor | src/encoder.cpp:64-84 | after the whole priority list, codec c is covered exactly when some known vendor provides it |
| Encoder.ChooseVendor | src/encoder.cpp:265-269 | the constructor's TryInit loop succeeds exactly when some vendor in the priority list is usable, and picks the first usable one in that order; none usable is the "No hardware encoder" error |
| Encoder.Quality | src/encoder.cpp:170 | the quality setting is "23" for H.264, "25" for H.265 and "28" for AV1 |
| Encoder.FpsAfter | src/encoder.cpp:295-308 | an update takes effect only for a new rate within 1..240, and then the current rate becomes that rate; otherwise nothing changes and false is returned |
| Encoder.FpsIdempotent | src/encoder.cpp:295-308 | repeating the same update right away changes nothing and reports false |
| Encoder.KeyframeRule | src/encoder.cpp:319-366 | a frame is submitted exactly when the texture has the encoder's size and the buffer and GPU copy succeed; it is a keyframe when forced or when it is the first frame, and its pts is the frame counter, which then goes up by one |
| Encoder.CounterRule | src/encoder.cpp:319-395 | the failed counter goes up exactly on a buffer, GPU-wait or send failure; an output exists exactly when none failed and the drained packets carry data, and then it holds their bytes, the timestamp and "key" exactly when some packet was a keyframe; the total counter counts outputs |
| Encoder.PtsConsecutive | src/encoder.cpp:333-358 | over any sequence of Encode calls the submitted pts values are consecutive from the starting counter, and a keyframe with a non-zero pts implies some call forced a key |
| Encoder.VideoEncoder.constructor | src/encoder.cpp:253-281 | a new encoder holds the given size, rate, codec and vendor, with zeroed counters and an empty output buffer |
| Encoder.VideoEncoder.UpdateFPS | src/encoder.cpp:295-308 | the method's result and new rate are those of the reference update, and the counters and output are untouched |
| Encoder.VideoEncoder.Drain | src/encoder.cpp:243-251 | draining appends every packet's bytes to the output in order and sets the key flag exactly when one was a keyframe |
| Encoder.VideoEncoder.Encode | src/encoder.cpp:319-395 | the new counters, the returned frame and the submission are exactly those of the reference encode step; the rate is untouched |
| Encoder.VideoEncoder.Send | src/encoder.cpp:358-395 | after a successful GPU copy, the counters, frame and submission are those of the reference submission path |
| Decimal.Dec | client/js/ui.js:86-87 | the decimal text of a non-negative integer (`toString`) is non-empty, all digits, without a leading zero, and one character long exactly for numbers below ten |
| Decimal.ValueOfDec | client/js/ui.js:86-87 | reading the decimal text back as a digit string gives the number again |
| Decimal.DecInjective | client/js/ui.js:84-86 | two numbers with the same text are equal, so the text test against the standard rates is a test on the number |
| Decimal.DecLength | client/js/ui.js:460-470 | numbers below 100 print in at most two digits and numbers below 1000 in at most three |
| AppSupport.ValidateUsername | src/app_support.cpp:85-90 | a username is accepted exactly when it has 3 to 32 characters, each a letter, digit, '_' or '-'; the answer agrees with the browser's username check |
| NetworkControl.ValidUsername | client/js/network.js:124 | reference definition of the browser's `validateUsername`; its property, agreement with the server's rule, is in AppSupport.ValidateUsername |
| AppSupport.ValidatePassword | src/app_support.cpp:92-100 | a password is accepted exactly when it has 8 to 128 characters including at least one letter and one digit |
| AppSupport.ServerPasswordStricter | src/app_support.cpp:93-99 | every password the server accepts has at least 8 characters, so it passes the browser's length check; "abcdefgh" shows the converse fails |
| AppSupport.GetPasswordInput | src/app_support.cpp:102-116 | keys are consumed up to the first CR or LF (or the end of input), and the password is the result of applying each consumed key's edit in turn |
| AppSupport.TypedPrintable | src/app_support.cpp:109-111 | only printable characters 32..126 ever reach the password |
| AppSupport.EscClears | src/app_support.cpp:107-108 | ESC discards everything typed before it |
| AppSupport.BackspaceUndoes | src/app_support.cpp:105-106 | Backspace or DEL right after a printable key undoes that key |
| AppSupport.Find | src/app_support.cpp:121-123 | the search returns the first position at or after the start where the pattern occurs, or none when it occurs nowhere there |
| AppSupport.UpToSemicolon | src/app_support.cpp:123-124 | the cookie value is the slice from the start up to the next ';' or the end of the header, and contains no ';' |
| AppSupport.ExtractSessionCookie | src/app_support.cpp:118-125 | no Cookie header or no "session=" gives the empty token; otherwise the token is the text after the first "session=" up to the next ';' |
| AppSupport.CookieRoundTrip | src/app_support.cpp:118-125 | a Cookie header whose first "session=" introduces a token hands that token back, whatever pairs follow |
| AppSupport.StartIdx | src/app_support.cpp:129 | the first loop of Trim stops at the first non-space, skipping only whitespace |
| AppSupport.EndIdx | src/app_support.cpp:130 | the second loop of Trim stops one past the last non-space, skipping only whitespace |
| AppSupport.TrimFacts | src/app_support.cpp:127-132 | the trimmed text is a slice of the input with only whitespace around it, does not start or end with whitespace, and trimming it again changes nothing |
| AppSupport.Trim | src/app_support.cpp:127-132 | the two index loops return the reference trimmed text |
| AppSupport.Octet | src/app_support.cpp:138 | a field of a dotted quad reads as a value of at most 255 |
| AppSupport.ParseDotted | src/app_support.cpp:138-139 | the dotted-quad text of any four octets parses back to the host-order address built from them |
| AppSupport.PrivateRanges | src/app_support.cpp:141-144 | the four mask tests are exactly the ranges 10/8, 172.16/12, 192.168/16 and 127/8 |
| AppSupport.LoopbackLiteral | src/app_support.cpp:135-138 | "127.0.0.1" is itself a dotted quad for 127.0.0.1, so the literal test agrees with the mask test |
| AppSupport.PrivateDotted | src/app_support.cpp:134-145 | an address written as a dotted quad is private exactly when it lies in 10/8, 172.16/12, 192.168/16 or 127/8 |
| AppSupport.IsPrivateIP | src/app_support.cpp:134-145 | reference definition of `IsPrivateIP`; its properties are in AppSupport.PrivateDotted, AppSupport.UnparsedIsPublic and AppSupport.LoopbackLiteral |
| AppSupport.UnparsedIsPublic | src/app_support.cpp:134-138 | any text that does not parse as a dotted quad, other than "127.0.0.1", "::1" and "localhost", is not private |
| AppSupport.FirstEntry | src/app_support.cpp:154-155 | the first X-Forwarded-For entry is the prefix before the first ',' and contains no ',' |
| AppSupport.ClientIP | src/app_support.cpp:147-160 | a public peer address is the client address; behind a private peer the result is either the peer or the non-empty trimmed first forwarded entry; the result is always trimmed |
| AppSupport.ForwardedClient | src/app_support.cpp:147-160 | behind a private peer, the trimmed address a proxy put first in X-Forwarded-For is the client's |
| AppSupport.ExtractHost | src/app_support.cpp:334-339 | the extracted host contains no ':' |
| AppSupport.NoSchemeInAuthority | src/app_support.cpp:335-336 | "host:port" with a numeric port contains no "://", so nothing is cut as a scheme |
| AppSupport.PortCut | src/app_support.cpp:337-338 | in "host:port" the first ':' ends the host |
| AppSupport.HostOfAuthority | src/app_support.cpp:334-339 | the host of a Host header "host:port" is the host |
| AppSupport.HostOfOrigin | src/app_support.cpp:334-339 | the host of an Origin "scheme://host:port" is the host |
| AppSupport.SetupCORS | src/app_support.cpp:325-347 | the three security headers are always set first; the four CORS headers, echoing the origin and allowing credentials, are added exactly when the host rule allows the origin |
| AppSupport.CorsSameHost | src/app_support.cpp:341-342 | an origin is allowed exactly when its host or the request's host is a loopback name, or the two hosts are equal |
| AppSupport.CorsAllowed | src/app_support.cpp:330-347 | reference definition of the CORS host rule; its property is in AppSupport.CorsSameHost |
| AppSupport.Entry | src/app_support.cpp:201-208 | an entry takes the display's refresh rate, or 60 when that is zero, so its rate is always positive |
| AppSupport.Enumerated | src/app_support.cpp:185-210 | the enumeration keeps at most one entry per display, numbered by its position, each with a positive rate |
| AppSupport.PrimaryFirstSorted | src/app_support.cpp:212-214 | the primary-first order is a permutation of the enumerated list in which every entry comes before the later ones under the sort comparator |
| AppSupport.PrimaryFirst | src/app_support.cpp:212-214 | reference definition of the primary-first order; its properties are in AppSupport.PrimaryFirstSorted and AppSupport.RefreshOrder |
| AppSupport.Renumbered | src/app_support.cpp:215 | after renumbering each entry's index is its position and nothing else changes |
| AppSupport.MonitorList.constructor | src/app_support.cpp:183 | the monitor list starts empty |
| AppSupport.MonitorList.Refresh | src/app_support.cpp:181-216 | the refreshed list is the enumeration sorted primary first and renumbered |
| AppSupport.MonitorList.Renumber | src/app_support.cpp:215 | the closing loop sets each entry's index to its position |
| AppSupport.RefreshOrder | src/app_support.cpp:181-216 | after a refresh the list is a permutation of the enumerated entries, numbered 0..n-1, with positive rates and every primary before every non-primary |
| Ui.GetStoredFps | client/js/ui.js:53-67 | a stored rate is returned exactly when it is a number within 1..240; otherwise there is none |
| Ui.GetStoredCodec | client/js/ui.js:53-68 | a stored codec within 0..2 is returned as is; otherwise the detected default, else AV1, so the result is a valid codec whenever the default is |
| Ui.OptionFor | client/js/ui.js:155-166 | the option for a codec carries its id, is disabled exactly when the browser or the host cannot use it, and says "(host n/a)" exactly when the host's mask lacks it |
| Ui.CodecOptions | client/js/ui.js:155-167 | the option list has the three codecs in id order, each disabled exactly when it is not usable by both sides |
| Ui.FirstUsable | client/js/ui.js:176 | the fallback is the lowest codec both sides can use, or none when there is no such codec |
| Ui.SelectFacts | client/js/ui.js:169-181 | the preferred codec is kept when both sides can use it; otherwise the lowest usable codec is taken, and H.264 when none is usable; selecting again from the choice keeps it |
| Ui.SelectCodec | client/js/ui.js:169-181 | reference definition of the codec selection; its properties are in Ui.SelectFacts and Ui.SelectedEnabled |
| Ui.SelectedEnabled | client/js/ui.js:165-177 | whenever any option is enabled, the selected codec's option is enabled |
| Ui.StandardText | client/js/ui.js:84-86 | a rate's text is one of the five standard texts exactly when the rate is 15, 30, 60, 120 or 144 |
| Ui.SplitSeconds | client/js/ui.js:461-465 | the split gives hours below 24, minutes and seconds below 60, and adds back up to the whole seconds |
| Ui.SplitFacts | client/js/ui.js:462-465 | the hour and minute figures computed with `%` and division stay below 24 and 60 and recombine to the total |
| Ui.DropZeros | client/js/ui.js:467-470 | at least the seconds stay, and a shown list with more than one unit starts with a non-zero unit |
| Ui.DropZerosTotal | client/js/ui.js:467-470 | leaving out leading zero units does not change the time the units add up to |
| Ui.AllUnitsTotal | client/js/ui.js:461-465 | days, hours, minutes and seconds weighted by their lengths add up to the span |
| Ui.DropZerosAll | client/js/ui.js:467-470 | the units shown start at days when there are days, else at hours when there are hours, else at minutes when there are minutes, else only seconds |
| Ui.RenderAll | client/js/ui.js:467-470 | each tail of the units is written as the matching template: "<s>s", "<m>m <s>s", "<h>h <m>m <s>s", "<d>d <h>h <m>m <s>s" |
| Ui.UptimeIsReference | client/js/ui.js:460-470 | the uptime text is the units from the first non-zero one down to the seconds, and they add up to the whole non-negative seconds |
| Ui.FormatUptime | client/js/ui.js:460-470 | reference definition of `formatUptime`; its properties are in Ui.UptimeIsReference, Ui.DropZerosAll and Ui.SplitSeconds |
| Ui.Panel.constructor | client/js/ui.js:53-68 | a new panel holds the stored preferences and has applied nothing |
| Ui.Panel.UpdateFpsDropdown | client/js/ui.js:82-94 | a standard rate is selected by its text and hides the custom row; any other rate selects "custom", shows the row and fills in the rate; nothing else changes |
| Ui.Panel.CustomFpsApply | client/js/ui.js:108-117 | a rate within 1..240 is saved, applied once and read back by the stored-rate lookup; anything else, NaN included, changes nothing |
| Ui.Panel.UpdateCodecOpts | client/js/ui.js:151-182 | the options are rewritten as the option list, and both the selection and the current codec become the codec chosen for the stored-else-default preference |
| Ui.Panel.CodecChanged | client/js/ui.js:184-189 | the chosen codec is saved and applied once; a valid saved codec is what the stored-codec lookup returns whatever the default |
| NetworkControl.ControlGates | client/js/network.js:420-507 | a message under four bytes is invalid; a ping is taken exactly at 24 bytes, KICKED exactly at 4, a monitor list exactly with 1..16 monitors and a length the server can write; a version or clipboard text is taken only when its length field is in range and the message holds it, and it is then those bytes |
| NetworkControl.Classify | client/js/network.js:420-507 | reference definition of `handleControl`'s length gates; its properties are in NetworkControl.ControlGates and NetworkControl.ClassifyMonitorList |
| NetworkControl.ParseEntries | client/js/network.js:293-304 | reading count records yields at most count monitors |
| NetworkControl.ParseMonitorList | client/js/network.js:285-308 | the current monitor is byte 5 and the monitor list is the records read in order from offset 6 |
| NetworkControl.ControlCounted | client/js/network.js:428-507 | a message is counted once as control traffic exactly when the gates let it through and it is not KICKED |
| NetworkControl.EffectNet | client/js/network.js:428-507 | the traffic metrics after a message are those after one more control packet of its length, or unchanged |
| NetworkControl.ControlIgnored | client/js/network.js:420-498 | an invalid or unknown message leaves the session as it was; KICKED closes the channels, drops the connection, resets clock sync and stops the retry timer without counting |
| NetworkControl.Effect | client/js/network.js:420-498 | reference definition of each control message's effect; its properties are in NetworkControl.ControlCounted, NetworkControl.EffectNet and NetworkControl.ControlIgnored |
| NetworkControl.CountControl | client/js/network.js:434 | counting a control packet updates the metrics and nothing else |
| NetworkControl.StopTimers | client/js/network.js:762-768 | cleanup stops the pending key request and the keyframe retry and changes nothing else |
| NetworkControl.ResetPlayback | client/js/network.js:767-769 | cleanup resets the renderer (viewport, texture, cursor, presentation time) and clock sync, and nothing else |
| NetworkControl.CleanupSession | client/js/network.js:757-772 | the session after KICKED is the reference cleanup of the session before |
| NetworkControl.TakePing | client/js/network.js:428-435 | a ping reply feeds both times and the arrival time to clock sync and is counted |
| NetworkControl.TakeHostInfo | client/js/network.js:436-447 | HOST_INFO sets the host rate, starts waiting for the first frame when not yet connected, and is counted |
| NetworkControl.TakeCodecCaps | client/js/network.js:448-453 | CODEC_CAPS stores the host's codec mask and is counted |
| NetworkControl.TakeCodecAck | client/js/network.js:454-460 | CODEC_ACK sets the current codec and is counted |
| NetworkControl.TakeFpsAck | client/js/network.js:461-467 | FPS_ACK sets the current rate and mode and is counted |
| NetworkControl.TakeMonitorList | client/js/network.js:468-473 | an accepted MONITOR_LIST is counted, then parsed into the current monitor and the monitor list |
| NetworkControl.TakeCursorShape | client/js/network.js:488-491 | CURSOR_SHAPE sets the cursor the renderer derives from the shape and the mouse mode, and is counted |
| NetworkControl.TakeVersion | client/js/network.js:500-507 | a version that passed the gate is stored; the message is counted either way |
| NetworkControl.MonitorListFields | client/js/network.js:468-473 | an accepted monitor list carries its count in byte 4 and the current monitor in byte 5 |
| NetworkControl.HandleControl | client/js/network.js:417-507 | the session after a control message is the reference effect of the message as classified by the gates |
| NetworkControl.PingRoundTrip | src/webrtc.cpp:111-120 | the server's 24-byte reply to the client's ping passes the client's gate and gives back the client's send time and the server's time, each as a u64 |
| NetworkControl.HostInfoRoundTrip | src/webrtc.cpp:56-61 | HOST_INFO reads back as the host rate truncated to 16 bits |
| NetworkControl.CodecCapsRoundTrip | src/webrtc.cpp:89-94 | CODEC_CAPS reads back as the host's codec mask |
| NetworkControl.CodecAckRoundTrip | src/webrtc.cpp:145-148 | CODEC_ACK reads back as the codec in use, truncated to a byte |
| NetworkControl.FpsAckRoundTrip | src/webrtc.cpp:131-135 | FPS_ACK reads back as the applied rate truncated to 16 bits and the mode |
| NetworkControl.VersionRoundTrip | src/webrtc.cpp:96-103 | a version of 1 to 32 bytes arrives whole; an empty or longer one is ignored by the client |
| NetworkControl.ClipboardRoundTrip | src/webrtc.cpp:183-195 | clipboard text of 1 to 1048576 bytes arrives whole |
| NetworkControl.EntryRoundTrip | src/webrtc.cpp:73-84 | one server record, wherever it sits in a message, reads back as the monitor with each field as the server truncated it, and the read ends right after it |
| NetworkControl.EntriesRoundTrip | src/webrtc.cpp:73-84 | the server's records, after any head, read back as every monitor in order |
| NetworkControl.Decoded | client/js/network.js:293-304 | one read-back monitor per server monitor |
| NetworkControl.MonitorListRoundTrip | src/webrtc.cpp:63-87 | a MONITOR_LIST the server writes for 1 to 16 monitors passes the corrected client gate with its count and current monitor, and reads back as every monitor in order |
| NetworkControl.ListClassified | src/webrtc.cpp:63-71 | the server's list of 1 to 16 monitors is classified as a monitor list with its count and current index |
| NetworkControl.ClassifyMonitorList | client/js/network.js:468-473 | a MONITOR_LIST-typed message within the gates is a monitor list with bytes 4 and 5 as count and current |
| NetworkControl.LongMonitorListIgnored | client/js/network.js:468 | fourteen monitors with 63-byte names make a 1014-byte message that the source's 1000-byte gate rejects and the corrected gate accepts |
| NetworkControl.ListFits | src/webrtc.cpp:63-87 | every list of at most 16 monitors the server writes is at most 6 + 72 * 16 bytes |
| NetworkControl.EntriesLength | src/webrtc.cpp:73-84 | records of monitors with names of 63 bytes or more take exactly 72 bytes each |

## Left out

- I/O and plumbing are not modelled. This covers WebRTC peer-connection setup and signalling, the HTTPS server, the HTTP auth and offer flows, and the DOM and auth UI. Channels and the decoder are sinks that receive byte messages.
- Concurrency is not modelled: threads, atomics, mutexes, condition variables and waits. Each component is a sequential state machine that runs one handler call at a time.
- GPU, OS and media libraries are not modelled: D3D11, WinRT capture and fences, FFmpeg, WebGL, WebCodecs, WebAudio, WASAPI/Opus, the microphone and the tray. Their outcomes are parameters, for example whether an encoder opened or a fence completed.
- Crypto is not modelled. PBKDF2, JWT, the RNG and X509 generation are opaque: the key derivation's result is a parameter of `Common.HashText`.
- Timers are not modelled: setTimeout and setInterval callbacks, the first-frame watchdog and the metrics logger's tick. Each handler is given the current time.
- Common.Unhex: a pair that is not two hex digits yields None. The source ignores sscanf's result (src/common.cpp:104), so such a pair becomes an indeterminate byte and hashing goes on. `%02x` also accepts leading whitespace, a sign or a single digit. The model agrees with the source on the salts the server writes, which are lowercase hex (`Common.UnhexHex`).
- Common.DecodeSalt: stops with None at the first malformed pair, as `Common.Unhex` does, where the source goes on with an indeterminate byte.
- Common.GenerateSalt: not a member. RAND_bytes and the `rand()` fallback are random, so the salt bytes are an input of `Common.BytesToHex`.
- Renderer.CalcVp: computes the viewport with exact integer and rational arithmetic. The source uses JavaScript doubles, and their rounding error is not modelled.
- Renderer.RoundDiv: `Math.round` of an exact positive quotient, rounding half up. `Math.round` on a double that is already rounded can differ in the last place.
- AudioWorklet.RingBuffer.Write: samples are exact reals. Float32 storage rounding is not modelled, nor the `|| 0` that turns NaN or a missing sample into 0 (build/bin/Release/js/media.js:221).
- AudioWorklet.StreamAudioProcessor.Process: the output always has exactly two channels, as the worklet node is created with. The early return for a missing output is therefore not modelled. Volume scaling is exact.
- ClientInput.InputClient.MouseMoved: movement deltas are taken already rounded. `Math.round` of the browser's movement values is not modelled, and neither is the float scaling of `toNormalized`, whose float32 bit patterns are inputs.
- ClientInput.InputClient.WheelEvent: the wheel deltas are taken already rounded; `Math.round` is not modelled.
- ClientInput.CodeToVK: works over Dafny characters. JavaScript strings are UTF-16 code units; the two agree on the ASCII key codes in the table.
- NetworkControl.ValidUsername: works over Dafny characters rather than UTF-16 code units.
- AppSupport.ValidateUsername: works over characters where the source works over bytes, with `isalnum` in the "C" locale.
- NetworkControl.TakePing: the two u64 times are exact integers. The `Number(getBigUint64(...))` conversion (client/js/network.js:430-431) loses precision above 2^53, and that is not modelled.
- VideoHeader.Decode: the header's u64 capture timestamp is an exact integer. Its conversion to a Number (client/js/network.js:520) is not modelled.
- NetworkControl.ParseMonitorList: monitor names are kept as the raw name bytes. The TextDecoder conversion to a string is not modelled.
- NetworkControl.TakeVersion: the version is kept as its bytes, without the TextDecoder conversion.
- NetworkControl.TakeCodecAck: sets only the current codec. The `initDecoder(true)` call (client/js/network.js:457) is not modelled. That call resets the decoder's ready flag, its need-keyframe flag, the last capture timestamp and the frame size (build/bin/Release/js/media.js:53-58). So the model does not show that frames are dropped after a codec switch until the next keyframe. The dropdown update is not modelled either.
- NetworkControl.TakeHostInfo: the deferred `applyFps(getStoredFps() ?? 60)` (client/js/network.js:438) is not modelled. Neither are the loading-stage text and the first-frame watchdog.
- NetworkControl.TakeCodecCaps: the deferred `applyCodec(getStoredCodec())` (client/js/network.js:450) is not modelled.
- NetworkControl.HandleControl: the clipboard write to the browser's clipboard and the dialog after KICKED are not modelled. A CLIPBOARD_DATA message only counts.
- NetworkControl.ControlGates: the MONITOR_LIST length gate is the corrected bound of 6 + 72 * 16 bytes, not the source's 1000; see Findings.
- Pacing.EncoderLoop.Iterate: the release of a held frame when the encoder thread exits (src/main.cpp:688) is not modelled, nor are the 500 µs waits for the GPU. Thread shutdown is outside the model.
- Pacing.WiggleManager.Poll: the 50 ms sleep between polls (src/main.cpp:24) is not modelled. A poll happens at whatever time it is given.
- Pacing.Period: requires a rate of at most 1000000. The rate only ever comes from an FPS_SET the server checked to be 1..240 (src/webrtc.cpp:126), or defaults to 60.
- Capture.FrameSlot.Push: the uint32 in-flight mask is modelled as the set of its set bits.
- Capture.ScreenCapture.constructor: only the successful construction is modelled. A failure to create the device or to initialise the primary monitor throws out of the constructor (src/capture.cpp:367-421), so no capture object exists. The monitor-list refresh it also runs is AppSupport.MonitorList.Refresh.
- Capture.ScreenCapture.SwitchMonitor: an exception from `sess.StartCapture()` after a successful `InitMon` (src/capture.cpp:518-521) is not modelled; the model treats a successful `InitMon` as a successful switch. The session teardown, the callback wait and the `onResChange` notification are not modelled.
- Encoder.VideoEncoder.UpdateFPS: the bitrate settings are not modelled. `CalcBitrate` is floating point, and the FFmpeg context fields are not modelled.
- Encoder.ChooseVendor: the encoders that open (TryInit) are an input set. The FFmpeg option setting of Configure is not modelled beyond its quality value, `Encoder.Quality`.
- AppSupport.PrimaryFirst: `std::sort` is modelled by the one order it can leave. Indices are distinct, so the comparator is a strict total order.
- AppSupport.Octet: a field of a dotted quad is read with the leading-zero rule of `inet_pton` (no leading zero, 1 to 3 digits).
- AppSupport.Entry: the monitor name is an input. `GetMonitorFriendlyName` and the wide-to-UTF-8 conversion are not modelled.
- AppSupport.GetPasswordInput: the keys are the sequence `_getch` returns. The console echo of '*' and "\b \b" is not modelled.
- Ui.GetStoredFps: a stored value is what `parseInt` reads from local storage, None for NaN. A storage exception is read as None.
- Ui.UptimeIsReference: the uptime is a real number of seconds. NaN and infinities are not modelled; `|| 0` only covers NaN and 0.
- Ui.OptionFor: the host's codec mask is a natural number. Browser codec detection is an input record.
- ClientState.JitterSnapshot: reports the population variance of the presentation intervals, `intervalVariance`, rather than `intervalStdDev`. The source's value is `Math.sqrt` of it (client/js/state.js:222-224); the floating-point square root is not modelled.
- ClientState.Session.ResetJitterMetrics: returns `JitterSnapshot`, so it too carries the variance where the source returns its square root, `intervalStdDev`.
- Media.RecordDecodeError: models the counters that the decoder's asynchronous `error:` callback (build/bin/Release/js/media.js:84-92) shares with the `catch` of `decodeFrame`. The callback as a whole is not a member. Its keyframe request and retry are those of `Media.DecodeFailed`, and its `tryReinitDecoder` is a timer-driven decoder reinit, which is not modelled.
- WebRtc.Server.OnChannelOpen: requires that the channel is not open already; the transport reports a channel's opening once until it closes. The peer-state callback that also resets the ready count (src/webrtc.cpp:392-398) is connection plumbing and is not modelled.
- WebRtc.Server.DrainVideo: the channel's buffered amount is an input: `Link.room` is the number of sends it takes before passing `VID_BUF`, and `Link.fails` says which sends throw. The loop sums its counters and writes them once at the end, where the source increments them per failed send; with one handler call at a time the outcome is the same.
- The server's audio path (`SendAudio` and `DrainAudio`, src/webrtc.cpp:307-322 and src/webrtc.cpp:583-612) is not modelled. It sends Opus packets whole, without chunking or parity, and keeps at most three queued.

## Findings

| source | as written | input that shows it | evidently intended | confidence | as-written member | corrected member |
|---|---|---|---|---|---|---|
| client/js/network.js:468 | the client takes a MONITOR_LIST only under 1000 bytes, while src/webrtc.cpp:63-87 writes 6 + 72·n bytes for n monitors with long names | 14 monitors with names of 63 bytes or more make a 1014-byte message, and the client ignores it | the client accepts every list of 1 to 16 monitors the server writes, up to 6 + 72 * 16 bytes | not executed | NetworkControl.LongMonitorListIgnored | NetworkControl.MonitorListRoundTrip |
