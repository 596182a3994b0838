# Inferno audio driver: verified models

Dafny models of the parts of the `inferno_driver` kernel driver that are about order, ownership and
arithmetic rather than about calls into Windows, with proofs of what those parts promise.
`dafny verify dfyconfig.toml` checks everything.

## What is modelled

* **Sideband device life cycle** (`SidebandLifecycle`, `SidebandInvariant`, `SidebandTheorems`,
  `SidebandAdapter`). Plug-and-play arrivals and removals, the FIFO of start and stop tasks, the work item
  that drains it and the final cleanup share reference-counted device objects. A step is one section no other
  thread sees half done; a run is any interleaving of steps. The key idea is the *script*: what has been
  executed, followed by what is committed to (in the worker's hands, in the queue, in the sweep). The script
  only ever grows at its end, so its legality is an invariant. `SidebandAdapter.Adapter` is the code itself,
  methods updating fields with the other threads stepping in between.
* **Notification requests** (`NotificationRequests`, `NotificationTheorems`, `NotificationHeadset`). Requests
  cycle through sent, queued, in hand and sent again, with an error budget, a purge and a flush.
* **Stream status, stream counters, volume** (`HeadsetEndpoints`, `StreamStatus`, `StreamCounters`, `Volume`).
  The event that must mirror an outstanding request, the endpoint indices by which completions find their side,
  the paired open and start counters with rollback and a seven-part bundle of pool blocks, and the cached levels
  with their change handlers.
* **Tone generator** (`ToneStream`, `ToneGenerator`). Buffers of arbitrary length cut out of one stream of
  frames, over the exact reals.
* **Adapter data structures** (`SubdeviceCache`, `Connections`, `PowerRelations`, `RegistryMerge`). The
  subdevice cache with COM references and rollback, all-or-nothing topology connections, power relations, the
  recursive merge of registry trees.
* **Filters over whole runs** (`FilterLifetimes`, `FilterCleanup`, `DeviceFilters`). The life cycle and the
  subdevice cache together: each start installs a device's filters and each stop removes them, and every run that
  ends in cleanup leaves cache, ports, connections and references as they were.
* **Custom endpoint** (`Minipair`). Copy-on-customise of an endpoint descriptor with five allocations.

Calls into the operating system - allocation, I/O requests, registry calls, port class calls - are parameters or
nondeterministic choices, so a theorem holds whichever of them fail. A purge of an I/O target completes what is
outstanding and makes later sends fail; a flush waits until the work item neither runs nor is scheduled.

## Where the code and what it says of itself differ

* The device destructor asserts that the device is not running. An arrival whose task allocation fails after
  `Init` has succeeded deletes a running device; `SidebandTheorems.DestructorAssertionIff` shows that this is the
  only way.
* Installing two filters again that are cached and connected can fail and leave them disconnected
  (`SubdeviceCache.ReinstallDisconnects`).
* A failed re-send ends the work item with requests still in the collection (`NotificationTheorems.StrandedIff`);
  nobody sends them again until another completion schedules the work item.
* Completions and volume updates find their side by an endpoint index. On a headset without a speaker whose
  microphone is endpoint zero both indices are zero (`HeadsetEndpoints.SeparateIff`), every completion
  signals the speaker and a microphone stop never returns (`StreamStatus.MicrophoneOnlyHangs`).
* Filter names are meant to be unique and are made from a 32-bit hash of the link. Two links may share one, and
  then stopping one device removes the other's filters (`FilterCleanup.NamesCollide`). What is left at the end of a
  run does not depend on it (`FilterCleanup.FiltersRestored`).
* A 24-bit frame with several channels is written only in its first three bytes
  (`ToneStream.FrameIndependentIff`), so the theorems about the stream's bytes are for the other formats.
* `InstallEndpointFilters` forgets the status of the topology filter and, when it connects, that of caching the
  wave filter (`SubdeviceCache.TopologyMissingIff`, `SubdeviceCache.TopologyMissing`,
  `SubdeviceCache.WaveUncachedIff`, `SubdeviceCache.WaveUncached`).
* `DisconnectTopologies` says it returns the first error and returns the last row's status
  (`Connections.StatusIsFirstErrorIff`, `Connections.ErrorForgotten`).

## Model

| member | source | states |
|---|---|---|
| `SidebandTheorems.ReferenceCounts` | inferno_driver/common.cpp:2882-3213 | In every interleaving a device's reference count is the number of places holding it (list, queued tasks, worker, callback, cleanup); it is deleted at most once, and exactly when no place holds it. |
| `SidebandTheorems.NoUseAfterFree` | inferno_driver/common.cpp:2882-3213 | No step of any thread touches a device that does not exist or has been deleted: neither the one it works on, nor any entry a list walk reads or a relinking writes. |
| `SidebandTheorems.LastReference` | inferno_driver/common.cpp:3178-3442 | The reference a removal drops is never the last one, and the one cleanup drops always is, and deletes the device then and only then. |
| `SidebandTheorems.LegalStates` | inferno_driver/BthhfpDevice.cpp:3208-3215 | Start finds the device running; Stop, by task or by cleanup, finds it running or failed. |
| `SidebandTheorems.StatesAfter` | inferno_driver/BthhfpDevice.cpp:3000-3270 | A start that succeeds leaves its device running, one that fails leaves it failed, and a stop leaves it stopping and then stopped; no other step but `Init` changes a device's state. |
| `SidebandTheorems.CompleteRun` | inferno_driver/common.cpp:3382-3447 | Whatever is ever listed has, when cleanup ends, been started exactly once and afterwards stopped exactly once, and no device object is left undeleted. |
| `SidebandTheorems.CompleteState` | inferno_driver/common.cpp:3405-3447 | At the end of cleanup all that was committed to has been executed, and every started device is stopped and gone. |
| `SidebandTheorems.ScriptGrows` | inferno_driver/common.cpp:2890-2897 | Tasks are never reordered or withdrawn: the script of any state is a prefix of the script of every later one. |
| `SidebandTheorems.StopBeforeRestart` | inferno_driver/common.cpp:3079-3097 | Of two devices with the same link the earlier is stopped before the later is started. |
| `SidebandTheorems.NoLostWakeup` | inferno_driver/common.cpp:3405-3421 | A queued task always has a wake-up coming or a worker that has yet to see the queue empty, so after unregister and flush the queue is empty, as cleanup asserts. |
| `SidebandTheorems.CleanupNeverStuck` | inferno_driver/common.cpp:3382-3447 | Until cleanup is done some step is enabled. |
| `SidebandTheorems.CleanupTerminates` | inferno_driver/common.cpp:3382-3447 | After unregistering, every schedule ends within a bound fixed by the state. |
| `SidebandTheorems.OnePerLink` | inferno_driver/common.cpp:3029-3097 | The device list has at most one entry per symbolic link in every reachable state. |
| `SidebandTheorems.RefinesMap` | inferno_driver/common.cpp:2969-3210 | The list refines a map from link to device: a committed arrival inserts an absent link, a committed removal or a cleanup pop deletes a present one, and duplicates, unknown links and refused allocations change nothing. |
| `SidebandTheorems.DestructorAssertionIff` | inferno_driver/BthhfpDevice.cpp:530 | The destructor's assertion holds of every deleted device if and only if no arrival was refused its work task. |
| `SidebandTheorems.DestructorAssertionFails` | inferno_driver/common.cpp:3063-3110 | A run of five steps in which a running device is deleted. |
| `SidebandInvariant.InvStep` | inferno_driver/common.cpp:2882-3447 | Every step of every thread keeps the global invariant: exact counts, a legal script, an exact list, legal callback, phase and device states. |
| `SidebandInvariant.InvRun` | inferno_driver/common.cpp:2882-3447 | The invariant holds in every state of every run. |
| `SidebandAdapter.Adapter.DeviceFind` | inferno_driver/common.cpp:2941-2990 | The list walk finds the first device of that link, if there is one. |
| `SidebandAdapter.Adapter.InterfaceArrival` | inferno_driver/common.cpp:2995-3111 | With the worker stepping in at every point, an arrival inserts its link and commits to exactly one start, or changes nothing and commits to nothing. |
| `SidebandAdapter.Adapter.InterfaceRemoval` | inferno_driver/common.cpp:3118-3210 | With the worker stepping in at every point, a removal deletes its link and commits to exactly one stop of its device, or changes nothing and commits to nothing. |
| `SidebandAdapter.Adapter.WorkItem` | inferno_driver/common.cpp:2882-2936 | With callbacks adding work meanwhile, the drain returns with an empty queue and everything committed executed in order. |
| `SidebandAdapter.Adapter.WorkItemFlush` | inferno_driver/common.cpp:3414-3421 | The wait ends, with the worker asleep, nothing scheduled and the queue empty. |
| `SidebandAdapter.Adapter.CleanupAll` | inferno_driver/common.cpp:3382-3447 | Every device listed beforehand has been started once and stopped once, and every device object is deleted exactly once. |
| `NotificationTheorems.OnePlace` | inferno_driver/UsbHsDevice.cpp:1981-2201 | A request is always in exactly one place: not yet sent, with the target, queued, in the work item's hands, or retired. |
| `NotificationTheorems.ErrorsAreFailures` | inferno_driver/UsbHsDevice.cpp:2173-2186 | The count in a request's context is the number of failed completions the run shows since the last success. |
| `NotificationTheorems.Budget` | inferno_driver/UsbHsDevice.cpp:42 | Between successes a request is sent at most six times and fails at most six times; in circulation it has failed at most five times. |
| `NotificationTheorems.CompletionVerdict` | inferno_driver/UsbHsDevice.cpp:2164-2201 | A completion retires its request for good exactly when it is a cancellation, the sixth failure in a row, or refused by the collection; otherwise it queues the request and schedules the work item. |
| `NotificationTheorems.RetiredForever` | inferno_driver/UsbHsDevice.cpp:2164-2180 | A retired request is never sent, queued or taken again. |
| `NotificationTheorems.NoticedOnce` | inferno_driver/UsbHsDevice.cpp:2001-2017 | Every successful completion handed to the work item leads to exactly one handling of it as a success, unless it still waits; a failure never does. |
| `NotificationTheorems.Progress` | inferno_driver/UsbHsDevice.cpp:1981-2201 | Every step uses up the measure, except that a success refills its request's budget. |
| `NotificationTheorems.Terminates` | inferno_driver/UsbHsDevice.cpp:2168-2186 | A run over n requests has at most 27 n + 3 steps, and 30 more per success, so against an always-failing target the loop ends. |
| `NotificationTheorems.StopIsFinal` | inferno_driver/UsbHsDevice.cpp:4874-4886 | After Stop nothing is outstanding and no later step sends, completes or takes a request, whatever was left in the collection. |
| `NotificationTheorems.StopTerminates` | inferno_driver/UsbHsDevice.cpp:4874-4886 | Once the purge has begun every schedule ends within a bound fixed by the state, whatever the outcomes. |
| `NotificationTheorems.StopNeverStuck` | inferno_driver/UsbHsDevice.cpp:4874-4886 | While stopping, a step it waits for is enabled. |
| `NotificationTheorems.StrandedIff` | inferno_driver/UsbHsDevice.cpp:2103-2135 | Requests wait with nobody to look at them exactly when a re-send failed while others were queued and no completion has scheduled the work item since. |
| `NotificationTheorems.LeftBehindIff` | inferno_driver/UsbHsDevice.cpp:2103-2135 | After Stop the collection is empty if and only if no such failure went unrescued. |
| `NotificationTheorems.StrandedHappens` | inferno_driver/UsbHsDevice.cpp:2117-2135 | A run of two requests that strands the second. |
| `NotificationTheorems.LeftBehindHappens` | inferno_driver/UsbHsDevice.cpp:4874-4886 | That run stopped, with the request still in the collection. |
| `NotificationRequests.InvStep` | inferno_driver/UsbHsDevice.cpp:1981-2201 | Every step keeps each request in one place, within its budget, and the promises of stopping. |
| `NotificationHeadset.Headset.NotificationCompletion` | inferno_driver/UsbHsDevice.cpp:2142-2201 | From any reachable state, whichever branch is taken, the request ends in exactly the place and with exactly the count the step system gives it, and the state is reachable again. |
| `NotificationHeadset.Headset.WorkItem` | inferno_driver/UsbHsDevice.cpp:1981-2136 | With other threads stepping in, requests are taken once each in the order they were queued, and the handler is called for exactly those whose completion was successful; a drained work item leaves the collection empty, one that gives up has taken at least one request and retired the last. |
| `NotificationHeadset.Headset.Stop` | inferno_driver/UsbHsDevice.cpp:4857-4886 | Returns, whatever the other threads do, with nothing outstanding, nothing scheduled and the work item asleep. |
| `HeadsetEndpoints.Enumerate` | inferno_driver/UsbHsDevice.cpp:4322-4356 | The walk accepts exactly the readable lists in which no two endpoints are of the same side, and then each index is that of its side's endpoint, or still zero if there is none. |
| `HeadsetEndpoints.MicrophoneIndexIff` | inferno_driver/UsbHsDevice.cpp:4331-4343 | With a microphone the two indices coincide if and only if there is no speaker and the microphone is the first endpoint. |
| `HeadsetEndpoints.SpeakerIndexIff` | inferno_driver/UsbHsDevice.cpp:4331-4343 | With a speaker they coincide if and only if there is no microphone and the speaker is the first endpoint. |
| `HeadsetEndpoints.SeparateIsRouted` | inferno_driver/UsbHsDevice.cpp:3871-3890 | A headset's sides are told apart exactly when the index comparisons lead each completion for a side it has to that side. |
| `HeadsetEndpoints.SeparateIff` | inferno_driver/UsbHsDevice.cpp:4322-4344 | On every accepted headset a completion for a side it has finds that side if and only if the headset has a speaker, or no microphone, or its first endpoint is not the microphone. |
| `StreamStatus.MirrorRun` | inferno_driver/UsbHsDevice.cpp:3861-3890 | If the sides the headset has are told apart, in every state of every run each event is signalled exactly while its request is not outstanding, but for the moment between clearing it and sending. |
| `StreamStatus.MirrorIff` | inferno_driver/UsbHsDevice.cpp:3871-3890 | The events mirror the requests in all runs of a headset, opening only sides it has, if and only if it has no microphone or the indices differ. |
| `StreamStatus.HeadsetMirrorsIff` | inferno_driver/UsbHsDevice.cpp:4322-4344 | On every accepted headset the events mirror the requests in all runs if and only if it has a speaker, or no microphone, or its first endpoint is not the microphone. |
| `StreamStatus.StatusStored` | inferno_driver/UsbHsDevice.cpp:1185-1207 | The status stored for an open side is what its own last completion since the open reported, success if there is none; after a close or a refused open it is invalid device state, whatever completions came before. |
| `StreamStatus.StreamOkIff` | inferno_driver/UsbHsDevice.cpp:1148-1162 | A side's stream is reported to be fine exactly while it was never used, or is open with no error since it was opened. |
| `StreamStatus.OpenSideFineIff` | inferno_driver/UsbHsDevice.cpp:3861-3890 | An open side is reported to be fine if and only if its last completion since the open, if there is one, came without an error of the request and with a status of at least zero. |
| `StreamStatus.RequestIsOurs` | inferno_driver/UsbHsDevice.cpp:4022-4038 | On a headset whose sides are told apart a request is sent, and made ready to be sent again, whether that works or not, only while the target does not have it. |
| `StreamStatus.StopReturns` | inferno_driver/UsbHsDevice.cpp:4019-4020 | On such a headset a waiting stop can return, or the completion it waits for is still to come and lets it. |
| `StreamStatus.EqualIndicesHang` | inferno_driver/UsbHsDevice.cpp:4063-4064 | With equal indices the wait of a microphone stop never ends, in any run. |
| `StreamStatus.MicrophoneOnlyHangs` | inferno_driver/UsbHsDevice.cpp:4322-4344 | The headset whose only endpoint is a microphone: both indices are zero, a run leaves a stop waiting for a request that is done, and no run lets it return. |
| `StreamStatus.StatusNotifications.Completion` | inferno_driver/UsbHsDevice.cpp:3829-3890 | Is the completion step of the model: stores the device's status, or an error if the request itself failed, signals the event of the side whose request completed, and touches nothing of the other side. |
| `StreamStatus.StatusNotifications.EnableNotification` | inferno_driver/UsbHsDevice.cpp:3912-3934 | A successful send leaves the event clear and the request outstanding; a failed one leaves everything as it was. |
| `StreamStatus.StatusNotifications.StopNotification` | inferno_driver/UsbHsDevice.cpp:4002-4041 | The wait ends whatever the other side does, with the event signalled and the request back, ready to be sent again if the reuse worked; cancel, the steps of the others, wait and reuse are enabled steps of the model in that order. |
| `StreamStatus.StatusNotifications.StreamOpen` | inferno_driver/UsbHsDevice.cpp:1180-1207 | The first open is a refusal, or a clear and a send, of the model; it ends with the request outstanding, the event clear and the status success, exactly if the device grants it, the send works and the last reuse did; otherwise only the status changes, to invalid device state. |
| `StreamStatus.StatusNotifications.StreamClose` | inferno_driver/UsbHsDevice.cpp:1490-1497 | The last close waits for the request and leaves the status invalid device state. |
| `StreamStatus.StatusNotifications.GetStreamStatus` | inferno_driver/UsbHsDevice.cpp:1148-1162 | Answers for the side asked whether its stored status is a success. |
| `StreamCounters.Balanced` | inferno_driver/UsbHsDevice.cpp:1167-1500 | Over every serialised run: opens granted less closes issued, and status requests enabled less those stopped, are one if a stream is open and zero otherwise, likewise starts and suspends, and never out of that range in between; the bundle is held exactly while started. |
| `StreamCounters.StartsIdentified` | inferno_driver/UsbHsDevice.cpp:1299-1304 | In no run is the device started but right after it accepted a resource id for its endpoint and, with feedback, one for the feedback endpoint. |
| `StreamCounters.CountersAreOwed` | inferno_driver/UsbHsDevice.cpp:1176-1210 | The counters are what callers were granted and have not given back. |
| `StreamCounters.RefusalRestores` | inferno_driver/UsbHsDevice.cpp:1192-1207 | A refused open or start leaves counters and bundle as before, and undoes what it asked of the device. |
| `StreamCounters.OpenLoggedIff` | inferno_driver/UsbHsDevice.cpp:1178-1210 | The device is logged as opened exactly when it grants the request of a first opener, the status request exactly when it is enabled then, and a close exactly when that failed or the last stream is closed. |
| `StreamCounters.StartLoggedIff` | inferno_driver/UsbHsDevice.cpp:1285-1333 | A resource id is logged exactly when the device takes it from a first starter, a start exactly when every id owed was taken and the device grants it, and a suspend exactly when a resource could not be fetched then or the last stream is suspended. |
| `StreamCounters.Endpoint.GetSiop` | inferno_driver/UsbHsDevice.cpp:2559-2690 | Fills its slot with one block, or on any failure leaves the slot null and no block allocated. |
| `StreamCounters.Endpoint.GetTransportResources` | inferno_driver/UsbHsDevice.cpp:2704-2781 | Succeeds exactly when every fetch does and then holds the whole bundle, seven blocks with feedback and four without; otherwise it holds nothing and no block leaks. |
| `StreamCounters.Endpoint.FreeTransportResources` | inferno_driver/UsbHsDevice.cpp:2539-2555 | Frees exactly the blocks held and nulls every pointer. |
| `StreamCounters.Endpoint.SetTransportResources` | inferno_driver/UsbHsDevice.cpp:2786-2854 | The device is sent the ids it is owed, in order, up to the first it refuses, a feedback id only with feedback; success means that it accepted every one of them. |
| `StreamCounters.Endpoint.StreamOpen` | inferno_driver/UsbHsDevice.cpp:1167-1211 | Keeps the device's opens and closes paired; is refused exactly to a first opener whose device or status request fails, and then the counter is back and the open undone. |
| `StreamCounters.Endpoint.StreamStart` | inferno_driver/UsbHsDevice.cpp:1285-1333 | Keeps starts and suspends paired; is refused exactly to a first starter for whom any request or fetch fails; while started every pointer of the bundle owns one block and no other block exists. |
| `StreamCounters.Endpoint.StreamSuspend` | inferno_driver/UsbHsDevice.cpp:1411-1430 | Only the last suspend reaches the device, and it gives the whole bundle back. |
| `StreamCounters.Endpoint.StreamClose` | inferno_driver/UsbHsDevice.cpp:1479-1500 | Only the last close reaches the device; it also ends the status request, which is thus enabled and stopped in turn. |
| `Volume.HandlerCalls` | inferno_driver/UsbHsDevice.cpp:2020-2055 | Over any sequence of updates and reads a side's handler is called exactly once per notified value that differs from the side's level at that moment; reads call nobody. |
| `Volume.LevelIsLastSet` | inferno_driver/UsbHsDevice.cpp:931-950 | A side's level is the value it was last set to, by an update for it or by a read that succeeded. |
| `Volume.SidesIndependentIff` | inferno_driver/UsbHsDevice.cpp:2028-2052 | Updates and reads of a side the headset has never alter the other side's level or call its handler, for all sequences, if and only if the headset's sides are told apart. |
| `Volume.HeadsetSidesIff` | inferno_driver/UsbHsDevice.cpp:4322-4344 | On every accepted headset that holds if and only if it has a speaker, or no microphone, or its first endpoint is not the microphone. |
| `Volume.MicrophoneOnlySilence` | inferno_driver/UsbHsDevice.cpp:2027-2052 | On the headset that is a microphone only, no sequence of updates and reads ever calls the microphone's handler. |
| `Volume.Levels.HandleUpdate` | inferno_driver/UsbHsDevice.cpp:2020-2055 | Exchange and comparison together are one update of the model: the level becomes the value, and the handler is called if there is one and the value is new. |
| `Volume.Levels.GetVolume` | inferno_driver/UsbHsDevice.cpp:916-958 | A read that succeeds returns and stores the device's value without a call; one that fails changes nothing. |
| `ToneStream.ChunkIndependence` | inferno_driver/ToneGenerator.cpp:143-219 | If no sounding buffer is shorter than the residual, the concatenated output is the prefix of the unchunked stream, the residual is the negated total modulo the frame size, and the frames generated are the total over the frame size rounded up. |
| `ToneStream.ChunksAreTheStream` | inferno_driver/ToneGenerator.cpp:174-211 | From any position, however the bytes are chunked and whatever silent calls come between, the output is the next stretch of the stream. |
| `ToneStream.ShortCallsCutResiduals` | inferno_driver/ToneGenerator.cpp:174-211 | Whatever the calls, short ones included, the output is the stretch of the stream they move over with exactly the dropped residuals cut out. |
| `ToneStream.ChunkingsAgree` | inferno_driver/ToneGenerator.cpp:174-211 | Two ways of cutting the same number of bytes deliver the same bytes and leave the generator in the same place. |
| `ToneStream.OffsetIff` | inferno_driver/ToneGenerator.cpp:174-184 | The stream position advances by exactly the bytes asked for if and only if no buffer was shorter than the residual. |
| `ToneStream.OffsetExact` | inferno_driver/ToneGenerator.cpp:174-184 | Whatever the calls, the position advances by the bytes delivered plus the residuals dropped by short buffers. |
| `ToneStream.AfterAdvances` | inferno_driver/ToneGenerator.cpp:157-211 | A call advances the position by its length, by the whole residual if it is short, and not at all if it is silent. |
| `ToneStream.FrameIndependentIff` | inferno_driver/ToneGenerator.cpp:100-124 | A frame's bytes depend on the phase alone exactly for mono or for 8, 16 and 32 bits. |
| `ToneStream.FrameAt` | inferno_driver/ToneGenerator.cpp:100-124 | Byte `j` of channel `c` of a frame is byte `j` of the sample of the phase, for every channel, with 8, 16 and 32 bits and with 24 bits mono. |
| `ToneStream.PackedFrameAt` | inferno_driver/ToneGenerator.cpp:113-119 | With 24 bits the first three bytes of a frame are the sample and the rest is what was there. |
| `ToneStream.FramesAt` | inferno_driver/ToneGenerator.cpp:85-131 | Every byte of the stream, told by its index: its frame's number fixes the phase, its place in the frame the byte of the sample. |
| `ToneStream.DeliveredAt` | inferno_driver/ToneGenerator.cpp:143-219 | Byte `i` of what a call delivers is the byte of the stream `i` past the position, told by that index alone. |
| `ToneStream.PhaseInvariantIff` | inferno_driver/ToneGenerator.cpp:126-130 | The single conditional subtraction keeps every phase in the circle, from every starting phase, if and only if the increment is between zero and a full turn. |
| `ToneStream.IncrementIff` | inferno_driver/ToneGenerator.cpp:262 | Increment times sample rate is frequency times a full turn, so the increment is at most a full turn exactly when the frequency is at most the sample rate. |
| `ToneStream.PhaseIsModular` | inferno_driver/ToneGenerator.cpp:126-130 | After k frames the phase is the start plus k increments, less a whole number of turns, and in the circle. |
| `ToneStream.PhaseAfterCalls` | inferno_driver/ToneGenerator.cpp:126-210 | After any calls none of which is short the phase is the start plus one increment per frame of their total, rounded up, less a whole number of turns, and in the circle. |
| `ToneGenerator.Generator.InitNewFrame` | inferno_driver/ToneGenerator.cpp:85-131 | Writes the sample of the phase to every channel, or with 24 bits to the first three bytes, and advances the phase; a wrong size is zeroed and leaves the phase. |
| `ToneGenerator.Generator.GenerateSine` | inferno_driver/ToneGenerator.cpp:143-219 | Delivers the next bytes of the stream, each the byte of the sample that its index fixes, and moves on by the model's call; when muted, disabled or unable to save the floating-point state every byte is zero and nothing moves. |
| `SubdeviceCache.Cache.GetCachedSubdevice` | inferno_driver/common.cpp:2171-2207 | Finds the first record of that name and takes one reference to each of its two objects; takes none if there is no such record. |
| `SubdeviceCache.Cache.CacheSubdevice` | inferno_driver/common.cpp:2215-2267 | Adds one record with one reference per interface it stores, exactly if memory is granted and the name fits 259 characters. |
| `SubdeviceCache.Cache.RemoveCachedSubdevice` | inferno_driver/common.cpp:2275-2307 | Removes the record and exactly the references it owned. |
| `SubdeviceCache.Cache.EmptySubdeviceCache` | inferno_driver/common.cpp:2311-2328 | Empties the cache and drops every reference it owned, no other. |
| `SubdeviceCache.Cache.InstallEndpointFilters` | inferno_driver/common.cpp:2503-2668 | On every path the references left over are one per filled out-parameter; on success each out-parameter asked for is the port or the miniport of its own filter's record and the new ports are registered, on failure cache and ports are exactly what they were; the connections are what connecting and rolling back leave. |
| `SubdeviceCache.Cache.RemoveEndpointFilters` | inferno_driver/common.cpp:2674-2721 | Unregisters the endpoint's connections and removes both names from the cache with the references their records owned. |
| `SubdeviceCache.SucceedsIff` | inferno_driver/common.cpp:2546-2617 | When an installation succeeds, told by the names cached before and what each filter's installation gives. |
| `SubdeviceCache.FilledIff` | inferno_driver/common.cpp:2634-2644 | On success an out-parameter is filled exactly if it was asked for and its filter was to be had. |
| `SubdeviceCache.FilledWith` | inferno_driver/common.cpp:2634-2644 | It is filled with the port or the miniport, as asked, of the record of its filter's name, or of the two objects made for the filter if it has no record. |
| `SubdeviceCache.ConnectedRows` | inferno_driver/common.cpp:2605-2617 | A successful installation connects the topology filter it obtained to the wave filter it obtained, each row from output pin to input pin. |
| `SubdeviceCache.InstallRemoveIff` | inferno_driver/common.cpp:2503-2721 | An installation followed by a removal is the identity on the cache if and only if neither name was cached before. |
| `SubdeviceCache.RollbackRestores` | inferno_driver/common.cpp:2648-2661 | The rollback restores the cache for every combination of found, installed, cached and equal names. |
| `SubdeviceCache.ConnectionsRestoredIff` | inferno_driver/common.cpp:2605-2617 | A failed attempt to connect leaves the connections as they were if and only if no row from the failing one on was registered before. |
| `SubdeviceCache.AlwaysRestoredIff` | inferno_driver/common.cpp:2605-2617 | They are left as they were whichever registration fails if and only if no row of the table was registered before. |
| `SubdeviceCache.NewFilterRestores` | inferno_driver/common.cpp:2605-2617 | If either filter was not cached before, a failed installation always restores the connections. |
| `SubdeviceCache.ReinstallDisconnects` | inferno_driver/common.cpp:2605-2617 | A well-formed cache with two filters that were installed and connected: installed again, the first registration refused, the installation fails and they end up disconnected. |
| `SubdeviceCache.TopologyMissingIff` | inferno_driver/common.cpp:2546-2575 | Success without a topology filter: exactly when it could not be had and the wave filter could and is cached. |
| `SubdeviceCache.TopologyMissing` | inferno_driver/common.cpp:2546-2575 | Such an installation on the empty cache: success, and a wave filter only. |
| `SubdeviceCache.WaveUncachedIff` | inferno_driver/common.cpp:2599-2617 | Success that leaves the wave filter out of the cache: exactly when its record could not be made but the connections were. |
| `SubdeviceCache.WaveUncached` | inferno_driver/common.cpp:2599-2617 | Such an installation on the empty cache: success, and the wave filter's name is not cached. |
| `FilterLifetimes.InstalledRemovedIff` | inferno_driver/common.cpp:2503-2721 | An installation that succeeded followed by a removal gives back cache, ports, connections and what the device holds, all together, if and only if neither name was cached before. |
| `FilterLifetimes.StartInstalls` | inferno_driver/BthhfpDevice.cpp:2918-2945 | A start that gets so far leaves both sides' filters all there - held, cached under their names, their ports registered, every row connected - if they install, can be cached, have all rows granted and their names are free. |
| `FilterLifetimes.SpeakerFirst` | inferno_driver/BthhfpDevice.cpp:2918-2945 | The microphone's filters are installed only after the speaker's; where the speaker's fail the cache, the ports and what is held stay as they were. |
| `FilterLifetimes.RunningAreInstalled` | inferno_driver/BthhfpDevice.cpp:2918-2945 | In every interleaving of the life cycle, with different names for different links, every device that is started and not stopped has both sides' filters all there, if its start got so far and they work. |
| `FilterLifetimes.InstalledAreRunning` | inferno_driver/BthhfpDevice.cpp:2918-2945 | And what is installed is at every moment only theirs: the cache, the ports and the connections are what there was to begin with and, beside it, exactly the filters held by devices that are started and not stopped. |
| `FilterCleanup.FiltersRestored` | inferno_driver/BthhfpDevice.cpp:3227-3265 | In every run that has ended in a finished cleanup, whatever installations failed and even if devices share names, the cache, the registered ports and the connections are what they were, and no device holds a reference to a filter. |
| `FilterCleanup.HoldersRunning` | inferno_driver/BthhfpDevice.cpp:3227-3265 | At every moment of every run a device that holds a filter has been started and not stopped. |
| `FilterCleanup.NamesCollide` | inferno_driver/BthhfpDevice.cpp:3275-3320 | Two devices of different links with the same names: stopping the first leaves the second, still running, with two filters that are not registered. |
| `DeviceFilters.Device.Start` | inferno_driver/BthhfpDevice.cpp:2918-2945 | Whatever fails, cache, ports, connections and the four interface pointers are what the run theorems say a start does, both sides' filters being all there if they work and their names are free, and each pointer has its one reference. |
| `DeviceFilters.Device.Stop` | inferno_driver/BthhfpDevice.cpp:3227-3265 | The same for a stop: whatever was installed is removed, the pointers are null, and nobody else's references change. |
| `Connections.Device.ConnectTopologies` | inferno_driver/common.cpp:1991-2073 | Success registers every row, a topology output from the topology filter's pin to the wave filter's and a wave output the other way; failure at any row leaves what was registered before, given that none of the rows was. |
| `Connections.RollbackIff` | inferno_driver/common.cpp:2065-2070 | A failure at row k restores what was registered before if and only if no row from k on was already registered. |
| `Connections.Device.DisconnectTopologies` | inferno_driver/common.cpp:2078-2165 | Every row, pin by pin as it was registered, is unregistered once whatever became of the others; the status returned is the last row's. |
| `Connections.StatusIsFirstErrorIff` | inferno_driver/common.cpp:2152-2156 | The status returned is the first error, as the comment has it, if and only if every row before the last is registered. |
| `Connections.StatusTellsErrorIff` | inferno_driver/common.cpp:2152-2156 | It tells whether there was an error at all if and only if every row is registered or the last one gives an error. |
| `Connections.NoErrorIff` | inferno_driver/common.cpp:2115-2157 | No row gives an error exactly when every row is registered, as often as it occurs. |
| `Connections.ErrorForgotten` | inferno_driver/common.cpp:2152-2156 | Two rows, only the second registered: the first gives an error and success is returned. |
| `Connections.UnregisteredIs` | inferno_driver/common.cpp:2115-2157 | Unregistering the rows one by one, some of them absent, is the multiset difference. |
| `PowerRelations.ReferencesAreEntries` | inferno_driver/common.cpp:3990-4048 | Over all runs of additions, removals and queries the references the adapter itself owns on a device object are its entries in the list. |
| `PowerRelations.StepReferences` | inferno_driver/common.cpp:2440-2485 | A query answered references each object once for each of the adapter's entries; one refused memory drops one reference of each object for each of its prior entries; an addition takes one and a removal drops one for each entry. |
| `PowerRelations.WithoutJoin` | inferno_driver/common.cpp:4036-4048 | A removal takes out the entries of its object and leaves the others where they are, in order. |
| `PowerRelations.Adapter.UpdatePowerRelations` | inferno_driver/common.cpp:2374-2494 | The answer is the prior entries followed by the adapter's in order, in a block they fill exactly, each of the adapter's referenced once; without memory the prior references are dropped; with an empty list the answer is left alone. |
| `PowerRelations.Adapter.RemoveDeviceAsPowerDependency` | inferno_driver/common.cpp:4026-4055 | Every entry for the object goes, with one reference each, and the rest keep their order. |
| `PowerRelations.Adapter.AddDeviceAsPowerDependency` | inferno_driver/common.cpp:3990-4020 | One more entry with one reference, or nothing if memory is refused. |
| `PowerRelations.Adapter.AppendOwn` | inferno_driver/common.cpp:2445-2463 | Each write is within the block, and the entries end as they were followed by the adapter's list. |
| `RegistryMerge.Registry.CopyRegistryKey` | inferno_driver/common.cpp:4861-4993 | It succeeds if and only if no call it makes fails at any depth; a successful copy is the merge of the source tree into the destination at all depths; a failed one changes nothing outside the destination; without overwrite the destination's own values never change. |
| `RegistryMerge.Registry.CopyRegistryValues` | inferno_driver/common.cpp:4765-4850 | It succeeds if and only if no call it makes fails, and then writes every source value over the destination's and keeps the others. |
| `RegistryMerge.NameAt` | inferno_driver/common.cpp:4902-4921 | A name is read at its index unless its call, or the larger buffer it needs, fails: one that does not fit costs one allocation more and is read again at the same index; the end is always found. |
| `RegistryMerge.MergeMeaning` | inferno_driver/common.cpp:4861-4993 | Path by path: first-level values stay, source values win below, and what the source lacks stays. |
| `RegistryMerge.Idempotent` | inferno_driver/common.cpp:4861-4993 | Merging the same tree again changes nothing. |
| `RegistryMerge.SourceUntouched` | inferno_driver/common.cpp:4861-4993 | A merge into a disjoint tree changes neither the source nor anything else outside the destination. |
| `Minipair.Device.CreateCustomEndpointMinipair` | inferno_driver/A2dpHpDevice.cpp:3689-3819 | Succeeds exactly when all five blocks are granted, exactly one pin is not audio and at most one is; then the properties are base, friendly name, custom, only that pin's category differs and the base is untouched; on failure every block is freed and nothing is returned. |
| `Minipair.Device.UpdateCustomEndpointCategory` | inferno_driver/A2dpHpDevice.cpp:3824-3872 | Succeeds exactly for one or two pins of which exactly one is not of the audio category, and changes only that pin's category. |
| `Minipair.Device.TopoPropertiesOf` | inferno_driver/A2dpHpDevice.cpp:3731-3753 | The property list is the base's, the friendly name, then the custom ones in order. |
| `Minipair.PinsCounted` | inferno_driver/A2dpHpDevice.cpp:3838-3871 | Acceptable pins come only in ones and twos. |

## Left out

- The USB and A2DP copies of the sideband life cycle, and the microphone's copy of the stream counters, which have the same shape as the ones modelled.
- External holders of device references, and concurrent callers of stream open and start: callers are serialised.
- A2DP stream start and suspend, where a failed start leaves the counter at one, and A2DP minipair deletion.
- Real rounding, sine values and sample conversion: a sample is any function from the phase to bytes of the right length.
- Thread scheduling below the level of a section: a lock's section, an interlocked exchange or a single reference-count operation is one step.
- 32-bit wrap-around of stream counters, device-relation counts and reference counts, none of which can be reached with the memory a machine has.
- The status notification of a request with an unknown control code, which the work item drops: requests carry one of the two codes they were made for.
- Capability blobs, name hashing, formats, and mute reads, which store nothing: the speaker's ask for its mute state, the microphone's call its volume getter.
- The status that unregistering a subdevice returns, which the code ignores; whether it works is a parameter.
- `FilterCleanup.FiltersRestored`: unregistering a port and disconnecting are taken to work, none of the devices' names is in the cache to begin with, and no other device's filters come or go during the run.
- `FilterLifetimes.InstalledAreRunning`: the names of different links are taken to be different, which the hash does not ensure.
- `RegistryMerge.Registry.CopyRegistryKey`: handles are paths of open keys, so null and stale handles are not modelled, nor is the freeing of names and handles on failure paths; names are compared as given, a buffer's size counts only the name, and memory for a name is granted.
- `SubdeviceCache.Cache.InstallEndpointFilters`: the stages inside installing a subdevice are one outcome, and unregistering a port does not itself drop connections.
- `HeadsetEndpoints.Enumerate`: what else starting a headset does with a descriptor, and the allocation of the device object, which is taken to be zeroed.
- Property handlers, topology tables, driver entry, the power framework, the GUI, pipes, scripts and the Rust crates: this model is about the order of events and the ownership of objects in the parts listed at the top.
