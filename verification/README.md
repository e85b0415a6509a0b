# WebSocket streaming for openDAQ: a verified model

The project models the parts of the openDAQ WebSocket streaming modules whose correctness depends on
more than one function, and proves what they keep over whole runs. `dafny verify dfyconfig.toml`
checks all of it.

## What is modelled

**The streaming client** (`Client*.dfy`, `DeviceMirror.dfy`). Every remote signal has an entry. The
client first subscribes a new signal to fetch its metadata, retries an unanswered fetch, publishes the
signal once its descriptor and its domain signal are known, defers it until then, and keeps the fetch
subscription for a while so that an application can take it over. One timer alternates between sweeping
and resubscribing. `ClientState` and `ClientEvents` hold the state and one transition per event;
`ClientHeap` holds the client as objects, `SignalEntry` and `WsStreaming`, whose methods update fields,
maps and each other's entries in place and are proved to perform those transitions. `ClientInvariant`
and `ClientSafety` prove one invariant for all transitions; the other `Client` modules prove what
follows from it for every run. Four of them say what every event does without naming its handler: which
domain metadata names (`ClientLookup`), which requests go out (`ClientWire`), what is passed up to
openDAQ (`ClientOutputs`), how a fetch proceeds and ends (`ClientFetch`). Others say what a sweep
announces and with which links (`ClientSweep`), what becomes of a held subscription (`ClientHold`), when
the timer stops (`ClientTimer`) and what metadata sets off (`ClientDiscovery`). `ClientService` carries
the invariant back to the objects. In the state an
entry is named by its place in an arena, which stands for the shared pointer: an entry erased from the
map keeps its place while another entry refers to it. Ledgers count the wire calls, the fetch attempts
and the acknowledgements of each entry; a list of notices records announcements and withdrawals.
`DeviceMirror` is the device that mirrors announcements and fails on a link to an unknown signal.

**Metadata** (`MetadataCodec.dfy`, `ClientMetadata.dfy`). The server's encoder and the client's decoder
of signal descriptors, what the metadata means, the exact sets of descriptors and of metadata that
survive the journey there and back, and what the client's metadata handler makes of them.

**The server** (`ServerRegistry.dfy`, `Listener.dfy`). The rescan that reconciles registered signals
with the component tree, domain signals first, and the exception that ends it early; and the listener
that turns dequeued packets into tasks for an executor that runs them in order.

**Connection strings** (`ConnectionString.dfy`). The two regular expressions with their greedy choices,
the effective port taken from the string or from the configuration's property for the scheme, and the
canonical string.

## Assumptions

- Handlers run one at a time on the I/O thread; application requests are posted to it. A run is a
  sequence of atomic events.
- Subscribing or unsubscribing a remote signal does not call back synchronously.
- An entry erased from the map receives no further events, even if another entry refers to it.
- The device's handlers are attached before the first announcement, and the device is not removed.
- Registering a signal with openDAQ throws only where the device finds no domain signal for a link.
- Metadata arrives as a record: the descriptor it translates to, if any, the table id, and the
  elements of "relatedSignals". A connection is the set of signals it knows with their metadata.
- A descriptor built without a rule has the explicit rule and one built without dimensions has an
  empty list of them; a rule parameter may be missing; descriptors are compared by value.
- The protocol's names of data types and rules are symbolic constants, different from each other. The
  ws-streaming library and the openDAQ core are not part of this model.
- Domain chains of server signals are acyclic, live signals have unique global ids, and the domain
  signal of a live signal is live.
- `.` in a regular expression matches anything but a line break, `^` and `$` match only at the ends.

## Where the code and its comments disagree

Two promises are made at the head of the sweep's loop (shared/libraries/websocket_streaming/src/ws_streaming.cpp:528-540).

The first is about deferral: a link to a domain signal is kept until a whole sweep interval has passed.
The counter behind it is reset when a signal is published but not when it is deferred, so a signal
that was deferred once, lost its metadata and is deferred again can lose its link in the very next
sweep. `ClientDeferral.DeferralCutShort` is such a run. `ClientSweep.LinkDroppedExactly` gives the exact
condition in every reachable state: a sweep announces a deferred signal without its link if and only if
the signal's counter is not zero and the signal does not wait, through deferred signals, on another one
whose counter is not zero and whose id the sweep reaches first.

The second is about held fetch subscriptions, which are to be there for an application to take over.
A hold does get its full period (`ClientHold.HeldForOneFullPeriod`), but a signal can be marked
subscribed by the remote while it is held. An application's subscribe is then refused, the hold is
released by a later sweep, and the signal stays marked subscribed with no subscription on the wire:
`ClientHold.SubscribeLost` is such a run, and `ClientHold.HeldSubscribeSurvives` shows that this happens
exactly when the signal was already marked.

A third promise is that an unanswered fetch is made three times before it is given up
(shared/libraries/websocket_streaming/src/ws_streaming.cpp:51-52 and 553-565). `ClientFetch.FetchGivenUpExactly` proves it
for every fetch under way. But metadata that arrives between a missed fetch and its retry calls the
retry off (shared/libraries/websocket_streaming/src/ws_streaming.cpp:594-596), and if the signal is only deferred then and
loses its descriptor again, the retry is not made up for: `ClientFetch.StrandedRetry` is such a run, with one
attempt of three, and `ClientFetch.StrandedExactly` gives the exact condition, that no retries are due
and no sweep is due that will schedule another signal's.

On the server a signal whose own domain link has not changed keeps its registration even when its
domain signal had to be registered anew, so the registration can be older than its domain's
(shared/libraries/websocket_streaming/src/ws_streaming_server.cpp:451-468):
`ServerRegistry.DomainRegisteredAnew` is such a run, `ServerRegistry.RegisteredAfterDomain` the exact
condition.

## Model

| member | source | states |
|---|---|---|
| ClientSafety.ReachableInv | shared/libraries/websocket_streaming/src/ws_streaming.cpp:382-895 | After any sequence of events from the initial state the invariant holds: ledgers balance, deferred signals wait on unpublished domains, the timer is armed while needed and never cancelled, and openDAQ, the device and the notices agree with the published entries. |
| ClientEvents.ReachesExactlyRun | shared/libraries/websocket_streaming/src/ws_streaming.cpp:368-380 | What a sequence of events leads to, one handler at a time, is exactly what running them in order computes. |
| ClientSafety.StepKeepsInv | shared/libraries/websocket_streaming/src/ws_streaming.cpp:382-895 | Each of the nine kinds of event keeps the invariant. |
| ClientSafety.SweepAllKeepsCore | shared/libraries/websocket_streaming/src/ws_streaming.cpp:526-565 | The sweep's loop keeps the invariant after every entry, although one entry can publish a whole group in the middle of the loop. |
| ClientSafety.MetadataKeepsCore | shared/libraries/websocket_streaming/src/ws_streaming.cpp:623-672 | Processing metadata keeps the invariant for every entry not currently being processed, through all nested discoveries. |
| ClientInvariant.PublishLeavesNobodyBehind | shared/libraries/websocket_streaming/src/ws_streaming.cpp:729-733 | After a publication no tracked signal is still deferred on any of the signals that were just published. |
| ClientInvariant.PublishKeepsCore | shared/libraries/websocket_streaming/src/ws_streaming.cpp:690-734 | A publication with all it sets off keeps the invariant. |
| ClientTheorems.LinkFollowsDomain | shared/libraries/websocket_streaming/src/ws_streaming.cpp:652-671 | In every run an announcement that carries a domain link comes after that domain's own announcement, with no withdrawal of it in between. |
| ClientTheorems.DeferredWaits | shared/libraries/websocket_streaming/src/ws_streaming.cpp:656-671 | In every reachable state an unpublished signal with a descriptor has a domain entry that is itself unpublished, and the sweep is armed. |
| ClientTheorems.AnnouncedAtMostOnce | shared/libraries/websocket_streaming/src/ws_streaming.cpp:700-715 | No entry is announced twice in its life. |
| ClientTheorems.MirrorAgreement | shared/libraries/websocket_streaming/src/ws_streaming.cpp:700-715 | The ids registered with openDAQ, the device's signals and the published tracked entries are the same set in every reachable state, and no announcement has ever failed at the device. |
| ClientTheorems.StandingLinksMirrored | shared/libraries/websocket_streaming/src/ws_streaming_device.cpp:126-177 | In every reachable state whose ids are without '#', the mirror of each announced and not withdrawn signal has as its domain exactly the id its announcement linked, and none if it had no link. |
| ClientTheorems.NoLostWakeup | shared/libraries/websocket_streaming/src/ws_streaming.cpp:509-517 | While any entry is held, fetching or deferred the sweep flag is set; the flag is set exactly while one wait is outstanding; no wait was ever cancelled by another. |
| ClientTheorems.EntryConsistent | shared/libraries/websocket_streaming/include/websocket_streaming/ws_streaming_remote_signal_entry.h:29-79 | For every entry of every run: subscribe and unsubscribe calls balance against fetch, takeovers and application requests; at most three fetch subscribes per availability, counted by the attempts, and exactly three, all unanswered, for an unannounced signal no longer fetched; held or subscribed implies published, published implies no fetch in progress; a remembered packet has the current descriptor. |
| ClientTheorems.AckedOnceMarked | shared/libraries/websocket_streaming/src/ws_streaming.cpp:877-881 | Between two unsubscribe acknowledgements of an entry it was marked subscribed again. |
| ClientOutputs.MetadataOutputs | shared/libraries/websocket_streaming/src/ws_streaming.cpp:623-688 | New metadata of a published signal is announced if and only if it can be understood: the signal's own descriptor event first, then exactly one for each other published signal that has it as domain in the state left behind, in key order, and nothing else. Metadata of a signal not published passes nothing up, whatever it leads to. |
| ClientOutputs.MetadataStored | shared/libraries/websocket_streaming/src/ws_streaming.cpp:631-651 | Metadata that is understood leaves its descriptor, the domain it names and no last packet in the entry; any other removes all three and does nothing else. |
| ClientOutputs.DataOutputs | shared/libraries/websocket_streaming/src/ws_streaming.cpp:801-860 | Data of a signal that is not marked is dropped. All other data is passed up, once, with the entry's descriptor and the sample count, and remembered: attached to nothing without a described domain, to the domain's last packet if the domain is not linear or that packet has the value, else to a new domain packet that comes first and is remembered. |
| ClientOutputs.AcksExactly | shared/libraries/websocket_streaming/src/ws_streaming.cpp:382-425 | Every event gives exactly one acknowledgement or none: subscribed when the peer confirms a published signal or a hold is taken over, unsubscribed when the peer ends a marked one. |
| ClientOutputs.AcksRun | shared/libraries/websocket_streaming/src/ws_streaming.cpp:608-621 | The acknowledgements along any run are those, in that order, and no other. |
| ClientOutputs.TakeoverOutputs | shared/libraries/websocket_streaming/src/ws_streaming.cpp:403-414 | An application's subscribe passes something up only if it takes over a hold: the acknowledgement first, then the events for the cached descriptor, the users' included. |
| ClientOutputs.SilentEvents | shared/libraries/websocket_streaming/src/ws_streaming.cpp:489-606 | The coming and going of signals, the application's unsubscribes, sweeps and retries pass nothing up. |
| ClientLookup.TimeFoundExactly | shared/libraries/websocket_streaming/src/ws_streaming.cpp:763-773 | The time reference is x if and only if the first element of type "time" with a string id names x and no type before it is other than a string; an error if and only if such a type comes first; none otherwise. |
| ClientLookup.DomainFoundExactly | shared/libraries/websocket_streaming/src/ws_streaming.cpp:747-799 | The table's signal is the domain whenever it is another one and tracked; otherwise the time reference is, if it is another signal and tracked, or hidden and known to the connection; an error counts only when the reference is asked for. |
| ClientWire.CallsExactly | shared/libraries/websocket_streaming/src/ws_streaming.cpp:382-606 | For each of the nine kinds of event, and every entry: a subscribe or unsubscribe request is sent, and the mark set or cleared, if and only if the stated condition on event and state holds. |
| ClientWire.RequestsCounted | shared/libraries/websocket_streaming/src/ws_streaming.cpp:382-606 | Along every run the requests sent for an entry are exactly as many as the events of the run that send one. |
| ClientWire.FiledExactly | shared/libraries/websocket_streaming/src/ws_streaming.cpp:468-507 | A signal is tracked from when it becomes available or is discovered until it becomes unavailable, always with one entry, which is new at the start. |
| ClientTheorems.SettledStaysUntouched | shared/libraries/websocket_streaming/src/ws_streaming.cpp:519-606 | Over any run whatever, a published entry without a fetch stays so, and exactly one unsubscribe is sent for each application request that arrives while the entry is tracked and marked: no sweep, retry or remote event ever sends one. |
| ClientTheorems.TakeoverSafety | shared/libraries/websocket_streaming/src/ws_streaming.cpp:403-414 | Taking over a held fetch sends nothing on the wire, acknowledges the subscription and replays the cached descriptor; over any run afterwards exactly one unsubscribe is sent for each request of the application while the entry is tracked and marked. |
| ClientTimer.TimerChainStops | shared/libraries/websocket_streaming/src/ws_streaming.cpp:519-606 | From every reachable state, if only the timer fires, the chain is over after at most eight firings, however many signals there are: nothing is armed, held or fetching, and every signal with a descriptor is published. |
| ClientTimer.SweepAdvances | shared/libraries/websocket_streaming/src/ws_streaming.cpp:519-582 | One sweep ends the chain, or lowers the greatest number of sweeps any entry still needs, or hands over to a resubscribe. |
| ClientTimer.ResubscribeRetries | shared/libraries/websocket_streaming/src/ws_streaming.cpp:592-601 | Resubscribing sends every due retry exactly once and leaves all other entries as they were. |
| ClientFetch.FetchGivenUpExactly | shared/libraries/websocket_streaming/src/ws_streaming.cpp:519-606 | From every reachable state, whatever happens to other signals, a fetch under way without an answer is still under way before a stated number of firings, at most six, and given up after them, three subscribes and three unsubscribes after the signal became available, and not taken up again. |
| ClientFetch.UnansweredFetch | shared/libraries/websocket_streaming/src/ws_streaming.cpp:489-565 | A signal that becomes available and never answers gets exactly three subscribes and three unsubscribes once the timer has fired six times, and no more. |
| ClientFetch.StrandedExactly | shared/libraries/websocket_streaming/src/ws_streaming.cpp:584-606 | If only the timer goes on, a signal that waits for its retry is fetched to the end if and only if retries are due, or a sweep is due and another signal has attempts left; otherwise it never changes again. |
| ClientFetch.StrandedRetry | shared/libraries/websocket_streaming/src/ws_streaming.cpp:592-601 | A run that leaves a signal with one attempt of three, waiting for a retry that never comes. |
| ClientCascade.PublishesExactlyTheWaiting | shared/libraries/websocket_streaming/src/ws_streaming.cpp:729-733 | A publication publishes exactly the signal itself and the entries whose domain links lead to it through deferred entries. |
| ClientCascade.PublishNotices | shared/libraries/websocket_streaming/src/ws_streaming.cpp:702-733 | The signal is announced first, and every other announcement of the cascade carries the link to its domain. |
| ClientCascade.DependentsInOrder | shared/libraries/websocket_streaming/src/ws_streaming.cpp:729-733 | Of two signals deferred on the published one, the one with the smaller id is announced first, whatever else the cascade announces in between. |
| ClientSweep.CycleBrokenOnce | shared/libraries/websocket_streaming/src/ws_streaming.cpp:539-546 | When the timer fires a sweep in a reachable state, a cycle of deferred signals is broken if and only if one of its members has been counted; then all are announced, exactly one of them without a link, namely the counted member that comes first, and every other with the link to the next; otherwise none is. |
| ClientSweep.SweepPublishesExactly | shared/libraries/websocket_streaming/src/ws_streaming.cpp:526-565 | A sweep in a reachable state publishes and announces exactly the deferred signals that have been counted by an earlier sweep or wait, through deferred signals, on one that has. |
| ClientSweep.LinkDroppedExactly | shared/libraries/websocket_streaming/src/ws_streaming.cpp:539-546 | A sweep in a reachable state announces a deferred signal without its link if and only if the signal has been counted and waits on no counted signal of smaller id; any other announcement carries the link to its domain, as does every one of a signal not yet counted. |
| ClientEvents.MetadataChanged | shared/libraries/websocket_streaming/src/ws_streaming.cpp:623-672 | Metadata handling terminates for every metadata graph, cyclic ones included; it forgets no entry, unpublishes none, and changes no descriptor of an entry it did not create except the one it is for. |
| ClientDiscovery.ChainPublishedBottomUp | shared/libraries/websocket_streaming/src/ws_streaming.cpp:747-799 | Metadata that leads to a chain of hidden signals whose metadata has arrived tracks them all and announces them from the far end up, each linked to the one before, then the signal itself if it had not been announced before. |
| ClientDiscovery.BlockedWaits | shared/libraries/websocket_streaming/src/ws_streaming.cpp:747-799 | If the chain ends at a tracked signal that has not been announced, or at one without usable metadata, all of it is tracked, each signal waits for the next, the sweep is armed and nothing is announced. |
| ClientDiscovery.AnnouncedExactlyWhenChained | shared/libraries/websocket_streaming/src/ws_streaming.cpp:623-672 | Metadata announces a waiting signal if and only if the chain of hidden signals it leads to ends without a domain or with an announced one; otherwise it announces nothing at all. |
| ClientDiscovery.HiddenCycleWaits | shared/libraries/websocket_streaming/src/ws_streaming.cpp:747-799 | Hidden signals whose metadata leads back to the signal they were found from are left waiting for each other in a cycle, which the sweep has to break. |
| ClientPackets.LinearDomainPackets | shared/libraries/websocket_streaming/src/ws_streaming.cpp:801-860 | In any run of data on signals that share a linear domain, the domain packets carry the received values with adjacent repeats removed, and every value packet is attached to a domain packet with its own value and the domain's descriptor. |
| ClientDeferral.DeferralCutShort | shared/libraries/websocket_streaming/src/ws_streaming.cpp:539-546 | A reachable state in which a signal is newly deferred and the next sweep already drops its link. |
| ClientHold.HeldForOneFullPeriod | shared/libraries/websocket_streaming/src/ws_streaming.cpp:528-537 | A hold whose counter is zero survives the next sweep of the run, and the one after releases it with one unsubscribe. |
| ClientHold.HoldBegins | shared/libraries/websocket_streaming/src/ws_streaming.cpp:719-727 | A hold begins only when publication finds a fetch under way, without a request, and with its counter at zero, or at one if the publishing sweep itself counted it. |
| ClientHold.SweepSpares | shared/libraries/websocket_streaming/src/ws_streaming.cpp:526-551 | A sweep leaves alone every signal that is announced and not held and every one that has no descriptor and is not being fetched. |
| ClientHold.HeldSubscribeSurvives | shared/libraries/websocket_streaming/src/ws_streaming.cpp:382-425 | An application subscribe of a held signal survives any eight or more firings of the timer if and only if the signal was not yet marked subscribed; if it was, the request changes nothing, the hold is released with one unsubscribe, and the signal stays marked. |
| ClientHold.SubscribeLost | shared/libraries/websocket_streaming/src/ws_streaming.cpp:382-425 | A run in which the application's subscribe of a held signal is refused and the only wire subscription is then dropped. |
| ClientHeap.WsStreaming.SubscribeRemoteSignal | shared/libraries/websocket_streaming/src/ws_streaming.cpp:382-425 | On the objects, an application subscribe does what the transition does: refused, taken over, or sent. |
| ClientHeap.WsStreaming.UnsubscribeRemoteSignal | shared/libraries/websocket_streaming/src/ws_streaming.cpp:427-448 | On the objects, an application unsubscribe sends the request of a subscribed signal and changes nothing else. |
| ClientHeap.WsStreaming.CreateSignalEntry | shared/libraries/websocket_streaming/src/ws_streaming.cpp:468-487 | The entry filed under the id is returned, a new one only if there was none; no other entry is touched. |
| ClientHeap.WsStreaming.OnRemoteSignalAvailable | shared/libraries/websocket_streaming/src/ws_streaming.cpp:489-507 | On the objects, a fetch begins and the sweep is armed unless the entry is published, described or fetching. |
| ClientHeap.WsStreaming.ArmInitialFetchSweep | shared/libraries/websocket_streaming/src/ws_streaming.cpp:509-517 | The timer is set only if the flag is clear. |
| ClientHeap.WsStreaming.OnInitialFetchSweep | shared/libraries/websocket_streaming/src/ws_streaming.cpp:519-582 | On the objects, a sweep visits the entries in key order and does to each, and then to the timer, what the transition does; an aborted wait does nothing. |
| ClientHeap.WsStreaming.SweepSignal | shared/libraries/websocket_streaming/src/ws_streaming.cpp:528-564 | One iteration of the sweep: hold counted or released, deferral counted or published with its cascade, fetch dropped for a retry or given up. |
| ClientHeap.WsStreaming.OnInitialFetchResubscribe | shared/libraries/websocket_streaming/src/ws_streaming.cpp:584-606 | On the objects, due retries are sent and the sweep is armed again if anything is pending. |
| ClientHeap.WsStreaming.OnRemoteSignalSubscribed | shared/libraries/websocket_streaming/src/ws_streaming.cpp:608-621 | On the objects, a published entry is marked subscribed and acknowledged. |
| ClientHeap.WsStreaming.OnRemoteSignalMetadataChanged | shared/libraries/websocket_streaming/src/ws_streaming.cpp:623-672 | On the objects, with entries created on the way, metadata is rejected, announced, or leads to publication or deferral as the transition says. |
| ClientHeap.WsStreaming.EmitDescriptorChangedEvents | shared/libraries/websocket_streaming/src/ws_streaming.cpp:674-688 | The signal's own descriptor event comes first, then a domain event for each other published signal that uses it as domain, in key order. |
| ClientHeap.WsStreaming.PublishSignalEntry | shared/libraries/websocket_streaming/src/ws_streaming.cpp:690-734 | On the objects, the recursive publication over the map terminates and does what the transition does. |
| ClientHeap.WsStreaming.AnyInitialFetchPending | shared/libraries/websocket_streaming/src/ws_streaming.cpp:736-745 | True exactly if some tracked entry is held, or unpublished and fetching or described. |
| ClientHeap.WsStreaming.FindTimeReference | shared/libraries/websocket_streaming/src/ws_streaming.cpp:763-773 | The first element of type "time" with a signal id wins; an earlier type that is not a string is an error. |
| ClientHeap.WsStreaming.LookUpDomain | shared/libraries/websocket_streaming/src/ws_streaming.cpp:750-787 | Table id first, then the related signals, then the signals the connection knows; never the signal itself. |
| ClientHeap.WsStreaming.ResolveDomainEntry | shared/libraries/websocket_streaming/src/ws_streaming.cpp:747-799 | The reference returned is the very entry object the resolution names, a new one for a hidden signal. |
| ClientHeap.WsStreaming.OnRemoteSignalDataReceived | shared/libraries/websocket_streaming/src/ws_streaming.cpp:801-860 | On the objects, data of a subscribed signal is published with the domain packet the transition chooses, which may update the domain's entry. |
| ClientHeap.WsStreaming.OnRemoteSignalUnsubscribed | shared/libraries/websocket_streaming/src/ws_streaming.cpp:862-882 | On the objects, a hold is released and a subscribed entry is unmarked and acknowledged. |
| ClientHeap.WsStreaming.OnRemoteSignalUnavailable | shared/libraries/websocket_streaming/src/ws_streaming.cpp:884-895 | On the objects, the entry leaves the map but not the entries that refer to it, and a published one leaves openDAQ and the device. |
| ClientHeap.WsStreaming.Handle | shared/libraries/websocket_streaming/src/ws_streaming.cpp:368-380 | Handling one event on the objects is one step of the run. |
| ClientService.Serve | shared/libraries/websocket_streaming/src/ws_streaming.cpp:382-895 | After any events the client object's registered ids, its published entries and the device's table agree, deferred entries refer to unpublished entries, and the timer runs exactly while flagged. |
| ClientService.ObjectsKeepInvariant | shared/libraries/websocket_streaming/src/ws_streaming.cpp:690-745 | The invariant of the state is a property of the objects: of their fields and of the entries they refer to. |
| DeviceMirror.AvailableSucceeds | shared/libraries/websocket_streaming/src/ws_streaming_device.cpp:126-163 | A link to a signal in the mirror succeeds, adds exactly the new signal, and without '#' in the ids finds the very signal named. |
| DeviceMirror.UnavailableForgets | shared/libraries/websocket_streaming/src/ws_streaming_device.cpp:165-177 | Withdrawing a signal removes it from folder and table and nothing else. |
| DeviceMirror.FoundLast | shared/libraries/websocket_streaming/src/ws_streaming_device.cpp:138-141 | Of several signals with one local id the one announced last is found. |
| DeviceMirror.LinkRefused | shared/libraries/websocket_streaming/src/ws_streaming_device.cpp:136-145 | A link is refused if and only if no signal of the device has the local id it asks for. |
| DeviceMirror.LocalIdInjective | shared/libraries/websocket_streaming/src/ws_streaming_signal.cpp:28-35 | Ids without '#' have different local ids. |
| DeviceMirror.LocalIdCollides | shared/libraries/websocket_streaming/src/ws_streaming_signal.cpp:28-35 | With '#' two different ids can share a local id. |
| DeviceMirror.WsStreamingDevice.FindDomain | shared/libraries/websocket_streaming/src/ws_streaming_device.cpp:139-141 | The search over all signals keeps the last match. |
| DeviceMirror.WsStreamingDevice.OnSignalAvailable | shared/libraries/websocket_streaming/src/ws_streaming_device.cpp:126-163 | The signal is mirrored, or nothing changes and the link is reported as unregistered. |
| DeviceMirror.WsStreamingDevice.OnSignalUnavailable | shared/libraries/websocket_streaming/src/ws_streaming_device.cpp:165-177 | A known signal leaves folder and table; an unknown one changes nothing. |
| MetadataCodec.RoundTripExactlyRepresentable | shared/libraries/websocket_streaming/src/metadata_to_descriptor.cpp:50-141 | Decoding an encoded descriptor gives it back if and only if it is representable: a mapped or undefined type, an explicit, constant or fully parameterised linear rule, struct fields without anything but dimensions that share one linear or missing rule. |
| MetadataCodec.JourneyIsProjection | shared/libraries/websocket_streaming/src/descriptor_to_metadata.cpp:51-141 | What is decoded is always representable, so a second journey changes nothing more. |
| MetadataCodec.DimensionsRoundTrip | shared/libraries/websocket_streaming/src/descriptor_to_metadata.cpp:69-88 | Dimensions survive exactly if all share the rule of the first, which the encoder reads for each of them. |
| MetadataCodec.NameRoundTrip | shared/libraries/websocket_streaming/src/metadata_to_descriptor.cpp:31-45 | A type name is read back as its type, and anything unnamed as undefined. |
| MetadataCodec.SameNumbers | shared/libraries/websocket_streaming/src/descriptor_to_metadata.cpp:31-50 | A sample type travels under the name of the same numbers, by kind and width, and a name is read as them; names that are not the protocol's are undefined. |
| MetadataCodec.SameLinearValues | shared/libraries/websocket_streaming/src/descriptor_to_metadata.cpp:110-130 | A linear rule has the same value at every index on both sides, in both directions, with missing parameters as each side fills them in. |
| MetadataCodec.EncodedSaysSame | shared/libraries/websocket_streaming/src/descriptor_to_metadata.cpp:51-141 | The metadata says of each member what the descriptor says, fields and dimensions in order, under the table of the domain signal or the signal's own. |
| MetadataCodec.DecodedSaysSame | shared/libraries/websocket_streaming/src/metadata_to_descriptor.cpp:47-141 | The descriptor says of each member what the metadata says; fields count in a struct only, missing dimension parameters are zero. |
| MetadataCodec.MetadataBackExactlyPlain | shared/libraries/websocket_streaming/src/metadata_to_descriptor.cpp:47-141 | Metadata that is decoded and encoded again is the same if and only if it holds nothing openDAQ has no place for: known names, fields in a struct only, complete rules, dimensions all alike. |
| MetadataCodec.DescriptorToMetadata | shared/libraries/websocket_streaming/src/descriptor_to_metadata.cpp:51-141 | The builder-driven encoder with its nested loops computes the encoding. |
| MetadataCodec.MetadataToDescriptor | shared/libraries/websocket_streaming/src/metadata_to_descriptor.cpp:47-141 | The builder-driven decoder with its nested loops computes the decoding. |
| ClientMetadata.TableNamesDomain | shared/libraries/websocket_streaming/src/ws_streaming.cpp:750-757 | The client resolves the encoded table id to the signal's domain exactly when it tracks that domain. |
| ClientMetadata.ServedMetadata | shared/libraries/websocket_streaming/src/ws_streaming.cpp:623-672 | After the server's metadata has been handled the entry has the server's descriptor if and only if it is representable, and refers to the server's domain signal if that is tracked. |
| ServerRegistry.RescanMeetsSpecification | shared/libraries/websocket_streaming/src/ws_streaming_server.cpp:588-608 | A rescan throws if and only if a described tree signal, or a signal of its domain chain, has no descriptor and is not registered with its current domain. Otherwise the registered ids are the surviving old ones and that closure, which is recorded with current domains. Either way other records are unchanged, no settled signal is lost, the server's set is the registry's, and every signal was added only while all its domain signals were registered. |
| ServerRegistry.RescanTwice | shared/libraries/websocket_streaming/src/ws_streaming_server.cpp:588-608 | Rescanning an unchanged tree adds and removes nothing, and throws again if it threw. |
| ServerRegistry.HistoryReconciled | shared/libraries/websocket_streaming/src/ws_streaming_server.cpp:561-608 | Through any history of rescans over a changing tree, some of which may throw, the server knows exactly the recorded signals and no removed signal stays recorded; the last rescan threw if and only if a described tree signal or one of its domains is not recorded with its current domain. |
| ServerRegistry.RegisteredAfterDomain | shared/libraries/websocket_streaming/src/ws_streaming_server.cpp:451-468 | After a rescan that did not throw, a signal was registered after its domain's latest registration if and only if the rescan registered it anew, or that held before and the domain was not registered anew. |
| ServerRegistry.DomainRegisteredAnew | shared/libraries/websocket_streaming/src/ws_streaming_server.cpp:451-468 | A history after which a signal is still registered from before its domain's current registration. |
| ServerRegistry.CreateListenerDeals | shared/libraries/websocket_streaming/src/ws_streaming_server.cpp:441-502 | Registering a signal registers it and its domain chain, domain first and with current domains, also when a changed domain forces a new registration; nothing else changes, and nothing at all if all were settled. It throws exactly if one of the chain has no descriptor and is not settled. |
| ServerRegistry.WsStreamingServer.CreateListenerFor | shared/libraries/websocket_streaming/src/ws_streaming_server.cpp:441-502 | The recursive method on the map and the server does what the registration does, exception included, and terminates on acyclic chains. |
| ServerRegistry.WsStreamingServer.RemoveDeadSignals | shared/libraries/websocket_streaming/src/ws_streaming_server.cpp:590-602 | Erasing while iterating removes every removed signal from map and server. |
| ServerRegistry.WsStreamingServer.RescanTree | shared/libraries/websocket_streaming/src/ws_streaming_server.cpp:588-608 | The rescan of the object is the specified rescan. |
| Listener.DrainIsFaithful | shared/libraries/websocket_streaming/src/ws_streaming_listener.cpp:93-173 | Whatever is queued, a peer that keeps only the last metadata reads exactly the dequeued data packets that carry data, in order, each under the metadata of its own descriptor, up to a null descriptor event, which throws. |
| Listener.DrainAnnounces | shared/libraries/websocket_streaming/src/ws_streaming_listener.cpp:121-173 | The metadata announced is that of the descriptors shown by the processed data packets and descriptor events, in order, with each that repeats the one before left out; the listener ends with the last one shown. |
| Listener.DrainStopsAtNull | shared/libraries/websocket_streaming/src/ws_streaming_listener.cpp:93-108 | The first null descriptor event ends the processing and takes itself along; the packets behind it stay queued. |
| Listener.ListenerIsFaithful | shared/libraries/websocket_streaming/src/ws_streaming_listener.cpp:52-173 | The same over the whole life of a listener, for packets arriving in any batches. |
| Listener.PeerReadsPrefix | shared/libraries/websocket_streaming/src/ws_streaming_listener.cpp:127-147 | At any moment what the peer has read is a prefix of what it will have read. |
| Listener.DescriptorsRecovered | shared/libraries/websocket_streaming/src/ws_streaming_listener.cpp:110-148 | From each reading the peer recovers the packet's descriptor if and only if it is representable, with its data and sample count, its domain offset or zero without one, and the table of the domain signal or the signal itself. |
| Listener.WsStreamingListener.PacketReceived | shared/libraries/websocket_streaming/src/ws_streaming_listener.cpp:93-108 | The dequeue loop posts the tasks of every packet until the queue is empty or a packet throws. |
| Listener.WsStreamingListener.OnDataPacketReceived | shared/libraries/websocket_streaming/src/ws_streaming_listener.cpp:110-148 | New metadata is posted before the data, the data only if there is any. |
| Listener.WsStreamingListener.OnEventPacketReceived | shared/libraries/websocket_streaming/src/ws_streaming_listener.cpp:150-173 | A changed descriptor is announced once; a null one throws. |
| Listener.LocalSignal.Run | shared/libraries/websocket_streaming/src/ws_streaming_listener.cpp:139-147 | Running the posted tasks in order publishes the readings and ends with the last metadata. |
| ConnectionString.FormIsIdempotent | modules/websocket_streaming_client_module/src/websocket_streaming_client_module_impl.cpp:312-370 | For every input and configuration the canonical string is its own canonical form, with the same prefix, host, effective port and path. |
| ConnectionString.FormKeepsParts | modules/websocket_streaming_client_module/src/websocket_streaming_client_module_impl.cpp:312-370 | The canonical string is the input in new style with at most its port text changed; the parts are a prefix or nothing, a host, and a path or nothing, and the port is valid and the typed one modulo 65536 unless that is zero. |
| ConnectionString.PortChosen | modules/websocket_streaming_client_module/src/websocket_streaming_client_module_impl.cpp:328-365 | The port is the typed one, else the one configured for the kind of connection, else 7414 or 7415, zero counting as missing each time; it is shown if and only if one was typed or one is configured that is not the usual one. |
| ConnectionString.FormFailsExactly | modules/websocket_streaming_client_module/src/websocket_streaming_client_module_impl.cpp:324-357 | There is no canonical string if and only if neither expression matches in any way, or the typed port exceeds 32 bits. |
| ConnectionString.ParseExactly | modules/websocket_streaming_client_module/src/websocket_streaming_client_module_impl.cpp:324-328 | The parts are those of the preferred match of the IPv6 expression, of the other one only if that has no match, and none without any. |
| ConnectionString.UrlReadBackExactly | modules/websocket_streaming_client_module/src/websocket_streaming_client_module_impl.cpp:303-310 | For every scheme, host, port, path and configuration: the created string is canonical and gives host, port and path back if and only if the host is one the expressions accept, the port is one to 65535, the path is a path, the string holds no old prefix, and the address cannot be read with another host or a longer one. |
| ConnectionString.UrlBegins | modules/websocket_streaming_client_module/src/websocket_streaming_client_module_impl.cpp:303-310 | A created string starts with the prefix for its kind and the host. |
| ConnectionString.PathDecides | modules/websocket_streaming_client_module/src/websocket_streaming_client_module_impl.cpp:39-40 | For hosts without '/', IPv6 zone ids included, whether the string can be read otherwise is decided by the path alone: by a second "://" with something behind it that reads as a host, or by a ']' that a zone id can reach. |
| ConnectionString.PathWithHost | modules/websocket_streaming_client_module/src/websocket_streaming_client_module_impl.cpp:303-310 | A path with a host of its own keeps the created string from being read back, whatever the scheme and the port. |
| ConnectionString.PathInZone | modules/websocket_streaming_client_module/src/websocket_streaming_client_module_impl.cpp:303-310 | After a zone id a path with a ']' keeps the created string from being read back, although that path names no other host. |
| ConnectionString.ParseWithPort | modules/websocket_streaming_client_module/src/websocket_streaming_client_module_impl.cpp:39-40 | Changing only the port text of a parsed string changes only the port that is parsed, zone ids and greedy prefixes included. |
| ConnectionString.MatchMoves | modules/websocket_streaming_client_module/src/websocket_streaming_client_module_impl.cpp:39-40 | Every way to match one of the expressions with one port is a way to match it with another. |
| ConnectionString.SearchIsGreedy | modules/websocket_streaming_client_module/src/websocket_streaming_client_module_impl.cpp:39-40 | The search returns the match with the longest prefix and then the longest host, and fails only if there is no match. |
| ConnectionString.NoOldPrefix | modules/websocket_streaming_client_module/src/websocket_streaming_client_module_impl.cpp:372-377 | After the replacement no old prefix is left. |
| ConnectionString.FirstReplaced | modules/websocket_streaming_client_module/src/websocket_streaming_client_module_impl.cpp:372-377 | The first old prefix becomes a new one, what is before it stays, and the replacement goes on behind it. |
| ConnectionString.NewStyleKeeps | modules/websocket_streaming_client_module/src/websocket_streaming_client_module_impl.cpp:372-377 | A string without an old prefix is not changed. |
| ConnectionString.SameScheme | modules/websocket_streaming_client_module/src/websocket_streaming_client_module_impl.cpp:443-447 | Changing the port text neither makes a connection secure nor insecure, nor brings back an old prefix. |
| ConnectionString.FormConnectionString | modules/websocket_streaming_client_module/src/websocket_streaming_client_module_impl.cpp:312-370 | Filling in parameters and flags step by step computes the canonical form. |

## Left out

- TLS, certificates, sockets, threads, the WebSocket wire format and JSON parsing: library behaviour or I/O.
- Logging, durations, locks and the copying of sample bytes.
- Default configurations, configuration merging, discovery, capabilities and type factories: flat copying of data.
- The client and server function blocks and the connected-client bookkeeping: weaker versions of what is modelled, or pairs of calls.
- Listener.Drain: the domain signal of the listened signal is fixed, because the server replaces the listener when it changes.
- MetadataCodec.Decode: the checks the openDAQ descriptor builder makes when it builds are not modelled; 64-bit limits of rule parameters neither.
- DeviceMirror.OnAvailable: a second signal with the same local id is accepted, although openDAQ may refuse the component; without '#' in the ids there is none.
- ClientPackets.LinearDomainPackets: runs in which metadata changes between the data are covered by the invariant only.
- ConnectionString.Match: regular expressions are modelled by what they match, not by the library's backtracking or its limits.
