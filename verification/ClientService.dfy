/** A client object over its whole life: what its fields, entries and device hold after any events. */
module ClientService {
  import opened Wrappers
  import opened ClientState
  import opened ClientEvents
  import opened ClientInvariant
  import opened ClientSafety
  import opened ClientHeap

  /** The device mirrors exactly the published signals, and openDAQ has registered the same ones. */
  ghost predicate DeviceAgrees(client: WsStreaming)
    reads client, client.device, client.arena
    requires client.Valid()
  {
    && client.availableSignals == client.device.streamingSignals.Keys
    && forall id :: id in client.availableSignals <==> id in client.signals && client.signals[id].isPublished
  }

  /** A signal that has its metadata but is not published waits for a domain signal that is not published either. */
  ghost predicate DeferredWait(client: WsStreaming)
    reads client, client.device, client.arena
    requires client.Valid()
  {
    forall id :: id in client.signals && !client.signals[id].isPublished && client.signals[id].descriptor.Some? ==>
      client.signals[id].domainEntry != null && !client.signals[id].domainEntry.isPublished
  }

  /** The timer runs exactly while it is flagged, and it does while any entry needs it. */
  ghost predicate TimerRuns(client: WsStreaming)
    reads client, client.device, client.arena
    requires client.Valid()
  {
    && (client.initialFetchSweepArmed <==> client.initialFetchTimer != Idle)
    && forall id :: id in client.signals && !client.initialFetchSweepArmed ==>
         var e := client.signals[id];
         e.fetchState != Held && (!e.isPublished ==> e.fetchState != Fetching && e.descriptor.None?)
  }

  lemma ObjectsKeepInvariant(client: WsStreaming)
    requires client.Valid() && Inv(client.state)
    ensures DeviceAgrees(client) && DeferredWait(client) && TimerRuns(client)
  {
    AvailableAgree(client);
    WaitersAgree(client);
    WakersAgree(client);
  }

  lemma AvailableAgree(client: WsStreaming)
    requires client.Valid() && Inv(client.state)
    ensures DeviceAgrees(client)
  {
    hide AllLocal, Waiting, Woken, NoticesMirrored, TimerSound;
    forall id | id in client.signals
      ensures client.signals[id].isPublished == client.state.arena[client.state.signals[id]].published
    {
      client.Filed(id);
    }
  }

  lemma WaitersAgree(client: WsStreaming)
    requires client.Valid() && Inv(client.state)
    ensures DeferredWait(client)
  {
    hide AllLocal, Mirrored, Woken, TimerSound;
    forall id | id in client.signals && !client.signals[id].isPublished && client.signals[id].descriptor.Some?
      ensures client.signals[id].domainEntry != null && !client.signals[id].domainEntry.isPublished
    {
      client.Filed(id);
      var entry := client.signals[id];
      assert client.state.arena[client.state.signals[id]].Deferred();
      if entry.domainEntry != null {
        client.Viewed(entry.domainEntry);
      }
    }
  }

  lemma WakersAgree(client: WsStreaming)
    requires client.Valid() && Inv(client.state)
    ensures TimerRuns(client)
  {
    hide AllLocal, Mirrored, Waiting;
    forall id | id in client.signals && !client.initialFetchSweepArmed
      ensures
        var e := client.signals[id];
        e.fetchState != Held && (!e.isPublished ==> e.fetchState != Fetching && e.descriptor.None?)
    {
      client.Filed(id);
    }
  }

  /** Runs the handlers of the events one after the other. */
  method Serve(client: WsStreaming, events: seq<Event>)
    requires client.Valid() && client.state == INITIAL
    modifies client, client.device, client.arena
    ensures client.Valid() && client.state == Run(INITIAL, events)
    ensures DeviceAgrees(client) && DeferredWait(client) && TimerRuns(client)
  {
    hide WsStreaming.Valid, Inv, Step, DeviceAgrees, DeferredWait, TimerRuns;
    InitialInv();
    for i := 0 to |events|
      invariant client.Valid() && Inv(client.state) && client.Grown()
      invariant Refs(client.state) && Run(client.state, events[i..]) == Run(INITIAL, events)
    {
      assert events[i..][1..] == events[i + 1..];
      StepKeepsInv(client.state, events[i]);
      client.Handle(events[i]);
    }
    ObjectsKeepInvariant(client);
  }
}
