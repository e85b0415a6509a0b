/**
 The streaming client as objects: entries that refer to each other by reference, and the handlers
 that change them in place. Every handler is proved to do what its transition does to the state.
 */
module ClientHeap {
  import opened Wrappers
  import opened Descriptors
  import opened ClientState
  import opened ClientEvents
  import opened DeviceMirror
  import OrderedKeys

  /** The per-signal state of the client; `ref` is the entry's place in the arena. */
  class SignalEntry {
    const id: string
    ghost const ref: nat
    var descriptor: Option<Descriptor>
    var domainEntry: SignalEntry?
    var lastPacket: Option<Packet>
    var isPublished: bool
    var isSubscribed: bool
    var fetchState: FetchState
    var fetchAttempts: nat
    var sweeps: nat
    ghost var ledger: Ledger

    constructor (id: string, ghost ref: nat)
      ensures this.id == id && this.ref == ref && View() == NewEntry(id) && domainEntry == null
    {
      this.id, this.ref := id, ref;
      descriptor, domainEntry, lastPacket := None, null, None;
      isPublished, isSubscribed := false, false;
      fetchState, fetchAttempts, sweeps := NotFetching, 0, 0;
      ledger := NEW_LEDGER;
    }

    ghost function View(): Entry
      reads this
    {
      Entry(id, descriptor, if domainEntry == null then None else Some(domainEntry.ref), lastPacket,
            isPublished, isSubscribed, fetchState, fetchAttempts, sweeps, ledger)
    }

    /** Sends a subscribe request for the signal. */
    ghost method Subscribe()
      modifies this`ledger
      ensures ledger == old(ledger).(subscribes := old(ledger).subscribes + 1)
    {
      ledger := ledger.(subscribes := ledger.subscribes + 1);
    }

    /** Sends an unsubscribe request for the signal. */
    ghost method Unsubscribe()
      modifies this`ledger
      ensures ledger == old(ledger).(unsubscribes := old(ledger).unsubscribes + 1)
    {
      ledger := ledger.(unsubscribes := ledger.unsubscribes + 1);
    }

    /** Starts the fetch: the first attempt of a new episode. */
    method BeginFetch()
      modifies this`fetchState, this`fetchAttempts, this`ledger
      ensures View() == StartFetch(old(View()))
    {
      fetchState := Fetching;
      fetchAttempts := 1;
      Subscribe();
      ledger := ledger.(episode := 1, missed := 0);
    }

    /** A sweep counts the entry, ends its hold, or drops its fetch; is the fetch to be tried again? */
    method CountSweep() returns (retry: bool)
      modifies this`fetchState, this`fetchAttempts, this`sweeps, this`ledger
      ensures View() == SweptForm(old(View())) && retry == Retries(old(View()))
    {
      retry := false;
      if isPublished {
        if fetchState == Held {
          sweeps := sweeps + 1;
          if sweeps >= 2 {
            fetchState := NotFetching;
            Unsubscribe();
          }
        }
      } else if descriptor.Some? {
        sweeps := sweeps + 1;
      } else if fetchState == Fetching {
        Unsubscribe();
        ledger := ledger.(missed := ledger.missed + 1);
        if fetchAttempts >= MAX_ATTEMPTS {
          fetchState := NotFetching;
          fetchAttempts := 0;
        } else {
          fetchState := AwaitingRetry;
          fetchAttempts := fetchAttempts + 1;
          retry := true;
        }
      }
    }

    ghost method Mark(subscribed: bool)
      modifies this`ledger
      ensures ledger == old(ledger).(marks := old(ledger).marks + [subscribed])
    {
      ledger := ledger.(marks := ledger.marks + [subscribed]);
    }
  }

  lemma PublishUnfolds(s: State, r: nat)
    requires Refs(s) && r < |s.arena| && s.arena[r].Deferred()
    ensures Refs(MarkPublished(s, r)) && MarkPublished(s, r).signals == s.signals
    ensures |MarkPublished(s, r).arena| == |s.arena| && Unpublished(MarkPublished(s, r)) < Unpublished(s)
    ensures Publish(s, r) == PublishDependents(MarkPublished(s, r), r, Order(s))
  {
    hide PublishDependents, MarkPublished;
    MarkIsCascade(s, r);
    CascadeKeepsRefs(s, MarkPublished(s, r));
  }

  /** Is the entry `d` deferred on `r`? */
  ghost predicate WaitsFor(s: State, d: nat, r: nat)
    requires d < |s.arena|
  {
    d != r && s.arena[d].domain == Some(r) && s.arena[d].Deferred()
  }

  /** t is what visiting the signal filed under `k` makes of s. */
  ghost predicate Visited(s: State, t: State, k: string, r: nat)
    requires Refs(s) && k in s.signals
  {
    t == if WaitsFor(s, s.signals[k], r) then Publish(s, s.signals[k]) else s
  }

  lemma VisitUnfolds(s: State, t: State, r: nat, keys: seq<string>, i: nat)
    requires Refs(s) && r < |s.arena| && i < |keys|
    requires forall k :: k in keys ==> k in s.signals
    requires Visited(s, t, keys[i], r)
    ensures Refs(t) && t.signals == s.signals && |t.arena| == |s.arena| && Unpublished(t) <= Unpublished(s)
    ensures PublishDependents(s, r, keys[i..]) == PublishDependents(t, r, keys[i + 1..])
  {
    hide Publish;
    assert keys[i..][1..] == keys[i + 1..];
  }

  lemma NobodyLeft(s: State, r: nat, keys: seq<string>)
    requires Refs(s) && r < |s.arena| && keys == []
    ensures PublishDependents(s, r, keys) == s
  {
  }

  ghost function UnsubscribedForm(e: Entry): Entry
  {
    var released := if e.fetch.Held? then ReleaseHold(e) else e;
    if released.subscribed then
      released.(subscribed := false, ledger := released.ledger.(marks := released.ledger.marks + [false]))
    else
      released
  }

  /** What visiting the signal filed under `k` emits. */
  function DomainEventOf(s: State, r: nat, k: string): seq<Output>
    requires Refs(s) && r < |s.arena| && s.arena[r].descriptor.Some? && k in s.signals
  {
    var e := s.arena[s.signals[k]];
    if s.signals[k] != r && e.domain == Some(r) && e.published then [DomainDescriptor(e.id, s.arena[r].descriptor.value)] else []
  }

  /** Emitting for the next signal and then for the rest is emitting for all that are left. */
  lemma DomainEventsUnfold(s: State, t: State, r: nat, keys: seq<string>, i: nat)
    requires Refs(s) && r < |s.arena| && s.arena[r].descriptor.Some? && i < |keys|
    requires forall k :: k in keys ==> k in s.signals
    requires t == s.(outbox := t.outbox)
    ensures Refs(t)
    ensures t.outbox + DomainEvents(s, r, keys[i..]) == (t.outbox + DomainEventOf(t, r, keys[i])) + DomainEvents(s, r, keys[i + 1..])
  {
    assert keys[i..][1..] == keys[i + 1..];
  }

  lemma {:induction false} DomainEventsDepend(s: State, t: State, r: nat, keys: seq<string>)
    requires Refs(s) && r < |s.arena| && s.arena[r].descriptor.Some? && forall k :: k in keys ==> k in s.signals
    requires t == s.(outbox := t.outbox)
    ensures DomainEvents(t, r, keys) == DomainEvents(s, r, keys)
  {
    if keys != [] {
      DomainEventsDepend(s, t, r, keys[1..]);
    }
  }

  lemma DomainEventsEnd(s: State, r: nat, keys: seq<string>)
    requires Refs(s) && r < |s.arena| && s.arena[r].descriptor.Some? && keys == []
    ensures DomainEvents(s, r, keys) == []
  {
  }

  lemma KeptRefs(s: State, id: string)
    requires Refs(s)
    ensures Refs(s.(arena := s.arena + [NewEntry(id)])) && NewEntry(id).id == id
    ensures forall k :: k in s.signals ==> s.signals[k] < |s.arena|
  {
  }

  lemma ErasedRefs(s: State, id: string)
    requires Refs(s)
    ensures Refs(s.(signals := s.signals - {id}))
  {
  }

  lemma FiledRefs(s: State, id: string, r: nat)
    requires Refs(s) && r < |s.arena| && s.arena[r].id == id
    ensures Refs(s.(signals := s.signals[id := r]))
    ensures forall k :: k in s.signals ==> s.signals[k] < |s.arena|
  {
  }

  // ----- the loops of the timer handlers, one signal at a time ---------------------------

  lemma SweptStillDeferred(e: Entry)
    requires e.Deferred()
    ensures SweptForm(e).Deferred()
  {
  }

  /** What is left of the sweep after `i` signals leads to what the whole sweep leads to. */
  ghost predicate SweptSoFar(s: State, t: State, keys: seq<string>, i: nat, retrying: bool)
    requires Refs(s) && Refs(t) && t.signals == s.signals && i <= |keys| && forall k :: k in keys ==> k in s.signals
  {
    var (rest, later) := SweepAll(t, keys[i..]);
    SweepAll(s, keys) == (rest, retrying || later)
  }

  lemma SweepUnfolds(s: State, t: State, u: State, keys: seq<string>, i: nat, retrying: bool, retry: bool)
    requires Refs(s) && Refs(t) && t.signals == s.signals && i < |keys| && forall k :: k in keys ==> k in s.signals
    requires SweptSoFar(s, t, keys, i, retrying)
    requires u == SweepEntry(t, t.signals[keys[i]]) && retry == Retries(t.arena[t.signals[keys[i]]])
    ensures Refs(u) && u.signals == s.signals && SweptSoFar(s, u, keys, i + 1, retrying || retry)
  {
    hide SweepEntry, Retries;
    assert keys[i..][1..] == keys[i + 1..];
  }

  lemma SweepEnds(s: State, t: State, keys: seq<string>, retrying: bool)
    requires Refs(s) && Refs(t) && t.signals == s.signals && forall k :: k in keys ==> k in s.signals
    requires SweptSoFar(s, t, keys, |keys|, retrying)
    ensures SweepAll(s, keys) == (t, retrying)
  {
    assert keys[|keys|..] == [];
    assert SweepAll(t, []) == (t, false);
  }

  ghost predicate ResentSoFar(s: State, t: State, keys: seq<string>, i: nat, pending: bool)
    requires Refs(s) && Refs(t) && t.signals == s.signals && i <= |keys| && forall k :: k in keys ==> k in s.signals
  {
    var (rest, later) := ResubscribeAll(t, keys[i..]);
    ResubscribeAll(s, keys) == (rest, pending || later)
  }

  lemma ResubscribeUnfolds(s: State, t: State, u: State, keys: seq<string>, i: nat, pending: bool)
    requires Refs(s) && Refs(t) && t.signals == s.signals && i < |keys| && forall k :: k in keys ==> k in s.signals
    requires ResentSoFar(s, t, keys, i, pending)
    requires
      var r := t.signals[keys[i]];
      u == if DueForRetry(t.arena[r]) then Put(t, r, Retried(t.arena[r])) else t
    ensures Refs(u) && u.signals == s.signals && ResentSoFar(s, u, keys, i + 1, pending || DueForRetry(t.arena[t.signals[keys[i]]]))
  {
    assert keys[i..][1..] == keys[i + 1..];
    PutKeepsRefs(t, t.signals[keys[i]], Retried(t.arena[t.signals[keys[i]]]));
  }

  lemma ResubscribeEnds(s: State, t: State, keys: seq<string>, pending: bool)
    requires Refs(s) && Refs(t) && t.signals == s.signals && forall k :: k in keys ==> k in s.signals
    requires ResentSoFar(s, t, keys, |keys|, pending)
    ensures ResubscribeAll(s, keys) == (t, pending)
  {
    assert keys[|keys|..] == [];
    assert ResubscribeAll(t, []) == (t, false);
  }

  class WsStreaming {
    const device: WsStreamingDevice
    var signals: map<string, SignalEntry>
    var initialFetchSweepArmed: bool
    var initialFetchTimer: Timer
    var availableSignals: set<string>
    var outbox: seq<Output>
    ghost var arena: seq<SignalEntry>
    ghost var state: State

    constructor ()
      ensures Valid() && state == INITIAL && fresh(device)
    {
      device := new WsStreamingDevice();
      signals, initialFetchSweepArmed, initialFetchTimer := map[], false, Idle;
      availableSignals, outbox := {}, [];
      arena, state := [], INITIAL;
    }

    ghost predicate Owns(entry: SignalEntry)
      reads this
    {
      entry.ref < |arena| && arena[entry.ref] == entry
    }

    /** The objects represent the state. */
    ghost predicate Valid()
      reads this, device, arena
    {
      ValidBut(-1)
    }

    /** The objects represent the state, except that the entry at `r` may have been changed. */
    ghost predicate ValidBut(r: int)
      reads this, device, arena
    {
      && Refs(state)
      && |arena| == |state.arena|
      && (forall i :: 0 <= i < |arena| ==>
            arena[i].ref == i && arena[i].id == state.arena[i].id && (i != r ==> arena[i].View() == state.arena[i]))
      && (forall i :: 0 <= i < |arena| && arena[i].domainEntry != null ==> Owns(arena[i].domainEntry))
      && signals.Keys == state.signals.Keys
      && (forall k :: k in signals ==> signals[k] == arena[state.signals[k]])
      && initialFetchSweepArmed == state.armed
      && initialFetchTimer == state.timer
      && availableSignals == state.available
      && device.Contents() == state.device
      && outbox == state.outbox
    }

    /** The entry filed under an id is the one the state has under it. */
    lemma Filed(id: string)
      requires Valid()
      ensures Refs(state) && (id in signals <==> id in state.signals)
      ensures id in signals ==>
        && Owns(signals[id]) && signals[id].ref == state.signals[id] && signals[id].id == id
        && signals[id].View() == state.arena[state.signals[id]]
        && (signals[id].domainEntry != null ==> Owns(signals[id].domainEntry))
    {
    }

    lemma Viewed(entry: SignalEntry)
      requires Valid() && Owns(entry)
      ensures entry.ref < |state.arena| && state.arena[entry.ref] == entry.View()
      ensures state.arena[entry.ref].id == entry.id && state.arena[entry.ref].descriptor == entry.descriptor
    {
    }

    /** Carries a change of the entry's fields over to the state. */
    ghost method Commit(entry: SignalEntry)
      requires Owns(entry) && ValidBut(entry.ref) && entry.domainEntry != entry
      modifies this`state
      ensures Valid() && state == Put(old(state), entry.ref, entry.View())
    {
      assert entry.domainEntry != null ==> Owns(entry.domainEntry);
      PutKeepsRefs(state, entry.ref, entry.View());
      state := Put(state, entry.ref, entry.View());
    }

    // ----- timer -------------------------------------------------------------------------

    method SetTimer(timer: Timer)
      requires Valid()
      modifies this`initialFetchTimer, this`state
      ensures Valid() && state == ClientState.SetTimer(old(state), timer)
    {
      initialFetchTimer := timer;
      state := ClientState.SetTimer(state, timer);
    }

    method ArmInitialFetchSweep()
      requires Valid()
      modifies this`initialFetchSweepArmed, this`initialFetchTimer, this`state
      ensures Valid() && state == Arm(old(state))
    {
      if initialFetchSweepArmed {
        return;
      }
      initialFetchSweepArmed := true;
      state := state.(armed := true);
      SetTimer(SweepDue);
    }

    method AnyInitialFetchPending() returns (pending: bool)
      requires Valid()
      ensures pending == AnyPending(state)
    {
      hide OrderedKeys.Less, OrderedKeys.Sorted;
      var keys := OrderedKeys.Sorted(signals.Keys);
      for i := 0 to |keys|
        invariant forall j :: 0 <= j < i ==> !state.arena[state.signals[keys[j]]].Pending()
      {
        var entry := signals[keys[i]];
        Filed(keys[i]);
        hide Valid, ValidBut;
        if entry.fetchState == Held || (!entry.isPublished && (entry.fetchState == Fetching || entry.descriptor.Some?)) {
          assert state.arena[state.signals[keys[i]]].Pending();
          return true;
        }
      }
      forall k | k in state.signals
        ensures !state.arena[state.signals[k]].Pending()
      {
        assert k in keys;
      }
      return false;
    }

    // ----- publication -------------------------------------------------------------------

    /** Registers the signal with openDAQ; a device that fails is only counted. */
    method RegisterSignal(entry: SignalEntry)
      requires Valid() && Owns(entry) && entry.descriptor.Some?
      modifies this`availableSignals, this`state, device
      ensures Valid() && state == Register(old(state), entry.ref)
      ensures state.arena == old(state).arena && state.signals == old(state).signals
    {
      ghost var s := state;
      availableSignals := availableSignals + {entry.id};
      var link := None;
      if entry.domainEntry != null && entry.domainEntry.isPublished {
        link := Some(entry.domainEntry.id);
        assert LinkOf(s, entry.ref) == Some(entry.domainEntry.ref);
      }
      assert link == LinkId(s, LinkOf(s, entry.ref));
      var registered := device.OnSignalAvailable(entry.id, link, entry.descriptor.value);
      state := Register(s, entry.ref);
    }

    method MarkEntryPublished(entry: SignalEntry)
      requires Valid() && Owns(entry) && entry.descriptor.Some? && !entry.isPublished
      modifies this`availableSignals, this`state, this`initialFetchSweepArmed, this`initialFetchTimer, device, entry
      ensures Valid() && state == MarkPublished(old(state), entry.ref)
    {
      hide Register, Arm;
      var held := entry.fetchState == Fetching;
      RegisterSignal(entry);
      EndWait(entry);
      if held {
        ArmInitialFetchSweep();
      }
    }

    method EndWait(entry: SignalEntry)
      requires Valid() && Owns(entry)
      modifies this`state, entry
      ensures Valid() && state == Put(old(state), entry.ref, PublishedForm(old(state).arena[entry.ref]))
    {
      ghost var before := entry.View();
      entry.isPublished := true;
      entry.fetchState := if entry.fetchState == Fetching then Held else NotFetching;
      entry.fetchAttempts, entry.sweeps := 0, 0;
      assert entry.View() == PublishedForm(before);
      Commit(entry);
    }

    method PublishSignalEntry(entry: SignalEntry)
      requires Valid() && Owns(entry) && entry.descriptor.Some? && !entry.isPublished
      modifies this, device, arena
      ensures Valid() && state == Publish(old(state), entry.ref)
      ensures arena == old(arena) && signals == old(signals)
      decreases Unpublished(state), 0
    {
      ghost var s, r := state, entry.ref;
      PublishUnfolds(s, r);
      MarkEntryPublished(entry);
      PublishDeferredOn(entry, Order(s));
    }

    /** The second half of a publication: whoever was deferred on the entry need wait no longer. */
    method PublishDeferredOn(entry: SignalEntry, ghost order: seq<string>)
      requires Valid() && Owns(entry) && order == OrderedKeys.Sorted(state.signals.Keys)
      modifies this, device, arena
      ensures Valid() && state == PublishDependents(old(state), entry.ref, order)
      ensures arena == old(arena) && signals == old(signals)
      decreases Unpublished(state), 2
    {
      hide *;
      ghost var s, r := state, entry.ref;
      var keys := OrderedKeys.Sorted(signals.Keys);
      StateShape();
      Viewed(entry);
      for i := 0 to |keys|
        invariant Valid() && Owns(entry) && arena == old(arena) && signals == old(signals)
        invariant Refs(state) && state.signals == s.signals && r < |state.arena|
        invariant Unpublished(state) <= Unpublished(s)
        invariant PublishDependents(state, r, keys[i..]) == PublishDependents(s, r, keys)
      {
        ghost var before := state;
        VisitDependent(entry, keys[i]);
        VisitUnfolds(before, state, r, keys, i);
      }
      NobodyLeft(state, r, keys[|keys|..]);
    }

    method VisitDependent(entry: SignalEntry, id: string)
      requires Valid() && Owns(entry) && id in signals
      modifies this, device, arena
      ensures Valid() && Visited(old(state), state, id, entry.ref)
      ensures arena == old(arena) && signals == old(signals) && Owns(entry)
      decreases Unpublished(state), 1
    {
      hide Publish, Unpublished;
      var dependent := signals[id];
      if dependent != entry && dependent.domainEntry == entry && !dependent.isPublished && dependent.descriptor.Some? {
        PublishSignalEntry(dependent);
      }
    }

    lemma StateShape()
      requires Valid()
      ensures Refs(state) && signals.Keys == state.signals.Keys && |arena| == |state.arena|
    {
    }

    // ----- descriptor events -------------------------------------------------------------

    /** Passes something up to openDAQ's streaming base class. */
    method Emit(output: Output)
      requires Valid()
      modifies this`outbox, this`state
      ensures Valid() && state == old(state).(outbox := old(state).outbox + [output])
    {
      outbox := outbox + [output];
      state := state.(outbox := outbox);
    }

    method EmitDescriptorChangedEvents(entry: SignalEntry)
      requires Valid() && Owns(entry) && entry.descriptor.Some?
      modifies this`outbox, this`state
      ensures Valid() && state == EmitDescriptor(old(state), entry.ref)
    {
      hide DomainEvents;
      ghost var s := state;
      Emit(ValueDescriptor(entry.id, entry.descriptor.value));
      DomainEventsDepend(s, state, entry.ref, Order(s));
      EmitToUsers(entry);
    }

    /** Tells every published user of the entry what its domain looks like now. */
    method EmitToUsers(entry: SignalEntry)
      requires Valid() && Owns(entry) && entry.descriptor.Some?
      modifies this`outbox, this`state
      ensures Valid() && state == old(state).(outbox := old(state).outbox + DomainEvents(old(state), entry.ref, Order(old(state))))
    {
      hide Valid, ValidBut, DomainEvents, DomainEventOf, Refs, OrderedKeys.Less, OrderedKeys.Sorted, SignalEntry.View;
      ghost var s, r := state, entry.ref;
      StateShape();
      Viewed(entry);
      var keys := OrderedKeys.Sorted(signals.Keys);
      for i := 0 to |keys|
        invariant Valid() && state == s.(outbox := state.outbox)
        invariant Refs(s) && r < |s.arena| && s.arena[r].descriptor.Some? && forall k :: k in keys ==> k in s.signals
        invariant state.outbox + DomainEvents(s, r, keys[i..]) == s.outbox + DomainEvents(s, r, keys)
      {
        DomainEventsUnfold(s, state, r, keys, i);
        EmitToUser(entry, keys[i]);
      }
      DomainEventsEnd(s, r, keys[|keys|..]);
    }

    method EmitToUser(entry: SignalEntry, id: string)
      requires Valid() && Owns(entry) && entry.descriptor.Some? && id in signals
      modifies this`outbox, this`state
      ensures Valid()
      ensures state == old(state).(outbox := old(state).outbox + DomainEventOf(old(state), entry.ref, id))
    {
      var dataSignal := signals[id];
      if dataSignal != entry && dataSignal.domainEntry == entry && dataSignal.isPublished {
        Emit(DomainDescriptor(dataSignal.id, entry.descriptor.value));
      }
    }

    // ----- application requests ----------------------------------------------------------

    method TakeOver(entry: SignalEntry)
      requires Valid() && Owns(entry)
      modifies this`state, entry
      ensures Valid() && entry.descriptor == old(entry.descriptor)
      ensures
        var taken := Marked(old(state).arena[entry.ref]).(fetch := NotFetching);
        state == Put(old(state), entry.ref, taken.(ledger := taken.ledger.(takeovers := taken.ledger.takeovers + 1)))
    {
      entry.fetchState := NotFetching;
      entry.isSubscribed := true;
      entry.Mark(true);
      entry.ledger := entry.ledger.(takeovers := entry.ledger.takeovers + 1);
      Commit(entry);
    }

    method SendSubscribe(entry: SignalEntry)
      requires Valid() && Owns(entry)
      modifies this`state, entry
      ensures Valid()
      ensures
        var sent := Marked(old(state).arena[entry.ref]);
        state == Put(old(state), entry.ref, sent.(ledger := sent.ledger.(
          subscribes := sent.ledger.subscribes + 1, appSubscribes := sent.ledger.appSubscribes + 1)))
    {
      entry.Subscribe();
      entry.isSubscribed := true;
      entry.Mark(true);
      entry.ledger := entry.ledger.(appSubscribes := entry.ledger.appSubscribes + 1);
      Commit(entry);
    }

    method SubscribeRemoteSignal(id: string)
      requires Valid()
      modifies this`outbox, this`state, arena
      ensures Valid() && state == AppSubscribe(old(state), id)
    {
      hide ValidBut, EmitDescriptor, Refs;
      Filed(id);
      if id !in signals {
        return;
      }
      var entry := signals[id];
      if !entry.isPublished {
        return;
      }
      if entry.isSubscribed {
        return;
      }
      if entry.fetchState == Held {
        TakeOver(entry);
        Emit(Ack(id, true));
        if entry.descriptor.Some? {
          EmitDescriptorChangedEvents(entry);
        }
        return;
      }
      SendSubscribe(entry);
    }

    method UnsubscribeRemoteSignal(id: string)
      requires Valid()
      modifies this`state, arena
      ensures Valid() && state == AppUnsubscribe(old(state), id)
    {
      hide ValidBut, Refs;
      Filed(id);
      if id !in signals {
        return;
      }
      var entry := signals[id];
      if !entry.isSubscribed {
        return;
      }
      SendUnsubscribe(entry);
    }

    method SendUnsubscribe(entry: SignalEntry)
      requires Valid() && Owns(entry)
      modifies this`state, entry
      ensures Valid()
      ensures
        var e := old(state).arena[entry.ref];
        state == Put(old(state), entry.ref, e.(ledger := e.ledger.(
          unsubscribes := e.ledger.unsubscribes + 1, appUnsubscribes := e.ledger.appUnsubscribes + 1)))
    {
      entry.Unsubscribe();
      entry.ledger := entry.ledger.(appUnsubscribes := entry.ledger.appUnsubscribes + 1);
      Commit(entry);
    }

    // ----- remote availability -----------------------------------------------------------

    /** Entries were only added, and those are new. */
    twostate predicate Grown()
      reads this
    {
      old(arena) <= arena && forall i :: |old(arena)| <= i < |arena| ==> fresh(arena[i])
    }

    /** Files a new entry under the id, unless the signal is tracked, say because another one named it as domain. */
    method CreateSignalEntry(id: string) returns (entry: SignalEntry)
      requires Valid()
      modifies this`signals, this`arena, this`state
      ensures Valid() && Grown() && state == WithEntry(old(state), id)
      ensures id in signals && signals[id] == entry && Owns(entry)
    {
      hide ValidBut, Refs, Create;
      Filed(id);
      if id in signals {
        entry := signals[id];
      } else {
        entry := AddEntry(id);
      }
    }

    method AddEntry(id: string) returns (entry: SignalEntry)
      requires Valid() && id !in signals
      modifies this`signals, this`arena, this`state
      ensures Valid() && Grown() && state == Create(old(state), id)
      ensures id in signals && signals[id] == entry && Owns(entry)
    {
      hide ValidBut, Refs, NewEntry;
      StateShape();
      entry := new SignalEntry(id, |arena|);
      FileEntry(entry);
    }

    method FileEntry(entry: SignalEntry)
      requires Valid() && entry.id !in signals && entry.ref == |state.arena|
      requires entry.View() == NewEntry(entry.id) && entry.domainEntry == null
      modifies this`signals, this`arena, this`state
      ensures Valid() && state == Create(old(state), entry.id)
      ensures arena == old(arena) + [entry] && signals == old(signals)[entry.id := entry]
    {
      hide Refs, NewEntry, SignalEntry.View, WsStreamingDevice.Contents;
      KeepEntry(entry);
      FiledRefs(state, entry.id, entry.ref);
      signals := signals[entry.id := entry];
      state := state.(signals := state.signals[entry.id := entry.ref]);
    }

    /** The entry exists but is not filed yet. */
    ghost method KeepEntry(entry: SignalEntry)
      requires Valid() && entry.ref == |state.arena|
      requires entry.View() == NewEntry(entry.id) && entry.domainEntry == null
      modifies this`arena, this`state
      ensures Valid() && state == old(state).(arena := old(state).arena + [NewEntry(entry.id)])
      ensures arena == old(arena) + [entry]
    {
      hide Refs, NewEntry, SignalEntry.View, WsStreamingDevice.Contents;
      KeptRefs(state, entry.id);
      ghost var before := arena;
      arena := before + [entry];
      state := state.(arena := state.arena + [NewEntry(entry.id)]);
      forall i | 0 <= i < |before|
        ensures arena[i] == before[i] && (before[i].domainEntry != null ==> Owns(before[i].domainEntry))
      {
      }
    }

    method BeginFetch(entry: SignalEntry)
      requires Valid() && Owns(entry)
      modifies this`state, entry
      ensures Valid() && state == Put(old(state), entry.ref, StartFetch(old(state).arena[entry.ref]))
    {
      hide StartFetch;
      Viewed(entry);
      entry.BeginFetch();
      Commit(entry);
    }

    method OnRemoteSignalAvailable(id: string)
      requires Valid()
      modifies this, arena
      ensures Valid() && Grown() && state == Available(old(state), id)
    {
      hide WithEntry, StartFetch, ValidBut;
      var entry := CreateSignalEntry(id);
      Filed(id);
      if entry.isPublished || entry.descriptor.Some? || entry.fetchState == Fetching {
        return;
      }
      BeginFetch(entry);
      ArmInitialFetchSweep();
    }

    /** The entry is erased from the map; other entries may still refer to it. */
    method Erase(id: string)
      requires Valid() && id in signals
      modifies this`signals, this`state
      ensures Valid() && state == old(state).(signals := old(state).signals - {id})
    {
      hide Refs, SignalEntry.View, WsStreamingDevice.Contents;
      ErasedRefs(state, id);
      signals := signals - {id};
      state := state.(signals := state.signals - {id});
    }

    method OnRemoteSignalUnavailable(id: string)
      requires Valid()
      modifies this`signals, this`availableSignals, this`state, device
      ensures Valid() && state == Unavailable(old(state), id)
    {
      hide ValidBut, Refs;
      Filed(id);
      if id in signals {
        var entry := signals[id];
        Erase(id);
        if entry.isPublished {
          Withdraw(entry);
        }
      }
      ForgetAtDevice(id);
    }

    method Withdraw(entry: SignalEntry)
      requires Valid()
      modifies this`availableSignals, this`state
      ensures Valid()
      ensures state == old(state).(
        available := old(state).available - {entry.id}, notices := old(state).notices + [Withdrawn(entry.ref)])
    {
      availableSignals := availableSignals - {entry.id};
      state := state.(available := state.available - {entry.id}, notices := state.notices + [Withdrawn(entry.ref)]);
    }

    method ForgetAtDevice(id: string)
      requires Valid()
      modifies this`state, device
      ensures Valid() && state == old(state).(device := DeviceMirror.OnUnavailable(old(state).device, id))
    {
      device.OnSignalUnavailable(id);
      state := state.(device := device.Contents());
    }

    // ----- remote acknowledgements -------------------------------------------------------

    /** Is the entry the one filed under its id? */
    ghost predicate Tracks(entry: SignalEntry)
      reads this
    {
      Owns(entry) && entry.id in signals && signals[entry.id] == entry
    }

    method OnRemoteSignalSubscribed(entry: SignalEntry)
      requires Valid() && Tracks(entry)
      modifies this`outbox, this`state, entry
      ensures Valid() && state == Subscribed(old(state), entry.id)
    {
      hide ValidBut, Refs;
      Filed(entry.id);
      if entry.isPublished {
        SetSubscribed(entry);
        Emit(Ack(entry.id, true));
      }
    }

    method SetSubscribed(entry: SignalEntry)
      requires Valid() && Owns(entry)
      modifies this`state, entry
      ensures Valid() && state == Put(old(state), entry.ref, Marked(old(state).arena[entry.ref]))
    {
      entry.isSubscribed := true;
      entry.Mark(true);
      Commit(entry);
    }

    method OnRemoteSignalUnsubscribed(entry: SignalEntry)
      requires Valid() && Tracks(entry)
      modifies this`outbox, this`state, entry
      ensures Valid() && state == Unsubscribed(old(state), entry.id)
    {
      hide ValidBut, Refs;
      Filed(entry.id);
      var wasSubscribed := entry.isSubscribed;
      EndSubscription(entry);
      if wasSubscribed {
        Emit(Ack(entry.id, false));
      }
    }

    /** Unmarks the entry, and lets go of its hold: nothing is left on the wire to be taken over. */
    method EndSubscription(entry: SignalEntry)
      requires Valid() && Owns(entry)
      modifies this`state, entry
      ensures Valid()
      ensures state == Put(old(state), entry.ref, UnsubscribedForm(old(state).arena[entry.ref]))
    {
      ghost var e := entry.View();
      if entry.fetchState == Held {
        entry.fetchState := NotFetching;
        entry.Unsubscribe();
      }
      if entry.isSubscribed {
        entry.isSubscribed := false;
        entry.Mark(false);
      }
      assert entry.View() == UnsubscribedForm(e);
      Commit(entry);
    }

    // ----- metadata ----------------------------------------------------------------------

    /** The first element of type "time" wins; one whose type is not a string is an error. */
    method FindTimeReference(related: seq<Related>) returns (found: TimeReference)
      ensures found == FindTime(related)
    {
      for i := 0 to |related|
        invariant FindTime(related[i..]) == FindTime(related)
      {
        assert related[i..][1..] == related[i + 1..];
        if related[i].RelatedSignal? {
          if related[i].kind.OtherJson? {
            return MalformedTime;
          }
          if related[i].kind == Str("time") && related[i].signalId.Str? {
            return TimeSignal(related[i].signalId.text);
          }
        }
      }
      return NoTime;
    }

    /** Where the entry's domain signal is, without changing anything. */
    method LookUpDomain(entry: SignalEntry, meta: Metadata, connection: Connection) returns (lookup: Lookup)
      requires Valid()
      ensures lookup == FindDomain(state.signals.Keys, connection.Keys, entry.id, meta)
      ensures lookup.Known? ==> lookup.id in state.signals && lookup.id != entry.id
      ensures lookup.Hidden? ==> lookup.id in connection && lookup.id !in state.signals
    {
      hide FindTime, ValidBut, Refs;
      StateShape();
      if meta.tableId == "" || meta.tableId == entry.id {
        return NoDomain;
      }
      if meta.tableId in signals {
        return Known(meta.tableId);
      }
      var time := FindTimeReference(meta.related);
      if time.MalformedTime? {
        return Malformed;
      }
      if time.NoTime? || time.id == "" || time.id == entry.id {
        return NoDomain;
      }
      if time.id in signals {
        return Known(time.id);
      }
      return if time.id in connection then Hidden(time.id) else NoDomain;
    }

    /** The domain reference stands for the entry the resolution names. */
    ghost predicate Refers(domain: SignalEntry?, ref: Option<nat>)
      reads this
    {
      if domain == null then ref.None? else ref == Some(domain.ref) && Owns(domain)
    }

    method ResolveDomainEntry(entry: SignalEntry, lookup: Lookup, connection: Connection) returns (domain: SignalEntry?)
      requires Valid() && Owns(entry) && !lookup.Malformed?
      requires lookup.Known? ==> lookup.id in state.signals && lookup.id != entry.id
      requires lookup.Hidden? ==> lookup.id in connection && lookup.id !in state.signals
      modifies this, device, arena
      ensures Valid() && Grown()
      ensures
        var (found, ref) := Resolve(old(state), entry.ref, lookup, connection);
        state == found && Refers(domain, ref)
      decreases connection.Keys - state.signals.Keys, 4
    {
      hide Discover;
      match lookup
      case NoDomain =>
        domain := null;
      case Known(id) =>
        domain := signals[id];
      case Hidden(id) =>
        domain := DiscoverSignal(id, connection);
    }

    /** Tracks a hidden domain signal and processes the metadata it already has. */
    method DiscoverSignal(id: string, connection: Connection) returns (domain: SignalEntry)
      requires Valid() && id in connection && id !in state.signals
      modifies this, device, arena
      ensures Valid() && Grown() && state == Discover(old(state), id, connection)
      ensures domain.ref == |old(state).arena| && Owns(domain)
      decreases connection.Keys - state.signals.Keys, 3
    {
      domain := CreateSignalEntry(id);
      if connection[id].Some? {
        assert id in connection.Keys - old(state).signals.Keys;
        OnRemoteSignalMetadataChanged(domain, connection[id].value, connection);
      }
    }

    /** The metadata could not be understood. */
    method RejectMetadata(entry: SignalEntry)
      requires Valid() && Owns(entry)
      modifies this`state, entry
      ensures Valid() && state == Reject(old(state), entry.ref)
    {
      entry.lastPacket, entry.descriptor, entry.domainEntry := None, None, null;
      Commit(entry);
    }

    method Describe(entry: SignalEntry, descriptor: Option<Descriptor>)
      requires Valid() && Owns(entry)
      modifies this`state, entry
      ensures Valid() && state == Put(old(state), entry.ref, Described(old(state).arena[entry.ref], descriptor))
    {
      entry.lastPacket, entry.descriptor := None, descriptor;
      Commit(entry);
    }

    /** The domain is known: the metadata is announced, or the signal is published or deferred. */
    method SettleEntry(entry: SignalEntry, domain: SignalEntry?)
      requires Valid() && Owns(entry) && entry.descriptor.Some?
      requires domain != null ==> domain != entry && Owns(domain)
      modifies this, device, arena
      ensures Valid() && Grown()
      ensures state == Settle(old(state), entry.ref, if domain == null then None else Some(domain.ref))
    {
      hide Publish, Put, Register, LinkId, MarkPublished, PublishDependents, Unpublished;
      entry.domainEntry := domain;
      Commit(entry);
      if entry.isPublished {
        EmitDescriptorChangedEvents(entry);
      } else if domain != null && !domain.isPublished {
        ArmInitialFetchSweep();
      } else {
        PublishSignalEntry(entry);
      }
    }

    lemma TrackedShape(entry: SignalEntry)
      requires Valid() && Tracks(entry)
      ensures Refs(state) && Owns(entry) && Tracked(state, entry.ref) && state.arena[entry.ref].id == entry.id
    {
    }

    method OnRemoteSignalMetadataChanged(entry: SignalEntry, meta: Metadata, connection: Connection)
      requires Valid() && Tracks(entry)
      modifies this, device, arena
      ensures Valid() && Grown() && state == MetadataChanged(old(state), entry.ref, meta, connection)
      decreases connection.Keys - state.signals.Keys, 5
    {
      hide Valid, ValidBut, Refs, Tracked, Described, Resolve, Settle, FindDomain, FindTime, Reject, MetadataChanged,
        ExtendsBut;
      TrackedShape(entry);
      MetadataUnfolds(state, entry.ref, meta, connection);
      if meta.descriptor.None? {
        RejectMetadata(entry);
        return;
      }
      var lookup := LookUpDomain(entry, meta, connection);
      if lookup.Malformed? {
        RejectMetadata(entry);
        return;
      }
      Describe(entry, meta.descriptor);
      var domain := ResolveDomainEntry(entry, lookup, connection);
      Viewed(entry);
      SettleEntry(entry, domain);
    }

    // ----- data --------------------------------------------------------------------------

    method SendPacket(entry: SignalEntry, packet: Packet)
      requires Valid() && Owns(entry)
      modifies this`outbox, this`state, entry
      ensures Valid() && state == ClientEvents.SendPacket(old(state), entry.ref, packet)
    {
      entry.lastPacket := Some(packet);
      Commit(entry);
      Emit(Data(entry.id, packet));
    }

    method SendDomainPacket(entry: SignalEntry, value: int, count: nat) returns (domainPacket: Option<Packet>)
      requires Valid() && Owns(entry)
      modifies this`outbox, this`state, arena
      ensures Valid() && (state, domainPacket) == DomainPacketFor(old(state), entry.ref, value, count)
    {
      hide ClientEvents.SendPacket;
      var domain := entry.domainEntry;
      if domain == null || domain.descriptor.None? {
        return None;
      }
      if domain.descriptor.value.IsLinear() && (domain.lastPacket.None? || domain.lastPacket.value.offset != Some(value)) {
        domainPacket := Some(Packet(domain.descriptor, count, Some(value), None));
        SendPacket(domain, domainPacket.value);
      } else {
        domainPacket := domain.lastPacket;
      }
    }

    method OnRemoteSignalDataReceived(entry: SignalEntry, value: int, count: nat)
      requires Valid() && Tracks(entry)
      modifies this`outbox, this`state, arena
      ensures Valid() && state == DataReceived(old(state), entry.id, value, count)
    {
      hide ValidBut, Refs, DomainPacketFor, ClientEvents.SendPacket;
      Filed(entry.id);
      if !entry.isSubscribed {
        return;
      }
      var descriptor := entry.descriptor;
      var domainPacket := SendDomainPacket(entry, value, count);
      SendPacket(entry, Packet(descriptor, count, None, domainPacket));
    }

    // ----- the timer ---------------------------------------------------------------------

    /** The effect of a sweep on an entry that it does not publish. */
    method CountSweep(entry: SignalEntry) returns (retry: bool)
      requires Valid() && Owns(entry)
      modifies this`state, entry
      ensures Valid() && state == Put(old(state), entry.ref, SweptForm(old(state).arena[entry.ref]))
      ensures retry == Retries(old(state).arena[entry.ref])
    {
      hide SweptForm, Retries;
      Viewed(entry);
      retry := entry.CountSweep();
      Commit(entry);
    }

    method SweepSignal(entry: SignalEntry) returns (retry: bool)
      requires Valid() && Owns(entry)
      modifies this, device, arena
      ensures Valid() && arena == old(arena) && signals == old(signals)
      ensures state == SweepEntry(old(state), entry.ref) && retry == Retries(old(state).arena[entry.ref])
    {
      hide Publish, SweptForm, Retries;
      var ends := !entry.isPublished && entry.descriptor.Some? && entry.sweeps + 1 >= 2;
      Viewed(entry);
      retry := CountSweep(entry);
      if ends {
        SweptStillDeferred(old(state).arena[entry.ref]);
        PublishSignalEntry(entry);
      }
    }

    method OnInitialFetchSweep(aborted: bool)
      requires Valid()
      modifies this, device, arena
      ensures Valid() && arena == old(arena) && signals == old(signals)
      ensures state == if aborted then old(state) else Sweep(old(state))
    {
      hide ValidBut, SweepAll, AnyPending, Arm, ClientState.SetTimer;
      if aborted {
        return;
      }
      var retrying := SweepSignals();
      if retrying {
        SetTimer(ResubscribeDue);
      } else {
        Disarm();
        var pending := AnyInitialFetchPending();
        if pending {
          ArmInitialFetchSweep();
        }
      }
    }

    method Disarm()
      requires Valid()
      modifies this`initialFetchSweepArmed, this`state
      ensures Valid() && state == old(state).(armed := false)
    {
      initialFetchSweepArmed := false;
      state := state.(armed := false);
    }

    method SweepSignals() returns (retrying: bool)
      requires Valid()
      modifies this, device, arena
      ensures Valid() && arena == old(arena) && signals == old(signals)
      ensures (state, retrying) == SweepAll(old(state), Order(old(state)))
    {
      hide Valid, ValidBut, SweepAll, SweepEntry, Refs, OrderedKeys.Less;
      ghost var s := state;
      StateShape();
      var keys := OrderedKeys.Sorted(signals.Keys);
      retrying := false;
      for i := 0 to |keys|
        invariant Valid() && arena == old(arena) && signals == old(signals)
        invariant Refs(state) && state.signals == s.signals
        invariant SweptSoFar(s, state, keys, i, retrying)
      {
        ghost var before := state;
        Filed(keys[i]);
        var retry := SweepSignal(signals[keys[i]]);
        SweepUnfolds(s, before, state, keys, i, retrying, retry);
        StateShape();
        retrying := retrying || retry;
      }
      SweepEnds(s, state, keys, retrying);
    }

    method OnInitialFetchResubscribe(aborted: bool)
      requires Valid()
      modifies this, arena
      ensures Valid() && arena == old(arena) && signals == old(signals)
      ensures state == if aborted then old(state) else Resubscribe(old(state))
    {
      hide ValidBut, ResubscribeAll, AnyPending, Arm;
      if aborted {
        return;
      }
      Disarm();
      var pending := ResubscribeSignals();
      if !pending {
        pending := AnyInitialFetchPending();
      }
      if pending {
        ArmInitialFetchSweep();
      }
    }

    method ResubscribeSignals() returns (pending: bool)
      requires Valid()
      modifies this`state, arena
      ensures Valid() && (state, pending) == ResubscribeAll(old(state), Order(old(state)))
    {
      hide Valid, ValidBut, ResubscribeAll, Refs, OrderedKeys.Less, OrderedKeys.Sorted;
      ghost var s := state;
      StateShape();
      var keys := OrderedKeys.Sorted(signals.Keys);
      pending := false;
      for i := 0 to |keys|
        invariant Valid()
        invariant Refs(state) && state.signals == s.signals
        invariant ResentSoFar(s, state, keys, i, pending)
      {
        ghost var before := state;
        Filed(keys[i]);
        var entry := signals[keys[i]];
        var due := entry.fetchState == AwaitingRetry && entry.descriptor.None?;
        if due {
          Retry(entry);
        }
        ResubscribeUnfolds(s, before, state, keys, i, pending);
        StateShape();
        pending := pending || due;
      }
      ResubscribeEnds(s, state, keys, pending);
    }

    method Retry(entry: SignalEntry)
      requires Valid() && Owns(entry)
      modifies this`state, entry
      ensures Valid() && state == Put(old(state), entry.ref, Retried(old(state).arena[entry.ref]))
    {
      entry.fetchState := Fetching;
      entry.Subscribe();
      entry.ledger := entry.ledger.(episode := entry.ledger.episode + 1);
      Commit(entry);
    }

    /** The outstanding wait is over; without one nothing happens. */
    method OnTimer()
      requires Valid()
      modifies this, device, arena
      ensures Valid() && arena == old(arena) && signals == old(signals)
      ensures state == Fire(old(state))
    {
      hide Sweep, Resubscribe;
      var due := initialFetchTimer;
      initialFetchTimer := Idle;
      state := state.(timer := Idle);
      match due
      case Idle =>
      case SweepDue => OnInitialFetchSweep(false);
      case ResubscribeDue => OnInitialFetchResubscribe(false);
    }

    // ----- the I/O thread ----------------------------------------------------------------

    /** Runs the handler of one event; handlers run one at a time, and an entry out of the map gets no events. */
    method Handle(event: Event)
      requires Valid()
      modifies this, device, arena
      ensures Valid() && Grown() && state == Step(old(state), event)
    {
      hide ValidBut, Refs, Available, Unavailable, Subscribed, Unsubscribed, MetadataChanged, DataReceived,
        AppSubscribe, AppUnsubscribe, Fire;
      match event
      case EvAvailable(id) => OnRemoteSignalAvailable(id);
      case EvUnavailable(id) => OnRemoteSignalUnavailable(id);
      case EvAppSubscribe(id) => SubscribeRemoteSignal(id);
      case EvAppUnsubscribe(id) => UnsubscribeRemoteSignal(id);
      case EvTimer => OnTimer();
      case _ => HandleSignalEvent(event);
    }

    method HandleSignalEvent(event: Event)
      requires Valid()
      requires event.EvSubscribed? || event.EvUnsubscribed? || event.EvMetadata? || event.EvData?
      modifies this, device, arena
      ensures Valid() && Grown() && state == Step(old(state), event)
    {
      hide ValidBut, Refs, MetadataChanged, Publish;
      Filed(event.id);
      if event.id !in signals {
        return;
      }
      var entry := signals[event.id];
      match event
      case EvSubscribed(_) => OnRemoteSignalSubscribed(entry);
      case EvUnsubscribed(_) => OnRemoteSignalUnsubscribed(entry);
      case EvMetadata(_, meta, connection) => OnRemoteSignalMetadataChanged(entry, meta, connection);
      case EvData(_, value, count) => OnRemoteSignalDataReceived(entry, value, count);
    }
  }
}
