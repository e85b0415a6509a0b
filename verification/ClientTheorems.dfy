/**
 What holds in every state the streaming client can reach, and along every run. Where a statement
 asks for `Refs` of a reachable state it is to make sense of its own terms: every reachable state
 has it, as `ReachableInv` says.
 */
module ClientTheorems {
  import opened Wrappers
  import opened Descriptors
  import opened ClientState
  import opened ClientEvents
  import opened ClientInvariant
  import opened ClientSafety
  import opened ClientFrame
  import DeviceMirror
  import OrderedKeys

  // ----- availability --------------------------------------------------------------------

  /** Position `j` announces `d`, and `d` is not withdrawn from there up to `end`. */
  predicate StandsFrom(notices: seq<Notice>, d: nat, j: nat, end: nat)
    requires end <= |notices|
  {
    && j < end
    && notices[j].Announced? && notices[j].ref == d
    && forall k :: j < k < end ==> notices[k] != Withdrawn(d)
  }

  lemma {:induction false} RegisteredStands(notices: seq<Notice>, d: nat)
    ensures d in Registered(notices) <==> exists j :: 0 <= j < |notices| && StandsFrom(notices, d, j, |notices|)
  {
    if notices != [] {
      var before := notices[..|notices| - 1];
      var last := notices[|notices| - 1];
      RegisteredStands(before, d);
      if last.Announced? && last.ref == d {
        assert StandsFrom(notices, d, |notices| - 1, |notices|);
      } else if last != Withdrawn(d) {
        forall j | 0 <= j < |before|
          ensures StandsFrom(notices, d, j, |notices|) == StandsFrom(before, d, j, |before|)
        {
          assert notices[j] == before[j];
          if StandsFrom(before, d, j, |before|) {
            forall k | j < k < |notices|
              ensures notices[k] != Withdrawn(d)
            {
              assert k < |before| ==> notices[k] == before[k];
            }
          }
          assert forall k :: j < k < |before| ==> before[k] == notices[k];
        }
      }
    }
  }

  lemma {:induction false} LinkRegisteredAt(notices: seq<Notice>, i: nat)
    requires LinksRegistered(notices) && i < |notices| && notices[i].Announced? && notices[i].link.Some?
    ensures notices[i].link.value in Registered(notices[..i])
  {
    var before := notices[..|notices| - 1];
    if i == |notices| - 1 {
    } else {
      LinkRegisteredAt(before, i);
      assert before[..i] == notices[..i];
    }
  }

  /** An announcement with a domain link comes after the domain's own, with no withdrawal of it in between. */
  lemma LinkFollowsDomain(s: State, i: nat)
    requires Reachable(s) && i < |s.notices| && s.notices[i].Announced? && s.notices[i].link.Some?
    ensures exists j :: 0 <= j < i && StandsFrom(s.notices, s.notices[i].link.value, j, i)
  {
    var notices := s.notices;
    ReachableInv(s);
    LinkRegisteredAt(notices, i);
    var d := notices[i].link.value;
    RegisteredStands(notices[..i], d);
    var j :| 0 <= j < i && StandsFrom(notices[..i], d, j, i);
    assert StandsFrom(notices, d, j, i) by {
      forall k | j < k < i
        ensures notices[k] != Withdrawn(d)
      {
        assert notices[k] == notices[..i][k];
      }
    }
  }

  lemma {:induction false} AnnouncedEarlier(notices: seq<Notice>, i: nat)
    requires i < |notices| && notices[i].Announced?
    ensures notices[i].ref in EverAnnounced(notices)
  {
    if i < |notices| - 1 {
      AnnouncedEarlier(notices[..|notices| - 1], i);
    }
  }

  lemma {:induction false} OnceMeansDistinct(notices: seq<Notice>, i: nat, j: nat)
    requires AnnouncedOnce(notices) && i < j < |notices| && notices[i].Announced? && notices[j].Announced?
    ensures notices[i].ref != notices[j].ref
  {
    var before := notices[..|notices| - 1];
    if j == |notices| - 1 {
      AnnouncedEarlier(before, i);
    } else {
      OnceMeansDistinct(before, i, j);
    }
  }

  /** Every entry is announced at most once in its life. */
  lemma AnnouncedAtMostOnce(s: State, i: nat, j: nat)
    requires Reachable(s) && i < j < |s.notices| && s.notices[i].Announced? && s.notices[j].Announced?
    ensures s.notices[i].ref != s.notices[j].ref
  {
    ReachableInv(s);
    OnceMeansDistinct(s.notices, i, j);
  }

  /** openDAQ's available signals, the device's mirror and the published entries are the same signals. */
  lemma MirrorAgreement(s: State, id: string)
    requires Reachable(s)
    ensures Refs(s)
    ensures
      && (id in s.available <==> id in s.signals && s.arena[s.signals[id]].published)
      && (id in s.device.streaming <==> id in s.signals && s.arena[s.signals[id]].published)
      && (id in s.device.streaming <==> exists j :: 0 <= j < |s.device.folder| && s.device.folder[j].id == id)
      && s.deviceFailures == 0
  {
    ReachableInv(s);
    if id in s.device.streaming {
      assert s.device.streaming[id] in s.device.folder;
    }
  }

  lemma {:induction false} OnlyLinkGiven(notices: seq<Notice>, i: nat)
    requires AnnouncedOnce(notices) && i < |notices| && notices[i].Announced?
    ensures LinkGiven(notices, notices[i].ref) == notices[i].link
  {
    var before := notices[..|notices| - 1];
    if i < |notices| - 1 {
      OnlyLinkGiven(before, i);
      AnnouncedEarlier(before, i);
    }
  }

  /**
   In every reachable state with plain ids, an announcement that has not been withdrawn is mirrored
   by the device with the very domain signal it linked to, or with none.
   */
  lemma StandingLinksMirrored(s: State, i: nat)
    requires Reachable(s) && PlainIds(s) && i < |s.notices| && s.notices[i].Announced?
    requires StandsFrom(s.notices, s.notices[i].ref, i, |s.notices|)
    ensures
      var r, link := s.notices[i].ref, s.notices[i].link;
      && r < |s.arena| && s.arena[r].id in s.device.streaming
      && (link.Some? ==> link.value < |s.arena|)
      && s.device.streaming[s.arena[r].id].domain == if link.Some? then Some(s.arena[link.value].id) else None
  {
    hide Reachable, AllLocal, Waiting, Woken;
    ReachableInv(s);
    RegisteredStands(s.notices, s.notices[i].ref);
    OnlyLinkGiven(s.notices, i);
    assert LinkMirrored(s, s.notices[i].ref);
  }

  /** A signal with a descriptor that is not announced waits for a domain that is not announced. */
  lemma DeferredWaits(s: State, id: string)
    requires Reachable(s) && Refs(s) && id in s.signals && s.arena[s.signals[id]].Deferred()
    ensures
      var domain := s.arena[s.signals[id]].domain;
      s.armed && domain.Some? && !s.arena[domain.value].published
  {
    ReachableInv(s);
  }

  // ----- the timer and the wire ----------------------------------------------------------

  /** Whatever still needs the sweep keeps it armed; armed means one outstanding wait, and none is ever cancelled. */
  lemma NoLostWakeup(s: State)
    requires Reachable(s)
    ensures Refs(s)
    ensures AnyPending(s) ==> s.armed
    ensures s.armed <==> s.timer != Idle
    ensures s.cancelled == 0
  {
    ReachableInv(s);
  }

  /** The wire calls made for an entry, its retries, and its state always add up. */
  lemma EntryConsistent(s: State, r: nat)
    requires Reachable(s) && r < |s.arena|
    ensures
      var e := s.arena[r];
      && e.ledger.subscribes + e.ledger.appUnsubscribes ==
           e.ledger.unsubscribes + (if e.fetch.Fetching? || e.fetch.Held? then 1 else 0) + e.ledger.takeovers + e.ledger.appSubscribes
      && e.ledger.episode <= 3
      && (!e.published && e.fetch == NotFetching && e.ledger.episode > 0 ==> e.ledger.episode == 3 && e.ledger.missed == 3)
      && (e.fetch.Fetching? ==> e.attempts == e.ledger.episode)
      && (e.fetch.AwaitingRetry? ==> e.attempts == e.ledger.episode + 1)
      && (e.ledger.missed <= 3 && (e.ledger.missed == 3 ==> !e.fetch.Fetching? && !e.fetch.AwaitingRetry?))
      && (e.fetch.Held? || e.subscribed ==> e.published)
      && (e.published ==> e.fetch.NotFetching? || e.fetch.Held?)
      && (e.lastPacket.Some? ==> e.lastPacket.value.descriptor == e.descriptor)
  {
    ReachableInv(s);
    assert Local(s.arena[r]);
  }

  /** Between two unsubscribe acknowledgements of an entry it was marked subscribed. */
  lemma AckedOnceMarked(s: State, r: nat, i: nat, j: nat)
    requires Reachable(s) && r < |s.arena|
    requires
      var marks := s.arena[r].ledger.marks;
      i < j < |marks| && !marks[i] && !marks[j]
    ensures exists k :: i < k < j && s.arena[r].ledger.marks[k]
  {
    ReachableInv(s);
    assert Local(s.arena[r]);
    assert s.arena[r].ledger.marks[i + 1];
  }

  // ----- descriptor events ---------------------------------------------------------------

  /** A published signal, other than `r`, that has `r` as its domain. */
  ghost predicate Uses(s: State, id: string, r: nat)
    requires Refs(s) && id in s.signals
  {
    s.signals[id] != r && s.arena[s.signals[id]].domain == Some(r) && s.arena[s.signals[id]].published
  }

  lemma {:induction false} DomainEventsFor(s: State, r: nat, keys: seq<string>, id: string)
    requires Refs(s) && r < |s.arena| && s.arena[r].descriptor.Some?
    requires forall k :: k in keys ==> k in s.signals
    requires forall i, j :: 0 <= i < j < |keys| ==> keys[i] != keys[j]
    ensures
      multiset(DomainEvents(s, r, keys))[DomainDescriptor(id, s.arena[r].descriptor.value)]
      == if id in keys && Uses(s, id, r) then 1 else 0
    ensures forall event :: event in DomainEvents(s, r, keys) ==>
      event.DomainDescriptor? && event.descriptor == s.arena[r].descriptor.value
    decreases |keys|
  {
    if keys != [] {
      DomainEventsFor(s, r, keys[1..], id);
      var d, rest := s.signals[keys[0]], DomainEvents(s, r, keys[1..]);
      var first := if Uses(s, keys[0], r) then [DomainDescriptor(keys[0], s.arena[r].descriptor.value)] else [];
      assert s.arena[d].id == keys[0];
      assert DomainEvents(s, r, keys) == first + rest;
      hide Refs, DomainEvents, Uses;
      assert keys == [keys[0]] + keys[1..];
      assert id in keys[1..] ==> id != keys[0];
    }
  }

  /** The events for the users of a domain come in the order of their ids. */
  ghost predicate IdsAscend(events: seq<Output>)
  {
    forall i, j :: 0 <= i < j < |events| && events[i].DomainDescriptor? && events[j].DomainDescriptor? ==>
      OrderedKeys.Less(events[i].id, events[j].id)
  }

  lemma {:induction false} DomainEventsAscend(s: State, r: nat, keys: seq<string>)
    requires Refs(s) && r < |s.arena| && s.arena[r].descriptor.Some? && forall k :: k in keys ==> k in s.signals
    requires forall i, j :: 0 <= i < j < |keys| ==> OrderedKeys.Less(keys[i], keys[j])
    ensures IdsAscend(DomainEvents(s, r, keys))
    ensures forall event :: event in DomainEvents(s, r, keys) ==> event.DomainDescriptor? && event.id in keys
    decreases |keys|
  {
    if keys != [] {
      DomainEventsAscend(s, r, keys[1..]);
      var rest := DomainEvents(s, r, keys[1..]);
      assert s.arena[s.signals[keys[0]]].id == keys[0];
      forall i | 0 <= i < |rest|
        ensures rest[i].DomainDescriptor? && OrderedKeys.Less(keys[0], rest[i].id)
      {
        assert rest[i] in rest;
        var j :| 0 <= j < |keys[1..]| && keys[1..][j] == rest[i].id;
        assert keys[j + 1] == rest[i].id;
      }
    }
  }

  /**
   The events for a descriptor are one for the signal itself and then one for each published user of
   it as a domain, in the order of their ids.
   */
  lemma DescriptorAnnouncedToUsers(s: State, r: nat, id: string)
    requires Refs(s) && Tracked(s, r) && s.arena[r].descriptor.Some?
    ensures
      var descriptor := s.arena[r].descriptor.value;
      var events := EmitDescriptor(s, r).outbox[|s.outbox|..];
      && s.outbox <= EmitDescriptor(s, r).outbox
      && events != [] && events[0] == ValueDescriptor(s.arena[r].id, descriptor)
      && (forall i :: 0 < i < |events| ==> events[i].DomainDescriptor? && events[i].descriptor == descriptor)
      && IdsAscend(events)
      && multiset(events)[DomainDescriptor(id, descriptor)] == if id in s.signals && Uses(s, id, r) then 1 else 0
  {
    hide DomainEvents;
    DomainEventsAscend(s, r, Order(s));
    OrderedKeys.SortedDistinct(s.signals.Keys);
    DomainEventsFor(s, r, Order(s), id);
    var first, rest := [ValueDescriptor(s.arena[r].id, s.arena[r].descriptor.value)], DomainEvents(s, r, Order(s));
    var events := EmitDescriptor(s, r).outbox[|s.outbox|..];
    assert events == first + rest;
    forall i | 0 < i < |events|
      ensures events[i] in rest
    {
      assert events[i] == rest[i - 1];
    }
  }

  // ----- takeover ------------------------------------------------------------------------

  /** A published entry without a fetch subscription. */
  ghost predicate Settled(s: State, r: nat)
  {
    r < |s.arena| && s.arena[r].published && s.arena[r].fetch.NotFetching?
  }

  /** From s to t the entry stays settled and no unsubscribe is sent for it. */
  ghost predicate Untouched(s: State, t: State, r: nat)
  {
    Settled(s, r) && Settled(t, r) && t.arena[r].id == s.arena[r].id
    && t.arena[r].ledger.unsubscribes == s.arena[r].ledger.unsubscribes
    && t.arena[r].ledger.appUnsubscribes == s.arena[r].ledger.appUnsubscribes
  }

  lemma CascadeUntouched(s: State, t: State, r: nat)
    requires Settled(s, r) && Cascade(s, t)
    ensures Untouched(s, t, r)
  {
  }

  lemma MetadataUntouched(s: State, q: nat, meta: Metadata, connection: Connection, r: nat)
    requires Refs(s) && Tracked(s, q) && Settled(s, r)
    ensures Untouched(s, MetadataChanged(s, q, meta, connection), r)
  {
    hide MetadataChanged;
    MetadataHandled(s, q, meta, connection);
    var t := MetadataChanged(s, q, meta, connection);
    assert r != q ==> AtMostPublished(s.arena[r], t.arena[r]);
    assert r == q ==> SameCalls(s.arena[r], t.arena[r]);
  }

  lemma {:induction false} SweepUntouched(s: State, keys: seq<string>, r: nat)
    requires Refs(s) && Settled(s, r) && forall k :: k in keys ==> k in s.signals
    ensures Untouched(s, SweepAll(s, keys).0, r)
    decreases |keys|
  {
    if keys != [] {
      var q := s.signals[keys[0]];
      var swept := Put(s, q, SweptForm(s.arena[q]));
      PutKeepsRefs(s, q, SweptForm(s.arena[q]));
      assert Untouched(s, swept, r);
      if DeferralEnds(s.arena[q]) {
        CascadeUntouched(swept, Publish(swept, q), r);
      }
      SweepUntouched(SweepEntry(s, q), keys[1..], r);
    }
  }

  lemma {:induction false} ResubscribeUntouched(s: State, keys: seq<string>, r: nat)
    requires Refs(s) && Settled(s, r) && forall k :: k in keys ==> k in s.signals
    ensures Untouched(s, ResubscribeAll(s, keys).0, r)
    decreases |keys|
  {
    if keys != [] {
      var q := s.signals[keys[0]];
      if DueForRetry(s.arena[q]) {
        PutKeepsRefs(s, q, Retried(s.arena[q]));
        ResubscribeUntouched(Put(s, q, Retried(s.arena[q])), keys[1..], r);
      } else {
        ResubscribeUntouched(s, keys[1..], r);
      }
    }
  }

  lemma RequestUntouched(s: State, event: Event, r: nat)
    requires Refs(s) && Settled(s, r)
    requires event.EvAppSubscribe?
    ensures Untouched(s, Step(s, event), r)
  {
    hide Publish, NeedsDomainPacket, Fire;
  }

  lemma DataUntouched(s: State, id: string, value: int, count: nat, r: nat)
    requires Refs(s) && Settled(s, r)
    ensures Untouched(s, DataReceived(s, id, value, count), r)
  {
  }

  lemma SweepFiredUntouched(s: State, r: nat)
    requires Refs(s) && Settled(s, r)
    ensures Untouched(s, Sweep(s), r)
  {
    SweepUntouched(s, Order(s), r);
  }

  lemma ResubscribeFiredUntouched(s: State, r: nat)
    requires Refs(s) && Settled(s, r)
    ensures Untouched(s, Resubscribe(s), r)
  {
    ResubscribeUntouched(s.(armed := false), Order(s), r);
  }

  lemma FireUntouched(s: State, r: nat)
    requires Refs(s) && Settled(s, r)
    ensures Untouched(s, Fire(s), r)
  {
    var fired := s.(timer := Idle);
    if s.timer.SweepDue? {
      SweepFiredUntouched(fired, r);
    } else if s.timer.ResubscribeDue? {
      ResubscribeFiredUntouched(fired, r);
    }
  }

  lemma AvailabilityUntouched(s: State, id: string, r: nat)
    requires Refs(s) && Settled(s, r)
    ensures Untouched(s, Available(s, id), r) && Untouched(s, Unavailable(s, id), r)
  {
  }

  lemma AckUntouched(s: State, id: string, r: nat)
    requires Refs(s) && Settled(s, r)
    ensures Untouched(s, Subscribed(s, id), r) && Untouched(s, Unsubscribed(s, id), r)
  {
  }

  lemma StepUntouched(s: State, event: Event, r: nat)
    requires Refs(s) && Settled(s, r) && !event.EvAppUnsubscribe?
    ensures Untouched(s, Step(s, event), r)
  {
    match event
    case EvAvailable(id) => AvailabilityUntouched(s, id, r);
    case EvUnavailable(id) => AvailabilityUntouched(s, id, r);
    case EvSubscribed(id) => AckUntouched(s, id, r);
    case EvUnsubscribed(id) => AckUntouched(s, id, r);
    case EvMetadata(id, meta, connection) =>
      if id in s.signals {
        MetadataUntouched(s, s.signals[id], meta, connection, r);
      }
    case EvData(id, value, count) => DataUntouched(s, id, value, count, r);
    case EvAppSubscribe(_) => RequestUntouched(s, event, r);
    case EvTimer => FireUntouched(s, r);
  }

  /** Does the event ask for the entry to be unsubscribed while it is tracked and marked subscribed? */
  ghost predicate AsksUnsubscribe(s: State, event: Event, r: nat)
    requires Refs(s)
  {
    event.EvAppUnsubscribe? && event.id in s.signals && s.signals[event.id] == r && s.arena[r].subscribed
  }

  /** How often the events, as they run from s, do so. */
  ghost function Requested(s: State, r: nat, events: seq<Event>): nat
    requires Refs(s)
    decreases |events|
  {
    if events == [] then 0
    else (if AsksUnsubscribe(s, events[0], r) then 1 else 0) + Requested(Step(s, events[0]), r, events[1..])
  }

  /** From s to t the entry stays settled, and exactly `n` unsubscribes were sent for it, all at the application's request. */
  ghost predicate OnlyRequested(s: State, t: State, r: nat, n: nat)
  {
    && Settled(s, r) && Settled(t, r) && t.arena[r].id == s.arena[r].id
    && t.arena[r].ledger.unsubscribes == s.arena[r].ledger.unsubscribes + n
    && t.arena[r].ledger.appUnsubscribes == s.arena[r].ledger.appUnsubscribes + n
  }

  lemma UnsubscribeRequested(s: State, event: Event, r: nat)
    requires Refs(s) && Settled(s, r) && event.EvAppUnsubscribe?
    ensures OnlyRequested(s, Step(s, event), r, if AsksUnsubscribe(s, event, r) then 1 else 0)
  {
  }

  lemma StepOnlyRequested(s: State, event: Event, r: nat)
    requires Refs(s) && Settled(s, r)
    ensures OnlyRequested(s, Step(s, event), r, if AsksUnsubscribe(s, event, r) then 1 else 0)
  {
    hide AppUnsubscribe, AppSubscribe, Available, Unavailable, Subscribed, Unsubscribed, MetadataChanged,
      DataReceived, Fire, Refs;
    if event.EvAppUnsubscribe? {
      UnsubscribeRequested(s, event, r);
    } else {
      StepUntouched(s, event, r);
    }
  }

  lemma {:induction false} RunOnlyRequested(s: State, events: seq<Event>, r: nat)
    requires Refs(s) && Settled(s, r)
    ensures OnlyRequested(s, Run(s, events), r, Requested(s, r, events))
    decreases |events|
  {
    hide Step, Refs, AsksUnsubscribe;
    if events != [] {
      StepOnlyRequested(s, events[0], r);
      RunOnlyRequested(Step(s, events[0]), events[1..], r);
    }
  }

  lemma TakeoverReplays(s: State, id: string)
    requires Refs(s) && id in s.signals
    requires
      var e := s.arena[s.signals[id]];
      e.published && e.fetch.Held? && !e.subscribed
    ensures
      var descriptor := s.arena[s.signals[id]].descriptor;
      s.outbox + [Ack(id, true)] + (if descriptor.Some? then [ValueDescriptor(id, descriptor.value)] else []) <= AppSubscribe(s, id).outbox
  {
    hide DomainEvents;
  }

  /**
   Whatever events follow, the unsubscribes sent for a published entry without a fetch are exactly
   those the application asks for while the entry is tracked and marked, one for each request: no
   sweep, retry or remote event ever sends one.
   */
  lemma SettledStaysUntouched(s: State, events: seq<Event>, t: State, r: nat)
    requires Refs(s) && Settled(s, r) && Reaches(s, events, t)
    ensures OnlyRequested(s, t, r, Requested(s, r, events))
  {
    hide Run, Reaches, Settled, OnlyRequested, Requested;
    ReachesExactlyRun(s, events, t);
    RunOnlyRequested(s, events, r);
  }

  /**
   A takeover sends nothing, acknowledges the subscription and replays the cached descriptor; from
   then on, whatever happens, only the application's own requests unsubscribe the entry.
   */
  lemma TakeoverSafety(s: State, id: string, taken: State, events: seq<Event>, t: State)
    requires Reachable(s) && Refs(s) && id in s.signals
    requires s.arena[s.signals[id]].fetch.Held? && !s.arena[s.signals[id]].subscribed
    requires Follows(s, EvAppSubscribe(id), taken) && Reaches(taken, events, t)
    ensures
      var r := s.signals[id];
      var descriptor := s.arena[r].descriptor;
      && r < |taken.arena|
      && taken.arena[r].subscribed
      && taken.arena[r].ledger.subscribes == s.arena[r].ledger.subscribes
      && taken.arena[r].ledger.unsubscribes == s.arena[r].ledger.unsubscribes
      && taken.arena[r].ledger.takeovers == s.arena[r].ledger.takeovers + 1
      && s.outbox + [Ack(id, true)] + (if descriptor.Some? then [ValueDescriptor(id, descriptor.value)] else []) <= taken.outbox
      && OnlyRequested(taken, t, r, Requested(taken, r, events))
  {
    hide Reaches, Reachable, DomainEvents, Requested;
    ReachableInv(s);
    var r := s.signals[id];
    assert Local(s.arena[r]);
    TakeoverReplays(s, id);
    SettledStaysUntouched(taken, events, t, r);
  }
}
