/** What each event passes up to openDAQ, and what metadata leaves in its entry, said without the handlers. */
module ClientOutputs {
  import opened Wrappers
  import opened Descriptors
  import opened ClientState
  import opened ClientEvents
  import opened ClientInvariant
  import opened ClientSafety
  import opened ClientFrame
  import opened ClientLookup
  import opened ClientTheorems
  import ClientCascade
  import ClientDiscovery
  import ClientMetadata
  import OrderedKeys

  // ----- metadata ------------------------------------------------------------------------

  /** Discovering a hidden signal leaves the entries there were as they were. */
  lemma DiscoveryLeavesOthers(s: State, r: nat, id: string, connection: Connection)
    requires Refs(s) && r < |s.arena| && id in connection && id !in s.signals
    ensures
      var t := Discover(s, id, connection);
      r < |t.arena| && t.arena[r] == s.arena[r]
  {
    hide FindDomain, MetadataChanged, ClientDiscovery.Chained, ClientDiscovery.Blocked, ClientDiscovery.Usable,
      ClientDiscovery.ChainEnd, ClientDiscovery.BlockedEnd, ClientDiscovery.ChainTracked, ClientDiscovery.ChainNotices;
    var created := Create(s, id);
    var n := |s.arena|;
    ClientDiscovery.ChainStep(s, s, r, id);
    assert created.signals.Keys == s.signals.Keys + {id};
    assert ClientDiscovery.View(created).Keys == created.signals.Keys;
    if ClientDiscovery.Usable(created.signals.Keys, connection, id, connection[id]) {
      UsableIsSome(created.signals.Keys, connection, id, connection[id]);
      var meta := connection[id].value;
      var chain := ClientDiscovery.LeadsSomewhere(ClientDiscovery.View(created), connection, id, meta);
      if ClientDiscovery.Chained(ClientDiscovery.View(created), connection, id, meta, chain) {
        ClientDiscovery.LoneChain(created, n, meta, connection, chain);
      } else {
        ClientDiscovery.BlockedWaits(created, n, meta, connection, chain);
      }
    } else {
      ClientDiscovery.DiscoveredBare(s, id, connection);
    }
  }

  lemma UsableIsSome(tracked: set<string>, connection: Connection, id: string, meta: Option<Metadata>)
    requires ClientDiscovery.Usable(tracked, connection, id, meta)
    ensures meta.Some?
  {
  }

  lemma SettleQuiet(s: State, r: nat, domain: Option<nat>)
    requires Refs(s) && r < |s.arena| && s.arena[r].descriptor.Some? && !s.arena[r].published
    requires domain.Some? ==> domain.value < |s.arena| && domain.value != r
    ensures Settle(s, r, domain).outbox == s.outbox
  {
  }

  /** Metadata of a signal that has not been announced passes nothing up, nor does anything it leads to. */
  lemma {:induction false} UnpublishedQuiet(s: State, r: nat, meta: Metadata, connection: Connection)
    requires Refs(s) && Tracked(s, r) && !s.arena[r].published
    ensures MetadataChanged(s, r, meta, connection).outbox == s.outbox
    decreases connection.Keys - s.signals.Keys
  {
    hide FindDomain, MetadataChanged, Settle, Discover;
    MetadataUnfolds(s, r, meta, connection);
    var lookup := FindDomain(s.signals.Keys, connection.Keys, s.arena[r].id, meta);
    LookupPlaces(s.signals.Keys, connection.Keys, s.arena[r].id, meta);
    if meta.descriptor.Some? && !lookup.Malformed? {
      var known := Put(s, r, Described(s.arena[r], meta.descriptor));
      var (found, domain) := Resolve(known, r, lookup, connection);
      if lookup.Hidden? {
        DiscoveryQuiet(s, known, r, lookup.id, connection);
      }
      SettleQuiet(found, r, domain);
    }
  }

  lemma {:induction false} DiscoveryQuiet(s: State, known: State, r: nat, id: string, connection: Connection)
    requires Refs(s) && Refs(known) && known.signals == s.signals && r < |known.arena|
    requires id in connection && id !in s.signals
    ensures
      var found := Discover(known, id, connection);
      found.outbox == known.outbox && r < |found.arena| && found.arena[r] == known.arena[r]
    decreases connection.Keys - s.signals.Keys, 0
  {
    hide MetadataChanged;
    DiscoveryLeavesOthers(known, r, id, connection);
    if connection[id].Some? {
      assert id in connection.Keys - s.signals.Keys;
      CreatedTracked(known, id);
      UnpublishedQuiet(Create(known, id), |known.arena|, connection[id].value, connection);
    }
  }

  /** t's outputs are `before` and the events for the descriptor of `r`, as the handler emits them. */
  ghost predicate Emitted(before: seq<Output>, t: State, r: nat)
    requires Refs(t)
  {
    && Tracked(t, r) && t.arena[r].descriptor.Some?
    && t.outbox == before + [ValueDescriptor(t.arena[r].id, t.arena[r].descriptor.value)] + DomainEvents(t, r, Order(t))
  }

  /** New metadata of a published signal ends in the events for its descriptor, in the state it leaves. */
  lemma PublishedEmits(s: State, r: nat, meta: Metadata, connection: Connection)
    requires Refs(s) && Tracked(s, r) && s.arena[r].published
    requires meta.descriptor.Some? && !FindDomain(s.signals.Keys, connection.Keys, s.arena[r].id, meta).Malformed?
    ensures
      var t := MetadataChanged(s, r, meta, connection);
      && Emitted(s.outbox, t, r) && t.arena[r].id == s.arena[r].id && t.arena[r].descriptor == meta.descriptor
  {
    hide FindDomain, MetadataChanged, Discover, Emitted, Settle;
    MetadataUnfolds(s, r, meta, connection);
    var lookup := FindDomain(s.signals.Keys, connection.Keys, s.arena[r].id, meta);
    LookupPlaces(s.signals.Keys, connection.Keys, s.arena[r].id, meta);
    var known := Put(s, r, Described(s.arena[r], meta.descriptor));
    var (found, domain) := Resolve(known, r, lookup, connection);
    if lookup.Hidden? {
      DiscoveryQuiet(s, known, r, lookup.id, connection);
    }
    assert Tracked(found, r);
    PublishedSettled(found, r, domain);
  }

  lemma PublishedSettled(s: State, r: nat, domain: Option<nat>)
    requires Refs(s) && Tracked(s, r) && s.arena[r].descriptor.Some? && s.arena[r].published
    requires domain.Some? ==> domain.value < |s.arena| && domain.value != r
    ensures
      var t := Settle(s, r, domain);
      Emitted(s.outbox, t, r) && t.arena[r].id == s.arena[r].id && t.arena[r].descriptor == s.arena[r].descriptor
  {
    var linked := Put(s, r, s.arena[r].(domain := domain));
    PutExtends(s, r, s.arena[r].(domain := domain));
    DomainEventsSame(linked, EmitDescriptor(linked, r), r, Order(linked));
  }

  lemma {:induction false} DomainEventsSame(s: State, t: State, r: nat, keys: seq<string>)
    requires Refs(s) && Refs(t) && r < |s.arena| && s.arena[r].descriptor.Some? && forall k :: k in keys ==> k in s.signals
    requires t.arena == s.arena && t.signals == s.signals
    ensures DomainEvents(t, r, keys) == DomainEvents(s, r, keys)
  {
    if keys != [] {
      DomainEventsSame(s, t, r, keys[1..]);
    }
  }

  /**
   `events` are those for a new descriptor of the signal `id`, in entry `r`: first its own, then one for each
   published signal that has it as its domain, in the order of their ids, and no other.
   */
  ghost predicate AnnounceDescriptor(t: State, id: string, r: nat, descriptor: Descriptor, events: seq<Output>)
    requires Refs(t)
  {
    && events != [] && events[0] == ValueDescriptor(id, descriptor)
    && (forall i :: 0 < i < |events| ==> events[i].DomainDescriptor? && events[i].descriptor == descriptor)
    && IdsAscend(events)
    && (forall user :: multiset(events)[DomainDescriptor(user, descriptor)] == if IsUser(t, user, r) then 1 else 0)
  }

  ghost predicate IsUser(t: State, user: string, r: nat)
    requires Refs(t)
  {
    user in t.signals && t.signals[user] != r && t.arena[t.signals[user]].domain == Some(r) && t.arena[t.signals[user]].published
  }

  lemma EmitAnnounces(before: seq<Output>, t: State, r: nat)
    requires Refs(t) && Emitted(before, t, r)
    ensures before <= t.outbox
    ensures AnnounceDescriptor(t, t.arena[r].id, r, t.arena[r].descriptor.value, t.outbox[|before|..])
  {
    hide DomainEvents;
    var s := t.(outbox := before);
    DomainEventsSame(t, s, r, Order(t));
    assert EmitDescriptor(s, r).outbox == t.outbox;
    forall user
      ensures multiset(t.outbox[|before|..])[DomainDescriptor(user, t.arena[r].descriptor.value)] == if IsUser(t, user, r) then 1 else 0
    {
      DescriptorAnnouncedToUsers(s, r, user);
    }
    DescriptorAnnouncedToUsers(s, r, "");
  }

  /**
   New metadata of a published signal that can be understood is announced: the signal's own event
   first, then one for each published signal that has it as its domain now. Any other metadata passes
   nothing up.
   */
  lemma MetadataOutputs(s: State, id: string, meta: Metadata, connection: Connection, t: State)
    requires Refs(s) && id in s.signals && Follows(s, EvMetadata(id, meta, connection), t)
    ensures Refs(t) && s.outbox <= t.outbox
    ensures
      var r := s.signals[id];
      var events := t.outbox[|s.outbox|..];
      if s.arena[r].published && Understood(s.signals.Keys, id, meta) then
        AnnounceDescriptor(t, id, r, meta.descriptor.value, events)
      else
        events == []
  {
    hide FindDomain, MetadataChanged, AnnounceDescriptor, TimeMalformed, DomainEvents;
    var r := s.signals[id];
    assert s.arena[r].id == id;
    DomainFoundExactly(s.signals.Keys, connection.Keys, id, meta, "");
    if s.arena[r].published {
      if Understood(s.signals.Keys, id, meta) {
        PublishedEmits(s, r, meta, connection);
        EmitAnnounces(s.outbox, t, r);
      } else {
        MetadataUnfolds(s, r, meta, connection);
      }
    } else {
      UnpublishedQuiet(s, r, meta, connection);
    }
  }

  /** The domain that the metadata names, as the entry refers to it. */
  ghost predicate RefersTo(s: State, t: State, id: string, meta: Metadata, connection: Connection, domain: Option<nat>)
    requires Refs(s) && Refs(t)
  {
    && (forall x :: NamesTracked(s.signals.Keys, id, meta, x) ==> domain == Some(s.signals[x]))
    && (forall x :: NamesHidden(s.signals.Keys, connection.Keys, id, meta, x) ==>
          domain == Some(|s.arena|) && x in t.signals && t.signals[x] == |s.arena|)
    && (domain.Some? ==> exists x ::
          NamesTracked(s.signals.Keys, id, meta, x) || NamesHidden(s.signals.Keys, connection.Keys, id, meta, x))
  }

  lemma HiddenFiled(known: State, id: string, connection: Connection)
    requires Refs(known) && id in connection && id !in known.signals
    ensures
      var found := Discover(known, id, connection);
      Refs(found) && id in found.signals && found.signals[id] == |known.arena|
  {
    hide MetadataChanged;
    var created := Create(known, id);
    assert id in created.signals && created.signals[id] == |known.arena|;
    if connection[id].Some? {
      assert Extends(created, Discover(known, id, connection));
    }
  }

  lemma LookupRefers(s: State, t: State, id: string, meta: Metadata, connection: Connection, lookup: Lookup, domain: Option<nat>)
    requires Refs(s) && Refs(t) && lookup == FindDomain(s.signals.Keys, connection.Keys, id, meta) && !lookup.Malformed?
    requires
      match lookup
      case Known(x) => x in s.signals && domain == Some(s.signals[x])
      case Hidden(x) => domain == Some(|s.arena|) && x in t.signals && t.signals[x] == |s.arena|
      case _ => domain == None
    ensures RefersTo(s, t, id, meta, connection, domain)
  {
    hide FindDomain, NamesTracked, NamesHidden;
    forall x
      ensures lookup == Known(x) <==> NamesTracked(s.signals.Keys, id, meta, x)
      ensures lookup == Hidden(x) <==> NamesHidden(s.signals.Keys, connection.Keys, id, meta, x)
    {
      DomainFoundExactly(s.signals.Keys, connection.Keys, id, meta, x);
    }
    if domain.Some? {
      assert NamesTracked(s.signals.Keys, id, meta, lookup.id) || NamesHidden(s.signals.Keys, connection.Keys, id, meta, lookup.id);
    }
  }

  /** The state with nothing but the entry's descriptor, domain and last packet gone. */
  ghost function Forgotten(s: State, r: nat): State
    requires r < |s.arena|
  {
    s.(arena := s.arena[r := s.arena[r].(descriptor := None, domain := None, lastPacket := None)])
  }

  lemma UnderstoodStored(s: State, r: nat, meta: Metadata, connection: Connection)
    requires Refs(s) && Tracked(s, r) && meta.descriptor.Some?
    requires !FindDomain(s.signals.Keys, connection.Keys, s.arena[r].id, meta).Malformed?
    ensures
      var t := MetadataChanged(s, r, meta, connection);
      && r < |t.arena| && t.arena[r].descriptor == meta.descriptor && t.arena[r].lastPacket == None
      && RefersTo(s, t, s.arena[r].id, meta, connection, t.arena[r].domain)
  {
    hide FindDomain, MetadataChanged, Settle, Discover, RefersTo, Cascade;
    MetadataUnfolds(s, r, meta, connection);
    var lookup := FindDomain(s.signals.Keys, connection.Keys, s.arena[r].id, meta);
    LookupPlaces(s.signals.Keys, connection.Keys, s.arena[r].id, meta);
    var known := Put(s, r, Described(s.arena[r], meta.descriptor));
    var (found, domain) := Resolve(known, r, lookup, connection);
    if lookup.Hidden? {
      DiscoveryLeavesOthers(known, r, lookup.id, connection);
      HiddenFiled(known, lookup.id, connection);
    }
    ClientMetadata.SettleKeepsMetadata(found, r, domain);
    assert Extends(found, Settle(found, r, domain));
    LookupRefers(s, Settle(found, r, domain), s.arena[r].id, meta, connection, lookup, domain);
  }

  /**
   Metadata that is understood leaves its descriptor in the entry, with the domain it names and no
   last packet. Any other takes descriptor, domain and last packet from the entry and does nothing else.
   */
  lemma MetadataStored(s: State, id: string, meta: Metadata, connection: Connection, t: State)
    requires Refs(s) && id in s.signals && Follows(s, EvMetadata(id, meta, connection), t)
    ensures Refs(t)
    ensures
      var r := s.signals[id];
      if Understood(s.signals.Keys, id, meta) then
        && r < |t.arena| && t.arena[r].descriptor == meta.descriptor && t.arena[r].lastPacket == None
        && RefersTo(s, t, id, meta, connection, t.arena[r].domain)
      else
        t == Forgotten(s, r)
  {
    hide FindDomain, MetadataChanged, Settle, Discover, RefersTo, TimeMalformed, Cascade;
    var r := s.signals[id];
    assert s.arena[r].id == id;
    DomainFoundExactly(s.signals.Keys, connection.Keys, id, meta, "");
    if Understood(s.signals.Keys, id, meta) {
      UnderstoodStored(s, r, meta, connection);
    } else {
      MetadataUnfolds(s, r, meta, connection);
    }
  }

  // ----- data ----------------------------------------------------------------------------

  /** The packet `p` for data of the entry `e`: its descriptor, the number of samples, and what domain packet. */
  predicate IsDataPacket(e: Entry, p: Packet, count: nat, domain: Option<Packet>)
  {
    p.descriptor == e.descriptor && p.count == count && p.offset == None && p.domain == domain
  }

  /** The last packet of a domain that carries the domain value `value`. */
  predicate Offers(domain: Entry, value: int)
  {
    domain.lastPacket.Some? && domain.lastPacket.value.offset == Some(value)
  }

  /** The new packet for a linear domain. */
  function DomainPacketOf(domain: Entry, value: int, count: nat): Packet
  {
    Packet(domain.descriptor, count, Some(value), None)
  }

  /**
   What data of the marked entry `r` passes up and leaves behind: one packet of its own, attached to no
   domain packet if there is no domain with a descriptor; to the domain's last packet if the domain
   is not linear or that packet carries the value; and otherwise to a new packet of the domain, which
   comes first and is the domain's last packet from then on.
   */
  ghost predicate DataPassed(s: State, r: nat, value: int, count: nat, t: State, p: Packet)
    requires Refs(s) && r < |s.arena|
  {
    var e, domain := s.arena[r], s.arena[r].domain;
    var own := Data(e.id, p);
    if domain.None? || s.arena[domain.value].descriptor.None? then
      && IsDataPacket(e, p, count, None)
      && t == s.(arena := s.arena[r := e.(lastPacket := Some(p))], outbox := s.outbox + [own])
    else
      var d := s.arena[domain.value];
      if !d.descriptor.value.IsLinear() || Offers(d, value) then
        && IsDataPacket(e, p, count, d.lastPacket)
        && t == s.(arena := s.arena[r := e.(lastPacket := Some(p))], outbox := s.outbox + [own])
      else
        var offered := DomainPacketOf(d, value, count);
        && IsDataPacket(e, p, count, Some(offered))
        && t == s.(arena := s.arena[domain.value := d.(lastPacket := Some(offered))][r := e.(lastPacket := Some(p))],
                   outbox := s.outbox + [Data(d.id, offered), own])
  }

  /** Data of a signal that is not marked subscribed is dropped; all other data is passed up. */
  lemma DataOutputs(s: State, id: string, value: int, count: nat, t: State)
    requires Refs(s) && Follows(s, EvData(id, value, count), t)
    ensures
      if id in s.signals && s.arena[s.signals[id]].subscribed then
        exists p :: DataPassed(s, s.signals[id], value, count, t, p)
      else
        t == s
  {
    if id in s.signals && s.arena[s.signals[id]].subscribed {
      var r := s.signals[id];
      var packet := Packet(s.arena[r].descriptor, count, None, DomainPacketFor(s, r, value, count).1);
      DataPassedOn(s, r, value, count, packet);
      assert DataPassed(s, r, value, count, t, packet);
    }
  }

  lemma DataPassedOn(s: State, r: nat, value: int, count: nat, p: Packet)
    requires Refs(s) && r < |s.arena|
    requires p == Packet(s.arena[r].descriptor, count, None, DomainPacketFor(s, r, value, count).1)
    ensures DataPassed(s, r, value, count, SendPacket(DomainPacketFor(s, r, value, count).0, r, p), p)
  {
    var domain := s.arena[r].domain;
    if domain.Some? && NeedsDomainPacket(s.arena[domain.value], value) {
      var offered := DomainPacketOf(s.arena[domain.value], value, count);
      assert (s.outbox + [Data(s.arena[domain.value].id, offered)]) + [Data(s.arena[r].id, p)]
        == s.outbox + [Data(s.arena[domain.value].id, offered), Data(s.arena[r].id, p)];
    }
  }

  // ----- acknowledgements ----------------------------------------------------------------

  /** The acknowledgements among the outputs. */
  function AcksOf(outputs: seq<Output>): seq<Output>
  {
    if outputs == [] then [] else (if outputs[0].Ack? then [outputs[0]] else []) + AcksOf(outputs[1..])
  }

  /**
   The acknowledgement an event gives: that a published signal is subscribed, when the peer says so or
   when a hold is taken over; and that a marked one is no longer, when the peer says so.
   */
  ghost function AcksFor(s: State, event: Event): seq<Output>
    requires Refs(s)
  {
    match event
    case EvSubscribed(id) =>
      if id in s.signals && s.arena[s.signals[id]].published then [Ack(id, true)] else []
    case EvUnsubscribed(id) =>
      if id in s.signals && s.arena[s.signals[id]].subscribed then [Ack(id, false)] else []
    case EvAppSubscribe(id) =>
      if id in s.signals && TakesOver(s.arena[s.signals[id]]) then [Ack(id, true)] else []
    case _ => []
  }

  predicate TakesOver(e: Entry)
  {
    e.published && !e.subscribed && e.fetch == Held
  }

  lemma {:induction false} NoAcks(outputs: seq<Output>)
    requires forall i :: 0 <= i < |outputs| ==> !outputs[i].Ack?
    ensures AcksOf(outputs) == []
  {
    if outputs != [] {
      NoAcks(outputs[1..]);
    }
  }

  lemma AckFirst(first: Output, rest: seq<Output>)
    requires first.Ack? && forall i :: 0 <= i < |rest| ==> !rest[i].Ack?
    ensures AcksOf([first] + rest) == [first]
  {
    NoAcks(rest);
    assert ([first] + rest)[1..] == rest;
  }

  /** The outputs of t are those of s and then `events`. */
  ghost predicate Adds(s: State, t: State, events: seq<Output>)
  {
    t.outbox == s.outbox + events
  }

  lemma RemoteAcks(s: State, id: string)
    requires Refs(s)
    ensures Adds(s, Subscribed(s, id), AcksFor(s, EvSubscribed(id)))
    ensures Adds(s, Unsubscribed(s, id), AcksFor(s, EvUnsubscribed(id)))
  {
    assert s.outbox + [] == s.outbox;
  }

  lemma {:induction false} SweepQuiet(s: State, keys: seq<string>)
    requires Refs(s) && forall k :: k in keys ==> k in s.signals
    ensures SweepAll(s, keys).0.outbox == s.outbox
    decreases |keys|
  {
    if keys != [] {
      SweepQuiet(SweepEntry(s, s.signals[keys[0]]), keys[1..]);
    }
  }

  lemma {:induction false} ResubscribeQuiet(s: State, keys: seq<string>)
    requires Refs(s) && forall k :: k in keys ==> k in s.signals
    ensures ResubscribeAll(s, keys).0.outbox == s.outbox
    decreases |keys|
  {
    if keys != [] {
      var r := s.signals[keys[0]];
      if DueForRetry(s.arena[r]) {
        PutKeepsRefs(s, r, Retried(s.arena[r]));
        ResubscribeQuiet(Put(s, r, Retried(s.arena[r])), keys[1..]);
      } else {
        ResubscribeQuiet(s, keys[1..]);
      }
    }
  }

  lemma FireQuiet(s: State)
    requires Refs(s)
    ensures Fire(s).outbox == s.outbox
  {
    hide SweepAll, ResubscribeAll;
    var fired := s.(timer := Idle);
    SweepQuiet(fired, Order(fired));
    ResubscribeQuiet(fired.(armed := false), Order(fired));
  }

  /** The coming and going of signals, the application's unsubscribes and the timer pass nothing up. */
  lemma SilentEvents(s: State, event: Event, t: State)
    requires Follows(s, event, t)
    requires event.EvAvailable? || event.EvUnavailable? || event.EvAppUnsubscribe? || event == EvTimer
    ensures t.outbox == s.outbox
  {
    hide Fire;
    if event == EvTimer {
      FireQuiet(s);
    }
  }

  /**
   An application's subscribe passes something up only if it takes over a hold: the acknowledgement,
   and then the events for the descriptor, if there is one.
   */
  lemma TakeoverOutputs(s: State, id: string, t: State)
    requires Refs(s) && Follows(s, EvAppSubscribe(id), t)
    ensures Refs(t) && s.outbox <= t.outbox
    ensures
      var events := t.outbox[|s.outbox|..];
      if id in s.signals && TakesOver(s.arena[s.signals[id]]) then
        && events != [] && events[0] == Ack(id, true)
        && var r := s.signals[id];
        match s.arena[r].descriptor
        case Some(d) => AnnounceDescriptor(t, id, r, d, events[1..])
        case None => events == [Ack(id, true)]
      else
        events == []
  {
    hide AnnounceDescriptor, DomainEvents;
    if id in s.signals && TakesOver(s.arena[s.signals[id]]) && s.arena[s.signals[id]].descriptor.Some? {
      TakeoverEmits(s, id, t);
      EmitAnnounces(s.outbox + [Ack(id, true)], t, s.signals[id]);
      assert t.outbox[|s.outbox|..][1..] == t.outbox[|s.outbox| + 1..];
    }
  }

  lemma TakeoverEmits(s: State, id: string, t: State)
    requires Refs(s) && Follows(s, EvAppSubscribe(id), t) && id in s.signals
    requires TakesOver(s.arena[s.signals[id]]) && s.arena[s.signals[id]].descriptor.Some?
    ensures
      var r := s.signals[id];
      && Refs(t) && Emitted(s.outbox + [Ack(id, true)], t, r)
      && t.arena[r].id == id && t.arena[r].descriptor == s.arena[r].descriptor
  {
    hide DomainEvents;
    var r := s.signals[id];
    var taken := Marked(s.arena[r]).(fetch := NotFetching);
    var acked := Put(s, r, taken.(ledger := taken.ledger.(takeovers := taken.ledger.takeovers + 1)));
    acked := acked.(outbox := acked.outbox + [Ack(id, true)]);
    assert t == EmitDescriptor(acked, r);
    DomainEventsSame(acked, t, r, Order(acked));
  }

  lemma AnnouncementHasNoAcks(t: State, id: string, r: nat, descriptor: Descriptor, events: seq<Output>)
    requires Refs(t) && AnnounceDescriptor(t, id, r, descriptor, events)
    ensures forall i :: 0 <= i < |events| ==> !events[i].Ack?
  {
  }

  /** t's outputs are those of s and more, among them just the acknowledgements `acks`. */
  ghost predicate AddsAcks(s: State, t: State, acks: seq<Output>)
  {
    s.outbox <= t.outbox && AcksOf(t.outbox[|s.outbox|..]) == acks
  }

  lemma AddsOne(s: State, t: State, acks: seq<Output>)
    requires Adds(s, t, acks) && |acks| <= 1 && forall i :: 0 <= i < |acks| ==> acks[i].Ack?
    ensures AddsAcks(s, t, acks)
  {
    assert t.outbox[|s.outbox|..] == acks;
    if acks != [] {
      AckFirst(acks[0], []);
      assert acks == [acks[0]] + [];
    }
  }

  lemma DataAcks(s: State, id: string, value: int, count: nat, t: State)
    requires Refs(s) && Follows(s, EvData(id, value, count), t)
    ensures AddsAcks(s, t, [])
  {
    hide Follows;
    DataOutputs(s, id, value, count, t);
    if id in s.signals && s.arena[s.signals[id]].subscribed {
      var p :| DataPassed(s, s.signals[id], value, count, t, p);
      NoAcks(t.outbox[|s.outbox|..]);
    }
  }

  lemma MetadataAcks(s: State, id: string, meta: Metadata, connection: Connection, t: State)
    requires Refs(s) && Follows(s, EvMetadata(id, meta, connection), t)
    ensures AddsAcks(s, t, [])
  {
    hide AnnounceDescriptor, MetadataChanged, TimeMalformed;
    if id in s.signals {
      MetadataOutputs(s, id, meta, connection, t);
      var events := t.outbox[|s.outbox|..];
      if events != [] {
        AnnouncementHasNoAcks(t, id, s.signals[id], meta.descriptor.value, events);
      }
      NoAcks(events);
    }
  }

  lemma TakeoverAcks(s: State, id: string, t: State)
    requires Refs(s) && Follows(s, EvAppSubscribe(id), t)
    ensures AddsAcks(s, t, AcksFor(s, EvAppSubscribe(id)))
  {
    hide AnnounceDescriptor, Follows;
    TakeoverOutputs(s, id, t);
    var events := t.outbox[|s.outbox|..];
    if events != [] {
      var r := s.signals[id];
      if s.arena[r].descriptor.Some? {
        AnnouncementHasNoAcks(t, id, r, s.arena[r].descriptor.value, events[1..]);
      }
      AckFirst(events[0], events[1..]);
      assert events == [events[0]] + events[1..];
    }
  }

  /** Every event gives just the acknowledgement that it is said to give. */
  lemma AcksExactly(s: State, event: Event, t: State)
    requires Refs(s) && Follows(s, event, t)
    ensures AddsAcks(s, t, AcksFor(s, event))
  {
    hide AppSubscribe, MetadataChanged, DataReceived, Fire, Available, Unavailable, AppUnsubscribe;
    match event
    case EvMetadata(id, meta, connection) => MetadataAcks(s, id, meta, connection, t);
    case EvData(id, value, count) => DataAcks(s, id, value, count, t);
    case EvAppSubscribe(id) => TakeoverAcks(s, id, t);
    case EvSubscribed(id) =>
      RemoteAcks(s, id);
      AddsOne(s, t, AcksFor(s, event));
    case EvUnsubscribed(id) =>
      RemoteAcks(s, id);
      AddsOne(s, t, AcksFor(s, event));
    case _ => SilentEvents(s, event, t);
  }

  /** The acknowledgements that the events give as they run from s. */
  ghost function AcksAlong(s: State, events: seq<Event>): seq<Output>
    requires Refs(s)
    decreases |events|
  {
    if events == [] then [] else AcksFor(s, events[0]) + AcksAlong(Step(s, events[0]), events[1..])
  }

  lemma {:induction false} AcksAppend(outputs: seq<Output>, more: seq<Output>)
    ensures AcksOf(outputs + more) == AcksOf(outputs) + AcksOf(more)
  {
    if outputs == [] {
      assert outputs + more == more;
    } else {
      assert (outputs + more)[1..] == outputs[1..] + more;
      AcksAppend(outputs[1..], more);
    }
  }

  /** Along every run openDAQ is given those acknowledgements, in that order, and no other. */
  lemma {:induction false} AcksRun(s: State, events: seq<Event>)
    requires Refs(s)
    ensures AcksOf(Run(s, events).outbox) == AcksOf(s.outbox) + AcksAlong(s, events)
    decreases |events|
  {
    hide Step, AcksFor, Refs;
    if events != [] {
      var next := Step(s, events[0]);
      AcksExactly(s, events[0], next);
      assert next.outbox == s.outbox + next.outbox[|s.outbox|..];
      AcksAppend(s.outbox, next.outbox[|s.outbox|..]);
      AcksRun(next, events[1..]);
    }
  }
}
