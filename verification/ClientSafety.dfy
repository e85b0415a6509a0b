/** Every event keeps the invariant, so it holds in every reachable state. */
module ClientSafety {
  import opened Wrappers
  import opened Descriptors
  import opened ClientState
  import opened ClientEvents
  import opened ClientInvariant
  import DeviceMirror
  import OrderedKeys

  // ----- building blocks -----------------------------------------------------------------

  /** Replacing an entry by one that is announced, described and linked alike. */
  lemma PutKeepsCore(s: State, r: nat, e: Entry, busy: set<nat>)
    requires Core(s, busy) && r < |s.arena| && Local(e)
    requires e.id == s.arena[r].id && e.published == s.arena[r].published
    requires e.domain == s.arena[r].domain && e.descriptor == s.arena[r].descriptor
    requires s.armed || !FetchActive(e) || e.fetch == s.arena[r].fetch
    ensures Core(Put(s, r, e), busy)
  {
    PutKeepsRefs(s, r, e);
    var t := Put(s, r, e);
    forall i | 0 <= i < |s.arena|
      ensures t.arena[i].published == s.arena[i].published && t.arena[i].id == s.arena[i].id
      ensures t.arena[i].domain == s.arena[i].domain && t.arena[i].descriptor == s.arena[i].descriptor
    {
    }
    SamePublished(s, t);
  }

  lemma SamePublished(s: State, t: State)
    requires Refs(s) && Refs(t) && t.signals == s.signals && |t.arena| == |s.arena|
    requires forall i :: 0 <= i < |s.arena| ==> t.arena[i].published == s.arena[i].published && t.arena[i].id == s.arena[i].id
    ensures PublishedKeys(t) == PublishedKeys(s) && PublishedRefs(t) == PublishedRefs(s)
    ensures EverPublished(t) == EverPublished(s)
    ensures LinksMirrored(s) && t.notices == s.notices && t.device == s.device ==> LinksMirrored(t)
  {
    forall i | 0 <= i < |s.arena|
      ensures Tracked(t, i) == Tracked(s, i)
    {
    }
    if LinksMirrored(s) && t.notices == s.notices && t.device == s.device {
      SameLinks(s, t);
    }
  }

  lemma OutboxKeepsCore(s: State, outbox: seq<Output>, busy: set<nat>)
    requires Core(s, busy)
    ensures Core(s.(outbox := outbox), busy)
  {
    SamePublished(s, s.(outbox := outbox));
  }

  lemma ArmKeepsCore(s: State, busy: set<nat>)
    requires Core(s, busy)
    ensures Core(Arm(s), busy)
  {
    SamePublished(s, Arm(s));
  }

  /** A new entry is not published, and no other entry changes. */
  lemma CreateKeepsPublished(s: State, id: string)
    requires Refs(s) && id !in s.signals
    ensures Refs(Create(s, id))
    ensures PublishedKeys(Create(s, id)) == PublishedKeys(s) && PublishedRefs(Create(s, id)) == PublishedRefs(s)
    ensures EverPublished(Create(s, id)) == EverPublished(s)
    ensures LinksMirrored(s) ==> LinksMirrored(Create(s, id))
  {
    var t := Create(s, id);
    assert t.arena[|s.arena|] == NewEntry(id);
    forall i | 0 <= i < |s.arena|
      ensures t.arena[i] == s.arena[i] && (Tracked(t, i) == Tracked(s, i) || !t.arena[i].published)
    {
      if s.arena[i].id == id {
        assert !Tracked(s, i);
      }
    }
    assert PublishedKeys(t) == PublishedKeys(s);
    assert PublishedRefs(t) == PublishedRefs(s);
    assert EverPublished(t) == EverPublished(s);
    if LinksMirrored(s) {
      SameLinks(s, t);
    }
  }

  lemma CreateKeepsCore(s: State, id: string, busy: set<nat>)
    requires Core(s, busy) && id !in s.signals
    ensures Core(Create(s, id), busy)
  {
    hide PublishedKeys, PublishedRefs, EverPublished, Registered, LinksRegistered, EverAnnounced, AnnouncedOnce,
      Refs, PlainIds;
    CreateKeepsPublished(s, id);
    var t := Create(s, id);
    assert Local(NewEntry(id));
    forall i | 0 <= i < |t.arena|
      ensures t.arena[i] == if i < |s.arena| then s.arena[i] else NewEntry(id)
    {
    }
  }

  // ----- application requests and acknowledgements ---------------------------------------

  lemma MarkedAlternates(e: Entry)
    requires MarksAlternate(e)
    ensures MarksAlternate(Marked(e))
  {
  }

  /** Taking over a held fetch subscription. */
  lemma TakeoverKeepsInv(s: State, r: nat, e: Entry)
    requires Inv(s) && r < |s.arena| && s.arena[r].fetch.Held?
    requires
      var taken := Marked(s.arena[r]).(fetch := NotFetching);
      e == taken.(ledger := taken.ledger.(takeovers := taken.ledger.takeovers + 1))
    ensures Inv(Put(s, r, e))
  {
    assert Local(s.arena[r]);
    MarkedAlternates(s.arena[r]);
    PutKeepsCore(s, r, e, {});
  }

  lemma SentSubscribeKeepsInv(s: State, r: nat, e: Entry)
    requires Inv(s) && r < |s.arena| && s.arena[r].published
    requires
      var sent := Marked(s.arena[r]);
      e == sent.(ledger := sent.ledger.(subscribes := sent.ledger.subscribes + 1, appSubscribes := sent.ledger.appSubscribes + 1))
    ensures Inv(Put(s, r, e))
  {
    assert Local(s.arena[r]);
    MarkedAlternates(s.arena[r]);
    PutKeepsCore(s, r, e, {});
  }

  lemma AppSubscribeKeepsInv(s: State, id: string)
    requires Inv(s)
    ensures Inv(AppSubscribe(s, id))
  {
    hide Mirrored, AllLocal;
    var t := AppSubscribe(s, id);
    if id in s.signals && s.arena[s.signals[id]].published && !s.arena[s.signals[id]].subscribed {
      var r := s.signals[id];
      if s.arena[r].fetch.Held? {
        TakeoverKeepsInv(s, r, t.arena[r]);
        var taken := Put(s, r, t.arena[r]);
        OutboxKeepsCore(taken, t.outbox, {});
        assert t == taken.(outbox := t.outbox);
      } else {
        SentSubscribeKeepsInv(s, r, t.arena[r]);
      }
    }
  }

  lemma AppUnsubscribeKeepsInv(s: State, id: string)
    requires Inv(s)
    ensures Inv(AppUnsubscribe(s, id))
  {
    hide Mirrored, Waiting, DeviceMirror.Consistent, Woken;
    if id in s.signals && s.arena[s.signals[id]].subscribed {
      var r := s.signals[id];
      var e := s.arena[r];
      assert Local(e);
      PutKeepsCore(s, r, e.(ledger := e.ledger.(
        unsubscribes := e.ledger.unsubscribes + 1, appUnsubscribes := e.ledger.appUnsubscribes + 1)), {});
    }
  }

  lemma SubscribedKeepsInv(s: State, id: string)
    requires Inv(s)
    ensures Inv(Subscribed(s, id))
  {
    if id in s.signals && s.arena[s.signals[id]].published {
      var r := s.signals[id];
      assert Local(s.arena[r]);
      PutKeepsCore(s, r, Marked(s.arena[r]), {});
      OutboxKeepsCore(Put(s, r, Marked(s.arena[r])), Subscribed(s, id).outbox, {});
    }
  }

  lemma UnsubscribedKeepsInv(s: State, id: string)
    requires Inv(s)
    ensures Inv(Unsubscribed(s, id))
  {
    if id in s.signals {
      var r := s.signals[id];
      assert Local(s.arena[r]);
      var e := if s.arena[r].fetch.Held? then ReleaseHold(s.arena[r]) else s.arena[r];
      if e.subscribed {
        var changed := e.(subscribed := false, ledger := e.ledger.(marks := e.ledger.marks + [false]));
        PutKeepsCore(s, r, changed, {});
        OutboxKeepsCore(Put(s, r, changed), Unsubscribed(s, id).outbox, {});
      } else {
        PutKeepsCore(s, r, e, {});
      }
    }
  }

  lemma SendPacketKeepsInv(s: State, r: nat, packet: Packet)
    requires Inv(s) && r < |s.arena| && packet.descriptor == s.arena[r].descriptor
    ensures Inv(SendPacket(s, r, packet))
  {
    var e := s.arena[r].(lastPacket := Some(packet));
    assert Local(s.arena[r]);
    PutKeepsCore(s, r, e, {});
    OutboxKeepsCore(Put(s, r, e), SendPacket(s, r, packet).outbox, {});
  }

  lemma DataReceivedKeepsInv(s: State, id: string, value: int, count: nat)
    requires Inv(s)
    ensures Inv(DataReceived(s, id, value, count))
  {
    if id in s.signals && s.arena[s.signals[id]].subscribed {
      var r := s.signals[id];
      var domain := s.arena[r].domain;
      if domain.Some? && NeedsDomainPacket(s.arena[domain.value], value) {
        SendPacketKeepsInv(s, domain.value, Packet(s.arena[domain.value].descriptor, count, Some(value), None));
      }
      var (t, domainPacket) := DomainPacketFor(s, r, value, count);
      SendPacketKeepsInv(t, r, Packet(s.arena[r].descriptor, count, None, domainPacket));
    }
  }

  // ----- availability --------------------------------------------------------------------

  lemma ArmedWithFetch(s: State, r: nat, e: Entry)
    requires Core(s, {}) && r < |s.arena| && Local(e)
    requires e.id == s.arena[r].id && e.published == s.arena[r].published
    requires e.domain == s.arena[r].domain && e.descriptor == s.arena[r].descriptor
    ensures Core(Arm(Put(s, r, e)), {})
  {
    ArmKeepsCore(s, {});
    PutKeepsCore(Arm(s), r, e, {});
    assert Put(Arm(s), r, e) == Arm(Put(s, r, e));
  }

  lemma AvailableKeepsInv(s: State, id: string)
    requires Inv(s)
    ensures Inv(Available(s, id))
  {
    var t := WithEntry(s, id);
    if id !in s.signals {
      CreateKeepsCore(s, id, {});
    }
    var r := t.signals[id];
    var e := t.arena[r];
    assert Local(e);
    if !e.published && e.descriptor.None? && !e.fetch.Fetching? {
      ArmedWithFetch(t, r, StartFetch(e));
    }
  }

  lemma ErasedPublished(s: State, id: string)
    requires Refs(s) && id in s.signals
    ensures
      var t := s.(signals := s.signals - {id});
      && Refs(t)
      && PublishedKeys(t) == PublishedKeys(s) - {id}
      && PublishedRefs(t) == PublishedRefs(s) - {s.signals[id]}
      && EverPublished(t) == EverPublished(s)
  {
    var t := s.(signals := s.signals - {id});
    forall i | 0 <= i < |s.arena|
      ensures Tracked(t, i) == (Tracked(s, i) && i != s.signals[id])
    {
    }
  }

  /** Forgetting a signal leaves the mirrors of the others, and their links, as they were. */
  lemma UnavailableKeepsLinks(s: State, id: string)
    requires Inv(s)
    ensures LinksMirrored(Unavailable(s, id))
  {
    hide PublishedKeys, MarksAlternate, AllLocal;
    var t := Unavailable(s, id);
    DeviceMirror.UnavailableForgets(s.device, id);
    hide AllLocal, Waiting, Woken, DeviceMirror.OnUnavailable, DeviceMirror.Consistent;
    if PlainIds(t) {
      assert PlainIds(s);
      forall r | r in Registered(t.notices)
        ensures LinkMirrored(t, r)
      {
        if id in s.signals && s.arena[s.signals[id]].published {
          NoticeAppended(s.notices, Withdrawn(s.signals[id]));
          LinkGivenAppended(s.notices, Withdrawn(s.signals[id]), r);
        }
        assert r in Registered(s.notices);
        assert LinkMirrored(s, r);
        assert r in PublishedRefs(s);
      }
    }
  }

  /** Forgetting a signal changes no entry and not the timer. */
  lemma UnavailableKeepsEntries(s: State, id: string)
    requires Inv(s)
    ensures
      var t := Unavailable(s, id);
      Refs(t) && AllLocal(t) && Waiting(t, {}) && Woken(t, {}) && TimerSound(t)
  {
    hide Local, Mirrored, DeviceMirror.OnUnavailable;
  }

  lemma UnavailableKeepsMirrored(s: State, id: string)
    requires Inv(s)
    ensures IdsMirrored(Unavailable(s, id)) && NoticesMirrored(Unavailable(s, id))
  {
    var t := Unavailable(s, id);
    DeviceMirror.UnavailableForgets(s.device, id);
    hide LinksMirrored, DeviceMirror.OnUnavailable, DeviceMirror.Consistent, AllLocal, Waiting, Woken;
    if id in s.signals {
      ErasedPublished(s, id);
      var r := s.signals[id];
      if s.arena[r].published {
        NoticeAppended(s.notices, Withdrawn(r));
      } else {
        assert id !in PublishedKeys(s);
        assert r !in PublishedRefs(s);
      }
      SamePublished(s.(signals := s.signals - {id}), t);
    } else {
      SamePublished(s, t);
    }
  }

  lemma UnavailableKeepsInv(s: State, id: string)
    requires Inv(s)
    ensures Inv(Unavailable(s, id))
  {
    UnavailableKeepsEntries(s, id);
    UnavailableKeepsMirrored(s, id);
    UnavailableKeepsLinks(s, id);
    hide Unavailable, Refs, AllLocal, Waiting, Woken, IdsMirrored, NoticesMirrored, LinksMirrored;
  }

  // ----- metadata ------------------------------------------------------------------------

  /** New metadata exempts its entry from the rules for deferred entries until it is settled. */
  lemma RewriteKeepsCore(s: State, r: nat, e: Entry, busy: set<nat>)
    requires Core(s, busy) && r < |s.arena| && Local(e)
    requires e.id == s.arena[r].id && e.published == s.arena[r].published && e.fetch == s.arena[r].fetch
    requires e.domain.Some? ==> e.domain.value < |s.arena| && e.domain.value != r
    ensures Core(Put(s, r, e), busy + {r})
  {
    hide PlainIds;
    PutKeepsRefs(s, r, e);
    var t := Put(s, r, e);
    forall i | 0 <= i < |s.arena|
      ensures t.arena[i].published == s.arena[i].published && t.arena[i].id == s.arena[i].id
      ensures i != r ==> t.arena[i] == s.arena[i]
    {
    }
    SamePublished(s, t);
  }

  lemma SettledCore(s: State, r: nat, busy: set<nat>)
    requires Core(s, busy + {r}) && r < |s.arena|
    requires s.arena[r].Deferred() ==>
               s.armed && s.arena[r].domain.Some? && !s.arena[s.arena[r].domain.value].published
    ensures Core(s, busy)
  {
    forall k | k in s.signals && s.signals[k] !in busy
      ensures s.signals[k] == r || s.signals[k] !in busy + {r}
    {
    }
  }

  lemma RejectKeepsCore(s: State, r: nat, busy: set<nat>)
    requires Core(s, busy) && r < |s.arena|
    ensures Core(Reject(s, r), busy)
  {
    assert Local(s.arena[r]);
    RewriteKeepsCore(s, r, Described(s.arena[r], None).(domain := None), busy);
    SettledCore(Reject(s, r), r, busy);
  }

  lemma SettleKeepsCore(s: State, r: nat, domain: Option<nat>, busy: set<nat>)
    requires Core(s, busy + {r}) && Tracked(s, r) && s.arena[r].descriptor.Some? && TimerSound(s)
    requires domain.Some? ==> Tracked(s, domain.value) && domain.value != r
    ensures Core(Settle(s, r, domain), busy) && TimerSound(Settle(s, r, domain))
  {
    var e := s.arena[r].(domain := domain);
    assert Local(s.arena[r]);
    RewriteKeepsCore(s, r, e, busy + {r});
    var linked := Put(s, r, e);
    assert busy + {r} + {r} == busy + {r};
    if e.published {
      OutboxKeepsCore(linked, EmitDescriptor(linked, r).outbox, busy + {r});
      SettledCore(EmitDescriptor(linked, r), r, busy);
    } else if domain.Some? && !linked.arena[domain.value].published {
      ArmKeepsCore(linked, busy + {r});
      SettledCore(Arm(linked), r, busy);
    } else {
      assert Tracked(linked, r);
      assert domain.Some? ==> Tracked(linked, domain.value);
      PublishKeepsCore(linked, r, busy);
      TimerKeptSound(linked, Publish(linked, r));
    }
  }

  lemma {:induction false} MetadataKeepsCore(s: State, r: nat, meta: Metadata, connection: Connection, busy: set<nat>)
    requires Core(s, busy) && TimerSound(s) && Tracked(s, r)
    ensures Core(MetadataChanged(s, r, meta, connection), busy)
    ensures TimerSound(MetadataChanged(s, r, meta, connection))
    decreases connection.Keys - s.signals.Keys, 2
  {
    hide FindDomain, MetadataChanged, Resolve, Settle, AllLocal, Local, Waiting, Woken, Mirrored, Described;
    MetadataUnfolds(s, r, meta, connection);
    var lookup := FindDomain(s.signals.Keys, connection.Keys, s.arena[r].id, meta);
    if meta.descriptor.None? || lookup.Malformed? {
      RejectKeepsCore(s, r, busy);
    } else {
      DescribedCore(s, r, meta.descriptor, busy);
      var known := Put(s, r, Described(s.arena[r], meta.descriptor));
      LookupPlaces(s.signals.Keys, connection.Keys, s.arena[r].id, meta);
      ResolveKeepsCore(known, r, lookup, connection, busy + {r});
      var (found, domain) := Resolve(known, r, lookup, connection);
      SettleKeepsCore(found, r, domain, busy);
    }
  }

  lemma DescribedCore(s: State, r: nat, descriptor: Option<Descriptor>, busy: set<nat>)
    requires Core(s, busy) && Tracked(s, r) && TimerSound(s)
    ensures
      var known := Put(s, r, Described(s.arena[r], descriptor));
      && Core(known, busy + {r}) && TimerSound(known) && Tracked(known, r) && known.arena[r].id == s.arena[r].id
  {
    hide Waiting, Woken, Mirrored;
    assert Local(s.arena[r]);
    RewriteKeepsCore(s, r, Described(s.arena[r], descriptor), busy);
  }

  lemma LookupPlaces(tracked: set<string>, connection: set<string>, id: string, meta: Metadata)
    ensures
      var lookup := FindDomain(tracked, connection, id, meta);
      && (lookup.Known? ==> lookup.id in tracked && lookup.id != id)
      && (lookup.Hidden? ==> lookup.id in connection && lookup.id !in tracked)
  {
  }

  lemma {:induction false} ResolveKeepsCore(s: State, r: nat, lookup: Lookup, connection: Connection, busy: set<nat>)
    requires Core(s, busy) && TimerSound(s) && Tracked(s, r) && !lookup.Malformed?
    requires lookup.Known? ==> lookup.id in s.signals && lookup.id != s.arena[r].id
    requires lookup.Hidden? ==> lookup.id in connection && lookup.id !in s.signals
    ensures
      var (found, domain) := Resolve(s, r, lookup, connection);
      Core(found, busy) && TimerSound(found) && Tracked(found, r) && (domain.Some? ==> Tracked(found, domain.value))
    decreases connection.Keys - s.signals.Keys, 1
  {
    if lookup.Hidden? {
      DiscoverKeepsCore(s, lookup.id, connection, busy);
      var created := Create(s, lookup.id);
      assert Tracked(created, |s.arena|);
      var found := Discover(s, lookup.id, connection);
      assert Extends(created, found);
      assert found.arena[r].id == created.arena[r].id;
    }
  }

  lemma {:induction false} DiscoverKeepsCore(s: State, id: string, connection: Connection, busy: set<nat>)
    requires Core(s, busy) && TimerSound(s) && id in connection && id !in s.signals
    ensures Core(Discover(s, id, connection), busy) && TimerSound(Discover(s, id, connection))
    decreases connection.Keys - s.signals.Keys, 0
  {
    CreateKeepsCore(s, id, busy);
    var created := Create(s, id);
    if connection[id].Some? {
      assert id in connection.Keys - s.signals.Keys;
      MetadataKeepsCore(created, |s.arena|, connection[id].value, connection, busy);
    }
  }

  // ----- the timer -----------------------------------------------------------------------

  /** A deferred entry may be published at any time; its domain is not announced, so it gets no link. */
  lemma DeferredPublishKeepsCore(s: State, r: nat)
    requires Core(s, {}) && Tracked(s, r) && s.arena[r].Deferred()
    ensures Core(Publish(s, r), {}) && TimerKept(s, Publish(s, r))
    ensures LinkOf(s, r) == None
  {
    assert s.signals[s.arena[r].id] == r;
    assert {} + {r} == {r};
    assert Core(s, {r});
    PublishKeepsCore(s, r, {});
  }

  /** Publication resets the sweep counter, whatever it was. */
  lemma PublishIgnoresSweeps(s: State, t: State, r: nat, n: nat)
    requires Refs(s) && Refs(t) && r < |s.arena| && s.arena[r].Deferred()
    requires t == Put(s, r, s.arena[r].(sweeps := n))
    ensures Publish(t, r) == Publish(s, r)
  {
    assert MarkPublished(t, r) == MarkPublished(s, r);
  }

  lemma SweptFormLocal(e: Entry)
    requires Local(e) && !DeferralEnds(e)
    ensures Local(SweptForm(e)) && SweptForm(e).published == e.published
  {
  }

  lemma SweepEntryKeepsCore(s: State, r: nat)
    requires Core(s, {}) && Tracked(s, r) && s.armed
    ensures Core(SweepEntry(s, r), {}) && TimerKept(s, SweepEntry(s, r))
  {
    var e := s.arena[r];
    if DeferralEnds(e) {
      DeferredPublishKeepsCore(s, r);
      PutKeepsRefs(s, r, SweptForm(e));
      PublishIgnoresSweeps(s, Put(s, r, SweptForm(e)), r, e.sweeps + 1);
    } else {
      assert Local(e);
      SweptFormLocal(e);
      PutKeepsCore(s, r, SweptForm(e), {});
    }
  }

  lemma {:induction false} SweepAllKeepsCore(s: State, keys: seq<string>)
    requires Core(s, {}) && s.armed && forall k :: k in keys ==> k in s.signals
    ensures Core(SweepAll(s, keys).0, {}) && TimerKept(s, SweepAll(s, keys).0)
    decreases |keys|
  {
    if keys != [] {
      var r := s.signals[keys[0]];
      SweepEntryKeepsCore(s, r);
      SweepAllKeepsCore(SweepEntry(s, r), keys[1..]);
    }
  }

  lemma SweepKeepsInv(s: State)
    requires Core(s, {}) && s.armed && s.timer.Idle? && s.cancelled == 0
    ensures Inv(Sweep(s))
  {
    SweepAllKeepsCore(s, Order(s));
    var (swept, retrying) := SweepAll(s, Order(s));
    SamePublished(swept, Sweep(s));
  }

  lemma {:induction false} ResubscribeAllKeepsCore(s: State, keys: seq<string>)
    requires Core(s.(armed := true), {}) && forall k :: k in keys ==> k in s.signals
    ensures
      var (t, pending) := ResubscribeAll(s, keys);
      Core(t.(armed := true), {}) && t.timer == s.timer && t.armed == s.armed && t.cancelled == s.cancelled
    decreases |keys|
  {
    if keys != [] {
      var r := s.signals[keys[0]];
      if DueForRetry(s.arena[r]) {
        assert Local(s.arena[r]);
        PutKeepsCore(s.(armed := true), r, Retried(s.arena[r]), {});
        var t := Put(s, r, Retried(s.arena[r]));
        assert t.(armed := true) == Put(s.(armed := true), r, Retried(s.arena[r]));
        ResubscribeAllKeepsCore(t, keys[1..]);
      } else {
        ResubscribeAllKeepsCore(s, keys[1..]);
      }
    }
  }

  lemma ResubscribeKeepsInv(s: State)
    requires Core(s, {}) && s.armed && s.timer.Idle? && s.cancelled == 0
    ensures Inv(Resubscribe(s))
  {
    assert s.(armed := false).(armed := true) == s;
    ResubscribeAllKeepsCore(s.(armed := false), Order(s));
    var (t, pending) := ResubscribeAll(s.(armed := false), Order(s));
    SamePublished(t.(armed := true), Resubscribe(s));
  }

  lemma FireKeepsInv(s: State)
    requires Inv(s)
    ensures Inv(Fire(s))
  {
    var fired := s.(timer := Idle);
    SamePublished(s, fired);
    if s.timer.SweepDue? {
      SweepKeepsInv(fired);
    } else if s.timer.ResubscribeDue? {
      ResubscribeKeepsInv(fired);
    }
  }

  // ----- runs ----------------------------------------------------------------------------

  lemma StepKeepsInv(s: State, event: Event)
    requires Inv(s)
    ensures Inv(Step(s, event))
  {
    match event
    case EvAvailable(id) => AvailableKeepsInv(s, id);
    case EvUnavailable(id) => UnavailableKeepsInv(s, id);
    case EvSubscribed(id) => SubscribedKeepsInv(s, id);
    case EvUnsubscribed(id) => UnsubscribedKeepsInv(s, id);
    case EvMetadata(id, meta, connection) =>
      if id in s.signals {
        MetadataKeepsCore(s, s.signals[id], meta, connection, {});
      }
    case EvData(id, value, count) => DataReceivedKeepsInv(s, id, value, count);
    case EvAppSubscribe(id) => AppSubscribeKeepsInv(s, id);
    case EvAppUnsubscribe(id) => AppUnsubscribeKeepsInv(s, id);
    case EvTimer => FireKeepsInv(s);
  }

  lemma {:induction false} RunKeepsInv(s: State, events: seq<Event>)
    requires Inv(s)
    ensures Inv(Run(s, events))
    decreases |events|
  {
    if events != [] {
      StepKeepsInv(s, events[0]);
      RunKeepsInv(Step(s, events[0]), events[1..]);
    }
  }

  /** The invariant holds in every reachable state. */
  lemma ReachableInv(s: State)
    requires Reachable(s)
    ensures Inv(s)
  {
    hide Run, Reaches;
    var events :| Reaches(INITIAL, events, s);
    ReachesExactlyRun(INITIAL, events, s);
    InitialInv();
    RunKeepsInv(INITIAL, events);
  }
}
