/** A chain of hidden domain signals is discovered from the top and announced from the bottom. */
module ClientDiscovery {
  import opened Wrappers
  import opened ClientState
  import opened ClientEvents
  import opened ClientInvariant
  import opened ClientCascade

  /** The tracked signals, each with whether it has been announced. */
  ghost function View(s: State): map<string, bool>
    requires Refs(s)
  {
    map k | k in s.signals :: s.arena[s.signals[k]].published
  }

  /**
   `chain` lists the hidden signals that the metadata of `id` leads to, each named by the one
   before it and with usable metadata of its own; the last one needs no domain or names a
   published one.
   */
  ghost predicate Chained(tracked: map<string, bool>, connection: Connection, id: string, meta: Metadata, chain: seq<string>)
    decreases |chain|
  {
    var lookup := FindDomain(tracked.Keys, connection.Keys, id, meta);
    && meta.descriptor.Some?
    && if chain == [] then
         lookup.NoDomain? || (lookup.Known? && tracked[lookup.id])
       else
         && lookup == Hidden(chain[0])
         && connection[chain[0]].Some?
         && Chained(tracked[chain[0] := false], connection, chain[0], connection[chain[0]].value, chain[1..])
  }

  /** The published signal, if any, that the last signal of the chain names. */
  ghost function ChainEnd(tracked: map<string, bool>, connection: Connection, id: string,
                          meta: Metadata, chain: seq<string>): Option<string>
    requires Chained(tracked, connection, id, meta, chain)
    decreases |chain|
  {
    if chain == [] then
      var lookup := FindDomain(tracked.Keys, connection.Keys, id, meta);
      if lookup.Known? then Some(lookup.id) else None
    else
      ChainEnd(tracked[chain[0] := false], connection, chain[0], connection[chain[0]].value, chain[1..])
  }

  lemma {:induction false} ChainEndTracked(tracked: map<string, bool>, connection: Connection, id: string,
                                           meta: Metadata, chain: seq<string>)
    requires Chained(tracked, connection, id, meta, chain)
    ensures
      var end := ChainEnd(tracked, connection, id, meta, chain);
      end.Some? ==> end.value in tracked && tracked[end.value]
    decreases |chain|
  {
    if chain != [] {
      ChainEndTracked(tracked[chain[0] := false], connection, chain[0], connection[chain[0]].value, chain[1..]);
    }
  }

  ghost function EndRef(s: State, end: Option<string>): Option<nat>
    requires Refs(s) && (end.Some? ==> end.value in s.signals)
  {
    if end.Some? then Some(s.signals[end.value]) else None
  }

  /** Announcements of `n` entries from position `first` on, last one first; each links to the next. */
  function ChainNotices(first: nat, n: nat, end: Option<nat>): seq<Notice>
    decreases n
  {
    if n == 0 then
      []
    else
      ChainNotices(first + 1, n - 1, end) + [Announced(first, if n == 1 then end else Some(first + 1))]
  }

  ghost predicate NoDependents(s: State, r: nat)
  {
    forall i :: 0 <= i < |s.arena| ==> s.arena[i].domain != Some(r)
  }

  lemma {:induction false} NobodyToVisit(s: State, r: nat, keys: seq<string>)
    requires Refs(s) && r < |s.arena| && NoDependents(s, r) && forall k :: k in keys ==> k in s.signals
    ensures PublishDependents(s, r, keys) == s
    decreases |keys|
  {
    if keys != [] {
      NobodyToVisit(s, r, keys[1..]);
    }
  }

  lemma LonePublish(s: State, r: nat)
    requires Refs(s) && r < |s.arena| && s.arena[r].Deferred() && NoDependents(s, r)
    ensures Publish(s, r) == MarkPublished(s, r)
  {
    MarkIsCascade(s, r);
    var marked := MarkPublished(s, r);
    CascadeKeepsRefs(s, marked);
    forall i | 0 <= i < |marked.arena|
      ensures marked.arena[i].domain != Some(r)
    {
      assert s.arena[i].domain != Some(r);
    }
    NobodyToVisit(marked, r, Order(s));
  }

  /** Entries from position `n` on link to each other or to entries that were published in s. */
  ghost predicate NewLinksSafe(s: State, t: State)
  {
    && |s.arena| <= |t.arena|
    && forall i :: |s.arena| <= i < |t.arena| && t.arena[i].domain.Some? ==>
         t.arena[i].domain.value >= |s.arena| || s.arena[t.arena[i].domain.value].published
  }

  /** The outcome of processing `chain` for an entry `r` that nothing depends on. */
  ghost predicate ChainDone(s: State, t: State, r: nat, chain: seq<string>, end: Option<nat>)
  {
    && ChainArena(s, t, r, chain)
    && ChainTracked(s, t, chain)
    && t.notices == s.notices + ChainNotices(|s.arena|, |chain|, end) + [Announced(r, if chain == [] then end else Some(|s.arena|))]
  }

  /** The entry and those of the chain are published, the older entries untouched. */
  ghost predicate ChainArena(s: State, t: State, r: nat, chain: seq<string>)
  {
    && r < |s.arena|
    && Refs(t)
    && |t.arena| == |s.arena| + |chain|
    && t.arena[r].published
    && (forall i :: 0 <= i < |s.arena| && i != r ==> t.arena[i] == s.arena[i])
    && (forall i :: |s.arena| <= i < |t.arena| ==> t.arena[i].published)
    && NewLinksSafe(s, t)
    && (t.arena[r].domain.Some? ==> t.arena[r].domain.value >= |s.arena| || s.arena[t.arena[r].domain.value].published)
  }

  ghost predicate ChainTracked(s: State, t: State, chain: seq<string>)
  {
    && (forall k :: k in s.signals ==> k in t.signals && t.signals[k] == s.signals[k])
    && (forall i :: 0 <= i < |chain| ==> chain[i] in t.signals && t.signals[chain[i]] == |s.arena| + i)
  }

  /** Giving a domain that is published, or none, to an entry without dependents publishes just that entry. */
  lemma LoneSettle(s: State, r: nat, domain: Option<nat>)
    requires Refs(s) && r < |s.arena| && s.arena[r].Deferred() && NoDependents(s, r)
    requires domain.Some? ==> domain.value < |s.arena| && domain.value != r && s.arena[domain.value].published
    ensures
      var t := Settle(s, r, domain);
      && t.notices == s.notices + [Announced(r, domain)]
      && t.signals == s.signals && |t.arena| == |s.arena|
      && t.arena[r].published && t.arena[r].domain == domain
      && (forall i :: 0 <= i < |s.arena| && i != r ==> t.arena[i] == s.arena[i])
  {
    var linked := Put(s, r, s.arena[r].(domain := domain));
    PutExtends(s, r, s.arena[r].(domain := domain));
    assert NoDependents(linked, r);
    LonePublish(linked, r);
  }

  /** The entry with its new descriptor, before its domain is looked up. */
  ghost function WithDescriptor(s: State, r: nat, meta: Metadata): (known: State)
    requires Refs(s) && r < |s.arena|
    ensures Refs(known)
  {
    PutExtends(s, r, Described(s.arena[r], meta.descriptor));
    Put(s, r, Described(s.arena[r], meta.descriptor))
  }

  lemma CreatedTracked(known: State, hidden: string)
    requires Refs(known) && hidden !in known.signals
    ensures Refs(Create(known, hidden)) && Tracked(Create(known, hidden), |known.arena|)
    ensures |Create(known, hidden).arena| == |known.arena| + 1
    ensures forall i :: 0 <= i < |known.arena| ==> Create(known, hidden).arena[i] == known.arena[i]
  {
  }

  lemma MetadataOfHidden(s: State, r: nat, meta: Metadata, connection: Connection, hidden: string)
    requires Refs(s) && Tracked(s, r) && meta.descriptor.Some?
    requires FindDomain(s.signals.Keys, connection.Keys, s.arena[r].id, meta) == Hidden(hidden)
    requires hidden in connection && connection[hidden].Some? && hidden !in s.signals
    ensures
      var created := Create(WithDescriptor(s, r, meta), hidden);
      && Refs(created) && Tracked(created, |s.arena|)
      && var found := MetadataChanged(created, |s.arena|, connection[hidden].value, connection);
      && r < |found.arena| && |s.arena| < |found.arena| && found.arena[r].descriptor.Some?
      && MetadataChanged(s, r, meta, connection) == Settle(found, r, Some(|s.arena|))
  {
    hide FindDomain, Settle, MetadataChanged, Create, Refs;
    MetadataUnfolds(s, r, meta, connection);
    var known := WithDescriptor(s, r, meta);
    CreatedTracked(known, hidden);
    assert Resolve(known, r, Hidden(hidden), connection) == (Discover(known, hidden, connection), Some(|s.arena|));
  }

  lemma MetadataOfEnd(s: State, r: nat, meta: Metadata, connection: Connection, domain: Option<nat>)
    requires Refs(s) && Tracked(s, r) && meta.descriptor.Some?
    requires
      var lookup := FindDomain(s.signals.Keys, connection.Keys, s.arena[r].id, meta);
      if lookup.Known? then domain == Some(s.signals[lookup.id]) else lookup.NoDomain? && domain == None
    ensures MetadataChanged(s, r, meta, connection) == Settle(WithDescriptor(s, r, meta), r, domain)
  {
    hide Settle;
    var known := WithDescriptor(s, r, meta);
    assert Resolve(known, r, FindDomain(s.signals.Keys, connection.Keys, s.arena[r].id, meta), connection) == (known, domain);
  }

  lemma WithDescriptorAlone(s: State, r: nat, meta: Metadata)
    requires Refs(s) && r < |s.arena| && !s.arena[r].published && NoDependents(s, r) && meta.descriptor.Some?
    ensures
      var known := WithDescriptor(s, r, meta);
      NoDependents(known, r) && known.arena[r].Deferred() && known == Put(s, r, known.arena[r])
  {
    var known := WithDescriptor(s, r, meta);
    forall i | 0 <= i < |known.arena|
      ensures known.arena[i].domain == s.arena[i].domain
    {
    }
  }

  lemma EndDone(s: State, t: State, r: nat, end: Option<nat>)
    requires r < |s.arena| && Refs(t) && |t.arena| == |s.arena| && t.signals == s.signals
    requires t.notices == s.notices + [Announced(r, end)]
    requires t.arena[r].published && t.arena[r].domain == end
    requires end.Some? ==> end.value < |s.arena| && s.arena[end.value].published
    requires forall i :: 0 <= i < |s.arena| && i != r ==> t.arena[i] == s.arena[i]
    ensures ChainDone(s, t, r, [], end)
  {
    assert s.notices + ChainNotices(|s.arena|, 0, end) == s.notices;
  }

  lemma LoneEnd(s: State, r: nat, meta: Metadata, connection: Connection, domain: Option<nat>)
    requires Refs(s) && Tracked(s, r) && !s.arena[r].published && NoDependents(s, r) && meta.descriptor.Some?
    requires domain.Some? ==> domain.value < |s.arena| && domain.value != r && s.arena[domain.value].published
    requires
      var lookup := FindDomain(s.signals.Keys, connection.Keys, s.arena[r].id, meta);
      if lookup.Known? then domain == Some(s.signals[lookup.id]) else lookup.NoDomain? && domain == None
    ensures ChainDone(s, MetadataChanged(s, r, meta, connection), r, [], domain)
  {
    MetadataOfEnd(s, r, meta, connection, domain);
    WithDescriptorAlone(s, r, meta);
    var known := WithDescriptor(s, r, meta);
    LoneSettle(known, r, domain);
    EndDone(s, Settle(known, r, domain), r, domain);
  }

  lemma {:induction false} LoneChain(s: State, r: nat, meta: Metadata, connection: Connection, chain: seq<string>)
    requires Refs(s) && Tracked(s, r) && !s.arena[r].published && NoDependents(s, r)
    requires Chained(View(s), connection, s.arena[r].id, meta, chain)
    ensures
      var end := ChainEnd(View(s), connection, s.arena[r].id, meta, chain);
      && (end.Some? ==> end.value in s.signals)
      && ChainDone(s, MetadataChanged(s, r, meta, connection), r, chain, EndRef(s, end))
    decreases |chain|
  {
    hide Settle;
    var end := ChainEnd(View(s), connection, s.arena[r].id, meta, chain);
    ChainEndTracked(View(s), connection, s.arena[r].id, meta, chain);
    assert View(s).Keys == s.signals.Keys;
    if chain == [] {
      LoneEnd(s, r, meta, connection, EndRef(s, end));
    } else {
      var known := WithDescriptor(s, r, meta);
      WithDescriptorAlone(s, r, meta);
      ChainStep(s, known, r, chain[0]);
      MetadataOfHidden(s, r, meta, connection, chain[0]);
      var created := Create(known, chain[0]);
      LoneChain(created, |s.arena|, connection[chain[0]].value, connection, chain[1..]);
      var found := MetadataChanged(created, |s.arena|, connection[chain[0]].value, connection);
      AfterDiscovery(s, known, created, found, r, chain, EndRef(s, end));
    }
  }

  lemma ChainStep(s: State, known: State, r: nat, hidden: string)
    requires Refs(s) && Refs(known) && r < |s.arena| && hidden !in s.signals
    requires known.signals == s.signals && |known.arena| == |s.arena|
    requires forall i :: 0 <= i < |s.arena| ==> known.arena[i].published == s.arena[i].published
    ensures
      var created := Create(known, hidden);
      && Refs(created) && Tracked(created, |s.arena|) && NoDependents(created, |s.arena|)
      && View(created) == View(s)[hidden := false]
  {
    var created := Create(known, hidden);
    assert created.arena[|s.arena|] == NewEntry(hidden);
    forall i | 0 <= i < |s.arena|
      ensures created.arena[i] == known.arena[i]
    {
    }
    assert Refs(created);
  }

  lemma ChainFoundNoDependents(known: State, created: State, found: State, r: nat, chain: seq<string>)
    requires Refs(known) && r < |known.arena| && !known.arena[r].published && NoDependents(known, r)
    requires chain != [] && created == Create(known, chain[0])
    requires ChainArena(created, found, |known.arena|, chain[1..])
    ensures NoDependents(found, r) && found.arena[r] == known.arena[r]
  {
    assert found.arena[r] == created.arena[r] == known.arena[r];
    forall i | 0 <= i < |found.arena|
      ensures found.arena[i].domain != Some(r)
    {
      if i < |known.arena| {
        assert found.arena[i] == created.arena[i] == known.arena[i];
      }
    }
  }

  lemma ChainArenaExtends(s: State, created: State, found: State, t: State, r: nat, chain: seq<string>)
    requires chain != [] && r < |s.arena| && |created.arena| == |s.arena| + 1 && Refs(t)
    requires forall i :: 0 <= i < |s.arena| && i != r ==> created.arena[i] == s.arena[i]
    requires forall i :: 0 <= i < |s.arena| ==> created.arena[i].published == s.arena[i].published
    requires !created.arena[|s.arena|].published
    requires ChainArena(created, found, |s.arena|, chain[1..])
    requires |t.arena| == |found.arena| && forall i :: 0 <= i < |found.arena| && i != r ==> t.arena[i] == found.arena[i]
    requires t.arena[r].published && t.arena[r].domain == Some(|s.arena|)
    ensures ChainArena(s, t, r, chain)
  {
    forall i | 0 <= i < |s.arena| && i != r
      ensures t.arena[i] == s.arena[i]
    {
      assert t.arena[i] == found.arena[i] == created.arena[i];
    }
    forall i | |s.arena| <= i < |t.arena|
      ensures t.arena[i].published
      ensures t.arena[i].domain.Some? ==> t.arena[i].domain.value >= |s.arena| || s.arena[t.arena[i].domain.value].published
    {
      assert t.arena[i] == found.arena[i];
    }
  }

  lemma ChainTrackedExtends(s: State, created: State, found: State, t: State, chain: seq<string>)
    requires chain != [] && chain[0] !in s.signals && created.signals == s.signals[chain[0] := |s.arena|]
    requires |created.arena| == |s.arena| + 1
    requires ChainTracked(created, found, chain[1..]) && t.signals == found.signals
    ensures ChainTracked(s, t, chain)
  {
    assert chain[0] in created.signals;
    forall i | 0 <= i < |chain|
      ensures chain[i] in t.signals && t.signals[chain[i]] == |s.arena| + i
    {
      if i > 0 {
        assert chain[i] == chain[1..][i - 1];
      }
    }
  }

  lemma ChainNoticesExtend(before: seq<Notice>, n: nat, chain: seq<string>, end: Option<nat>)
    requires chain != []
    ensures
      before + ChainNotices(n + 1, |chain[1..]|, end) + [Announced(n, if chain[1..] == [] then end else Some(n + 1))]
      == before + ChainNotices(n, |chain|, end)
  {
    assert |chain[1..]| == |chain| - 1;
    assert (chain[1..] == []) == (|chain| == 1);
  }

  lemma CreatedArena(s: State, known: State, created: State, r: nat, hidden: string)
    requires r < |s.arena| && |known.arena| == |s.arena| && created == Create(known, hidden)
    requires known.arena == s.arena[r := known.arena[r]] && known.arena[r].published == s.arena[r].published
    ensures |created.arena| == |s.arena| + 1 && !created.arena[|s.arena|].published
    ensures forall i :: 0 <= i < |s.arena| && i != r ==> created.arena[i] == s.arena[i]
    ensures forall i :: 0 <= i < |s.arena| ==> created.arena[i].published == s.arena[i].published
  {
  }

  /** The discovered chain is published: now the entry that led to it is. */
  lemma AfterDiscovery(s: State, known: State, created: State, found: State, r: nat, chain: seq<string>, end: Option<nat>)
    requires Refs(s) && r < |s.arena| && !s.arena[r].published && chain != []
    requires Refs(known) && |known.arena| == |s.arena| && known.arena[r].Deferred() && NoDependents(known, r)
    requires known == Put(s, r, known.arena[r])
    requires created == Create(known, chain[0]) && chain[0] !in s.signals
    requires ChainDone(created, found, |s.arena|, chain[1..], end)
    ensures ChainDone(s, Settle(found, r, Some(|s.arena|)), r, chain, end)
  {
    hide Settle, NoDependents;
    var n := |s.arena|;
    ChainFoundNoDependents(known, created, found, r, chain);
    LoneSettle(found, r, Some(n));
    var t := Settle(found, r, Some(n));
    CreatedArena(s, known, created, r, chain[0]);
    ChainArenaExtends(s, created, found, t, r, chain);
    ChainTrackedExtends(s, created, found, t, chain);
    ChainNoticesExtend(s.notices, n, chain, end);
  }

  /**
   t's notices continue s's by the chain, far end first, and then by `r` unless it had been
   announced before; the chain's signals are tracked and published.
   */
  ghost predicate ChainAnnounced(s: State, t: State, r: nat, chain: seq<string>, end: Option<nat>)
    requires r < |s.arena|
  {
    var n := |s.arena|;
    var below := s.notices + ChainNotices(n, |chain|, end);
    && ChainTracked(s, t, chain)
    && n + |chain| <= |t.arena|
    && (forall i :: n <= i < n + |chain| ==> t.arena[i].published)
    && t.arena[r].published && t.arena[r].domain == Some(n)
    && if s.arena[r].published then
         t.notices == below
       else
         |below| < |t.notices| && t.notices[..|below| + 1] == below + [Announced(r, Some(n))]
  }

  /**
   Metadata that leads to a chain of hidden signals tracks all of them and announces them from the
   far end of the chain up, each with a link to the one announced before it, then the signal itself
   if it was waiting to be announced.
   */
  lemma ChainPublishedBottomUp(s: State, r: nat, meta: Metadata, connection: Connection, chain: seq<string>)
    requires Refs(s) && Tracked(s, r)
    requires chain != [] && Chained(View(s), connection, s.arena[r].id, meta, chain)
    ensures
      var end := ChainEnd(View(s), connection, s.arena[r].id, meta, chain);
      && (end.Some? ==> end.value in s.signals && s.arena[s.signals[end.value]].published)
      && ChainAnnounced(s, MetadataChanged(s, r, meta, connection), r, chain, EndRef(s, end))
  {
    hide Settle, Refs;
    var end := ChainEnd(View(s), connection, s.arena[r].id, meta, chain);
    ChainEndTracked(View(s), connection, s.arena[r].id, meta, chain);
    assert View(s).Keys == s.signals.Keys;
    var known := WithDescriptor(s, r, meta);
    ChainStep(s, known, r, chain[0]);
    MetadataOfHidden(s, r, meta, connection, chain[0]);
    var created := Create(known, chain[0]);
    LoneChain(created, |s.arena|, connection[chain[0]].value, connection, chain[1..]);
    TopSettled(s, created, MetadataChanged(created, |s.arena|, connection[chain[0]].value, connection), r, chain, EndRef(s, end));
  }

  lemma TopSettled(s: State, created: State, found: State, r: nat, chain: seq<string>, end: Option<nat>)
    requires Refs(created) && r < |s.arena| && chain != [] && created.notices == s.notices
    requires |created.arena| == |s.arena| + 1 && created.arena[r].descriptor.Some?
    requires created.arena[r].published == s.arena[r].published
    requires chain[0] !in s.signals && created.signals == s.signals[chain[0] := |s.arena|]
    requires ChainDone(created, found, |s.arena|, chain[1..], end)
    ensures ChainAnnounced(s, Settle(found, r, Some(|s.arena|)), r, chain, end)
  {
    hide Settle, Refs;
    assert found.arena[r] == created.arena[r];
    LinkedToPublished(found, r, |s.arena|);
    ChainAnnouncedFrom(s, created, found, Settle(found, r, Some(|s.arena|)), r, chain, end);
  }

  lemma LinkedToPublished(s: State, r: nat, d: nat)
    requires Refs(s) && r < |s.arena| && s.arena[r].descriptor.Some? && d < |s.arena| && d != r && s.arena[d].published
    ensures
      var t := Settle(s, r, Some(d));
      && t.signals == s.signals && |t.arena| == |s.arena|
      && (forall i :: 0 <= i < |s.arena| && s.arena[i].published ==> t.arena[i].published)
      && t.arena[r].published && t.arena[r].domain == Some(d)
      && if s.arena[r].published then t.notices == s.notices
         else |s.notices| < |t.notices| && t.notices[..|s.notices| + 1] == s.notices + [Announced(r, Some(d))]
  {
    var linked := Put(s, r, s.arena[r].(domain := Some(d)));
    PutExtends(s, r, s.arena[r].(domain := Some(d)));
    if !s.arena[r].published {
      PublishNotices(linked, r);
      PublishPublishes(linked, r);
      StillPublished(linked, Publish(linked, r));
    }
  }

  lemma ChainAnnouncedFrom(s: State, created: State, found: State, t: State, r: nat, chain: seq<string>, end: Option<nat>)
    requires chain != [] && created.notices == s.notices && |created.arena| == |s.arena| + 1 && r < |s.arena|
    requires chain[0] !in s.signals && created.signals == s.signals[chain[0] := |s.arena|]
    requires ChainDone(created, found, |s.arena|, chain[1..], end)
    requires |t.arena| == |found.arena| && t.signals == found.signals
    requires forall i :: 0 <= i < |found.arena| && found.arena[i].published ==> t.arena[i].published
    requires t.arena[r].published && t.arena[r].domain == Some(|s.arena|)
    requires
      if s.arena[r].published then t.notices == found.notices
      else |found.notices| < |t.notices| && t.notices[..|found.notices| + 1] == found.notices + [Announced(r, Some(|s.arena|))]
    ensures ChainAnnounced(s, t, r, chain, end)
  {
    hide Refs;
    ChainNoticesExtend(s.notices, |s.arena|, chain, end);
    ChainTrackedExtends(s, created, found, t, chain);
  }

  lemma StillPublished(s: State, t: State)
    requires Cascade(s, t)
    ensures forall i :: 0 <= i < |s.arena| && s.arena[i].published ==> t.arena[i].published
    ensures forall i :: 0 <= i < |s.arena| ==> t.arena[i].domain == s.arena[i].domain
  {
  }

  // ----- chains that end in a signal not yet announced -----------------------------------

  /** Metadata from which both a descriptor and the domain can be read. */
  ghost predicate Usable(tracked: set<string>, connection: Connection, id: string, meta: Option<Metadata>)
  {
    meta.Some? && meta.value.descriptor.Some? && !FindDomain(tracked, connection.Keys, id, meta.value).Malformed?
  }

  /**
   `chain` lists the hidden signals that the metadata of `id` leads to, and the last one cannot be
   announced: it names a tracked signal that has not been announced, or it has no usable metadata.
   */
  ghost predicate Blocked(tracked: map<string, bool>, connection: Connection, id: string, meta: Metadata, chain: seq<string>)
    decreases |chain|
  {
    var lookup := FindDomain(tracked.Keys, connection.Keys, id, meta);
    && meta.descriptor.Some?
    && if chain == [] then
         lookup.Known? && !tracked[lookup.id]
       else
         && lookup == Hidden(chain[0])
         && var next := tracked[chain[0] := false];
         if Usable(next.Keys, connection, chain[0], connection[chain[0]]) then
           Blocked(next, connection, chain[0], connection[chain[0]].value, chain[1..])
         else
           |chain| == 1
  }

  /** The tracked signal that the last signal of the chain waits for, if that has usable metadata. */
  ghost function BlockedEnd(tracked: map<string, bool>, connection: Connection, id: string,
                            meta: Metadata, chain: seq<string>): Option<string>
    requires Blocked(tracked, connection, id, meta, chain)
    decreases |chain|
  {
    if chain == [] then
      Some(FindDomain(tracked.Keys, connection.Keys, id, meta).id)
    else
      var next := tracked[chain[0] := false];
      if Usable(next.Keys, connection, chain[0], connection[chain[0]]) then
        BlockedEnd(next, connection, chain[0], connection[chain[0]].value, chain[1..])
      else
        None
  }

  /** Usable metadata leads either to a chain that can be announced or to one that cannot. */
  lemma {:induction false} LeadsSomewhere(tracked: map<string, bool>, connection: Connection, id: string, meta: Metadata)
    returns (chain: seq<string>)
    requires Usable(tracked.Keys, connection, id, Some(meta))
    ensures Chained(tracked, connection, id, meta, chain) || Blocked(tracked, connection, id, meta, chain)
    decreases connection.Keys - tracked.Keys
  {
    chain := [];
    var lookup := FindDomain(tracked.Keys, connection.Keys, id, meta);
    if lookup.Hidden? {
      var next := tracked[lookup.id := false];
      if Usable(next.Keys, connection, lookup.id, connection[lookup.id]) {
        assert lookup.id in connection.Keys - tracked.Keys;
        chain := LeadsSomewhere(next, connection, lookup.id, connection[lookup.id].value);
      }
      assert ([lookup.id] + chain)[1..] == chain;
      chain := [lookup.id] + chain;
    }
  }

  /** An entry that got a domain: it waits unless it had been announced before. */
  lemma SettleWaits(s: State, r: nat, d: nat)
    requires Refs(s) && r < |s.arena| && s.arena[r].descriptor.Some? && d < |s.arena| && d != r && !s.arena[d].published
    ensures
      var t := Settle(s, r, Some(d));
      && Refs(t) && t.signals == s.signals && t.notices == s.notices
      && t.arena == s.arena[r := s.arena[r].(domain := Some(d))]
      && (s.armed || !s.arena[r].published ==> t.armed)
  {
  }

  /** The outcome of metadata that leads to a blocked chain: nothing is announced, every usable signal waits for the next. */
  ghost predicate ChainWaits(s: State, t: State, r: nat, chain: seq<string>, end: Option<string>)
  {
    && r < |s.arena| && Refs(t) && (chain == [] ==> end.Some?) && (end.Some? ==> end.value in t.signals)
    && WaitingArena(s, t, r, |chain|, if end.Some? then Some(t.signals[end.value]) else None)
    && ChainTracked(s, t, chain)
    && t.notices == s.notices
  }

  /** `n` entries were added, each linked to the next one, the last one to `end`; the others are as they were. */
  ghost predicate WaitingArena(s: State, t: State, r: nat, n: nat, end: Option<nat>)
    requires r < |s.arena|
  {
    && |t.arena| == |s.arena| + n
    && (forall i :: 0 <= i < |s.arena| && i != r ==> t.arena[i] == s.arena[i])
    && t.arena[r].descriptor.Some? && t.arena[r].published == s.arena[r].published
    && t.arena[r].domain == (if n == 0 then end else Some(|s.arena|))
    && (forall i :: |s.arena| <= i < |t.arena| ==> WaitsForNext(t, i, end))
    && (t.arena[r].Deferred() ==> t.armed)
  }

  /** The entry is deferred on the next one; the last one of all on `end`, or it has no usable metadata. */
  ghost predicate WaitsForNext(t: State, i: nat, end: Option<nat>)
    requires i < |t.arena|
  {
    if i + 1 < |t.arena| then t.armed && t.arena[i].Deferred() && t.arena[i].domain == Some(i + 1)
    else if end.Some? then t.armed && t.arena[i].Deferred() && t.arena[i].domain == end
    else !t.arena[i].published && t.arena[i].descriptor.None? && t.arena[i].domain.None?
  }

  /** A hidden signal without usable metadata is tracked and nothing else. */
  lemma DiscoveredBare(known: State, hidden: string, connection: Connection)
    requires Refs(known) && hidden in connection && hidden !in known.signals
    requires !Usable(known.signals.Keys + {hidden}, connection, hidden, connection[hidden])
    ensures Discover(known, hidden, connection) == Create(known, hidden)
  {
    var created := Create(known, hidden);
    var n := |known.arena|;
    assert created.signals.Keys == known.signals.Keys + {hidden};
    assert created.arena[n] == NewEntry(hidden);
    if connection[hidden].Some? {
      MetadataUnfolds(created, n, connection[hidden].value, connection);
      assert Reject(created, n).arena == created.arena;
    }
  }

  lemma MetadataOfBare(s: State, r: nat, meta: Metadata, connection: Connection, hidden: string)
    requires Refs(s) && Tracked(s, r) && meta.descriptor.Some?
    requires FindDomain(s.signals.Keys, connection.Keys, s.arena[r].id, meta) == Hidden(hidden)
    requires hidden in connection && hidden !in s.signals
    requires !Usable(s.signals.Keys + {hidden}, connection, hidden, connection[hidden])
    ensures
      var created := Create(WithDescriptor(s, r, meta), hidden);
      && Refs(created) && r < |s.arena| < |created.arena| && created.arena[r].descriptor.Some?
      && MetadataChanged(s, r, meta, connection) == Settle(created, r, Some(|s.arena|))
  {
    hide FindDomain, Settle, MetadataChanged, Create, Refs, Usable, Discover;
    MetadataUnfolds(s, r, meta, connection);
    var known := WithDescriptor(s, r, meta);
    CreatedTracked(known, hidden);
    DiscoveredBare(known, hidden, connection);
    assert Resolve(known, r, Hidden(hidden), connection) == (Discover(known, hidden, connection), Some(|s.arena|));
  }

  lemma BareWaits(s: State, r: nat, meta: Metadata, connection: Connection, hidden: string)
    requires Refs(s) && Tracked(s, r) && meta.descriptor.Some?
    requires FindDomain(s.signals.Keys, connection.Keys, s.arena[r].id, meta) == Hidden(hidden)
    requires hidden in connection && hidden !in s.signals
    requires !Usable(s.signals.Keys + {hidden}, connection, hidden, connection[hidden])
    ensures ChainWaits(s, MetadataChanged(s, r, meta, connection), r, [hidden], None)
  {
    hide FindDomain, MetadataChanged, Usable, Settle, Refs;
    MetadataOfBare(s, r, meta, connection, hidden);
    var created := Create(WithDescriptor(s, r, meta), hidden);
    assert created.arena[|s.arena|] == NewEntry(hidden);
    SettleWaits(created, r, |s.arena|);
  }

  lemma EndWaits(s: State, r: nat, meta: Metadata, connection: Connection, d: nat)
    requires Refs(s) && Tracked(s, r) && meta.descriptor.Some?
    requires
      var lookup := FindDomain(s.signals.Keys, connection.Keys, s.arena[r].id, meta);
      lookup.Known? && s.signals[lookup.id] == d
    requires d < |s.arena| && d != r && !s.arena[d].published
    ensures ChainWaits(s, MetadataChanged(s, r, meta, connection), r, [], Some(s.arena[d].id))
  {
    hide FindDomain, MetadataChanged, Settle, WithDescriptor;
    KnownOther(s, r, meta, connection);
    hide Refs;
    MetadataOfEnd(s, r, meta, connection, Some(d));
    DescriptorAlone(s, r, meta);
    SettleWaits(WithDescriptor(s, r, meta), r, d);
  }

  lemma DescriptorAlone(s: State, r: nat, meta: Metadata)
    requires Refs(s) && r < |s.arena| && meta.descriptor.Some?
    ensures
      var known := WithDescriptor(s, r, meta);
      && known == Put(s, r, known.arena[r]) && |known.arena| == |s.arena|
      && known.arena[r].descriptor.Some? && known.arena[r].published == s.arena[r].published
  {
  }

  lemma {:induction false} BlockedWaits(s: State, r: nat, meta: Metadata, connection: Connection, chain: seq<string>)
    requires Refs(s) && Tracked(s, r)
    requires Blocked(View(s), connection, s.arena[r].id, meta, chain)
    ensures
      var end := BlockedEnd(View(s), connection, s.arena[r].id, meta, chain);
      ChainWaits(s, MetadataChanged(s, r, meta, connection), r, chain, end)
    decreases |chain|
  {
    hide FindDomain, MetadataChanged, Settle, ChainWaits, ChainTracked, WaitingArena, Refs, ExtendsBut;
    assert View(s).Keys == s.signals.Keys;
    if chain == [] {
      KnownOther(s, r, meta, connection);
      EndWaits(s, r, meta, connection, s.signals[FindDomain(s.signals.Keys, connection.Keys, s.arena[r].id, meta).id]);
    } else {
      var next := View(s)[chain[0] := false];
      assert next.Keys == s.signals.Keys + {chain[0]};
      KnownOther(s, r, meta, connection);
      if Usable(next.Keys, connection, chain[0], connection[chain[0]]) {
        var known := WithDescriptor(s, r, meta);
        ChainStep(s, known, r, chain[0]);
        MetadataOfHidden(s, r, meta, connection, chain[0]);
        var created := Create(known, chain[0]);
        var found := MetadataChanged(created, |s.arena|, connection[chain[0]].value, connection);
        BlockedWaits(created, |s.arena|, connection[chain[0]].value, connection, chain[1..]);
        var end := BlockedEnd(View(created), connection, chain[0], connection[chain[0]].value, chain[1..]);
        TopWaits(s, known, created, found, r, chain, end);
      } else {
        assert chain == [chain[0]];
        BareWaits(s, r, meta, connection, chain[0]);
      }
    }
  }

  lemma KnownOther(s: State, r: nat, meta: Metadata, connection: Connection)
    requires Refs(s) && Tracked(s, r)
    ensures
      match FindDomain(s.signals.Keys, connection.Keys, s.arena[r].id, meta)
      case Known(id) => id in s.signals && s.signals[id] < |s.arena| && s.signals[id] != r && s.arena[s.signals[id]].id == id
      case Hidden(id) => id in connection && id !in s.signals
      case _ => true
  {
  }

  lemma TopWaits(s: State, known: State, created: State, found: State, r: nat, chain: seq<string>, end: Option<string>)
    requires Refs(s) && r < |s.arena| && chain != []
    requires Refs(known) && |known.arena| == |s.arena| && known.arena[r].descriptor.Some?
    requires known == Put(s, r, known.arena[r]) && known.arena[r].published == s.arena[r].published
    requires created == Create(known, chain[0]) && chain[0] !in s.signals
    requires ChainWaits(created, found, |s.arena|, chain[1..], end)
    ensures ChainWaits(s, Settle(found, r, Some(|s.arena|)), r, chain, end)
  {
    hide Settle, Refs, ChainTracked;
    var n := |s.arena|;
    CreatedArena(s, known, created, r, chain[0]);
    assert found.arena[r] == created.arena[r] == known.arena[r];
    assert created.arena[n] == NewEntry(chain[0]);
    SettleWaits(found, r, n);
    var t := Settle(found, r, Some(n));
    ChainTrackedExtends(s, created, found, t, chain);
    var last := if end.Some? then Some(t.signals[end.value]) else None;
    LaterWait(found, t, n, last, |chain|);
  }

  lemma LaterWait(found: State, t: State, n: nat, end: Option<nat>, length: nat)
    requires length > 0 && |found.arena| == |t.arena| == n + length && (found.armed ==> t.armed)
    requires forall i :: n <= i < |found.arena| ==> t.arena[i] == found.arena[i]
    requires !found.arena[n].published && found.arena[n].descriptor.Some? && found.armed
    requires found.arena[n].domain == (if length == 1 then end else Some(n + 1)) && (length == 1 ==> end.Some?)
    requires forall i :: n + 1 <= i < |found.arena| ==> WaitsForNext(found, i, end)
    ensures forall i :: n <= i < |t.arena| ==> WaitsForNext(t, i, end)
  {
    forall i: nat | n <= i < |t.arena|
      ensures WaitsForNext(t, i, end)
    {
      assert t.arena[i] == found.arena[i];
      if i > n {
        assert WaitsForNext(found, i, end);
      }
    }
  }

  /** The signal and those its metadata led to, in the order in which they name each other. */
  function Ring(r: nat, first: nat, n: nat): (ring: seq<nat>)
    ensures |ring| == n + 1 && ring[0] == r && forall i :: 0 < i <= n ==> ring[i] == first + i - 1
  {
    [r] + seq(n, i requires 0 <= i < n => first + i)
  }

  /** Hidden signals that lead back to the signal they were found from wait for each other in a cycle. */
  lemma HiddenCycleWaits(s: State, r: nat, meta: Metadata, connection: Connection, chain: seq<string>)
    requires Refs(s) && Tracked(s, r) && !s.arena[r].published && chain != []
    requires Blocked(View(s), connection, s.arena[r].id, meta, chain)
    requires BlockedEnd(View(s), connection, s.arena[r].id, meta, chain) == Some(s.arena[r].id)
    ensures
      var t := MetadataChanged(s, r, meta, connection);
      t.notices == s.notices && DeferredCycle(t, Ring(r, |s.arena|, |chain|))
  {
    hide Blocked, BlockedEnd, MetadataChanged;
    BlockedWaits(s, r, meta, connection, chain);
    RingWaits(s, MetadataChanged(s, r, meta, connection), r, chain);
  }

  lemma RingWaits(s: State, t: State, r: nat, chain: seq<string>)
    requires Refs(s) && Tracked(s, r) && !s.arena[r].published && chain != []
    requires ChainWaits(s, t, r, chain, Some(s.arena[r].id))
    ensures DeferredCycle(t, Ring(r, |s.arena|, |chain|))
  {
    hide ChainTracked, WaitingArena;
    var ring := Ring(r, |s.arena|, |chain|);
    forall i | 0 <= i < |ring|
      ensures LeadsToNext(t, ring, i)
    {
      RingMember(s, t, r, chain, i);
    }
    NextToCycle(t, ring);
  }

  ghost predicate LeadsToNext(s: State, cycle: seq<nat>, i: nat)
    requires Refs(s) && i < |cycle|
  {
    && Tracked(s, cycle[i]) && s.arena[cycle[i]].Deferred()
    && s.arena[cycle[i]].domain == Some(if i + 1 < |cycle| then cycle[i + 1] else cycle[0])
  }

  lemma NextToCycle(s: State, cycle: seq<nat>)
    requires Refs(s) && cycle != [] && forall i :: 0 <= i < |cycle| ==> LeadsToNext(s, cycle, i)
    ensures DeferredCycle(s, cycle)
  {
    assert LeadsToNext(s, cycle, 0);
    forall i | 0 <= i < |cycle|
      ensures Tracked(s, cycle[i]) && s.arena[cycle[i]].Deferred()
      ensures s.arena[cycle[i]].domain == Some(if i + 1 < |cycle| then cycle[i + 1] else cycle[0])
    {
      assert LeadsToNext(s, cycle, i);
    }
  }

  lemma RingMember(s: State, t: State, r: nat, chain: seq<string>, i: nat)
    requires Refs(s) && Tracked(s, r) && !s.arena[r].published && chain != [] && i <= |chain|
    requires ChainWaits(s, t, r, chain, Some(s.arena[r].id))
    ensures LeadsToNext(t, Ring(r, |s.arena|, |chain|), i)
  {
    var n := |s.arena|;
    if i == 0 {
      assert t.signals[s.arena[r].id] == r && t.arena[r].id == s.arena[r].id;
    } else {
      assert t.signals[chain[i - 1]] == n + i - 1 && t.arena[n + i - 1].id == chain[i - 1];
      assert WaitsForNext(t, n + i - 1, Some(r));
    }
  }

  lemma {:induction false} NotBoth(tracked: map<string, bool>, connection: Connection, id: string, meta: Metadata,
                                   chain: seq<string>, other: seq<string>)
    requires Chained(tracked, connection, id, meta, chain)
    ensures !Blocked(tracked, connection, id, meta, other)
    decreases |chain|
  {
    if chain != [] && Blocked(tracked, connection, id, meta, other) {
      var next := tracked[chain[0] := false];
      assert Usable(next.Keys, connection, chain[0], connection[chain[0]]);
      NotBoth(next, connection, chain[0], connection[chain[0]].value, chain[1..], other[1..]);
    }
  }

  lemma SettleAnnounces(s: State, r: nat, domain: Option<nat>)
    requires Refs(s) && r < |s.arena| && s.arena[r].Deferred()
    requires domain.Some? ==> domain.value < |s.arena| && domain.value != r && s.arena[domain.value].published
    ensures Settle(s, r, domain).arena[r].published
  {
    var linked := Put(s, r, s.arena[r].(domain := domain));
    PutExtends(s, r, s.arena[r].(domain := domain));
    PublishPublishes(linked, r);
  }

  lemma ChainedAnnounces(s: State, r: nat, meta: Metadata, connection: Connection, chain: seq<string>)
    requires Refs(s) && Tracked(s, r) && !s.arena[r].published
    requires Chained(View(s), connection, s.arena[r].id, meta, chain)
    ensures MetadataChanged(s, r, meta, connection).arena[r].published
  {
    hide FindDomain, MetadataChanged, Settle;
    assert View(s).Keys == s.signals.Keys;
    if chain == [] {
      KnownOther(s, r, meta, connection);
      var lookup := FindDomain(s.signals.Keys, connection.Keys, s.arena[r].id, meta);
      var domain := if lookup.Known? then Some(s.signals[lookup.id]) else None;
      MetadataOfEnd(s, r, meta, connection, domain);
      SettleAnnounces(WithDescriptor(s, r, meta), r, domain);
    } else {
      ChainPublishedBottomUp(s, r, meta, connection, chain);
    }
  }

  lemma BlockedAnnouncesNothing(s: State, r: nat, meta: Metadata, connection: Connection, chain: seq<string>)
    requires Refs(s) && Tracked(s, r) && !s.arena[r].published
    requires Blocked(View(s), connection, s.arena[r].id, meta, chain)
    ensures
      var t := MetadataChanged(s, r, meta, connection);
      !t.arena[r].published && t.notices == s.notices
  {
    hide Blocked, MetadataChanged, BlockedEnd, ChainTracked;
    BlockedWaits(s, r, meta, connection, chain);
  }

  lemma UnusableAnnouncesNothing(s: State, r: nat, meta: Metadata, connection: Connection)
    requires Refs(s) && Tracked(s, r) && !s.arena[r].published
    requires !Usable(s.signals.Keys, connection, s.arena[r].id, Some(meta))
    ensures
      var t := MetadataChanged(s, r, meta, connection);
      !t.arena[r].published && t.notices == s.notices
  {
    hide FindDomain, MetadataChanged, Settle, Refs;
    MetadataUnfolds(s, r, meta, connection);
  }

  /**
   Metadata announces a waiting signal exactly when the chain of hidden signals it leads to ends
   without a domain or with one that has been announced; otherwise it announces nothing at all.
   */
  lemma AnnouncedExactlyWhenChained(s: State, r: nat, meta: Metadata, connection: Connection)
    requires Refs(s) && Tracked(s, r) && !s.arena[r].published
    ensures
      var t := MetadataChanged(s, r, meta, connection);
      && (t.arena[r].published <==> exists chain :: Chained(View(s), connection, s.arena[r].id, meta, chain))
      && (!t.arena[r].published ==> t.notices == s.notices)
  {
    hide FindDomain, MetadataChanged, Settle, Refs;
    var id := s.arena[r].id;
    assert View(s).Keys == s.signals.Keys;
    forall chain | Chained(View(s), connection, id, meta, chain)
      ensures MetadataChanged(s, r, meta, connection).arena[r].published
    {
      ChainedAnnounces(s, r, meta, connection, chain);
    }
    if !Usable(s.signals.Keys, connection, id, Some(meta)) {
      UnusableAnnouncesNothing(s, r, meta, connection);
    } else {
      var chain := LeadsSomewhere(View(s), connection, id, meta);
      if Blocked(View(s), connection, id, meta, chain) {
        BlockedAnnouncesNothing(s, r, meta, connection, chain);
      }
    }
  }
}
