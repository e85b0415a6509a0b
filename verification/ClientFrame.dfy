/** What metadata handling and a sweep leave alone, entry by entry. */
module ClientFrame {
  import opened Wrappers
  import opened ClientState
  import opened ClientEvents
  import opened ClientInvariant
  import opened ClientSafety
  import OrderedKeys

  // ----- metadata ------------------------------------------------------------------------

  /** The entry is as it was, or it was deferred and has been published. */
  predicate AtMostPublished(before: Entry, after: Entry)
  {
    after == before || (before.Deferred() && after == PublishedForm(before))
  }

  /** The fetch stands where it stood, or publication has ended it or turned it into a hold that is not counted yet. */
  predicate FetchKept(before: Entry, after: Entry)
  {
    || (after.published == before.published
        && after.fetch == before.fetch && after.attempts == before.attempts && after.sweeps == before.sweeps)
    || (!before.published && after.published
        && after.fetch == (if before.fetch.Fetching? then Held else NotFetching) && after.attempts == 0 && after.sweeps == 0)
  }

  /** No call was made for the entry and it was not marked. */
  predicate SameCalls(before: Entry, after: Entry)
  {
    && after.id == before.id && after.ledger == before.ledger && after.subscribed == before.subscribed
    && FetchKept(before, after)
  }

  /**
   From s to t, entries other than `r` were at most published; new ones are not marked, and no call
   was made for any entry; the timer was left alone or armed because it was not armed before.
   */
  ghost predicate Handled(s: State, t: State, r: nat)
  {
    && |s.arena| <= |t.arena|
    && TimerKept(s, t)
    && (forall i :: 0 <= i < |s.arena| && i != r ==> AtMostPublished(s.arena[i], t.arena[i]))
    && (r < |s.arena| ==> SameCalls(s.arena[r], t.arena[r]))
    && (forall i :: |s.arena| <= i < |t.arena| ==> Uncalled(t.arena[i]))
  }

  predicate Uncalled(e: Entry)
  {
    e.ledger == NEW_LEDGER && !e.subscribed
  }

  lemma HandledThen(s: State, t: State, u: State, r: nat)
    requires Handled(s, t, r) && Handled(t, u, r) && r < |s.arena|
    ensures Handled(s, u, r)
  {
    forall i | 0 <= i < |s.arena| && i != r
      ensures AtMostPublished(s.arena[i], u.arena[i])
    {
      assert AtMostPublished(s.arena[i], t.arena[i]) && AtMostPublished(t.arena[i], u.arena[i]);
    }
    forall i | |s.arena| <= i < |u.arena|
      ensures Uncalled(u.arena[i])
    {
      if i < |t.arena| {
        assert Uncalled(t.arena[i]) && AtMostPublished(t.arena[i], u.arena[i]);
      }
    }
  }

  lemma CascadeHandled(s: State, t: State, r: nat)
    requires Cascade(s, t)
    ensures Handled(s, t, r)
  {
    forall i | 0 <= i < |s.arena|
      ensures AtMostPublished(s.arena[i], t.arena[i]) && SameCalls(s.arena[i], t.arena[i])
    {
    }
  }

  lemma PutHandled(s: State, r: nat, e: Entry)
    requires r < |s.arena| && SameCalls(s.arena[r], e)
    ensures Handled(s, Put(s, r, e), r)
  {
  }

  lemma SettleHandled(s: State, r: nat, domain: Option<nat>)
    requires Refs(s) && r < |s.arena| && s.arena[r].descriptor.Some?
    requires domain.Some? ==> domain.value < |s.arena| && domain.value != r
    ensures Handled(s, Settle(s, r, domain), r)
  {
    hide DomainEvents;
    var linked := Put(s, r, s.arena[r].(domain := domain));
    PutExtends(s, r, s.arena[r].(domain := domain));
    PutHandled(s, r, s.arena[r].(domain := domain));
    if !linked.arena[r].published && !(domain.Some? && !linked.arena[domain.value].published) {
      CascadeHandled(linked, Publish(linked, r), r);
      HandledThen(s, linked, Publish(linked, r), r);
    }
  }

  lemma {:induction false} MetadataHandled(s: State, r: nat, meta: Metadata, connection: Connection)
    requires Refs(s) && Tracked(s, r)
    ensures Handled(s, MetadataChanged(s, r, meta, connection), r)
    decreases connection.Keys - s.signals.Keys, 2
  {
    hide FindDomain, MetadataChanged, Resolve, Settle, Handled;
    MetadataUnfolds(s, r, meta, connection);
    var lookup := FindDomain(s.signals.Keys, connection.Keys, s.arena[r].id, meta);
    LookupPlaces(s.signals.Keys, connection.Keys, s.arena[r].id, meta);
    if meta.descriptor.None? || lookup.Malformed? {
      PutHandled(s, r, Described(s.arena[r], None).(domain := None));
    } else {
      var known := Put(s, r, Described(s.arena[r], meta.descriptor));
      PutHandled(s, r, Described(s.arena[r], meta.descriptor));
      ResolveHandled(known, r, lookup, connection);
      var (found, domain) := Resolve(known, r, lookup, connection);
      SettleHandled(found, r, domain);
      HandledThen(s, known, found, r);
      HandledThen(s, found, Settle(found, r, domain), r);
    }
  }

  lemma {:induction false} ResolveHandled(s: State, r: nat, lookup: Lookup, connection: Connection)
    requires Refs(s) && r < |s.arena| && !lookup.Malformed?
    requires lookup.Known? ==> lookup.id in s.signals && lookup.id != s.arena[r].id
    requires lookup.Hidden? ==> lookup.id in connection && lookup.id !in s.signals
    ensures Handled(s, Resolve(s, r, lookup, connection).0, r)
    decreases connection.Keys - s.signals.Keys, 1
  {
    hide Discover;
    if lookup.Hidden? {
      DiscoverHandled(s, lookup.id, connection);
      var t := Discover(s, lookup.id, connection);
      assert AtMostPublished(s.arena[r], t.arena[r]);
    }
  }

  lemma {:induction false} DiscoverHandled(s: State, id: string, connection: Connection)
    requires Refs(s) && id in connection && id !in s.signals
    ensures Handled(s, Discover(s, id, connection), |s.arena|)
    decreases connection.Keys - s.signals.Keys, 0
  {
    hide MetadataChanged, Refs;
    CreatedHandled(s, id);
    var created := Create(s, id);
    if connection[id].Some? {
      assert id in connection.Keys - s.signals.Keys;
      CreatedTracked(s, id);
      MetadataHandled(created, |s.arena|, connection[id].value, connection);
      CreatedThenHandled(s, created, MetadataChanged(created, |s.arena|, connection[id].value, connection));
    }
  }

  lemma CreatedTracked(s: State, id: string)
    requires Refs(s) && id !in s.signals
    ensures Refs(Create(s, id)) && Tracked(Create(s, id), |s.arena|)
  {
  }

  lemma CreatedHandled(s: State, id: string)
    ensures Handled(s, Create(s, id), |s.arena|)
  {
  }

  lemma CreatedThenHandled(s: State, created: State, t: State)
    requires Handled(s, created, |s.arena|) && |created.arena| == |s.arena| + 1
    requires Handled(created, t, |s.arena|)
    ensures Handled(s, t, |s.arena|)
  {
    forall i | 0 <= i < |s.arena|
      ensures AtMostPublished(s.arena[i], t.arena[i])
    {
      assert AtMostPublished(s.arena[i], created.arena[i]) && AtMostPublished(created.arena[i], t.arena[i]);
    }
    assert Uncalled(created.arena[|s.arena|]);
  }

  // ----- a sweep -------------------------------------------------------------------------

  /** The keys are visited once each. */
  predicate Distinct(keys: seq<string>)
  {
    forall i, j :: 0 <= i < j < |keys| ==> keys[i] != keys[j]
  }

  /** A visit to `q` does to an entry that is not deferred what its own visit does, if it is `q`. */
  lemma SweepEntryAlone(s: State, q: nat, r: nat)
    requires Refs(s) && q < |s.arena| && r < |s.arena| && !s.arena[r].Deferred()
    ensures SweepEntry(s, q).arena[r] == if r == q then SweptForm(s.arena[r]) else s.arena[r]
  {
    PutKeepsRefs(s, q, SweptForm(s.arena[q]));
    hide Publish, Refs;
  }

  /** A sweep of signals visits an entry that is not deferred at most once, and does nothing else to it. */
  lemma {:induction false} SweepAllAlone(s: State, keys: seq<string>, r: nat)
    requires Refs(s) && Distinct(keys) && forall k :: k in keys ==> k in s.signals
    requires Tracked(s, r) && !s.arena[r].Deferred()
    ensures SweepAll(s, keys).0.arena[r] == if s.arena[r].id in keys then SweptForm(s.arena[r]) else s.arena[r]
    decreases |keys|
  {
    hide SweepEntry, MissFetch;
    if keys != [] {
      var q := s.signals[keys[0]];
      SweepEntryAlone(s, q, r);
      assert SweptForm(s.arena[r]).id == s.arena[r].id && !SweptForm(s.arena[r]).Deferred() by {
        SweptFormAlike(s.arena[r]);
      }
      SweepAllAlone(SweepEntry(s, q), keys[1..], r);
      assert forall k :: k in keys[1..] ==> k != keys[0];
      assert keys == [keys[0]] + keys[1..];
    }
  }

  lemma SweptFormAlike(e: Entry)
    ensures SweptForm(e).id == e.id && SweptForm(e).Deferred() == e.Deferred()
    ensures SweptForm(e).published == e.published && SweptForm(e).descriptor == e.descriptor
  {
  }
}
