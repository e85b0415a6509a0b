/**
 When the client sends a subscribe or an unsubscribe request, and when a signal is marked
 subscribed, said event by event without the handlers; and what that makes of whole runs.
 */
module ClientWire {
  import opened Wrappers
  import opened ClientState
  import opened ClientEvents
  import opened ClientInvariant
  import opened ClientSafety
  import opened ClientFrame
  import DeviceMirror
  import OrderedKeys

  /** The entry filed under the id. */
  ghost predicate Files(s: State, id: string, r: nat)
    requires Refs(s)
  {
    id in s.signals && s.signals[id] == r
  }

  /**
   A subscribe request is sent for a signal that becomes available, unless it is announced, described
   or being fetched; for one the application subscribes to, if it is announced, not marked and not
   held; and for each that waits for its retry when the retries are due.
   */
  ghost predicate SendsSubscribe(s: State, event: Event, r: nat)
    requires Refs(s)
  {
    match event
    case EvAvailable(id) =>
      if id in s.signals then
        Files(s, id, r) && !s.arena[r].published && s.arena[r].descriptor.None? && s.arena[r].fetch != Fetching
      else
        r == |s.arena|
    case EvAppSubscribe(id) =>
      Files(s, id, r) && s.arena[r].published && !s.arena[r].subscribed && s.arena[r].fetch != Held
    case EvTimer =>
      s.timer == ResubscribeDue && Tracked(s, r) && Due(s.arena[r])
    case _ => false
  }

  /**
   An unsubscribe request is sent for a marked signal when the application asks for it; for a held
   one when the peer ends the subscription; and by a sweep for each fetch without an answer and for
   each hold that an earlier sweep has counted.
   */
  ghost predicate SendsUnsubscribe(s: State, event: Event, r: nat)
    requires Refs(s)
  {
    match event
    case EvAppUnsubscribe(id) => Files(s, id, r) && s.arena[r].subscribed
    case EvUnsubscribed(id) => Files(s, id, r) && s.arena[r].fetch == Held
    case EvTimer => s.timer == SweepDue && Tracked(s, r) && Dropped(s.arena[r])
    case _ => false
  }

  predicate Due(e: Entry)
  {
    e.fetch == AwaitingRetry && e.descriptor.None?
  }

  predicate Dropped(e: Entry)
  {
    if e.published then e.fetch == Held && e.sweeps >= 1 else e.fetch == Fetching && e.descriptor.None?
  }

  /** Is the entry marked subscribed after the event? */
  ghost predicate MarkedAfter(s: State, event: Event, r: nat)
    requires Refs(s) && r < |s.arena|
  {
    match event
    case EvSubscribed(id) => s.arena[r].subscribed || (Files(s, id, r) && s.arena[r].published)
    case EvAppSubscribe(id) => s.arena[r].subscribed || (Files(s, id, r) && s.arena[r].published)
    case EvUnsubscribed(id) => s.arena[r].subscribed && !Files(s, id, r)
    case _ => s.arena[r].subscribed
  }

  /** The requests sent for an entry, from one state to the next, and its mark. */
  predicate Calls(before: Entry, after: Entry, subscribes: bool, unsubscribes: bool, marked: bool)
  {
    && after.ledger.subscribes == before.ledger.subscribes + (if subscribes then 1 else 0)
    && after.ledger.unsubscribes == before.ledger.unsubscribes + (if unsubscribes then 1 else 0)
    && after.subscribed == marked
  }

  /** The step did to the entry `r` just what the three predicates say; a new entry has none but the fetch it begins with. */
  ghost predicate CallsAs(s: State, event: Event, t: State, r: nat)
    requires Refs(s)
  {
    r < |t.arena| ==>
      if r < |s.arena| then
        Calls(s.arena[r], t.arena[r], SendsSubscribe(s, event, r), SendsUnsubscribe(s, event, r), MarkedAfter(s, event, r))
      else
        Calls(NewEntry(""), t.arena[r], SendsSubscribe(s, event, r), false, false)
  }

  // ----- the timer -----------------------------------------------------------------------

  lemma VisitCalls(s: State, q: nat, r: nat)
    requires Refs(s) && q < |s.arena| && r < |s.arena|
    ensures
      var before, after := s.arena[r], SweepEntry(s, q).arena[r];
      && after.id == before.id
      && Calls(before, after, false, r == q && Dropped(before), before.subscribed)
      && (r != q ==> Dropped(after) == Dropped(before))
  {
    hide Publish, Unpublished, MarkPublished, DeviceMirror.OnAvailable, Arm;
    PutKeepsRefs(s, q, SweptForm(s.arena[q]));
    hide Refs;
    var swept := Put(s, q, SweptForm(s.arena[q]));
    if DeferralEnds(s.arena[q]) {
      assert AtMostPublished(swept.arena[r], Publish(swept, q).arena[r]);
      hide Publish;
    }
  }

  /** Is the entry still to be visited? */
  ghost predicate Ahead(s: State, keys: seq<string>, r: nat)
    requires Refs(s)
  {
    Tracked(s, r) && s.arena[r].id in keys
  }

  lemma AheadThen(s: State, t: State, keys: seq<string>, r: nat)
    requires Refs(s) && Refs(t) && t.signals == s.signals && r < |s.arena| && r < |t.arena| && t.arena[r].id == s.arena[r].id
    requires keys != [] && keys[0] in s.signals && Distinct(keys)
    ensures Ahead(t, keys[1..], r) <==> Ahead(s, keys, r) && s.signals[keys[0]] != r
    ensures Ahead(s, keys, r) ==> (s.signals[keys[0]] == r <==> s.arena[r].id == keys[0])
    ensures s.signals[keys[0]] == r ==> Ahead(s, keys, r)
  {
    assert keys == [keys[0]] + keys[1..];
    assert forall k :: k in keys[1..] ==> k != keys[0];
  }

  /** Requests of two steps of which at most one sends any. */
  lemma CallsThen(before: Entry, mid: Entry, after: Entry, first: (bool, bool), second: (bool, bool))
    requires Calls(before, mid, first.0, first.1, before.subscribed) && Calls(mid, after, second.0, second.1, mid.subscribed)
    requires !(first.0 && second.0) && !(first.1 && second.1)
    ensures Calls(before, after, first.0 || second.0, first.1 || second.1, before.subscribed)
  {
  }

  lemma {:induction false} SweepAllCalls(s: State, keys: seq<string>, r: nat)
    requires Refs(s) && Distinct(keys) && r < |s.arena| && forall k :: k in keys ==> k in s.signals
    ensures
      var before, after := s.arena[r], SweepAll(s, keys).0.arena[r];
      Calls(before, after, false, Ahead(s, keys, r) && Dropped(before), before.subscribed)
    decreases |keys|
  {
    hide SweepEntry, Dropped, SweptForm, PublishedForm, Retries, Calls, Ahead;
    if keys == [] {
      NothingCalled(s, r);
    } else {
      var q := s.signals[keys[0]];
      var mid := SweepEntry(s, q);
      VisitCalls(s, q, r);
      AheadThen(s, mid, keys, r);
      assert Distinct(keys[1..]);
      SweepAllCalls(mid, keys[1..], r);
      CallsThen(s.arena[r], mid.arena[r], SweepAll(s, keys).0.arena[r], (false, r == q && Dropped(s.arena[r])),
        (false, Ahead(mid, keys[1..], r) && Dropped(mid.arena[r])));
    }
  }

  lemma NothingCalled(s: State, r: nat)
    requires Refs(s) && r < |s.arena|
    ensures Calls(s.arena[r], s.arena[r], false, Ahead(s, [], r) && Dropped(s.arena[r]), s.arena[r].subscribed)
  {
  }

  lemma RetryCalls(s: State, q: nat, r: nat)
    requires Refs(s) && q < |s.arena| && r < |s.arena|
    ensures
      var mid := if DueForRetry(s.arena[q]) then Put(s, q, Retried(s.arena[q])) else s;
      && Refs(mid) && mid.signals == s.signals && |mid.arena| == |s.arena| && mid.arena[r].id == s.arena[r].id
      && Calls(s.arena[r], mid.arena[r], r == q && Due(s.arena[r]), false, s.arena[r].subscribed)
      && (r != q ==> Due(mid.arena[r]) == Due(s.arena[r]))
  {
    PutKeepsRefs(s, q, Retried(s.arena[q]));
  }

  lemma {:induction false} ResubscribeAllCalls(s: State, keys: seq<string>, r: nat)
    requires Refs(s) && Distinct(keys) && r < |s.arena| && forall k :: k in keys ==> k in s.signals
    ensures
      var before, after := s.arena[r], ResubscribeAll(s, keys).0.arena[r];
      Calls(before, after, Ahead(s, keys, r) && Due(before), false, before.subscribed)
    decreases |keys|
  {
    hide Retried, DueForRetry, Calls, Ahead, Due;
    if keys == [] {
      NothingDue(s, r);
    } else {
      var q := s.signals[keys[0]];
      RetryCalls(s, q, r);
      var mid := if DueForRetry(s.arena[q]) then Put(s, q, Retried(s.arena[q])) else s;
      AheadThen(s, mid, keys, r);
      assert Distinct(keys[1..]);
      ResubscribeAllCalls(mid, keys[1..], r);
      CallsThen(s.arena[r], mid.arena[r], ResubscribeAll(s, keys).0.arena[r], (r == q && Due(s.arena[r]), false),
        (Ahead(mid, keys[1..], r) && Due(mid.arena[r]), false));
    }
  }

  lemma NothingDue(s: State, r: nat)
    requires Refs(s) && r < |s.arena|
    ensures Calls(s.arena[r], s.arena[r], Ahead(s, [], r) && Due(s.arena[r]), false, s.arena[r].subscribed)
  {
  }

  lemma SweepFiredCalls(s: State, r: nat)
    requires Refs(s) && s.timer == SweepDue
    ensures |Fire(s).arena| == |s.arena| && CallsAs(s, EvTimer, Fire(s), r)
  {
    hide SweepAll, Dropped;
    var fired := s.(timer := Idle);
    OrderedKeys.SortedDistinct(s.signals.Keys);
    var swept := SweepAll(fired, Order(fired)).0;
    assert Fire(s).arena == swept.arena;
    if r < |s.arena| {
      assert Tracked(fired, r) == Tracked(s, r);
      assert Tracked(s, r) ==> s.arena[r].id in Order(fired);
      SweepAllCalls(fired, Order(fired), r);
    }
  }

  lemma ResubscribeFiredCalls(s: State, r: nat)
    requires Refs(s) && s.timer == ResubscribeDue
    ensures |Fire(s).arena| == |s.arena| && CallsAs(s, EvTimer, Fire(s), r)
  {
    hide ResubscribeAll, Sweep, OrderedKeys.Sorted;
    var start := s.(timer := Idle, armed := false);
    OrderedKeys.SortedDistinct(s.signals.Keys);
    var resent := ResubscribeAll(start, Order(start)).0;
    assert Fire(s).arena == resent.arena;
    if r < |s.arena| {
      assert Tracked(start, r) == Tracked(s, r);
      assert Tracked(s, r) ==> s.arena[r].id in Order(start);
      ResubscribeAllCalls(start, Order(start), r);
    }
  }

  lemma FireCalls(s: State, r: nat)
    requires Refs(s)
    ensures |Fire(s).arena| == |s.arena| && CallsAs(s, EvTimer, Fire(s), r)
  {
    hide Sweep, Resubscribe, Refs, Dropped;
    if s.timer == SweepDue {
      SweepFiredCalls(s, r);
    } else if s.timer == ResubscribeDue {
      ResubscribeFiredCalls(s, r);
    }
  }

  // ----- the other events ----------------------------------------------------------------

  lemma AvailableCalls(s: State, id: string, r: nat)
    requires Refs(s)
    ensures |s.arena| <= |Available(s, id).arena| && CallsAs(s, EvAvailable(id), Available(s, id), r)
  {
    hide Available, Calls, NewEntry;
    AvailableChanges(s, id);
    if r < |s.arena| && !Files(s, id, r) {
      SameCalled(s.arena[r]);
    }
  }

  /** One entry changes, or one is added. */
  lemma AvailableChanges(s: State, id: string)
    requires Refs(s)
    ensures
      var t := Available(s, id);
      && (forall i :: 0 <= i < |s.arena| && !Files(s, id, i) ==> i < |t.arena| && t.arena[i] == s.arena[i])
      && if id in s.signals then
           var r := s.signals[id];
           && |t.arena| == |s.arena|
           && Calls(s.arena[r], t.arena[r], SendsSubscribe(s, EvAvailable(id), r), false, s.arena[r].subscribed)
         else
           |t.arena| == |s.arena| + 1 && Calls(NewEntry(""), t.arena[|s.arena|], true, false, false)
  {
    if id !in s.signals {
      assert WithEntry(s, id).arena[|s.arena|] == NewEntry(id);
    }
  }

  lemma SameCalled(e: Entry)
    ensures Calls(e, e, false, false, e.subscribed)
  {
  }

  lemma UnavailableCalls(s: State, id: string, r: nat)
    requires Refs(s)
    ensures |s.arena| <= |Unavailable(s, id).arena| && CallsAs(s, EvUnavailable(id), Unavailable(s, id), r)
  {
  }

  lemma SubscribedCalls(s: State, id: string, r: nat)
    requires Refs(s)
    ensures |s.arena| <= |Subscribed(s, id).arena| && CallsAs(s, EvSubscribed(id), Subscribed(s, id), r)
  {
  }

  lemma UnsubscribedCalls(s: State, id: string, r: nat)
    requires Refs(s)
    ensures |s.arena| <= |Unsubscribed(s, id).arena| && CallsAs(s, EvUnsubscribed(id), Unsubscribed(s, id), r)
  {
  }

  lemma AppSubscribeCalls(s: State, id: string, r: nat)
    requires Refs(s)
    ensures |s.arena| <= |AppSubscribe(s, id).arena| && CallsAs(s, EvAppSubscribe(id), AppSubscribe(s, id), r)
  {
    hide AppSubscribe, Calls;
    AppSubscribeChanges(s, id);
    if r < |s.arena| && !Files(s, id, r) {
      assert AppSubscribe(s, id).arena[r] == s.arena[r];
      SameCalled(s.arena[r]);
    }
  }

  lemma AppSubscribeChanges(s: State, id: string)
    requires Refs(s)
    ensures
      var t := AppSubscribe(s, id);
      && |t.arena| == |s.arena|
      && (forall i :: 0 <= i < |s.arena| && !Files(s, id, i) ==> t.arena[i] == s.arena[i])
      && (id in s.signals ==>
            var e := s.arena[s.signals[id]];
            Calls(e, t.arena[s.signals[id]], e.published && !e.subscribed && e.fetch != Held, false, e.subscribed || e.published))
  {
    hide DomainEvents;
  }

  lemma AppUnsubscribeCalls(s: State, id: string, r: nat)
    requires Refs(s)
    ensures |s.arena| <= |AppUnsubscribe(s, id).arena| && CallsAs(s, EvAppUnsubscribe(id), AppUnsubscribe(s, id), r)
  {
  }

  lemma DataCalls(s: State, id: string, value: int, count: nat, r: nat)
    requires Refs(s)
    ensures |s.arena| <= |DataReceived(s, id, value, count).arena| && CallsAs(s, EvData(id, value, count), DataReceived(s, id, value, count), r)
  {
  }

  lemma MetadataCalls(s: State, id: string, meta: Metadata, connection: Connection, r: nat)
    requires Refs(s) && id in s.signals
    ensures
      var t := MetadataChanged(s, s.signals[id], meta, connection);
      |s.arena| <= |t.arena| && CallsAs(s, EvMetadata(id, meta, connection), t, r)
  {
    hide MetadataChanged, ExtendsBut;
    var q := s.signals[id];
    MetadataHandled(s, q, meta, connection);
    var t := MetadataChanged(s, q, meta, connection);
    assert r < |s.arena| && r != q ==> AtMostPublished(s.arena[r], t.arena[r]);
    assert |s.arena| <= r < |t.arena| ==> Uncalled(t.arena[r]);
  }

  lemma MetadataIgnored(s: State, id: string, meta: Metadata, connection: Connection, r: nat)
    requires Refs(s)
    ensures CallsAs(s, EvMetadata(id, meta, connection), s, r)
  {
  }

  /** One event sends exactly the requests that are said to be sent, and marks exactly as said. */
  lemma CallsExactly(s: State, event: Event, t: State, r: nat)
    requires Follows(s, event, t)
    ensures |s.arena| <= |t.arena| && CallsAs(s, event, t, r)
  {
    hide CallsAs, AppUnsubscribe, AppSubscribe, Available, Unavailable, Subscribed, Unsubscribed, MetadataChanged,
      DataReceived, Fire, Refs;
    match event
    case EvAvailable(id) => AvailableCalls(s, id, r);
    case EvUnavailable(id) => UnavailableCalls(s, id, r);
    case EvSubscribed(id) => SubscribedCalls(s, id, r);
    case EvUnsubscribed(id) => UnsubscribedCalls(s, id, r);
    case EvMetadata(id, meta, connection) =>
      if id in s.signals {
        MetadataCalls(s, id, meta, connection, r);
      } else {
        MetadataIgnored(s, id, meta, connection, r);
      }
    case EvData(id, value, count) => DataCalls(s, id, value, count, r);
    case EvAppSubscribe(id) => AppSubscribeCalls(s, id, r);
    case EvAppUnsubscribe(id) => AppUnsubscribeCalls(s, id, r);
    case EvTimer => FireCalls(s, r);
  }

  // ----- whole runs ----------------------------------------------------------------------

  lemma StateOfRun(states: seq<State>, events: seq<Event>, i: nat)
    requires IsRun(states, events) && i < |events|
    ensures Refs(states[i]) && Follows(states[i], events[i], states[i + 1])
  {
    assert StepAt(states, events, i);
  }

  /** How many of the first `n` events send a subscribe request for the entry. */
  ghost function Subscribes(states: seq<State>, events: seq<Event>, r: nat, n: nat): nat
    requires IsRun(states, events) && n <= |events|
  {
    if n == 0 then
      0
    else
      StateOfRun(states, events, n - 1);
      Subscribes(states, events, r, n - 1) + (if SendsSubscribe(states[n - 1], events[n - 1], r) then 1 else 0)
  }

  /** How many of the first `n` events send an unsubscribe request for the entry. */
  ghost function Unsubscribes(states: seq<State>, events: seq<Event>, r: nat, n: nat): nat
    requires IsRun(states, events) && n <= |events|
  {
    if n == 0 then
      0
    else
      StateOfRun(states, events, n - 1);
      Unsubscribes(states, events, r, n - 1) + (if SendsUnsubscribe(states[n - 1], events[n - 1], r) then 1 else 0)
  }

  /**
   Along every run the requests sent for an entry are those the events of the run are said to send:
   one for each such event, and no other.
   */
  lemma {:induction false} RequestsCounted(states: seq<State>, events: seq<Event>, r: nat, n: nat)
    requires IsRun(states, events) && states[0] == INITIAL && n <= |events|
    ensures
      if r < |states[n].arena| then
        && states[n].arena[r].ledger.subscribes == Subscribes(states, events, r, n)
        && states[n].arena[r].ledger.unsubscribes == Unsubscribes(states, events, r, n)
      else
        Subscribes(states, events, r, n) == Unsubscribes(states, events, r, n) == 0
  {
    hide SendsSubscribe, SendsUnsubscribe, MarkedAfter, Step, Refs;
    if n > 0 {
      RequestsCounted(states, events, r, n - 1);
      StateOfRun(states, events, n - 1);
      CallsExactly(states[n - 1], events[n - 1], states[n], r);
      if |states[n - 1].arena| <= r {
        SentForFiled(states[n - 1], events[n - 1], states[n], r);
      }
    }
  }

  /** Requests are sent only for entries there are, or that the event creates. */
  lemma SentForFiled(s: State, event: Event, t: State, r: nat)
    requires Follows(s, event, t) && |s.arena| <= r
    ensures !SendsUnsubscribe(s, event, r)
    ensures SendsSubscribe(s, event, r) ==> r < |t.arena|
  {
    hide Fire, MetadataChanged, AppSubscribe, DataReceived;
  }

  // ----- which signals are tracked -------------------------------------------------------

  /** The signal is tracked in t because it was in s, or because the event brought it. */
  ghost predicate FiledAfter(s: State, event: Event, id: string)
    requires Refs(s)
  {
    match event
    case EvAvailable(x) => id in s.signals || id == x
    case EvUnavailable(x) => id in s.signals && id != x
    case _ => id in s.signals
  }

  /** Signals stay filed with their entries; the entry of a new signal is a new one. */
  ghost predicate FilesKept(s: State, t: State)
    requires Refs(s) && Refs(t)
  {
    && |s.arena| <= |t.arena|
    && forall id :: id in t.signals ==> if id in s.signals then t.signals[id] == s.signals[id] else t.signals[id] >= |s.arena|
  }

  lemma {:induction false} MetadataFiles(s: State, r: nat, meta: Metadata, connection: Connection)
    requires Refs(s) && Tracked(s, r)
    ensures
      var t := MetadataChanged(s, r, meta, connection);
      && FilesKept(s, t) && s.signals.Keys <= t.signals.Keys <= s.signals.Keys + connection.Keys
    decreases connection.Keys - s.signals.Keys
  {
    hide FindDomain, MetadataChanged, Settle, Discover, Refs;
    MetadataUnfolds(s, r, meta, connection);
    var lookup := FindDomain(s.signals.Keys, connection.Keys, s.arena[r].id, meta);
    LookupPlaces(s.signals.Keys, connection.Keys, s.arena[r].id, meta);
    if meta.descriptor.Some? && !lookup.Malformed? {
      var known := Put(s, r, Described(s.arena[r], meta.descriptor));
      var (found, domain) := Resolve(known, r, lookup, connection);
      if lookup.Hidden? {
        DiscoveryFiles(s, known, lookup.id, connection);
      }
      SettleFiles(found, r, domain);
    }
  }

  lemma SettleFiles(s: State, r: nat, domain: Option<nat>)
    requires Refs(s) && r < |s.arena| && s.arena[r].descriptor.Some?
    requires domain.Some? ==> domain.value < |s.arena| && domain.value != r
    ensures Settle(s, r, domain).signals == s.signals && |Settle(s, r, domain).arena| == |s.arena|
  {
  }

  lemma {:induction false} DiscoveryFiles(s: State, known: State, id: string, connection: Connection)
    requires Refs(s) && Refs(known) && known.signals == s.signals && |known.arena| == |s.arena|
    requires id in connection && id !in s.signals
    ensures
      var t := Discover(known, id, connection);
      && FilesKept(s, t) && s.signals.Keys <= t.signals.Keys <= s.signals.Keys + connection.Keys
    decreases connection.Keys - s.signals.Keys, 0
  {
    hide MetadataChanged, Refs;
    CreatedTracked(known, id);
    var created := Create(known, id);
    assert created.signals.Keys == s.signals.Keys + {id};
    if connection[id].Some? {
      assert id in connection.Keys - s.signals.Keys;
      MetadataFiles(created, |known.arena|, connection[id].value, connection);
    }
  }

  lemma AvailableFiles(s: State, id: string)
    requires Refs(s)
    ensures FilesKept(s, Available(s, id)) && Available(s, id).signals.Keys == s.signals.Keys + {id}
  {
    hide StartFetch, NewEntry;
    var t := WithEntry(s, id);
    assert t.signals.Keys == s.signals.Keys + {id};
    assert Available(s, id).signals == t.signals && |Available(s, id).arena| == |t.arena|;
  }

  lemma UnavailableFiles(s: State, id: string)
    requires Refs(s)
    ensures FilesKept(s, Unavailable(s, id)) && Unavailable(s, id).signals.Keys == s.signals.Keys - {id}
  {
    hide DeviceMirror.OnUnavailable;
  }

  /** The map and the number of entries are the same. */
  ghost predicate SameFiles(s: State, t: State)
  {
    t.signals == s.signals && |t.arena| == |s.arena|
  }

  lemma RequestsFile(s: State, id: string)
    requires Refs(s)
    ensures SameFiles(s, AppSubscribe(s, id)) && SameFiles(s, AppUnsubscribe(s, id))
  {
    hide DomainEvents;
  }

  lemma AcksFile(s: State, id: string)
    requires Refs(s)
    ensures SameFiles(s, Subscribed(s, id)) && SameFiles(s, Unsubscribed(s, id))
  {

  }

  lemma DataFiles(s: State, id: string, value: int, count: nat)
    requires Refs(s)
    ensures SameFiles(s, DataReceived(s, id, value, count))
  {
    hide NeedsDomainPacket;
  }

  lemma TimerFiles(s: State)
    requires Refs(s)
    ensures Fire(s).signals == s.signals && |Fire(s).arena| == |s.arena|
  {
    FireCalls(s, 0);
    hide Sweep, Resubscribe;
  }

  /**
   A signal is tracked from when it becomes available, or is discovered through metadata, until it
   becomes unavailable, always with the same entry, which is new when the tracking begins.
   */
  lemma FiledExactly(s: State, event: Event, t: State, id: string)
    requires Refs(s) && Follows(s, event, t)
    ensures Refs(t) && FilesKept(s, t)
    ensures !event.EvMetadata? ==> (id in t.signals <==> FiledAfter(s, event, id))
    ensures event.EvMetadata? ==> (id in s.signals ==> id in t.signals) && (id in t.signals ==> id in s.signals || id in event.connection)
  {
    hide AppUnsubscribe, AppSubscribe, Available, Unavailable, Subscribed, Unsubscribed, MetadataChanged,
      DataReceived, Fire;
    match event
    case EvAvailable(x) => AvailableFiles(s, x);
    case EvUnavailable(x) => UnavailableFiles(s, x);
    case EvMetadata(x, meta, connection) =>
      if x in s.signals {
        MetadataFiles(s, s.signals[x], meta, connection);
      }
    case EvTimer => TimerFiles(s);
    case EvSubscribed(x) => AcksFile(s, x);
    case EvUnsubscribed(x) => AcksFile(s, x);
    case EvData(x, value, count) => DataFiles(s, x, value, count);
    case EvAppSubscribe(x) => RequestsFile(s, x);
    case EvAppUnsubscribe(x) => RequestsFile(s, x);
  }
}
