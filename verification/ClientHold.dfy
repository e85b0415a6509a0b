/**
 How long a fetch subscription is held for the application to take over, and when an application
 that subscribes to a held signal loses the subscription all the same.
 */
module ClientHold {
  import opened Wrappers
  import opened Descriptors
  import opened ClientState
  import opened ClientEvents
  import opened ClientInvariant
  import opened ClientSafety
  import opened ClientFrame
  import opened ClientSweep
  import opened ClientTheorems
  import opened ClientTimer
  import ClientDeferral
  import DeviceMirror
  import OrderedKeys

  /** A sweep does to a published entry just what its own visit does. */
  lemma SweptPublished(s: State, t: State, r: nat)
    requires SweptTo(s, t) && Tracked(s, r) && s.arena[r].published
    ensures |t.arena| == |s.arena| && t.arena[r] == SweptForm(s.arena[r])
  {
    hide SweepAll, Reachable, Reaches, Core;
    SweepStarts(s, t);
    var fired := s.(timer := Idle);
    OrderedKeys.SortedDistinct(s.signals.Keys);
    assert Tracked(fired, r);
    SweepAllAlone(fired, Order(s), r);
  }

  /** A hold, counted from zero, survives the first sweep and is released by the second. */
  lemma HeldForOneFullPeriod(s: State, t: State, r: nat)
    requires SweptTo(s, t) && Tracked(s, r) && s.arena[r].fetch.Held?
    ensures |t.arena| == |s.arena| && s.arena[r].sweeps <= 1
    ensures
      if s.arena[r].sweeps == 0 then
        t.arena[r] == s.arena[r].(sweeps := 1)
      else
        t.arena[r].fetch.NotFetching? && t.arena[r].ledger.unsubscribes == s.arena[r].ledger.unsubscribes + 1
  {
    hide Reachable, Reaches;
    ReachableInv(s);
    assert Local(s.arena[r]);
    SweptPublished(s, t, r);
  }

  /** A sweep leaves alone what is announced and not held, and what waits for a descriptor without being fetched. */
  lemma SweepSpares(s: State, t: State, r: nat)
    requires SweptTo(s, t) && Tracked(s, r)
    requires if s.arena[r].published then s.arena[r].fetch != Held else s.arena[r].descriptor.None? && s.arena[r].fetch != Fetching
    ensures |t.arena| == |s.arena| && t.arena[r] == s.arena[r]
  {
    hide SweepAll, Reachable, Reaches, Core;
    SweepStarts(s, t);
    var fired := s.(timer := Idle);
    OrderedKeys.SortedDistinct(s.signals.Keys);
    assert Tracked(fired, r);
    SweepAllAlone(fired, Order(s), r);
  }

  // ----- how a hold begins ---------------------------------------------------------------

  /** Publication turned a fetch into a hold; a sweep may have counted it once since. */
  predicate HoldBegun(before: Entry, after: Entry, swept: bool)
  {
    && before.fetch == Fetching && after.published
    && after.ledger == before.ledger && after.attempts == 0 && after.sweeps <= (if swept then 1 else 0)
  }

  lemma VisitHolds(s: State, q: nat, r: nat)
    requires Refs(s) && q < |s.arena| && r < |s.arena| && !s.arena[r].published && s.arena[r].fetch != Held
    ensures
      var before, mid := s.arena[r], SweepEntry(s, q).arena[r];
      && mid.id == before.id
      && (mid.published && mid.fetch == Held ==> HoldBegun(before, mid, false))
      && (!mid.published ==> mid.fetch != Held && (mid.fetch == Fetching ==> before.fetch == Fetching && mid.ledger == before.ledger))
  {
    hide MarkPublished, Publish, DeviceMirror.LocalId, Register, DeviceMirror.OnAvailable, TimerKept;
    PutKeepsRefs(s, q, SweptForm(s.arena[q]));
    hide Refs;
    var swept := Put(s, q, SweptForm(s.arena[q]));
    if DeferralEnds(s.arena[q]) {
      assert AtMostPublished(swept.arena[r], Publish(swept, q).arena[r]);
    }
    hide Publish;
  }

  lemma {:induction false} SweepAllHolds(s: State, keys: seq<string>, r: nat)
    requires Refs(s) && Distinct(keys) && Tracked(s, r) && forall k :: k in keys ==> k in s.signals
    requires !s.arena[r].published && s.arena[r].fetch != Held
    ensures
      var after := SweepAll(s, keys).0.arena[r];
      after.fetch == Held ==> HoldBegun(s.arena[r], after, true)
    decreases |keys|
  {
    hide SweepEntry;
    if keys != [] {
      var q := s.signals[keys[0]];
      var mid := SweepEntry(s, q);
      VisitHolds(s, q, r);
      assert Distinct(keys[1..]);
      if mid.arena[r].published {
        SweepAllAlone(mid, keys[1..], r);
      } else {
        SweepAllHolds(mid, keys[1..], r);
      }
    }
  }

  lemma SweptHold(s: State, r: nat)
    requires Inv(s) && Tracked(s, r) && !s.arena[r].published && s.arena[r].fetch != Held
    ensures r < |Fire(s).arena| && (Fire(s).arena[r].fetch == Held ==> HoldBegun(s.arena[r], Fire(s).arena[r], true))
  {
    hide SweepAll, ResubscribeAll, AllLocal, Waiting, Woken, Mirrored, HoldBegun;
    var fired := s.(timer := Idle);
    OrderedKeys.SortedDistinct(s.signals.Keys);
    assert Tracked(fired, r);
    if s.timer == SweepDue {
      SweepAllHolds(fired, Order(fired), r);
      assert Fire(s).arena == SweepAll(fired, Order(fired)).0.arena;
    } else if s.timer == ResubscribeDue {
      ResubscribeRetries(fired);
      assert s.signals[s.arena[r].id] == r;
    }
  }

  lemma MetadataHold(s: State, q: nat, meta: Metadata, connection: Connection, r: nat)
    requires Refs(s) && Tracked(s, q) && r < |s.arena| && !s.arena[r].published && s.arena[r].fetch != Held
    ensures
      var t := MetadataChanged(s, q, meta, connection);
      r < |t.arena| && (t.arena[r].fetch == Held ==> HoldBegun(s.arena[r], t.arena[r], false))
  {
    hide MetadataChanged;
    MetadataHandled(s, q, meta, connection);
    var t := MetadataChanged(s, q, meta, connection);
    assert r != q ==> AtMostPublished(s.arena[r], t.arena[r]);
  }

  /** Entry `r` is as much published in t as in s. */
  ghost predicate PublishedAlike(s: State, t: State, r: nat)
  {
    r < |s.arena| && r < |t.arena| && t.arena[r].published == s.arena[r].published
  }

  lemma AppSubscribePublishesNothing(s: State, id: string, r: nat)
    requires Refs(s) && r < |s.arena|
    ensures PublishedAlike(s, AppSubscribe(s, id), r)
  {
    hide DomainEvents;
  }

  lemma AppUnsubscribePublishesNothing(s: State, id: string, r: nat)
    requires Refs(s) && r < |s.arena|
    ensures PublishedAlike(s, AppUnsubscribe(s, id), r)
  {
  }

  lemma AvailabilityPublishesNothing(s: State, id: string, r: nat)
    requires Refs(s) && r < |s.arena|
    ensures PublishedAlike(s, Available(s, id), r) && PublishedAlike(s, Unavailable(s, id), r)
  {
    hide DeviceMirror.OnUnavailable;
  }

  lemma AcksPublishNothing(s: State, id: string, r: nat)
    requires Refs(s) && r < |s.arena|
    ensures PublishedAlike(s, Subscribed(s, id), r) && PublishedAlike(s, Unsubscribed(s, id), r)
  {

  }

  lemma DataPublishesNothing(s: State, id: string, value: int, count: nat, r: nat)
    requires Refs(s) && r < |s.arena|
    ensures PublishedAlike(s, DataReceived(s, id, value, count), r)
  {
    hide NeedsDomainPacket;
  }

  /** Only metadata and the timer publish anything. */
  lemma OthersPublishNothing(s: State, event: Event, r: nat)
    requires Refs(s) && r < |s.arena| && !event.EvMetadata? && event != EvTimer
    ensures PublishedAlike(s, Step(s, event), r)
  {
    hide AppUnsubscribe, AppSubscribe, Available, Unavailable, Subscribed, Unsubscribed, DataReceived, Refs,
      PublishedAlike;
    match event
    case EvAvailable(id) => AvailabilityPublishesNothing(s, id, r);
    case EvUnavailable(id) => AvailabilityPublishesNothing(s, id, r);
    case EvSubscribed(id) => AcksPublishNothing(s, id, r);
    case EvUnsubscribed(id) => AcksPublishNothing(s, id, r);
    case EvData(id, value, count) => DataPublishesNothing(s, id, value, count, r);
    case EvAppSubscribe(id) => AppSubscribePublishesNothing(s, id, r);
    case EvAppUnsubscribe(id) => AppUnsubscribePublishesNothing(s, id, r);
  }

  /** A hold begins when publication finds a fetch under way; only the sweep that publishes it can count it at once. */
  lemma HoldBegins(s: State, event: Event, t: State, r: nat)
    requires Reachable(s) && Refs(s) && Follows(s, event, t) && Tracked(s, r) && r < |t.arena|
    requires s.arena[r].fetch != Held && t.arena[r].fetch == Held
    ensures !s.arena[r].published && HoldBegun(s.arena[r], t.arena[r], event == EvTimer)
  {
    hide Reachable, Fire, MetadataChanged, AppSubscribe, AppUnsubscribe, Available, Unavailable, Subscribed, Unsubscribed,
      DataReceived, HoldBegun, Waiting, Woken, Mirrored;
    ReachableInv(s);
    ReachableStep(s, event, t);
    ReachableInv(t);
    assert Local(s.arena[r]) && Local(t.arena[r]);
    if s.arena[r].published {
      StepOnlyRequested(s, event, r);
    } else if event == EvTimer {
      SweptHold(s, r);
    } else if event.EvMetadata? {
      if event.id in s.signals {
        MetadataHold(s, s.signals[event.id], event.meta, event.connection, r);
      }
    } else {
      OthersPublishNothing(s, event, r);
    }
  }

  // ----- a published entry while only the timer fires ------------------------------------

  /** The timer can only end a hold, with one unsubscribe; the entry stays marked as it is. */
  predicate TimedForm(before: Entry, after: Entry)
  {
    && after.published && after.id == before.id && after.subscribed == before.subscribed
    && after.ledger.subscribes == before.ledger.subscribes
    && (|| (after.fetch == before.fetch && after.ledger.unsubscribes == before.ledger.unsubscribes)
        || (before.fetch.Held? && after.fetch.NotFetching? && after.ledger.unsubscribes == before.ledger.unsubscribes + 1))
  }

  lemma SweptFormTimed(e: Entry)
    requires e.published
    ensures TimedForm(e, SweptForm(e)) && TimedForm(e, e)
  {
  }

  lemma SweepFiredTimed(s: State, r: nat)
    requires Inv(s) && s.timer.SweepDue? && Tracked(s, r) && s.arena[r].published
    ensures r < |Fire(s).arena| && TimedForm(s.arena[r], Fire(s).arena[r])
    ensures Fire(s).signals == s.signals
  {
    hide SweepAll, Local;
    var fired := s.(timer := Idle);
    OrderedKeys.SortedDistinct(s.signals.Keys);
    assert Tracked(fired, r);
    SweepAllAlone(fired, Order(fired), r);
    SweptFormTimed(s.arena[r]);
    assert Fire(s).arena == SweepAll(fired, Order(fired)).0.arena;
  }

  lemma ResubscribeFiredTimed(s: State, r: nat)
    requires Inv(s) && s.timer.ResubscribeDue? && Tracked(s, r) && s.arena[r].published
    ensures r < |Fire(s).arena| && TimedForm(s.arena[r], Fire(s).arena[r])
    ensures Fire(s).signals == s.signals
  {
    assert Local(s.arena[r]);
    hide Resubscribe, Waiting, Woken, Mirrored;
    var fired := s.(timer := Idle);
    ResubscribeRetries(fired);
    assert s.signals[s.arena[r].id] == r;
  }

  lemma FiredTimed(s: State, r: nat)
    requires Inv(s) && Tracked(s, r) && s.arena[r].published
    ensures Tracked(Fire(s), r) && TimedForm(s.arena[r], Fire(s).arena[r])
  {
    hide Inv, Sweep, Resubscribe, Refs;
    if s.timer.SweepDue? {
      SweepFiredTimed(s, r);
    } else if s.timer.ResubscribeDue? {
      ResubscribeFiredTimed(s, r);
    } else {
      SweptFormTimed(s.arena[r]);
    }
  }

  lemma {:induction false} FiringsTimed(s: State, r: nat, n: nat)
    requires Inv(s) && Tracked(s, r) && s.arena[r].published
    ensures
      var t := Run(s, Firings(n));
      Tracked(t, r) && TimedForm(s.arena[r], t.arena[r])
    decreases n
  {
    hide Fire, AllLocal, Waiting, Woken, Mirrored;
    if n == 0 {
      SweptFormTimed(s.arena[r]);
    } else {
      FiredTimed(s, r);
      FireKeepsInv(s);
      FiresOnce(s, n);
      FiringsTimed(Fire(s), r, n - 1);
    }
  }

  // ----- an application that subscribes to a held signal ---------------------------------

  /** A held signal that is already marked subscribed refuses the application: nothing happens. */
  lemma SubscribeHeld(s: State, id: string, asked: State)
    requires Inv(s) && id in s.signals && s.arena[s.signals[id]].fetch.Held?
    requires Follows(s, EvAppSubscribe(id), asked)
    ensures
      var r := s.signals[id];
      var before := s.arena[r];
      && Tracked(asked, r) && asked.arena[r].published && asked.arena[r].subscribed
      && asked.arena[r].ledger.subscribes == before.ledger.subscribes
      && asked.arena[r].ledger.unsubscribes == before.ledger.unsubscribes
      && (if before.subscribed then asked == s else asked.arena[r].fetch.NotFetching?)
  {
    assert Local(s.arena[s.signals[id]]);
    hide EmitDescriptor, Waiting, Woken, Mirrored, AllLocal;
  }

  /**
   An application subscribe of a held signal survives the sweeps that follow if and only if the
   signal was not yet marked subscribed. If it was, the request is refused, the hold is released
   all the same, and the signal stays marked subscribed.
   */
  lemma HeldSubscribeSurvives(s: State, id: string, asked: State, n: nat, t: State)
    requires Reachable(s) && Refs(s) && id in s.signals && s.arena[s.signals[id]].fetch.Held?
    requires Follows(s, EvAppSubscribe(id), asked) && n >= MAX_FIRINGS && Reaches(asked, Firings(n), t)
    ensures
      var r := s.signals[id];
      var before := s.arena[r].ledger;
      && r < |t.arena| && t.arena[r].subscribed && t.arena[r].ledger.subscribes == before.subscribes
      && (t.arena[r].ledger.unsubscribes == before.unsubscribes <==> !s.arena[r].subscribed)
      && (s.arena[r].subscribed ==> asked == s && t.arena[r].ledger.unsubscribes == before.unsubscribes + 1)
  {
    hide Reachable, Reaches, Run, Firings, Step, Core;
    var r := s.signals[id];
    ReachableInv(s);
    SubscribeHeld(s, id, asked);
    ReachableStep(s, EvAppSubscribe(id), asked);
    ReachableInv(asked);
    InvRefs(asked);
    ReachesExactlyRun(asked, Firings(n), t);
    FiringsTimed(asked, r, n);
    TimerChainStops(asked, n, t);
  }

  lemma InvRefs(s: State)
    requires Inv(s)
    ensures Refs(s)
  {
  }

  // ----- such a run ----------------------------------------------------------------------

  const PLAIN := Metadata(Some(ClientDeferral.VALUE), "", [])

  /** A signal that names no domain is published as soon as its metadata arrives, and its fetch is held. */
  lemma PublishedHeld(s: State, r: nat, connection: Connection)
    requires Refs(s) && Tracked(s, r) && s.arena[r].fetch.Fetching? && !s.arena[r].published
    ensures
      var t := MetadataChanged(s, r, PLAIN, connection);
      && Refs(t) && Tracked(t, r) && t.arena[r].published && t.arena[r].fetch.Held?
      && t.arena[r].subscribed == s.arena[r].subscribed && t.arena[r].ledger == s.arena[r].ledger && t.arena[r].id == s.arena[r].id
  {
    hide Publish, Refs;
    MetadataUnfolds(s, r, PLAIN, connection);
    var known := Put(s, r, Described(s.arena[r], PLAIN.descriptor));
    var linked := Put(known, r, known.arena[r].(domain := None));
    PutExtends(known, r, known.arena[r].(domain := None));
    assert Resolve(known, r, NoDomain, connection) == (known, None);
    PublishPublishes(linked, r);
    assert Publish(linked, r).arena[r] == PublishedForm(linked.arena[r]);
  }

  lemma Acknowledged(s: State, id: string)
    requires Refs(s) && id in s.signals && s.arena[s.signals[id]].published && s.arena[s.signals[id]].fetch.Held?
    ensures
      var t := Subscribed(s, id);
      var r := s.signals[id];
      && id in t.signals && t.signals[id] == r
      && t.arena[r].fetch.Held? && t.arena[r].subscribed
      && t.arena[r].ledger.subscribes == s.arena[r].ledger.subscribes && t.arena[r].ledger.unsubscribes == s.arena[r].ledger.unsubscribes
  {
  }

  /** The peer acknowledges the initial fetch after the signal has been published. */
  lemma AcknowledgedWhileHeld() returns (s: State)
    ensures Reachable(s) && Refs(s) && "v" in s.signals
    ensures
      var e := s.arena[s.signals["v"]];
      e.fetch.Held? && e.subscribed && e.ledger.subscribes == 1 && e.ledger.unsubscribes == 0
  {
    hide Reachable, MetadataChanged, Subscribed;
    var first := ClientDeferral.FirstFetch();
    InitialReachable();
    ClientDeferral.Fetches();
    ReachableStep(INITIAL, EvAvailable("v"), first);
    PublishedHeld(first, 0, map[]);
    var held := MetadataChanged(first, 0, PLAIN, map[]);
    ReachableStep(first, EvMetadata("v", PLAIN, map[]), held);
    Acknowledged(held, "v");
    s := Subscribed(held, "v");
    ReachableStep(held, EvSubscribed("v"), s);
  }

  /**
   Then the application's subscribe is refused, and once the timer chain is over every subscription
   has been given back although the signal is still marked subscribed.
   */
  lemma SubscribeLost() returns (s: State, t: State)
    ensures Reachable(s) && Refs(s) && "v" in s.signals && AppSubscribe(s, "v") == s
    ensures Reaches(s, Firings(MAX_FIRINGS), t)
    ensures s.signals["v"] < |t.arena|
    ensures
      var e := t.arena[s.signals["v"]];
      e.subscribed && e.ledger.subscribes == e.ledger.unsubscribes
  {
    hide Reachable, Reaches, Run, Firings;
    s := AcknowledgedWhileHeld();
    t := Run(s, Firings(MAX_FIRINGS));
    ReachesExactlyRun(s, Firings(MAX_FIRINGS), t);
    assert Follows(s, EvAppSubscribe("v"), AppSubscribe(s, "v"));
    ReachableInv(s);
    SubscribeHeld(s, "v", AppSubscribe(s, "v"));
    HeldSubscribeSurvives(s, "v", s, MAX_FIRINGS, t);
  }
}
