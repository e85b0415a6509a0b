/**
 The initial fetch of a signal's metadata along a run: it is tried three times and given up after
 the third sweep without an answer, whatever else happens; unless a retry is stranded.
 */
module ClientFetch {
  import opened Wrappers
  import opened Descriptors
  import opened ClientState
  import opened ClientEvents
  import opened ClientInvariant
  import opened ClientSafety
  import opened ClientFrame
  import opened ClientTimer
  import ClientDeferral
  import ClientSweep
  import DeviceMirror
  import OrderedKeys

  // ----- a fetch under way ---------------------------------------------------------------

  /** A tracked signal of which neither a descriptor nor an announcement exists. */
  ghost predicate Unknown(s: State, r: nat)
    requires Refs(s)
  {
    Tracked(s, r) && !s.arena[r].published && s.arena[r].descriptor.None?
  }

  /** The signal is being fetched, or will be again when the timer fires. */
  ghost predicate InFlight(s: State, r: nat)
    requires Refs(s)
  {
    Unknown(s, r) && (s.arena[r].fetch == Fetching || (s.arena[r].fetch == AwaitingRetry && s.timer == ResubscribeDue))
  }

  /** After how many firings of the timer an unanswered fetch is given up. */
  function FiringsLeft(e: Entry, timer: Timer): int
  {
    (if timer == ResubscribeDue then 2 else 1) + 2 * (3 - e.attempts)
  }

  /** Three subscribes were sent to fetch the signal, and three sweeps found no answer. */
  ghost predicate GivenUp(s: State, r: nat)
    requires Refs(s)
  {
    && Unknown(s, r)
    && s.arena[r].fetch == NotFetching && s.arena[r].attempts == 0
    && s.arena[r].ledger.episode == 3 && s.arena[r].ledger.missed == 3
  }

  /** Every request for the entry since then belongs to the fetch. */
  predicate FetchOnly(before: Entry, after: Entry)
  {
    && after.id == before.id
    && after.ledger.subscribes - before.ledger.subscribes == after.ledger.episode - before.ledger.episode
    && after.ledger.unsubscribes - before.ledger.unsubscribes == after.ledger.missed - before.ledger.missed
  }

  // ----- events that are not about the signal --------------------------------------------

  /** The event is neither the signal's metadata nor its coming or going. */
  predicate LeavesAlone(event: Event, id: string)
  {
    && event != EvAvailable(id) && event != EvUnavailable(id)
    && (event.EvMetadata? ==> event.id != id)
  }

  predicate AllLeaveAlone(events: seq<Event>, id: string)
  {
    forall i :: 0 <= i < |events| ==> LeavesAlone(events[i], id)
  }

  /** How often the timer fires. */
  function Timers(events: seq<Event>): nat
  {
    if events == [] then 0 else (if events[0] == EvTimer then 1 else 0) + Timers(events[1..])
  }

  /** The entry and, if it was set, the timer are as they were. */
  ghost predicate Unmoved(s: State, t: State, r: nat)
    requires Refs(s) && Refs(t)
  {
    && Tracked(s, r) && Tracked(t, r) && t.arena[r] == s.arena[r]
    && (s.armed ==> t.armed && t.timer == s.timer)
  }

  lemma MetadataUnmoved(s: State, id: string, meta: Metadata, connection: Connection, r: nat)
    requires Refs(s) && Unknown(s, r) && id in s.signals && id != s.arena[r].id
    ensures Unmoved(s, MetadataChanged(s, s.signals[id], meta, connection), r)
  {
    hide MetadataChanged;
    MetadataHandled(s, s.signals[id], meta, connection);
    assert AtMostPublished(s.arena[r], MetadataChanged(s, s.signals[id], meta, connection).arena[r]);
  }

  lemma AvailableUnmoved(s: State, id: string, r: nat)
    requires Refs(s) && Unknown(s, r) && id != s.arena[r].id
    ensures Unmoved(s, Available(s, id), r)
  {
    hide StartFetch, NewEntry;
  }

  lemma UnavailableUnmoved(s: State, id: string, r: nat)
    requires Refs(s) && Unknown(s, r) && id != s.arena[r].id
    ensures Unmoved(s, Unavailable(s, id), r)
  {
    hide DeviceMirror.OnUnavailable;
  }

  lemma SubscribedUnmoved(s: State, id: string, r: nat)
    requires Refs(s) && Unknown(s, r)
    ensures Unmoved(s, Subscribed(s, id), r)
  {
  }

  lemma UnsubscribedUnmoved(s: State, id: string, r: nat)
    requires Inv(s) && Unknown(s, r)
    ensures Unmoved(s, Unsubscribed(s, id), r)
  {
    assert Local(s.arena[r]);
    hide Waiting, Woken, Mirrored, AllLocal;
  }

  lemma AppSubscribeUnmoved(s: State, id: string, r: nat)
    requires Inv(s) && Unknown(s, r)
    ensures Unmoved(s, AppSubscribe(s, id), r)
  {
    hide DomainEvents, Waiting, Woken, Mirrored, AllLocal;
  }

  lemma AppUnsubscribeUnmoved(s: State, id: string, r: nat)
    requires Inv(s) && Unknown(s, r)
    ensures Unmoved(s, AppUnsubscribe(s, id), r)
  {
    assert Local(s.arena[r]);
    hide Waiting, Woken, Mirrored;
  }

  lemma DataUnmoved(s: State, id: string, value: int, count: nat, r: nat)
    requires Inv(s) && Unknown(s, r)
    ensures Unmoved(s, DataReceived(s, id, value, count), r)
  {
    assert Local(s.arena[r]);
    hide Waiting, Woken, Mirrored;
  }

  lemma InvRefs(s: State)
    requires Inv(s)
    ensures Refs(s)
  {
  }

  /** Nothing but the timer, its own metadata and its own coming and going moves an unknown signal. */
  lemma OthersLeaveAlone(s: State, event: Event, r: nat)
    requires Inv(s) && Unknown(s, r) && LeavesAlone(event, s.arena[r].id) && event != EvTimer
    ensures Unmoved(s, Step(s, event), r)
  {
    hide Inv, Unmoved, AppUnsubscribe, AppSubscribe, Available, Unavailable, Subscribed, Unsubscribed, MetadataChanged,
      DataReceived;
    InvRefs(s);
    match event
    case EvAvailable(id) => AvailableUnmoved(s, id, r);
    case EvUnavailable(id) => UnavailableUnmoved(s, id, r);
    case EvSubscribed(id) => SubscribedUnmoved(s, id, r);
    case EvUnsubscribed(id) => UnsubscribedUnmoved(s, id, r);
    case EvMetadata(id, meta, connection) =>
      if id in s.signals {
        MetadataUnmoved(s, id, meta, connection, r);
      } else {
        SameUnmoved(s, r);
      }
    case EvData(id, value, count) => DataUnmoved(s, id, value, count, r);
    case EvAppSubscribe(id) => AppSubscribeUnmoved(s, id, r);
    case EvAppUnsubscribe(id) => AppUnsubscribeUnmoved(s, id, r);
  }

  lemma SameUnmoved(s: State, r: nat)
    requires Refs(s) && Tracked(s, r)
    ensures Unmoved(s, s, r)
  {
  }

  // ----- the timer -----------------------------------------------------------------------

  /** A sweep that visits a fetch with attempts left schedules the retries. */
  lemma {:induction false} SweepAllSchedules(s: State, keys: seq<string>, r: nat)
    requires Refs(s) && forall k :: k in keys ==> k in s.signals
    requires Tracked(s, r) && s.arena[r].id in keys && Retries(s.arena[r])
    ensures SweepAll(s, keys).1
    decreases |keys|
  {
    hide SweepEntry, SweptForm;
    var q := s.signals[keys[0]];
    if q != r {
      SweepEntryAlone(s, q, r);
      assert keys == [keys[0]] + keys[1..];
      SweepAllSchedules(SweepEntry(s, q), keys[1..], r);
    }
  }

  /** What a sweep does to an unknown signal. */
  lemma SweepMoves(s: State, r: nat)
    requires Inv(s) && s.timer == SweepDue && Unknown(s, r)
    ensures
      var t := Fire(s);
      && Refs(t) && t.signals == s.signals && |t.arena| == |s.arena| && t.arena[r] == SweptForm(s.arena[r])
      && (Retries(s.arena[r]) ==> t.timer == ResubscribeDue)
  {
    hide SweepAll, Local, Waiting, Woken, Mirrored, SweptForm, AnyPending;
    var fired := s.(timer := Idle);
    OrderedKeys.SortedDistinct(s.signals.Keys);
    assert Tracked(fired, r) && fired.arena[r].id in Order(fired);
    SweepAllAlone(fired, Order(fired), r);
    if Retries(s.arena[r]) {
      SweepAllSchedules(fired, Order(fired), r);
    }
    assert Fire(s).arena == SweepAll(fired, Order(fired)).0.arena;
  }

  lemma SweepSteps(s: State, r: nat)
    requires Inv(s) && s.timer == SweepDue && InFlight(s, r)
    ensures
      var t := Fire(s);
      && Refs(t) && r < |t.arena| && FetchOnly(s.arena[r], t.arena[r])
      && if FiringsLeft(s.arena[r], s.timer) <= 1 then GivenUp(t, r)
         else InFlight(t, r) && FiringsLeft(t.arena[r], t.timer) == FiringsLeft(s.arena[r], s.timer) - 1
  {
    hide Fire;
    SweepMoves(s, r);
    assert Local(s.arena[r]);
    hide Fire, Waiting, Woken, Mirrored, Refs;
  }

  lemma ResubscribeSteps(s: State, r: nat)
    requires Inv(s) && s.timer == ResubscribeDue && InFlight(s, r)
    ensures
      var t := Fire(s);
      && Refs(t) && r < |t.arena| && FetchOnly(s.arena[r], t.arena[r])
      && InFlight(t, r) && FiringsLeft(t.arena[r], t.timer) == FiringsLeft(s.arena[r], s.timer) - 1
  {
    hide Resubscribe, Local, Waiting, Woken, Mirrored;
    var fired := s.(timer := Idle);
    var t := Resubscribe(fired);
    ResubscribeRetries(fired);
    ResubscribeRearms(fired);
    assert s.signals[s.arena[r].id] == r;
    assert t.arena[t.signals[s.arena[r].id]].Pending();
  }

  /** One firing brings an unanswered fetch one step nearer to its end, and the last one ends it. */
  lemma TimerSteps(s: State, r: nat)
    requires Inv(s) && InFlight(s, r)
    ensures
      var t := Fire(s);
      && Refs(t) && r < |t.arena| && FetchOnly(s.arena[r], t.arena[r])
      && if FiringsLeft(s.arena[r], s.timer) <= 1 then GivenUp(t, r)
         else InFlight(t, r) && FiringsLeft(t.arena[r], t.timer) == FiringsLeft(s.arena[r], s.timer) - 1
  {
    InFlightArmed(s, r);
    hide Inv, Fire, GivenUp, FetchOnly, InFlight;
    if s.timer == SweepDue {
      SweepSteps(s, r);
    } else {
      ResubscribeSteps(s, r);
    }
  }

  lemma InFlightArmed(s: State, r: nat)
    requires Inv(s) && InFlight(s, r)
    ensures s.armed && s.timer != Idle && 1 <= s.arena[r].attempts <= 3
    ensures s.timer == ResubscribeDue ==> FiringsLeft(s.arena[r], s.timer) >= 2
  {
    assert Local(s.arena[r]);
    assert s.signals[s.arena[r].id] == r;
    hide Waiting, Mirrored;
  }

  /** A signal that is given up, or waits for a retry that is not due, is passed over by the timer's sweep. */
  lemma GivenUpStays(s: State, r: nat)
    requires Inv(s) && GivenUp(s, r)
    ensures Refs(Fire(s)) && GivenUp(Fire(s), r) && Fire(s).arena[r] == s.arena[r]
  {
    if s.timer == SweepDue {
      SweepMoves(s, r);
    } else if s.timer == ResubscribeDue {
      ResubscribeRetries(s.(timer := Idle));
      assert s.signals[s.arena[r].id] == r;
    }
    hide Waiting, Woken, Mirrored, AllLocal, Sweep, Resubscribe;
  }

  // ----- runs ----------------------------------------------------------------------------

  /** How a fetch that was under way in s stands in t, after `n` firings of the timer. */
  ghost predicate FetchStands(s: State, t: State, r: nat, n: nat)
    requires Refs(s) && Refs(t)
  {
    && r < |s.arena| && r < |t.arena| && FetchOnly(s.arena[r], t.arena[r])
    && if n < FiringsLeft(s.arena[r], s.timer) then
         InFlight(t, r) && FiringsLeft(t.arena[r], t.timer) == FiringsLeft(s.arena[r], s.timer) - n
       else
         GivenUp(t, r)
  }

  lemma {:induction false} GivenUpRuns(s: State, r: nat, events: seq<Event>)
    requires Inv(s) && GivenUp(s, r) && AllLeaveAlone(events, s.arena[r].id)
    ensures
      var t := Run(s, events);
      r < |s.arena| && r < |t.arena| && GivenUp(t, r) && t.arena[r] == s.arena[r]
    decreases |events|
  {
    hide Inv, Step, Fire;
    InvRefs(s);
    if events != [] {
      assert LeavesAlone(events[0], s.arena[r].id);
      if events[0] == EvTimer {
        GivenUpStays(s, r);
        TimerStep(s, events[0]);
      } else {
        OthersLeaveAlone(s, events[0], r);
      }
      StepKeepsInv(s, events[0]);
      GivenUpRuns(Step(s, events[0]), r, events[1..]);
    }
  }

  lemma {:induction false} FetchRuns(s: State, r: nat, events: seq<Event>)
    requires Inv(s) && InFlight(s, r) && AllLeaveAlone(events, s.arena[r].id)
    ensures FetchStands(s, Run(s, events), r, Timers(events))
    decreases |events|
  {
    hide Inv, Step, Fire, GivenUp;
    InvRefs(s);
    InFlightArmed(s, r);
    if events != [] {
      var next := Step(s, events[0]);
      assert LeavesAlone(events[0], s.arena[r].id);
      StepKeepsInv(s, events[0]);
      if events[0] == EvTimer {
        TimerSteps(s, r);
        TimerStep(s, events[0]);
      } else {
        OthersLeaveAlone(s, events[0], r);
      }
      if events[0] == EvTimer && FiringsLeft(s.arena[r], s.timer) <= 1 {
        GivenUpRuns(next, r, events[1..]);
      } else {
        FetchRuns(next, r, events[1..]);
      }
    }
  }

  /**
   From every reachable state, whatever else happens, a fetch under way that gets no answer is still
   under way before that many firings of the timer and given up after them; by then exactly three
   subscribes and three unsubscribes have been sent for it since the signal became available.
   */
  lemma FetchGivenUpExactly(s: State, r: nat, events: seq<Event>, t: State)
    requires Reachable(s) && Refs(s) && InFlight(s, r) && AllLeaveAlone(events, s.arena[r].id) && Reaches(s, events, t)
    ensures Refs(t) && FetchStands(s, t, r, Timers(events)) && 1 <= FiringsLeft(s.arena[r], s.timer) <= 6
  {
    hide Reachable, Reaches, Run, InFlight, FetchStands, AllLeaveAlone;
    ReachableInv(s);
    ReachesExactlyRun(s, events, t);
    InFlightArmed(s, r);
    FetchRuns(s, r, events);
  }

  /** The entry that is filed under the id once the signal is available, and what it was before. */
  ghost function PlaceOf(s: State, id: string): nat
    requires Refs(s)
  {
    if id in s.signals then s.signals[id] else |s.arena|
  }

  ghost function LedgerOf(s: State, id: string): Ledger
    requires Refs(s)
  {
    if id in s.signals then s.arena[s.signals[id]].ledger else NEW_LEDGER
  }

  lemma FetchBegins(s: State, id: string, begun: State)
    requires Inv(s) && Follows(s, EvAvailable(id), begun)
    requires id in s.signals ==>
      var e := s.arena[s.signals[id]];
      !e.published && e.descriptor.None? && e.fetch != Fetching
    ensures
      var r := PlaceOf(s, id);
      && Refs(begun) && InFlight(begun, r) && begun.arena[r].id == id
      && begun.arena[r].ledger.subscribes == LedgerOf(s, id).subscribes + 1
      && begun.arena[r].ledger.unsubscribes == LedgerOf(s, id).unsubscribes
      && begun.arena[r].ledger.episode == 1 && begun.arena[r].ledger.missed == 0
  {
    hide Waiting, Woken, Mirrored, AllLocal;
  }

  /**
   A signal that becomes available and never answers gets exactly three subscribes and three
   unsubscribes, if only the timer fires six times, whatever happens to other signals meanwhile;
   and no more after that.
   */
  lemma UnansweredFetch(s: State, id: string, begun: State, events: seq<Event>, t: State)
    requires Reachable(s) && Refs(s) && Follows(s, EvAvailable(id), begun)
    requires id in s.signals ==>
      var e := s.arena[s.signals[id]];
      !e.published && e.descriptor.None? && e.fetch != Fetching
    requires AllLeaveAlone(events, id) && Timers(events) >= 6 && Reaches(begun, events, t)
    ensures
      var r := PlaceOf(s, id);
      && r < |t.arena| && t.arena[r].id == id && t.arena[r].fetch == NotFetching
      && t.arena[r].ledger.subscribes == LedgerOf(s, id).subscribes + 3
      && t.arena[r].ledger.unsubscribes == LedgerOf(s, id).unsubscribes + 3
  {
    hide Reachable, Reaches, Step;
    ReachableInv(s);
    FetchBegins(s, id, begun);
    ReachableStep(s, EvAvailable(id), begun);
    FetchGivenUpExactly(begun, PlaceOf(s, id), events, t);
  }

  // ----- a stranded retry ----------------------------------------------------------------
  // Metadata that arrives between a missed fetch and its retry calls the retry off. If the signal
  // is deferred then and loses its descriptor again, nothing makes up for the retry.

  /** Some tracked signal is being fetched and has attempts left. */
  ghost predicate OthersRetry(s: State)
    requires Refs(s)
  {
    exists q :: InFlightWithMore(s, q)
  }

  ghost predicate InFlightWithMore(s: State, q: nat)
    requires Refs(s)
  {
    Unknown(s, q) && s.arena[q].fetch == Fetching && s.arena[q].attempts < 3
  }

  /** Will the timer resume the retries of signals that wait for one? */
  ghost predicate RetriesDue(s: State)
    requires Refs(s)
  {
    s.timer == ResubscribeDue || (s.timer == SweepDue && OthersRetry(s))
  }

  lemma NobodyRetries(s: State)
    requires Refs(s) && !OthersRetry(s)
    ensures !Retrying(s)
  {
    if k :| k in s.signals && Retries(s.arena[s.signals[k]]) {
      assert InFlightWithMore(s, s.signals[k]);
    }
  }

  /** A waiting entry is passed over by a sweep, and if nobody retries, nobody will. */
  lemma StrandedStep(s: State, r: nat)
    requires Inv(s) && Unknown(s, r) && s.arena[r].fetch == AwaitingRetry && !RetriesDue(s)
    ensures
      var t := Fire(s);
      Refs(t) && Unknown(t, r) && t.arena[r] == s.arena[r] && !RetriesDue(t)
  {
    hide Waiting, Woken, Mirrored, Local, Sweep, AnyPending;
    if s.timer == SweepDue {
      SweepMoves(s, r);
      var fired := s.(timer := Idle);
      ClientSweep.StillCore(s);
      SweepFires(fired);
      NobodyRetries(s);
      assert Retrying(fired) == Retrying(s);
      var t := Fire(s);
      forall q: nat
        ensures !InFlightWithMore(t, q)
      {
        NoMoreAfter(fired, t, q);
      }
    }
  }

  lemma NoMoreAfter(s: State, t: State, q: nat)
    requires Refs(s) && Refs(t) && t.signals == s.signals && |t.arena| == |s.arena| && !Retrying(s)
    requires forall k :: k in s.signals ==> Progress(s.arena[s.signals[k]], t.arena[s.signals[k]])
    ensures !InFlightWithMore(t, q)
  {
    if Tracked(t, q) {
      var k := t.arena[q].id;
      assert s.signals[k] == q && Progress(s.arena[q], t.arena[q]) && !Retries(s.arena[q]);
    }
  }

  lemma {:induction false} StrandedRuns(s: State, r: nat, n: nat)
    requires Inv(s) && Unknown(s, r) && s.arena[r].fetch == AwaitingRetry && !RetriesDue(s)
    ensures
      var t := Run(s, Firings(n));
      r < |s.arena| && r < |t.arena| && t.arena[r] == s.arena[r]
    decreases n
  {
    hide Inv, Fire, RetriesDue;
    InvRefs(s);
    if n > 0 {
      StrandedStep(s, r);
      FireKeepsInv(s);
      FiresOnce(s, n);
      StrandedRuns(Fire(s), r, n - 1);
    }
  }

  lemma {:induction false} FiringsLeaveAlone(n: nat, id: string)
    ensures AllLeaveAlone(Firings(n), id) && Timers(Firings(n)) == n
  {
    if n > 0 {
      FiringsLeaveAlone(n - 1, id);
      assert Firings(n)[1..] == Firings(n - 1);
    }
  }

  lemma RetryResumed(s: State, r: nat)
    requires Inv(s) && s.timer == SweepDue && Unknown(s, r) && s.arena[r].fetch == AwaitingRetry && OthersRetry(s)
    ensures Refs(Fire(s)) && InFlight(Fire(s), r) && Fire(s).arena[r] == s.arena[r]
  {
    var q :| InFlightWithMore(s, q);
    SweepMoves(s, q);
    SweepMoves(s, r);
    hide Fire, Waiting, Woken, Mirrored, AllLocal;
  }

  /**
   If only the timer goes on, a signal that waits for a retry is fetched up to the end if retries are
   due, or a sweep is due and another signal has attempts left. Otherwise it is stranded: it stays as
   it is however often the timer fires.
   */
  lemma StrandedExactly(s: State, r: nat, n: nat, t: State)
    requires Reachable(s) && Refs(s) && Unknown(s, r) && s.arena[r].fetch == AwaitingRetry
    requires n >= MAX_FIRINGS && Reaches(s, Firings(n), t)
    ensures Refs(t) && r < |t.arena|
    ensures if RetriesDue(s) then GivenUp(t, r) else t.arena[r] == s.arena[r]
  {
    hide Reachable, Reaches, Run, Unknown, RetriesDue, GivenUp, Inv;
    ReachableInv(s);
    ReachesExactlyRun(s, Firings(n), t);
    if RetriesDue(s) {
      RetriesRun(s, r, n);
    } else {
      StrandedRuns(s, r, n);
    }
  }

  lemma RetriesRun(s: State, r: nat, n: nat)
    requires Inv(s) && Unknown(s, r) && s.arena[r].fetch == AwaitingRetry && RetriesDue(s) && n >= MAX_FIRINGS
    ensures r < |Run(s, Firings(n)).arena| && GivenUp(Run(s, Firings(n)), r)
  {
    hide Run, OthersRetry, GivenUp, Fire, Firings, AllLocal, Waiting, Woken, Mirrored;
    FiringsLeaveAlone(n, s.arena[r].id);
    if s.timer == ResubscribeDue {
      InFlightArmed(s, r);
      FetchRuns(s, r, Firings(n));
    } else {
      RetryResumed(s, r);
      FireKeepsInv(s);
      FiresOnce(s, n);
      FiringsLeaveAlone(n - 1, s.arena[r].id);
      InFlightArmed(Fire(s), r);
      FetchRuns(Fire(s), r, Firings(n - 1));
    }
  }

  // ----- such a run ----------------------------------------------------------------------

  /** The signal "v", missed once, in a state of its own or with the signal "d" that it names. */
  function Missed(timer: Timer): State
  {
    State([MissFetch(StartFetch(NewEntry("v")))], map["v" := 0], true, timer, 0, {}, DeviceMirror.EMPTY, 0, [], [])
  }

  function MissedWith(descriptor: Option<Descriptor>, domain: Option<nat>, timer: Timer): State
  {
    State([MissFetch(StartFetch(NewEntry("v"))).(descriptor := descriptor, domain := domain), NewEntry("d")],
      map["v" := 0, "d" := 1], true, timer, 0, {}, DeviceMirror.EMPTY, 0, [], [])
  }

  lemma OneKey()
    ensures OrderedKeys.Sorted({"v"}) == ["v"]
  {
    OrderedKeys.SortedLength({"v"});
    assert OrderedKeys.Sorted({"v"})[0] in OrderedKeys.Sorted({"v"});
  }

  lemma FirstMiss()
    ensures Follows(ClientDeferral.FirstFetch(), EvTimer, Missed(ResubscribeDue))
  {
    hide SweepAll, SweepEntry, Order, OrderedKeys.Sorted, AnyPending;
    var fired := ClientDeferral.FirstFetch().(timer := Idle);
    OneKey();
    assert fired.signals.Keys == {"v"};
    assert Order(fired) == ["v"] by {
      ReadsOrder(fired);
    }
    ClientDeferral.SweepOne(fired, "v");
    VisitMisses(fired);
  }

  lemma ReadsOrder(s: State)
    requires s.signals.Keys == {"v"}
    ensures Order(s) == OrderedKeys.Sorted({"v"})
  {
  }

  lemma VisitMisses(fired: State)
    requires fired == ClientDeferral.FirstFetch().(timer := Idle)
    ensures Refs(fired) && SweepEntry(fired, 0) == Missed(Idle) && Retries(fired.arena[0])
  {
    hide Publish;
    assert Put(fired, 0, SweptForm(fired.arena[0])).arena == Missed(Idle).arena;
  }

  lemma ThenDeferred()
    ensures Follows(Missed(ResubscribeDue), EvMetadata("v", ClientDeferral.USABLE, ClientDeferral.PEER),
      MissedWith(Some(ClientDeferral.VALUE), Some(1), ResubscribeDue))
  {
    hide MetadataChanged, Settle, Resolve, FindDomain, Reject, Extends;
    var s := Missed(ResubscribeDue);
    assert s.signals.Keys == {"v"};
    ClientDeferral.NamesDomain({"v"});
    MetadataUnfolds(s, 0, ClientDeferral.USABLE, ClientDeferral.PEER);
    var known := Put(s, 0, Described(s.arena[0], ClientDeferral.USABLE.descriptor));
    ClientDeferral.FindsHidden(known);
    ClientDeferral.DeferredAgain(Create(known, "d"), MissedWith(Some(ClientDeferral.VALUE), Some(1), ResubscribeDue));
  }

  /** No entry is due for a retry. */
  lemma {:induction false} NothingDue(s: State, keys: seq<string>)
    requires Refs(s) && forall k :: k in keys ==> k in s.signals && !DueForRetry(s.arena[s.signals[k]])
    ensures ResubscribeAll(s, keys) == (s, false)
    decreases |keys|
  {
    if keys != [] {
      NothingDue(s, keys[1..]);
    }
  }

  lemma RetryCalledOff()
    ensures Follows(MissedWith(Some(ClientDeferral.VALUE), Some(1), ResubscribeDue), EvTimer,
      MissedWith(Some(ClientDeferral.VALUE), Some(1), SweepDue))
  {
    hide ResubscribeAll, OrderedKeys.Sorted, PublishedForm, Publish, Sweep, OrderedKeys.Less;
    var fired := MissedWith(Some(ClientDeferral.VALUE), Some(1), Idle);
    var start := fired.(armed := false);
    NothingDue(start, Order(start));
    assert start.arena[start.signals["v"]].Pending();
    assert AnyPending(start);
    assert Resubscribe(fired) == Arm(start);
  }

  lemma DescriptorLost()
    ensures Follows(MissedWith(Some(ClientDeferral.VALUE), Some(1), SweepDue),
      EvMetadata("v", ClientDeferral.UNUSABLE, ClientDeferral.PEER), MissedWith(None, None, SweepDue))
  {
    assert Reject(MissedWith(Some(ClientDeferral.VALUE), Some(1), SweepDue), 0).arena == MissedWith(None, None, SweepDue).arena;
  }

  lemma StrandedReachable()
    ensures Reachable(MissedWith(None, None, SweepDue))
  {
    hide Follows, Reachable;
    InitialReachable();
    ClientDeferral.Fetches();
    ReachableStep(INITIAL, EvAvailable("v"), ClientDeferral.FirstFetch());
    FirstMiss();
    ReachableStep(ClientDeferral.FirstFetch(), EvTimer, Missed(ResubscribeDue));
    ThenDeferred();
    ReachableStep(Missed(ResubscribeDue), EvMetadata("v", ClientDeferral.USABLE, ClientDeferral.PEER),
      MissedWith(Some(ClientDeferral.VALUE), Some(1), ResubscribeDue));
    RetryCalledOff();
    ReachableStep(MissedWith(Some(ClientDeferral.VALUE), Some(1), ResubscribeDue), EvTimer,
      MissedWith(Some(ClientDeferral.VALUE), Some(1), SweepDue));
    DescriptorLost();
    ReachableStep(MissedWith(Some(ClientDeferral.VALUE), Some(1), SweepDue),
      EvMetadata("v", ClientDeferral.UNUSABLE, ClientDeferral.PEER), MissedWith(None, None, SweepDue));
  }

  lemma NobodyElseRetries()
    ensures
      var s := MissedWith(None, None, SweepDue);
      Refs(s) && Unknown(s, 0) && s.arena[0].fetch == AwaitingRetry && !RetriesDue(s)
  {
    var s := MissedWith(None, None, SweepDue);
    assert s.arena[1] == NewEntry("d");
    forall q: nat
      ensures !InFlightWithMore(s, q)
    {
    }
  }

  /** A fetch of which one attempt of three was made, and which the timer never takes up again. */
  lemma StrandedRetry(n: nat) returns (s: State, t: State)
    requires n >= MAX_FIRINGS
    ensures Reachable(s) && Reaches(s, Firings(n), t) && t.arena != []
    ensures
      var e := t.arena[0];
      && !e.published && e.descriptor.None? && e.fetch == AwaitingRetry
      && e.ledger.subscribes == 1 && e.ledger.unsubscribes == 1
  {
    hide Reachable, Reaches, Run, Unknown, RetriesDue;
    s := MissedWith(None, None, SweepDue);
    StrandedReachable();
    NobodyElseRetries();
    t := Run(s, Firings(n));
    ReachesExactlyRun(s, Firings(n), t);
    StrandedExactly(s, 0, n, t);
  }
}
