/** Everything that can happen to the streaming client, one transition per event, and its runs. */
module ClientEvents {
  import opened Wrappers
  import opened Descriptors
  import opened ClientState
  import DeviceMirror

  // ----- application requests ------------------------------------------------------------

  function Marked(e: Entry): Entry
  {
    e.(subscribed := true, ledger := e.ledger.(marks := e.ledger.marks + [true]))
  }

  function AppSubscribe(s: State, id: string): (t: State)
    requires Refs(s)
    ensures Refs(t)
  {
    if id !in s.signals then
      s
    else
      var r := s.signals[id];
      var e := s.arena[r];
      if !e.published || e.subscribed then
        s
      else if e.fetch.Held? then
        var taken := Marked(e).(fetch := NotFetching);
        var t := Put(s, r, taken.(ledger := taken.ledger.(takeovers := taken.ledger.takeovers + 1)));
        var acked := t.(outbox := t.outbox + [Ack(id, true)]);
        if e.descriptor.Some? then EmitDescriptor(acked, r) else acked
      else
        var sent := Marked(e);
        Put(s, r, sent.(ledger := sent.ledger.(
          subscribes := sent.ledger.subscribes + 1, appSubscribes := sent.ledger.appSubscribes + 1)))
  }

  function AppUnsubscribe(s: State, id: string): (t: State)
    requires Refs(s)
    ensures Refs(t)
  {
    if id !in s.signals || !s.arena[s.signals[id]].subscribed then
      s
    else
      var r := s.signals[id];
      var e := s.arena[r];
      Put(s, r, e.(ledger := e.ledger.(
        unsubscribes := e.ledger.unsubscribes + 1, appUnsubscribes := e.ledger.appUnsubscribes + 1)))
  }

  // ----- remote availability -------------------------------------------------------------

  function Create(s: State, id: string): State
  {
    s.(arena := s.arena + [NewEntry(id)], signals := s.signals[id := |s.arena|])
  }

  function WithEntry(s: State, id: string): State
  {
    if id in s.signals then s else Create(s, id)
  }

  function StartFetch(e: Entry): Entry
  {
    e.(fetch := Fetching, attempts := 1,
       ledger := e.ledger.(subscribes := e.ledger.subscribes + 1, episode := 1, missed := 0))
  }

  function Available(s: State, id: string): (t: State)
    requires Refs(s)
    ensures Refs(t)
  {
    var t := WithEntry(s, id);
    var r := t.signals[id];
    var e := t.arena[r];
    if e.published || e.descriptor.Some? || e.fetch.Fetching? then t else Arm(Put(t, r, StartFetch(e)))
  }

  function Unavailable(s: State, id: string): (t: State)
    requires Refs(s)
    ensures Refs(t)
  {
    var t :=
      if id !in s.signals then
        s
      else
        var r := s.signals[id];
        var erased := s.(signals := s.signals - {id});
        if s.arena[r].published then
          erased.(available := s.available - {id}, notices := s.notices + [Withdrawn(r)])
        else
          erased;
    t.(device := DeviceMirror.OnUnavailable(t.device, id))
  }

  // ----- remote acknowledgements ---------------------------------------------------------

  function Subscribed(s: State, id: string): (t: State)
    requires Refs(s)
    ensures Refs(t)
  {
    if id !in s.signals || !s.arena[s.signals[id]].published then
      s
    else
      var r := s.signals[id];
      var t := Put(s, r, Marked(s.arena[r]));
      t.(outbox := t.outbox + [Ack(id, true)])
  }

  /** Ends a fetch subscription that is held for takeover. */
  function ReleaseHold(e: Entry): Entry
  {
    e.(fetch := NotFetching, ledger := e.ledger.(unsubscribes := e.ledger.unsubscribes + 1))
  }

  function Unsubscribed(s: State, id: string): (t: State)
    requires Refs(s)
    ensures Refs(t)
  {
    if id !in s.signals then
      s
    else
      var r := s.signals[id];
      var e := if s.arena[r].fetch.Held? then ReleaseHold(s.arena[r]) else s.arena[r];
      if e.subscribed then
        var t := Put(s, r, e.(subscribed := false, ledger := e.ledger.(marks := e.ledger.marks + [false])));
        t.(outbox := t.outbox + [Ack(id, false)])
      else
        Put(s, r, e)
  }

  // ----- metadata ------------------------------------------------------------------------

  /** A member of a JSON object. */
  datatype Field = Missing | Str(text: string) | OtherJson

  /** An element of the "relatedSignals" array. */
  datatype Related = NotAnObject | RelatedSignal(kind: Field, signalId: Field)

  /** `descriptor` is what the metadata translates to, None when it cannot be translated. */
  datatype Metadata = Metadata(descriptor: Option<Descriptor>, tableId: string, related: seq<Related>)

  /** The hidden signals a connection knows, each with its metadata if that has arrived. */
  type Connection = map<string, Option<Metadata>>

  datatype TimeReference = NoTime | TimeSignal(id: string) | MalformedTime

  /** The first entry of type "time" that names a signal; a type that is not a string is an error. */
  function FindTime(related: seq<Related>): TimeReference
  {
    if related == [] then
      NoTime
    else
      match related[0]
      case NotAnObject => FindTime(related[1..])
      case RelatedSignal(kind, signalId) =>
        if kind.OtherJson? then MalformedTime
        else if kind == Str("time") && signalId.Str? then TimeSignal(signalId.text)
        else FindTime(related[1..])
  }

  datatype Lookup = NoDomain | Known(id: string) | Hidden(id: string) | Malformed

  /** Where a signal's metadata says its domain signal is. */
  function FindDomain(tracked: set<string>, connection: set<string>, id: string, meta: Metadata): Lookup
  {
    if meta.tableId == "" || meta.tableId == id then
      NoDomain
    else if meta.tableId in tracked then
      Known(meta.tableId)
    else
      match FindTime(meta.related)
      case MalformedTime => Malformed
      case NoTime => NoDomain
      case TimeSignal(domainId) =>
        if domainId == "" || domainId == id then NoDomain
        else if domainId in tracked then Known(domainId)
        else if domainId in connection then Hidden(domainId)
        else NoDomain
  }

  function Described(e: Entry, descriptor: Option<Descriptor>): Entry
  {
    e.(lastPacket := None, descriptor := descriptor)
  }

  /** The metadata could not be understood: the entry has neither descriptor nor domain. */
  function Reject(s: State, r: nat): State
    requires r < |s.arena|
  {
    Put(s, r, Described(s.arena[r], None).(domain := None))
  }

  /** s's entries and map are contained in t's. */
  ghost predicate Extends(s: State, t: State)
  {
    && |s.arena| <= |t.arena|
    && (forall k :: k in s.signals ==> k in t.signals && t.signals[k] == s.signals[k])
    && (forall i :: 0 <= i < |s.arena| ==>
          t.arena[i].id == s.arena[i].id && (s.arena[i].published ==> t.arena[i].published))
  }

  /** t extends s and no descriptor changed except possibly that of `r`. */
  ghost predicate ExtendsBut(s: State, t: State, r: nat)
  {
    && Refs(t)
    && Extends(s, t)
    && (forall i :: 0 <= i < |s.arena| && i != r ==> t.arena[i].descriptor == s.arena[i].descriptor)
  }

  lemma PutExtends(s: State, r: nat, e: Entry)
    requires Refs(s) && r < |s.arena|
    requires e.id == s.arena[r].id && e.published == s.arena[r].published
    requires e.domain.Some? ==> e.domain.value < |s.arena| && e.domain.value != r
    ensures ExtendsBut(s, Put(s, r, e), r)
  {
    PutKeepsRefs(s, r, e);
  }

  lemma CascadeExtends(s: State, t: State, r: nat)
    requires Refs(s) && Cascade(s, t)
    ensures ExtendsBut(s, t, r)
    ensures r < |s.arena| ==> t.arena[r].descriptor == s.arena[r].descriptor
  {
    CascadeKeepsRefs(s, t);
  }

  lemma SameEntriesExtend(s: State, t: State, u: State, r: nat)
    requires ExtendsBut(s, t, r) && u.arena == t.arena && u.signals == t.signals
    ensures ExtendsBut(s, u, r)
  {
  }

  lemma ExtendsTransitive(s: State, t: State, u: State, r: nat)
    requires ExtendsBut(s, t, r) && ExtendsBut(t, u, r)
    ensures ExtendsBut(s, u, r)
  {
  }

  /** Announces new metadata: as an event for a published signal, else by publishing or deferring it. */
  ghost function Settle(s: State, r: nat, domain: Option<nat>): (t: State)
    requires Refs(s) && r < |s.arena| && s.arena[r].descriptor.Some?
    requires domain.Some? ==> domain.value < |s.arena| && domain.value != r
    ensures ExtendsBut(s, t, r)
  {
    var linked := Put(s, r, s.arena[r].(domain := domain));
    PutExtends(s, r, s.arena[r].(domain := domain));
    if linked.arena[r].published then
      SameEntriesExtend(s, linked, EmitDescriptor(linked, r), r);
      EmitDescriptor(linked, r)
    else if domain.Some? && !linked.arena[domain.value].published then
      SameEntriesExtend(s, linked, Arm(linked), r);
      Arm(linked)
    else
      CascadeExtends(linked, Publish(linked, r), r);
      ExtendsTransitive(s, linked, Publish(linked, r), r);
      Publish(linked, r)
  }

  ghost function MetadataChanged(s: State, r: nat, meta: Metadata, connection: Connection): (t: State)
    requires Refs(s) && Tracked(s, r)
    ensures ExtendsBut(s, t, r)
    decreases connection.Keys - s.signals.Keys, 2
  {
    PutExtends(s, r, Described(s.arena[r], None).(domain := None));
    if meta.descriptor.None? then
      Reject(s, r)
    else
      var lookup := FindDomain(s.signals.Keys, connection.Keys, s.arena[r].id, meta);
      if lookup.Malformed? then
        Reject(s, r)
      else
        PutExtends(s, r, Described(s.arena[r], meta.descriptor));
        var known := Put(s, r, Described(s.arena[r], meta.descriptor));
        var (found, domain) := Resolve(known, r, lookup, connection);
        var t := Settle(found, r, domain);
        ExtendsTransitive(known, found, t, r);
        ExtendsTransitive(s, known, t, r);
        t
  }

  /** Turns the result of a lookup into a domain entry, discovering it if it is hidden. */
  ghost function Resolve(s: State, r: nat, lookup: Lookup, connection: Connection): (found: (State, Option<nat>))
    requires Refs(s) && r < |s.arena| && !lookup.Malformed?
    requires lookup.Known? ==> lookup.id in s.signals && lookup.id != s.arena[r].id
    requires lookup.Hidden? ==> lookup.id in connection && lookup.id !in s.signals
    ensures ExtendsBut(s, found.0, r) && found.0.arena[r].descriptor == s.arena[r].descriptor
    ensures found.1.Some? ==> found.1.value < |found.0.arena| && found.1.value != r
    decreases connection.Keys - s.signals.Keys, 1
  {
    match lookup
    case NoDomain => (s, None)
    case Known(id) => (s, Some(s.signals[id]))
    case Hidden(id) => (Discover(s, id, connection), Some(|s.arena|))
  }

  /** Tracks a hidden domain signal and processes the metadata it already has. */
  ghost function Discover(s: State, id: string, connection: Connection): (t: State)
    requires Refs(s) && id in connection && id !in s.signals
    ensures ExtendsBut(Create(s, id), t, |s.arena|) && ExtendsBut(s, t, |s.arena|)
    decreases connection.Keys - s.signals.Keys, 0
  {
    var created := Create(s, id);
    if connection[id].Some? then
      assert connection.Keys - created.signals.Keys < connection.Keys - s.signals.Keys by {
        assert id in connection.Keys - s.signals.Keys;
      }
      MetadataChanged(created, |s.arena|, connection[id].value, connection)
    else
      created
  }

  /** The handler step by step: describe the entry, resolve its domain, settle it. */
  lemma MetadataUnfolds(s: State, r: nat, meta: Metadata, connection: Connection)
    requires Refs(s) && Tracked(s, r)
    ensures
      var lookup := FindDomain(s.signals.Keys, connection.Keys, s.arena[r].id, meta);
      if meta.descriptor.None? || lookup.Malformed? then
        MetadataChanged(s, r, meta, connection) == Reject(s, r)
      else
        var known := Put(s, r, Described(s.arena[r], meta.descriptor));
        && Refs(known)
        && var (found, domain) := Resolve(known, r, lookup, connection);
        MetadataChanged(s, r, meta, connection) == Settle(found, r, domain) && found.arena[r].descriptor == meta.descriptor
  {
    hide Resolve, Settle, FindTime;
    PutExtends(s, r, Described(s.arena[r], meta.descriptor));
  }

  // ----- data ----------------------------------------------------------------------------

  /** A linear domain gets a new packet unless the last one already carries this domain value. */
  predicate NeedsDomainPacket(domain: Entry, value: int)
  {
    && domain.descriptor.Some?
    && domain.descriptor.value.IsLinear()
    && (domain.lastPacket.None? || domain.lastPacket.value.offset != Some(value))
  }

  /** Publishes a packet for an entry and remembers it as the entry's last one. */
  function SendPacket(s: State, r: nat, packet: Packet): (t: State)
    requires Refs(s) && r < |s.arena|
    ensures Refs(t) && t.signals == s.signals && |t.arena| == |s.arena|
  {
    PutKeepsRefs(s, r, s.arena[r].(lastPacket := Some(packet)));
    var t := Put(s, r, s.arena[r].(lastPacket := Some(packet)));
    t.(outbox := t.outbox + [Data(s.arena[r].id, packet)])
  }

  /** The domain packet for a value packet of `r`: a new one, or the domain's last one. */
  function DomainPacketFor(s: State, r: nat, value: int, count: nat): (result: (State, Option<Packet>))
    requires Refs(s) && r < |s.arena|
    ensures Refs(result.0) && result.0.signals == s.signals && |result.0.arena| == |s.arena|
    ensures result.0.arena[r] == s.arena[r]
  {
    var domain := s.arena[r].domain;
    if domain.None? || s.arena[domain.value].descriptor.None? then
      (s, None)
    else if NeedsDomainPacket(s.arena[domain.value], value) then
      var packet := Packet(s.arena[domain.value].descriptor, count, Some(value), None);
      (SendPacket(s, domain.value, packet), Some(packet))
    else
      (s, s.arena[domain.value].lastPacket)
  }

  function DataReceived(s: State, id: string, value: int, count: nat): (t: State)
    requires Refs(s)
    ensures Refs(t)
  {
    if id !in s.signals || !s.arena[s.signals[id]].subscribed then
      s
    else
      var r := s.signals[id];
      var (t, domainPacket) := DomainPacketFor(s, r, value, count);
      SendPacket(t, r, Packet(s.arena[r].descriptor, count, None, domainPacket))
  }

  // ----- the timer -----------------------------------------------------------------------

  /** A sweep finds a fetch unanswered: it is dropped, and given up after the last attempt. */
  function MissFetch(e: Entry): Entry
  {
    var dropped := e.(ledger := e.ledger.(unsubscribes := e.ledger.unsubscribes + 1, missed := e.ledger.missed + 1));
    if e.attempts >= MAX_ATTEMPTS then dropped.(fetch := NotFetching, attempts := 0)
    else dropped.(fetch := AwaitingRetry, attempts := e.attempts + 1)
  }

  /** The effect of a sweep on an entry it does not publish. */
  function SweptForm(e: Entry): Entry
  {
    var counted := e.(sweeps := e.sweeps + 1);
    if e.published then
      if !e.fetch.Held? then e else if counted.sweeps >= 2 then ReleaseHold(counted) else counted
    else if e.descriptor.Some? then counted
    else if e.fetch.Fetching? then MissFetch(e)
    else e
  }

  /** Has the entry been deferred for long enough to be published without its domain? */
  predicate DeferralEnds(e: Entry)
  {
    e.Deferred() && e.sweeps + 1 >= 2
  }

  ghost function SweepEntry(s: State, r: nat): (t: State)
    requires Refs(s) && r < |s.arena|
    ensures Refs(t) && t.signals == s.signals && |t.arena| == |s.arena|
  {
    PutKeepsRefs(s, r, SweptForm(s.arena[r]));
    var swept := Put(s, r, SweptForm(s.arena[r]));
    if DeferralEnds(s.arena[r]) then Publish(swept, r) else swept
  }

  /** Does the sweep schedule another fetch of this entry? */
  predicate Retries(e: Entry)
  {
    !e.published && e.descriptor.None? && e.fetch.Fetching? && e.attempts < MAX_ATTEMPTS
  }

  ghost function SweepAll(s: State, keys: seq<string>): (result: (State, bool))
    requires Refs(s) && forall k :: k in keys ==> k in s.signals
    ensures Refs(result.0) && result.0.signals == s.signals && |result.0.arena| == |s.arena|
    decreases |keys|
  {
    if keys == [] then
      (s, false)
    else
      var r := s.signals[keys[0]];
      var (t, retrying) := SweepAll(SweepEntry(s, r), keys[1..]);
      (t, retrying || Retries(s.arena[r]))
  }

  /** How a sweep leaves the timer: busy until the resubscribe, or armed again if anything is pending. */
  function AfterSweep(s: State, retrying: bool): (t: State)
    requires Refs(s)
    ensures Refs(t) && t.signals == s.signals && t.arena == s.arena
  {
    if retrying then
      SetTimer(s, ResubscribeDue)
    else
      var disarmed := s.(armed := false);
      if AnyPending(disarmed) then Arm(disarmed) else disarmed
  }

  ghost function Sweep(s: State): (t: State)
    requires Refs(s)
    ensures Refs(t) && t.signals == s.signals
  {
    var (swept, retrying) := SweepAll(s, Order(s));
    AfterSweep(swept, retrying)
  }

  function Retried(e: Entry): Entry
  {
    e.(fetch := Fetching,
       ledger := e.ledger.(subscribes := e.ledger.subscribes + 1, episode := e.ledger.episode + 1))
  }

  predicate DueForRetry(e: Entry)
  {
    e.fetch.AwaitingRetry? && e.descriptor.None?
  }

  function ResubscribeAll(s: State, keys: seq<string>): (result: (State, bool))
    requires Refs(s) && forall k :: k in keys ==> k in s.signals
    ensures Refs(result.0) && result.0.signals == s.signals && |result.0.arena| == |s.arena|
    decreases |keys|
  {
    if keys == [] then
      (s, false)
    else
      var r := s.signals[keys[0]];
      if DueForRetry(s.arena[r]) then
        PutKeepsRefs(s, r, Retried(s.arena[r]));
        (ResubscribeAll(Put(s, r, Retried(s.arena[r])), keys[1..]).0, true)
      else
        ResubscribeAll(s, keys[1..])
  }

  function Resubscribe(s: State): (t: State)
    requires Refs(s)
    ensures Refs(t) && t.signals == s.signals
  {
    var (t, pending) := ResubscribeAll(s.(armed := false), Order(s));
    if pending || AnyPending(t) then Arm(t) else t
  }

  /** The timer fires; without an outstanding wait nothing happens. */
  ghost function Fire(s: State): (t: State)
    requires Refs(s)
    ensures Refs(t)
  {
    match s.timer
    case Idle => s
    case SweepDue => Sweep(s.(timer := Idle))
    case ResubscribeDue => Resubscribe(s.(timer := Idle))
  }

  // ----- runs ----------------------------------------------------------------------------

  datatype Event =
    | EvAvailable(id: string)
    | EvUnavailable(id: string)
    | EvSubscribed(id: string)
    | EvUnsubscribed(id: string)
    | EvMetadata(id: string, meta: Metadata, connection: Connection)
    | EvData(id: string, value: int, count: nat)
    | EvAppSubscribe(id: string)
    | EvAppUnsubscribe(id: string)
    | EvTimer

  /** Handlers run one at a time on the I/O thread; an event for an untracked signal has no handler. */
  ghost function Step(s: State, event: Event): (t: State)
    requires Refs(s)
    ensures Refs(t)
  {
    match event
    case EvAvailable(id) => Available(s, id)
    case EvUnavailable(id) => Unavailable(s, id)
    case EvSubscribed(id) => Subscribed(s, id)
    case EvUnsubscribed(id) => Unsubscribed(s, id)
    case EvMetadata(id, meta, connection) =>
      if id in s.signals then MetadataChanged(s, s.signals[id], meta, connection) else s
    case EvData(id, value, count) => DataReceived(s, id, value, count)
    case EvAppSubscribe(id) => AppSubscribe(s, id)
    case EvAppUnsubscribe(id) => AppUnsubscribe(s, id)
    case EvTimer => Fire(s)
  }

  ghost function Run(s: State, events: seq<Event>): (t: State)
    requires Refs(s)
    ensures Refs(t)
    decreases |events|
  {
    if events == [] then s else Run(Step(s, events[0]), events[1..])
  }

  /** t is what one event makes of s. */
  ghost predicate Follows(s: State, event: Event, t: State)
  {
    Refs(s) && t == Step(s, event)
  }

  ghost predicate StepAt(states: seq<State>, events: seq<Event>, i: nat)
    requires i < |events| && |states| == |events| + 1
  {
    Follows(states[i], events[i], states[i + 1])
  }

  /** Every state follows from the one before it by the event between them. */
  ghost predicate IsRun(states: seq<State>, events: seq<Event>)
  {
    |states| == |events| + 1 && forall i :: 0 <= i < |events| ==> StepAt(states, events, i)
  }

  /** The events lead from s to t. */
  ghost predicate Reaches(s: State, events: seq<Event>, t: State)
  {
    exists states :: IsRun(states, events) && states[0] == s && states[|events|] == t
  }

  /** Some events lead from the initial state to t. */
  ghost predicate Reachable(t: State)
  {
    exists events :: Reaches(INITIAL, events, t)
  }

  lemma {:induction false} RunOfStates(states: seq<State>, events: seq<Event>)
    requires IsRun(states, events) && Refs(states[0])
    ensures states[|events|] == Run(states[0], events)
    decreases |events|
  {
    if events != [] {
      hide Step;
      assert StepAt(states, events, 0);
      forall i | 0 <= i < |events[1..]|
        ensures StepAt(states[1..], events[1..], i)
      {
        assert StepAt(states, events, i + 1);
      }
      RunOfStates(states[1..], events[1..]);
    }
  }

  lemma {:induction false} StatesOfRun(s: State, events: seq<Event>) returns (states: seq<State>)
    requires Refs(s)
    ensures IsRun(states, events) && states[0] == s && states[|events|] == Run(s, events)
    decreases |events|
  {
    hide Step;
    if events == [] {
      states := [s];
    } else {
      var rest := StatesOfRun(Step(s, events[0]), events[1..]);
      states := [s] + rest;
      forall i | 0 <= i < |events|
        ensures StepAt(states, events, i)
      {
        if i > 0 {
          assert StepAt(rest, events[1..], i - 1);
        }
      }
    }
  }

  /** What events lead to is what running them computes. */
  lemma ReachesExactlyRun(s: State, events: seq<Event>, t: State)
    requires Refs(s)
    ensures Reaches(s, events, t) <==> t == Run(s, events)
  {
    hide StepAt, Run;
    if Reaches(s, events, t) {
      var states :| IsRun(states, events) && states[0] == s && states[|events|] == t;
      RunOfStates(states, events);
    }
    var states := StatesOfRun(s, events);
  }

  lemma InitialReachable()
    ensures Reachable(INITIAL)
  {
    assert IsRun([INITIAL], []);
    assert Reaches(INITIAL, [], INITIAL);
  }

  /** One more event leads from a reachable state to a reachable one. */
  lemma ReachableStep(s: State, event: Event, t: State)
    requires Reachable(s) && Follows(s, event, t)
    ensures Reachable(t)
  {
    hide Follows;
    var events :| Reaches(INITIAL, events, s);
    var states :| IsRun(states, events) && states[0] == INITIAL && states[|events|] == s;
    var more, longer := events + [event], states + [t];
    forall i | 0 <= i < |more|
      ensures StepAt(longer, more, i)
    {
      if i < |events| {
        assert StepAt(states, events, i);
      }
    }
    assert IsRun(longer, more);
    assert Reaches(INITIAL, more, t);
  }
}
