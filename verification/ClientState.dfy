/**
 The state of the streaming client and its transitions.

 Entries live in an arena and refer to each other by their position in it, so that a position
 stands for a shared pointer: an entry erased from `signals` keeps its place for as long as
 another entry still points to it.
 */
module ClientState {
  import opened Wrappers
  import opened Descriptors
  import DeviceMirror
  import OrderedKeys

  const MAX_ATTEMPTS := 3

  datatype FetchState = NotFetching | Fetching | AwaitingRetry | Held

  /** What the timer will run when it fires. */
  datatype Timer = Idle | SweepDue | ResubscribeDue

  datatype Packet = Packet(descriptor: Option<Descriptor>, count: nat, offset: Option<int>, domain: Option<Packet>)

  /**
   Counts of the calls made for one entry, kept for the specification only.
   `episode` counts the fetch subscribes since the signal was last announced by the peer,
   `missed` the sweeps that found that fetch unanswered; `marks` records each time the entry
   was marked subscribed (true) and each unsubscribe acknowledgement (false).
   */
  datatype Ledger = Ledger(
    subscribes: nat,
    unsubscribes: nat,
    takeovers: nat,
    appSubscribes: nat,
    appUnsubscribes: nat,
    episode: nat,
    missed: nat,
    marks: seq<bool>)

  datatype Entry = Entry(
    id: string,
    descriptor: Option<Descriptor>,
    domain: Option<nat>,
    lastPacket: Option<Packet>,
    published: bool,
    subscribed: bool,
    fetch: FetchState,
    attempts: nat,
    sweeps: nat,
    ledger: Ledger)
  {
    /** Metadata has arrived but the signal has not been announced. */
    predicate Deferred() {
      !published && descriptor.Some?
    }

    /** Does the entry still need the sweep timer? */
    predicate Pending() {
      fetch.Held? || (!published && (fetch.Fetching? || descriptor.Some?))
    }
  }

  /** What is passed up to openDAQ's streaming base class, other than signal availability. */
  datatype Output =
    | Ack(id: string, subscribed: bool)
    | ValueDescriptor(id: string, descriptor: Descriptor)
    | DomainDescriptor(id: string, descriptor: Descriptor)
    | Data(id: string, packet: Packet)

  /** The history of signal availability as the application sees it. */
  datatype Notice = Announced(ref: nat, link: Option<nat>) | Withdrawn(ref: nat)

  datatype State = State(
    arena: seq<Entry>,
    signals: map<string, nat>,
    armed: bool,
    timer: Timer,
    cancelled: nat,
    available: set<string>,
    device: DeviceMirror.Device,
    deviceFailures: nat,
    notices: seq<Notice>,
    outbox: seq<Output>)

  const INITIAL := State([], map[], false, Idle, 0, {}, DeviceMirror.EMPTY, 0, [], [])

  const NEW_LEDGER := Ledger(0, 0, 0, 0, 0, 0, 0, [])

  function NewEntry(id: string): Entry
  {
    Entry(id, None, None, None, false, false, NotFetching, 0, 0, NEW_LEDGER)
  }

  /** Every reference is valid, and the map files each entry under its own id. */
  ghost predicate Refs(s: State)
  {
    && (forall k :: k in s.signals ==> s.signals[k] < |s.arena| && s.arena[s.signals[k]].id == k)
    && (forall i :: 0 <= i < |s.arena| && s.arena[i].domain.Some? ==>
          s.arena[i].domain.value < |s.arena| && s.arena[i].domain.value != i)
  }

  ghost predicate Tracked(s: State, r: nat)
    requires Refs(s)
  {
    r < |s.arena| && s.arena[r].id in s.signals && s.signals[s.arena[r].id] == r
  }

  function Order(s: State): seq<string>
  {
    OrderedKeys.Sorted(s.signals.Keys)
  }

  function Put(s: State, r: nat, e: Entry): State
    requires r < |s.arena|
  {
    s.(arena := s.arena[r := e])
  }

  lemma PutKeepsRefs(s: State, r: nat, e: Entry)
    requires Refs(s) && r < |s.arena|
    requires e.id == s.arena[r].id
    requires e.domain.Some? ==> e.domain.value < |s.arena| && e.domain.value != r
    ensures Refs(Put(s, r, e))
  {
  }

  // ----- timer ---------------------------------------------------------------------------

  /** Setting the timer anew cancels a wait that is still outstanding. */
  function SetTimer(s: State, timer: Timer): State
  {
    s.(timer := timer, cancelled := if s.timer.Idle? then s.cancelled else s.cancelled + 1)
  }

  function Arm(s: State): State
  {
    if s.armed then s else SetTimer(s.(armed := true), SweepDue)
  }

  predicate AnyPending(s: State)
    requires Refs(s)
  {
    exists k :: k in s.signals && s.arena[s.signals[k]].Pending()
  }

  // ----- publication ---------------------------------------------------------------------

  /** The domain signal an announcement links to: none unless the domain has been announced. */
  function LinkOf(s: State, r: nat): Option<nat>
    requires Refs(s) && r < |s.arena|
  {
    var domain := s.arena[r].domain;
    if domain.Some? && s.arena[domain.value].published then domain else None
  }

  function LinkId(s: State, link: Option<nat>): Option<string>
    requires link.Some? ==> link.value < |s.arena|
  {
    if link.Some? then Some(s.arena[link.value].id) else None
  }

  /** Registers the signal with openDAQ and announces it to the device; a failing device is ignored. */
  function Register(s: State, r: nat): State
    requires Refs(s) && r < |s.arena| && s.arena[r].descriptor.Some?
  {
    var e := s.arena[r];
    var link := LinkOf(s, r);
    var mirrored := DeviceMirror.OnAvailable(s.device, e.id, LinkId(s, link), e.descriptor.value);
    s.(available := s.available + {e.id},
       notices := s.notices + [Announced(r, link)],
       device := if mirrored.Ok? then mirrored.value else s.device,
       deviceFailures := if mirrored.Ok? then s.deviceFailures else s.deviceFailures + 1)
  }

  /** What publication makes of an entry. */
  function PublishedForm(e: Entry): Entry
  {
    e.(published := true,
       fetch := if e.fetch.Fetching? then Held else NotFetching,
       attempts := 0,
       sweeps := 0)
  }

  function MarkPublished(s: State, r: nat): State
    requires Refs(s) && r < |s.arena| && s.arena[r].Deferred()
  {
    var e := s.arena[r];
    var t := Put(Register(s, r), r, PublishedForm(e));
    if e.fetch.Fetching? then Arm(t) else t
  }

  ghost function Unpublished(s: State): set<nat>
  {
    set i | 0 <= i < |s.arena| && !s.arena[i].published
  }

  /** From s to t the timer was left alone, or armed because it was not armed before. */
  ghost predicate TimerKept(s: State, t: State)
  {
    || (t.armed == s.armed && t.timer == s.timer && t.cancelled == s.cancelled)
    || (!s.armed && t.armed && t.timer == Arm(s).timer && t.cancelled == Arm(s).cancelled)
  }

  /** From s to t some deferred entries were published; nothing else happened to any entry. */
  ghost predicate Cascade(s: State, t: State)
  {
    && t.signals == s.signals
    && t.outbox == s.outbox
    && |t.arena| == |s.arena|
    && (forall i :: 0 <= i < |s.arena| && t.arena[i] != s.arena[i] ==>
          && s.arena[i].Deferred()
          && t.arena[i] == PublishedForm(s.arena[i])
          && (s.arena[i].fetch.Fetching? ==> t.armed))
    && TimerKept(s, t)
  }

  lemma CascadeTransitive(s: State, t: State, u: State)
    requires Cascade(s, t) && Cascade(t, u)
    ensures Cascade(s, u)
  {
    forall i | 0 <= i < |s.arena| && u.arena[i] != s.arena[i]
      ensures s.arena[i].Deferred() && u.arena[i] == PublishedForm(s.arena[i])
      ensures s.arena[i].fetch.Fetching? ==> u.armed
    {
      if t.arena[i] != s.arena[i] {
        assert t.arena[i].published && u.arena[i] == t.arena[i];
      }
    }
  }

  lemma CascadeKeepsRefs(s: State, t: State)
    requires Refs(s) && Cascade(s, t)
    ensures Refs(t) && Unpublished(t) <= Unpublished(s)
  {
    forall i | 0 <= i < |s.arena|
      ensures t.arena[i].id == s.arena[i].id && t.arena[i].domain == s.arena[i].domain
      ensures s.arena[i].published ==> t.arena[i].published
    {
      if t.arena[i] != s.arena[i] {
        assert t.arena[i] == PublishedForm(s.arena[i]);
      }
    }
  }

  lemma MarkIsCascade(s: State, r: nat)
    requires Refs(s) && r < |s.arena| && s.arena[r].Deferred()
    ensures Cascade(s, MarkPublished(s, r)) && Unpublished(MarkPublished(s, r)) < Unpublished(s)
  {
    var t := MarkPublished(s, r);
    CascadeKeepsRefs(s, t);
    assert r in Unpublished(s) && r !in Unpublished(t);
  }

  /** Announces an entry and then every entry that was waiting for it. */
  ghost function Publish(s: State, r: nat): (t: State)
    requires Refs(s) && r < |s.arena| && s.arena[r].Deferred()
    ensures Cascade(s, t) && Refs(t) && Unpublished(t) < Unpublished(s)
    decreases Unpublished(s), 0
  {
    MarkIsCascade(s, r);
    var marked := MarkPublished(s, r);
    CascadeKeepsRefs(s, marked);
    var t := PublishDependents(marked, r, Order(s));
    CascadeTransitive(s, marked, t);
    t
  }

  /** Visits the signals in `keys` and publishes those deferred on `r`. */
  ghost function PublishDependents(s: State, r: nat, keys: seq<string>): (t: State)
    requires Refs(s) && r < |s.arena|
    requires forall k :: k in keys ==> k in s.signals
    ensures Cascade(s, t) && Refs(t) && Unpublished(t) <= Unpublished(s)
    decreases Unpublished(s), 1 + |keys|
  {
    if keys == [] then
      s
    else
      var d := s.signals[keys[0]];
      var t := if d != r && s.arena[d].domain == Some(r) && s.arena[d].Deferred() then Publish(s, d) else s;
      var u := PublishDependents(t, r, keys[1..]);
      CascadeTransitive(s, t, u);
      u
  }

  // ----- descriptor events ---------------------------------------------------------------

  function DomainEvents(s: State, r: nat, keys: seq<string>): (events: seq<Output>)
    requires Refs(s) && r < |s.arena| && s.arena[r].descriptor.Some?
    requires forall k :: k in keys ==> k in s.signals
  {
    if keys == [] then
      []
    else
      var d := s.signals[keys[0]];
      var e := s.arena[d];
      (if d != r && e.domain == Some(r) && e.published then [DomainDescriptor(e.id, s.arena[r].descriptor.value)] else [])
      + DomainEvents(s, r, keys[1..])
  }

  function EmitDescriptor(s: State, r: nat): State
    requires Refs(s) && r < |s.arena| && s.arena[r].descriptor.Some?
  {
    var e := s.arena[r];
    s.(outbox := s.outbox + [ValueDescriptor(e.id, e.descriptor.value)] + DomainEvents(s, r, Order(s)))
  }
}
