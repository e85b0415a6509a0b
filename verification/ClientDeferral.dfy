/**
 How long a deferred signal waits. The sweep means to grant a deferral at least one full period
 before it drops the domain link, but its counter survives from an earlier deferral.
 */
module ClientDeferral {
  import opened Wrappers
  import opened Descriptors
  import opened ClientState
  import opened ClientEvents
  import opened ClientInvariant
  import opened ClientSafety
  import opened ClientCascade
  import opened ClientSweep
  import DeviceMirror
  import OrderedKeys

  // ----- a deferral that is cut short ----------------------------------------------------
  // The signal is deferred and seen by one sweep, loses its metadata, and is deferred again.

  const VALUE := Descriptor("v", Float64, None, None, None, None, None, None, None)
  const USABLE := Metadata(Some(VALUE), "table", [RelatedSignal(Str("time"), Str("d"))])
  const UNUSABLE := Metadata(None, "", [])
  const PEER: Connection := map["d" := None]

  lemma TwoKeys()
    ensures OrderedKeys.Sorted({"d", "v"}) == ["d", "v"]
  {
    var order := OrderedKeys.Sorted({"d", "v"});
    OrderedKeys.SortedLength({"d", "v"});
    assert order[0] in order && order[1] in order;
    assert !OrderedKeys.Less("v", "d") && !OrderedKeys.Less("v", "v") && !OrderedKeys.Less("d", "d");
  }

  ghost function Deferring(sweeps: nat, descriptor: Option<Descriptor>, domain: Option<nat>): State
  {
    State(
      [NewEntry("v").(descriptor := descriptor, domain := domain, fetch := Fetching, attempts := 1, sweeps := sweeps,
        ledger := NEW_LEDGER.(subscribes := 1, episode := 1)),
       NewEntry("d")],
      map["v" := 0, "d" := 1], true, SweepDue, 0, {}, DeviceMirror.EMPTY, 0, [], [])
  }

  ghost function FirstFetch(): State
  {
    State([StartFetch(NewEntry("v"))], map["v" := 0], true, SweepDue, 0, {}, DeviceMirror.EMPTY, 0, [], [])
  }

  lemma Fetches()
    ensures Follows(INITIAL, EvAvailable("v"), FirstFetch())
  {
    assert Available(INITIAL, "v").arena == [StartFetch(NewEntry("v"))];
  }

  lemma FindsHidden(known: State)
    requires Refs(known) && |known.arena| == 1 && known.signals == map["v" := 0]
    ensures Resolve(known, 0, Hidden("d"), PEER) == (Create(known, "d"), Some(1))
  {
  }

  lemma FirstDeferral()
    ensures Follows(FirstFetch(), EvMetadata("v", USABLE, PEER), Deferring(0, Some(VALUE), Some(1)))
  {
    hide MetadataChanged, Settle, Resolve, FindDomain, Reject, Extends;
    var s := FirstFetch();
    assert s.signals.Keys == {"v"};
    NamesDomain({"v"});
    MetadataUnfolds(s, 0, USABLE, PEER);
    var known := Put(s, 0, Described(s.arena[0], USABLE.descriptor));
    FindsHidden(known);
    DeferredAgain(Create(known, "d"), Deferring(0, Some(VALUE), Some(1)));
  }

  /** A sweep passes over an entry that has neither metadata nor a fetch. */
  lemma SweepEntryIdle(s: State, r: nat)
    requires Refs(s) && r < |s.arena| && s.arena[r] == NewEntry(s.arena[r].id)
    ensures SweepEntry(s, r) == s
  {
    hide Publish;
    assert SweptForm(s.arena[r]) == s.arena[r];
    assert s.arena[r := s.arena[r]] == s.arena;
  }

  lemma SweepIdle(s: State, k: string, rest: seq<string>)
    requires Refs(s) && k in s.signals && s.arena[s.signals[k]] == NewEntry(k) && forall other :: other in rest ==> other in s.signals
    ensures SweepAll(s, [k] + rest) == SweepAll(s, rest)
  {
    hide SweepEntry;
    SweepEntryIdle(s, s.signals[k]);
    assert ([k] + rest)[1..] == rest;
  }

  lemma SweepOne(s: State, k: string)
    requires Refs(s) && k in s.signals
    ensures SweepAll(s, [k]) == (SweepEntry(s, s.signals[k]), Retries(s.arena[s.signals[k]]))
  {
    assert SweepAll(SweepEntry(s, s.signals[k]), []) == (SweepEntry(s, s.signals[k]), false);
  }

  lemma SweepBoth(s: State)
    requires Refs(s) && s.signals.Keys == {"d", "v"} && s.signals["v"] == 0 && s.arena[s.signals["d"]] == NewEntry("d")
    ensures SweepAll(s, Order(s)) == (SweepEntry(s, 0), Retries(s.arena[0]))
  {
    TwoKeys();
    assert Order(s) == ["d"] + ["v"];
    SweepIdle(s, "d", ["v"]);
    SweepOne(s, "v");
  }

  lemma SweptEntry(s: State)
    requires s == Deferring(0, Some(VALUE), Some(1)).(timer := Idle)
    ensures SweepEntry(s, 0) == Deferring(1, Some(VALUE), Some(1)).(timer := Idle)
  {
    assert Put(s, 0, SweptForm(s.arena[0])).arena == Deferring(1, Some(VALUE), Some(1)).arena;
  }

  lemma SweepRearms(swept: State)
    requires Refs(swept) && swept.timer.Idle? && "v" in swept.signals && swept.arena[swept.signals["v"]].Pending()
    ensures AfterSweep(swept, false) == Arm(swept.(armed := false))
  {
    var disarmed := swept.(armed := false);
    assert disarmed.arena[disarmed.signals["v"]].Pending();
  }

  lemma SweptDeferral()
    ensures Follows(Deferring(0, Some(VALUE), Some(1)), EvTimer, Deferring(1, Some(VALUE), Some(1)))
  {
    hide SweepAll, SweepEntry, MetadataChanged, Order, OrderedKeys.Sorted, AfterSweep, AnyPending;
    var s := Deferring(0, Some(VALUE), Some(1)).(timer := Idle);
    SweepBoth(s);
    SweptEntry(s);
    SweepRearms(Deferring(1, Some(VALUE), Some(1)).(timer := Idle));
  }

  lemma Renewed()
    ensures Follows(Deferring(1, Some(VALUE), Some(1)), EvMetadata("v", UNUSABLE, PEER), Deferring(1, None, None))
  {
    assert Reject(Deferring(1, Some(VALUE), Some(1)), 0).arena == Deferring(1, None, None).arena;
  }

  lemma SecondDeferral()
    ensures Follows(Deferring(1, None, None), EvMetadata("v", USABLE, PEER), Deferring(1, Some(VALUE), Some(1)))
  {
    hide MetadataChanged, Settle, FindDomain, Reject, Discover, ExtendsBut;
    var s := Deferring(1, None, None);
    assert s.signals.Keys == {"v", "d"};
    NamesDomain({"v", "d"});
    MetadataUnfolds(s, 0, USABLE, PEER);
    var known := Put(s, 0, Described(s.arena[0], USABLE.descriptor));
    assert Resolve(known, 0, Known("d"), PEER) == (known, Some(1));
    DeferredAgain(known, Deferring(1, Some(VALUE), Some(1)));
  }

  lemma NamesDomain(tracked: set<string>)
    requires "v" in tracked && "table" !in tracked
    ensures FindDomain(tracked, PEER.Keys, "v", USABLE) == if "d" in tracked then Known("d") else Hidden("d")
  {
    assert USABLE.related[0] == RelatedSignal(Str("time"), Str("d"));
    assert FindTime(USABLE.related) == TimeSignal("d");
  }

  lemma DeferredAgain(known: State, t: State)
    requires Refs(known) && |known.arena| == 2 && known.arena[0].Deferred() && !known.arena[1].published && known.armed
    requires t == known.(arena := [known.arena[0].(domain := Some(1)), known.arena[1]])
    ensures Settle(known, 0, Some(1)) == t
  {
    assert Put(known, 0, known.arena[0].(domain := Some(1))).arena == t.arena;
  }

  lemma LinkDropped(deferred: State)
    requires deferred == Deferring(1, Some(VALUE), Some(1))
    ensures
      var notices := Fire(deferred).notices;
      notices != [] && notices[0] == Announced(0, None)
  {
    hide SweepAll, SweepEntry, AnyPending;
    var s := deferred.(timer := Idle);
    SweepBoth(s);
    DroppedByEntry(s);
    assert Sweep(s).notices == SweepEntry(s, 0).notices;
  }

  lemma DroppedByEntry(s: State)
    requires s == Deferring(1, Some(VALUE), Some(1)).(timer := Idle)
    ensures
      var notices := SweepEntry(s, 0).notices;
      notices != [] && notices[0] == Announced(0, None)
  {
    hide Refs, Publish;
    var swept := Put(s, 0, SweptForm(s.arena[0]));
    PutKeepsRefs(s, 0, SweptForm(s.arena[0]));
    PublishNotices(swept, 0);
    assert Publish(swept, 0).notices[0] == Publish(swept, 0).notices[..1][0];
  }

  /** The states of the run and the events between them. */
  lemma ShortRun() returns (states: seq<State>, events: seq<Event>)
    ensures IsRun(states, events) && states[0] == INITIAL && states[|events|] == Deferring(1, None, None)
  {
    hide Step;
    states := [INITIAL, FirstFetch(), Deferring(0, Some(VALUE), Some(1)), Deferring(1, Some(VALUE), Some(1)), Deferring(1, None, None)];
    events := [EvAvailable("v"), EvMetadata("v", USABLE, PEER), EvTimer, EvMetadata("v", UNUSABLE, PEER)];
    Fetches();
    FirstDeferral();
    SweptDeferral();
    Renewed();
  }

  lemma LostIsReachable()
    ensures Reachable(Deferring(1, None, None))
  {
    var states, events := ShortRun();
    assert Reaches(INITIAL, events, states[|events|]);
  }

  /**
   A signal without a descriptor is deferred, and the very next sweep announces it without the
   link to its domain: the deferral was not granted a full period.
   */
  lemma DeferralCutShort() returns (before: State, deferral: Event, deferred: State)
    ensures Reachable(before) && before.arena != [] && before.arena[0].descriptor.None?
    ensures Follows(before, deferral, deferred) && deferred.arena != [] && deferred.arena[0].Deferred()
    ensures
      var notices := Fire(deferred).notices;
      notices != [] && notices[0] == Announced(0, None)
  {
    before, deferral, deferred := Deferring(1, None, None), EvMetadata("v", USABLE, PEER), Deferring(1, Some(VALUE), Some(1));
    LostIsReachable();
    SecondDeferral();
    LinkDropped(deferred);
  }
}
