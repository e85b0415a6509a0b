/** The invariant of the streaming client and its preservation by publication. */
module ClientInvariant {
  import opened Wrappers
  import opened Descriptors
  import opened ClientState
  import opened ClientEvents
  import DeviceMirror
  import OrderedKeys

  // ----- one entry -----------------------------------------------------------------------

  /** Is a wire subscription held on behalf of the initial fetch? */
  predicate FetchActive(e: Entry)
  {
    e.fetch.Fetching? || e.fetch.Held?
  }

  /** Wire calls balance: what is subscribed is the fetch, what was taken over, and what the application asked for. */
  predicate LedgerBalances(e: Entry)
  {
    e.ledger.subscribes - e.ledger.unsubscribes ==
    (if FetchActive(e) then 1 else 0) + e.ledger.takeovers + e.ledger.appSubscribes - e.ledger.appUnsubscribes
  }

  /** No two unsubscribe acknowledgements in a row, and the last mark is the current state. */
  predicate MarksAlternate(e: Entry)
  {
    var marks := e.ledger.marks;
    && (forall i :: 0 <= i < |marks| - 1 && !marks[i] ==> marks[i + 1])
    && e.subscribed == (marks != [] && marks[|marks| - 1])
  }

  predicate AttemptsCounted(e: Entry)
  {
    && e.ledger.episode <= MAX_ATTEMPTS
    && e.ledger.missed <= MAX_ATTEMPTS
    && (e.fetch.Fetching? ==> e.attempts == e.ledger.episode == e.ledger.missed + 1)
    && (e.fetch.AwaitingRetry? ==> 2 <= e.attempts <= MAX_ATTEMPTS && e.attempts == e.ledger.episode + 1 == e.ledger.missed + 1)
    && (e.fetch.NotFetching? || e.fetch.Held? ==> e.attempts == 0)
    && (e.fetch.NotFetching? && !e.published && e.ledger.episode > 0 ==> e.ledger.episode == e.ledger.missed == MAX_ATTEMPTS)
  }

  predicate PhaseConsistent(e: Entry)
  {
    && (e.fetch.Held? || e.subscribed ==> e.published)
    && (e.published ==> e.fetch.NotFetching? || e.fetch.Held?)
    && (!e.published || e.fetch.Held? ==> e.sweeps <= 1)
    && (e.lastPacket.Some? ==> e.lastPacket.value.descriptor == e.descriptor)
  }

  predicate Local(e: Entry)
  {
    PhaseConsistent(e) && AttemptsCounted(e) && LedgerBalances(e) && MarksAlternate(e)
  }

  ghost predicate AllLocal(s: State)
  {
    forall i :: 0 <= i < |s.arena| ==> Local(s.arena[i])
  }

  // ----- all entries ---------------------------------------------------------------------

  /** Every deferred signal outside `busy` waits for a domain that has not been announced. */
  ghost predicate Waiting(s: State, busy: set<nat>)
    requires Refs(s)
  {
    forall k :: k in s.signals && s.signals[k] !in busy && s.arena[s.signals[k]].Deferred() ==>
      var domain := s.arena[s.signals[k]].domain;
      domain.Some? && !s.arena[domain.value].published
  }

  /** The sweep is armed while a tracked entry needs it; `busy` entries need not be counted as deferred yet. */
  ghost predicate Woken(s: State, busy: set<nat>)
    requires Refs(s)
  {
    forall k :: k in s.signals && !s.armed ==>
      var e := s.arena[s.signals[k]];
      && !e.fetch.Held?
      && (!e.published ==> !e.fetch.Fetching?)
      && (s.signals[k] !in busy ==> !e.Deferred())
  }

  /** The flag is set exactly while a wait is outstanding, and no wait was ever cancelled. */
  predicate TimerSound(s: State)
  {
    s.armed == !s.timer.Idle? && s.cancelled == 0
  }

  ghost function PublishedKeys(s: State): set<string>
    requires Refs(s)
  {
    set k | k in s.signals && s.arena[s.signals[k]].published
  }

  ghost function PublishedRefs(s: State): set<nat>
    requires Refs(s)
  {
    set r | 0 <= r < |s.arena| && s.arena[r].published && Tracked(s, r)
  }

  /** Erased entries included. */
  ghost function EverPublished(s: State): set<nat>
  {
    set r | 0 <= r < |s.arena| && s.arena[r].published
  }

  /** The entries announced and not withdrawn. */
  function Registered(notices: seq<Notice>): set<nat>
  {
    if notices == [] then
      {}
    else
      var before := Registered(notices[..|notices| - 1]);
      match notices[|notices| - 1]
      case Announced(r, _) => before + {r}
      case Withdrawn(r) => before - {r}
  }

  /** Every announcement's link names an entry that is registered at that moment. */
  predicate LinksRegistered(notices: seq<Notice>)
  {
    if notices == [] then
      true
    else
      var before := notices[..|notices| - 1];
      var last := notices[|notices| - 1];
      LinksRegistered(before) && (last.Announced? && last.link.Some? ==> last.link.value in Registered(before))
  }

  function EverAnnounced(notices: seq<Notice>): set<nat>
  {
    if notices == [] then
      {}
    else
      var before := EverAnnounced(notices[..|notices| - 1]);
      var last := notices[|notices| - 1];
      if last.Announced? then before + {last.ref} else before
  }

  predicate AnnouncedOnce(notices: seq<Notice>)
  {
    if notices == [] then
      true
    else
      var before := notices[..|notices| - 1];
      var last := notices[|notices| - 1];
      AnnouncedOnce(before) && (last.Announced? ==> last.ref !in EverAnnounced(before))
  }

  lemma NoticeAppended(notices: seq<Notice>, n: Notice)
    ensures Registered(notices + [n]) == (if n.Announced? then Registered(notices) + {n.ref} else Registered(notices) - {n.ref})
    ensures LinksRegistered(notices + [n]) ==
      (LinksRegistered(notices) && (n.Announced? && n.link.Some? ==> n.link.value in Registered(notices)))
    ensures EverAnnounced(notices + [n]) == (if n.Announced? then EverAnnounced(notices) + {n.ref} else EverAnnounced(notices))
    ensures AnnouncedOnce(notices + [n]) == (AnnouncedOnce(notices) && (n.Announced? ==> n.ref !in EverAnnounced(notices)))
  {
    assert (notices + [n])[..|notices|] == notices;
  }

  /** The ids registered with openDAQ and the device's mirror are those of the published entries. */
  ghost predicate IdsMirrored(s: State)
    requires Refs(s)
  {
    && s.available == PublishedKeys(s)
    && s.device.streaming.Keys == s.available
    && DeviceMirror.Consistent(s.device)
    && s.deviceFailures == 0
  }

  /** The notices given so far account for the published entries. */
  ghost predicate NoticesMirrored(s: State)
    requires Refs(s)
  {
    && Registered(s.notices) == PublishedRefs(s)
    && LinksRegistered(s.notices)
    && EverAnnounced(s.notices) == EverPublished(s)
    && AnnouncedOnce(s.notices)
  }

  /** The link of the latest announcement of `r`. */
  function LinkGiven(notices: seq<Notice>, r: nat): Option<nat>
  {
    if notices == [] then
      None
    else
      var last := notices[|notices| - 1];
      if last.Announced? && last.ref == r then last.link else LinkGiven(notices[..|notices| - 1], r)
  }

  lemma LinkGivenAppended(notices: seq<Notice>, n: Notice, r: nat)
    ensures LinkGiven(notices + [n], r) == if n.Announced? && n.ref == r then n.link else LinkGiven(notices, r)
  {
    assert (notices + [n])[..|notices|] == notices;
  }

  ghost predicate PlainIds(s: State)
  {
    forall i :: 0 <= i < |s.arena| ==> DeviceMirror.PlainId(s.arena[i].id)
  }

  /** The mirror of a registered entry has as its domain the signal the announcement linked. */
  ghost predicate LinkMirrored(s: State, r: nat)
  {
    && r < |s.arena| && s.arena[r].id in s.device.streaming
    && var link := LinkGiven(s.notices, r);
    && (link.Some? ==> link.value < |s.arena|)
    && s.device.streaming[s.arena[r].id].domain == LinkId(s, link)
  }

  /** With plain ids every standing announcement's link is the mirror's. */
  ghost predicate LinksMirrored(s: State)
  {
    PlainIds(s) ==> forall r :: r in Registered(s.notices) ==> LinkMirrored(s, r)
  }

  ghost predicate Mirrored(s: State)
    requires Refs(s)
  {
    IdsMirrored(s) && NoticesMirrored(s) && LinksMirrored(s)
  }

  lemma SameLinks(s: State, t: State)
    requires LinksMirrored(s) && t.notices == s.notices && t.device == s.device && |s.arena| <= |t.arena|
    requires forall i :: 0 <= i < |s.arena| ==> t.arena[i].id == s.arena[i].id
    ensures LinksMirrored(t)
  {
    if PlainIds(t) {
      assert PlainIds(s) by {
        forall i | 0 <= i < |s.arena|
          ensures DeviceMirror.PlainId(s.arena[i].id)
        {
          assert t.arena[i].id == s.arena[i].id;
        }
      }
      forall r | r in Registered(t.notices)
        ensures LinkMirrored(t, r)
      {
        assert LinkMirrored(s, r);
      }
    }
  }

  /** The invariant while the metadata of the entries in `busy` is still being processed. */
  ghost predicate Core(s: State, busy: set<nat>)
  {
    Refs(s) && AllLocal(s) && Waiting(s, busy) && Woken(s, busy) && Mirrored(s)
  }

  /** The invariant between two events. */
  ghost predicate Inv(s: State)
  {
    Core(s, {}) && TimerSound(s)
  }

  lemma InitialInv()
    ensures Inv(INITIAL)
  {
  }

  // ----- publication ---------------------------------------------------------------------

  lemma CascadeKeepsLocal(s: State, t: State)
    requires AllLocal(s) && Cascade(s, t)
    ensures AllLocal(t)
  {
    forall i | 0 <= i < |t.arena|
      ensures Local(t.arena[i])
    {
      assert Local(s.arena[i]);
      if t.arena[i] != s.arena[i] {
        assert t.arena[i] == PublishedForm(s.arena[i]);
      }
    }
  }

  lemma TimerKeptSound(s: State, t: State)
    requires TimerSound(s) && TimerKept(s, t)
    ensures TimerSound(t)
  {
  }

  /** A link, if there will be one, names a tracked entry. */
  ghost predicate LinkTracked(s: State, r: nat)
    requires Refs(s) && r < |s.arena|
  {
    LinkOf(s, r).Some? ==> Tracked(s, LinkOf(s, r).value)
  }

  lemma PublishedGrows(s: State, t: State, r: nat)
    requires Refs(s) && Refs(t) && t.signals == s.signals && |t.arena| == |s.arena| && Tracked(s, r)
    requires t.arena[r].published
    requires forall i :: 0 <= i < |s.arena| && i != r ==> t.arena[i] == s.arena[i]
    ensures PublishedKeys(t) == PublishedKeys(s) + {s.arena[r].id}
    ensures PublishedRefs(t) == PublishedRefs(s) + {r}
    ensures EverPublished(t) == EverPublished(s) + {r}
  {
    assert t.arena[r].id == s.arena[r].id by {
      assert t.arena[t.signals[s.arena[r].id]].id == s.arena[r].id;
    }
    forall i | 0 <= i < |s.arena|
      ensures Tracked(t, i) == Tracked(s, i)
    {
      assert i != r ==> t.arena[i].id == s.arena[i].id;
    }
    forall k | k in s.signals && k != s.arena[r].id
      ensures s.signals[k] != r
    {
    }
  }

  lemma MarkKeepsMirrored(s: State, r: nat)
    requires Refs(s) && Mirrored(s) && Tracked(s, r) && s.arena[r].Deferred() && LinkTracked(s, r)
    ensures Refs(MarkPublished(s, r)) && Mirrored(MarkPublished(s, r))
    ensures Tracked(MarkPublished(s, r), r)
  {
    hide DeviceMirror.Consistent, PublishedForm, LinksMirrored, PlainIds, DeviceMirror.OnAvailable,
      DeviceMirror.Insert, DeviceMirror.PlainId, Cascade;
    var t := MarkPublished(s, r);
    var e := s.arena[r];
    MarkIsCascade(s, r);
    CascadeKeepsRefs(s, t);
    PublishedGrows(s, t, r);
    var link := LinkOf(s, r);
    assert link.Some? ==> s.arena[link.value].id in PublishedKeys(s) && link.value in PublishedRefs(s);
    assert e.id !in PublishedKeys(s);
    DeviceMirror.AvailableSucceeds(s.device, e.id, LinkId(s, link), e.descriptor.value);
    NoticeAppended(s.notices, Announced(r, link));
    MarkKeepsLinks(s, t, r);
  }

  /** The mirror's keys are ids of entries. */
  lemma PlainKeys(s: State)
    requires Refs(s) && IdsMirrored(s) && PlainIds(s)
    ensures forall k :: k in s.device.streaming ==> DeviceMirror.PlainId(k)
  {
    forall k | k in s.device.streaming
      ensures DeviceMirror.PlainId(k)
    {
      assert k in PublishedKeys(s);
      assert s.arena[s.signals[k]].id == k;
    }
  }

  lemma SamePlainIds(s: State, t: State)
    requires |t.arena| == |s.arena| && forall i :: 0 <= i < |s.arena| ==> t.arena[i].id == s.arena[i].id
    ensures PlainIds(t) == PlainIds(s)
  {
    if PlainIds(t) {
      forall i | 0 <= i < |s.arena|
        ensures DeviceMirror.PlainId(s.arena[i].id)
      {
        assert t.arena[i].id == s.arena[i].id;
      }
    }
  }

  lemma MarkChanges(s: State, r: nat)
    requires Refs(s) && r < |s.arena| && s.arena[r].Deferred()
    ensures
      var t := MarkPublished(s, r);
      var mirrored := DeviceMirror.OnAvailable(s.device, s.arena[r].id, LinkId(s, LinkOf(s, r)), s.arena[r].descriptor.value);
      && |t.arena| == |s.arena| && (forall i :: 0 <= i < |s.arena| ==> t.arena[i].id == s.arena[i].id)
      && t.notices == s.notices + [Announced(r, LinkOf(s, r))]
      && (mirrored.Ok? ==> t.device == mirrored.value)
  {
    hide DeviceMirror.OnAvailable;
  }

  lemma MarkKeepsLinks(s: State, t: State, r: nat)
    requires Refs(s) && Mirrored(s) && Tracked(s, r) && s.arena[r].Deferred() && LinkTracked(s, r)
    requires t == MarkPublished(s, r)
    requires LinkOf(s, r).Some? ==> s.arena[LinkOf(s, r).value].id in s.device.streaming
    requires s.arena[r].id !in s.device.streaming
    ensures LinksMirrored(t)
  {
    hide Put, Refs, MarkPublished, PublishedKeys, DeviceMirror.OnAvailable;
    MarkChanges(s, r);
    hide MarkPublished, NoticesMirrored, PlainIds, DeviceMirror.OnAvailable;
    SamePlainIds(s, t);
    if PlainIds(s) {
      var e, link := s.arena[r], LinkOf(s, r);
      PlainKeys(s);
      DeviceMirror.AvailableSucceeds(s.device, e.id, LinkId(s, link), e.descriptor.value);
      NoticeAppended(s.notices, Announced(r, link));
      hide DeviceMirror.Consistent;
      forall r2 | r2 in Registered(t.notices)
        ensures LinkMirrored(t, r2)
      {
        LinkGivenAppended(s.notices, Announced(r, link), r2);
        assert r2 != r ==> LinkMirrored(s, r2);
      }
    }
  }

  lemma {:induction false} PublishKeepsMirrored(s: State, r: nat)
    requires Refs(s) && Mirrored(s) && Tracked(s, r) && s.arena[r].Deferred() && LinkTracked(s, r)
    ensures Mirrored(Publish(s, r))
    decreases Unpublished(s), 0
  {
    MarkIsCascade(s, r);
    MarkKeepsMirrored(s, r);
    DependentsKeepMirrored(MarkPublished(s, r), r, Order(s));
  }

  lemma {:induction false} DependentsKeepMirrored(s: State, r: nat, keys: seq<string>)
    requires Refs(s) && Mirrored(s) && Tracked(s, r) && s.arena[r].published
    requires forall k :: k in keys ==> k in s.signals
    ensures Mirrored(PublishDependents(s, r, keys))
    decreases Unpublished(s), 1 + |keys|
  {
    if keys != [] {
      var d := s.signals[keys[0]];
      if d != r && s.arena[d].domain == Some(r) && s.arena[d].Deferred() {
        PublishKeepsMirrored(s, d);
        var t := Publish(s, d);
        assert t.arena[r] == s.arena[r];
        DependentsKeepMirrored(t, r, keys[1..]);
      } else {
        DependentsKeepMirrored(s, r, keys[1..]);
      }
    }
  }

  /** Was the entry published on the way from s to t? */
  predicate NewlyPublished(s: State, t: State, d: nat)
  {
    d < |s.arena| && d < |t.arena| && !s.arena[d].published && t.arena[d].published
  }

  /** No tracked entry is left deferred on an entry that was published on the way from s to t. */
  ghost predicate NobodyLeftBehind(s: State, t: State)
    requires Refs(t)
  {
    forall k :: k in t.signals && t.arena[t.signals[k]].Deferred() ==>
      var domain := t.arena[t.signals[k]].domain;
      domain.Some? ==> !NewlyPublished(s, t, domain.value)
  }

  lemma {:induction false} PublishLeavesNobodyBehind(s: State, r: nat)
    requires Refs(s) && r < |s.arena| && s.arena[r].Deferred()
    ensures NobodyLeftBehind(s, Publish(s, r))
    decreases Unpublished(s), 0
  {
    hide DeviceMirror.OnAvailable, LinkOf;
    MarkIsCascade(s, r);
    var marked := MarkPublished(s, r);
    var t := Publish(s, r);
    DependentsLeaveNobodyBehind(marked, r, Order(s));
    forall k | k in t.signals && t.arena[t.signals[k]].Deferred()
      ensures var domain := t.arena[t.signals[k]].domain; domain.Some? ==> !NewlyPublished(s, t, domain.value)
    {
      assert k in Order(s);
      assert t.arena[r].published;
    }
  }

  lemma NobodyLeftBehindTransitive(s: State, t: State, u: State)
    requires Refs(t) && Refs(u) && Cascade(s, t) && Cascade(t, u)
    requires NobodyLeftBehind(s, t) && NobodyLeftBehind(t, u)
    ensures NobodyLeftBehind(s, u)
  {
    forall k | k in u.signals && u.arena[u.signals[k]].Deferred()
      ensures var domain := u.arena[u.signals[k]].domain; domain.Some? ==> !NewlyPublished(s, u, domain.value)
    {
      assert u.arena[u.signals[k]] == t.arena[t.signals[k]];
    }
  }

  /** After the visit, none of the visited signals is still deferred on `r`. */
  ghost predicate NobodyWaitsFor(t: State, r: nat, keys: seq<string>)
    requires Refs(t) && forall k :: k in keys ==> k in t.signals
  {
    forall k :: k in keys && t.signals[k] != r && t.arena[t.signals[k]].Deferred() ==> t.arena[t.signals[k]].domain != Some(r)
  }

  lemma NobodyWaitsForStill(t: State, u: State, r: nat, keys: seq<string>)
    requires Refs(t) && Refs(u) && Cascade(t, u) && forall k :: k in keys ==> k in t.signals
    requires NobodyWaitsFor(t, r, keys)
    ensures NobodyWaitsFor(u, r, keys)
  {
    forall k | k in keys && u.signals[k] != r && u.arena[u.signals[k]].Deferred()
      ensures u.arena[u.signals[k]].domain != Some(r)
    {
      assert u.arena[u.signals[k]] == t.arena[t.signals[k]];
    }
  }

  lemma {:induction false} VisitLeavesNobodyBehind(s: State, r: nat, k: string, t: State)
    requires Refs(s) && r < |s.arena| && k in s.signals
    requires
      var d := s.signals[k];
      t == if d != r && s.arena[d].domain == Some(r) && s.arena[d].Deferred() then Publish(s, d) else s
    ensures Refs(t) && Cascade(s, t) && NobodyLeftBehind(s, t) && NobodyWaitsFor(t, r, [k])
    decreases Unpublished(s), 1
  {
    var d := s.signals[k];
    if d != r && s.arena[d].domain == Some(r) && s.arena[d].Deferred() {
      PublishLeavesNobodyBehind(s, d);
      PublishPublishes(s, d);
    }
  }

  lemma CombineVisits(s: State, t: State, u: State, r: nat, keys: seq<string>)
    requires Refs(s) && Refs(t) && Refs(u) && Cascade(s, t) && Cascade(t, u)
    requires keys != [] && forall k :: k in keys ==> k in s.signals
    requires NobodyLeftBehind(s, t) && NobodyWaitsFor(t, r, [keys[0]])
    requires NobodyLeftBehind(t, u) && NobodyWaitsFor(u, r, keys[1..])
    ensures NobodyLeftBehind(s, u) && NobodyWaitsFor(u, r, keys)
  {
    NobodyLeftBehindTransitive(s, t, u);
    NobodyWaitsForStill(t, u, r, [keys[0]]);
    forall k | k in keys
      ensures k in [keys[0]] || k in keys[1..]
    {
      assert keys == [keys[0]] + keys[1..];
    }
  }

  lemma {:induction false} DependentsLeaveNobodyBehind(s: State, r: nat, keys: seq<string>)
    requires Refs(s) && r < |s.arena|
    requires forall k :: k in keys ==> k in s.signals
    ensures NobodyLeftBehind(s, PublishDependents(s, r, keys))
    ensures NobodyWaitsFor(PublishDependents(s, r, keys), r, keys)
    decreases Unpublished(s), 1 + |keys|
  {
    if keys != [] {
      var d := s.signals[keys[0]];
      var t := if d != r && s.arena[d].domain == Some(r) && s.arena[d].Deferred() then Publish(s, d) else s;
      VisitLeavesNobodyBehind(s, r, keys[0], t);
      DependentsLeaveNobodyBehind(t, r, keys[1..]);
      CombineVisits(s, t, PublishDependents(t, r, keys[1..]), r, keys);
    }
  }

  lemma PublishKeepsWaiting(s: State, r: nat, busy: set<nat>)
    requires Refs(s) && Waiting(s, busy + {r}) && Tracked(s, r) && s.arena[r].Deferred()
    ensures Waiting(Publish(s, r), busy)
  {
    hide Publish;
    var t := Publish(s, r);
    PublishLeavesNobodyBehind(s, r);
    PublishPublishes(s, r);
    forall k | k in t.signals && t.signals[k] !in busy && t.arena[t.signals[k]].Deferred()
      ensures var domain := t.arena[t.signals[k]].domain; domain.Some? && !t.arena[domain.value].published
    {
      assert t.arena[t.signals[k]] == s.arena[s.signals[k]];
    }
  }

  lemma PublishPublishes(s: State, r: nat)
    requires Refs(s) && r < |s.arena| && s.arena[r].Deferred()
    ensures Publish(s, r).arena[r].published
  {
    MarkIsCascade(s, r);
    assert Cascade(MarkPublished(s, r), Publish(s, r));
  }

  lemma PublishKeepsWoken(s: State, r: nat, busy: set<nat>)
    requires Refs(s) && Woken(s, busy + {r}) && Tracked(s, r) && s.arena[r].Deferred()
    ensures Woken(Publish(s, r), busy)
  {
    hide Publish;
    var t := Publish(s, r);
    PublishPublishes(s, r);
    forall k | k in t.signals && !t.armed
      ensures var e := t.arena[t.signals[k]];
        !e.fetch.Held? && (!e.published ==> !e.fetch.Fetching?) && (t.signals[k] !in busy ==> !e.Deferred())
    {
      assert !s.armed;
      var e := s.arena[s.signals[k]];
      if t.arena[t.signals[k]] != e {
        assert t.arena[t.signals[k]] == PublishedForm(e);
      }
    }
  }

  /** Publishing the one entry that need not wait restores the rule that deferred entries wait. */
  lemma PublishKeepsCore(s: State, r: nat, busy: set<nat>)
    requires Core(s, busy + {r}) && Tracked(s, r) && s.arena[r].Deferred() && LinkTracked(s, r)
    ensures Core(Publish(s, r), busy) && TimerKept(s, Publish(s, r))
  {
    CascadeKeepsLocal(s, Publish(s, r));
    PublishKeepsMirrored(s, r);
    PublishKeepsWaiting(s, r, busy);
    PublishKeepsWoken(s, r, busy);
  }
}
