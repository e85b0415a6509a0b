/** Which deferred signals a sweep announces, and which of them without the link to their domain. */
module ClientSweep {
  import opened Wrappers
  import opened ClientState
  import opened ClientEvents
  import opened ClientInvariant
  import opened ClientSafety
  import opened ClientFrame
  import opened ClientCascade
  import OrderedKeys

  // ----- waiting -------------------------------------------------------------------------

  lemma WaitsTransitive(s: State, x: nat, y: nat, z: nat)
    requires Refs(s) && WaitsOn(s, x, y) && WaitsOn(s, y, z)
    ensures WaitsOn(s, x, z)
  {
    var first :| Leads(s, first, y) && first[0] == x;
    var second :| Leads(s, second, z) && second[0] == y;
    var path := first + second;
    forall i | 0 <= i < |path|
      ensures Tracked(s, path[i]) && s.arena[path[i]].Deferred()
      ensures s.arena[path[i]].domain == Some(if i + 1 < |path| then path[i + 1] else z)
    {
      if i < |first| {
        assert Tracked(s, first[i]);
      } else {
        assert Tracked(s, second[i - |first|]);
      }
    }
    assert Leads(s, path, z) && path[0] == x;
  }

  /** The first entry of a path waits on every later one. */
  lemma WaitsAlong(s: State, path: seq<nat>, target: nat, i: nat)
    requires Refs(s) && Leads(s, path, target) && i < |path|
    ensures Tracked(s, path[i]) && s.arena[path[i]].Deferred()
    ensures path[i] == path[0] || WaitsOn(s, path[0], path[i])
  {
    assert Tracked(s, path[i]);
    if i > 0 {
      var start := path[..i];
      forall j | 0 <= j < |start|
        ensures Tracked(s, start[j]) && s.arena[start[j]].Deferred()
        ensures s.arena[start[j]].domain == Some(if j + 1 < |start| then start[j + 1] else path[i])
      {
        assert Tracked(s, path[j]);
      }
      assert Leads(s, start, path[i]) && start[0] == path[0];
    }
  }

  // ----- one signal ----------------------------------------------------------------------

  /** A deferred signal that an earlier sweep has counted: the next sweep publishes it at the latest. */
  ghost predicate Counted(s: State, q: nat)
    requires Refs(s)
  {
    Tracked(s, q) && s.arena[q].Deferred() && s.arena[q].sweeps >= 1
  }

  /** Is `x` published when the sweep gets to `q`, if both are still deferred then? */
  ghost predicate Releases(s: State, q: nat, x: nat)
    requires Refs(s)
  {
    Counted(s, q) && (x == q || WaitsOn(s, x, q))
  }

  lemma SweepEntryIs(s: State, q: nat)
    requires Refs(s) && q < |s.arena|
    ensures SweepEntry(s, q) == if DeferralEnds(s.arena[q]) then Publish(s, q) else Put(s, q, SweptForm(s.arena[q]))
  {
    hide Publish, MissFetch, Cascade, Unpublished;
    if DeferralEnds(s.arena[q]) {
      var swept := Put(s, q, s.arena[q].(sweeps := s.arena[q].sweeps + 1));
      PutKeepsRefs(s, q, s.arena[q].(sweeps := s.arena[q].sweeps + 1));
      assert SweptForm(s.arena[q]) == s.arena[q].(sweeps := s.arena[q].sweeps + 1);
      PublishIgnoresSweeps(s, swept, q, s.arena[q].sweeps + 1);
    }
  }

  lemma SweepEntryPublishes(s: State, q: nat, x: nat)
    requires Refs(s) && Tracked(s, q) && x < |s.arena| && s.arena[x].Deferred()
    ensures SweepEntry(s, q).arena[x].published <==> Releases(s, q, x)
  {
    hide SweepEntry, Publish;
    SweepEntryIs(s, q);
    if DeferralEnds(s.arena[q]) {
      PublishesExactlyTheWaiting(s, q, x);
    }
  }

  /** Visiting `q` leaves every entry in place; what it does not publish stays deferred, and only `q` is counted. */
  ghost predicate Visits(s: State, t: State, q: nat)
  {
    && t.signals == s.signals && |t.arena| == |s.arena|
    && (forall i :: 0 <= i < |s.arena| ==> t.arena[i].id == s.arena[i].id)
    && (forall i :: 0 <= i < |s.arena| && !t.arena[i].published ==>
          !s.arena[i].published && t.arena[i].domain == s.arena[i].domain && t.arena[i].descriptor == s.arena[i].descriptor
          && (i != q ==> t.arena[i] == s.arena[i]))
    && (forall i :: 0 <= i < |s.arena| && t.arena[i].published && !s.arena[i].published ==> s.arena[i].Deferred())
  }

  lemma SweepEntryVisits(s: State, q: nat)
    requires Refs(s) && q < |s.arena|
    ensures Visits(s, SweepEntry(s, q), q)
  {
    hide SweepEntry, Publish;
    SweepEntryIs(s, q);
    if DeferralEnds(s.arena[q]) {
      var t := Publish(s, q);
      forall i | 0 <= i < |s.arena|
        ensures t.arena[i] == s.arena[i] || (s.arena[i].Deferred() && t.arena[i] == PublishedForm(s.arena[i]))
      {
      }
    }
  }

  lemma TrackedStill(s: State, t: State, q: nat, x: nat)
    requires Refs(s) && Refs(t) && Visits(s, t, q)
    ensures Tracked(s, x) <==> Tracked(t, x)
  {
  }

  lemma LeadsBefore(s: State, t: State, q: nat, path: seq<nat>, target: nat)
    requires Refs(s) && Refs(t) && Visits(s, t, q) && Leads(t, path, target)
    ensures Leads(s, path, target)
  {
    forall i | 0 <= i < |path|
      ensures Tracked(s, path[i]) && s.arena[path[i]].Deferred() && s.arena[path[i]].domain == t.arena[path[i]].domain
    {
      assert Tracked(t, path[i]);
      TrackedStill(s, t, q, path[i]);
    }
  }

  lemma LeadsAfter(s: State, t: State, q: nat, path: seq<nat>, target: nat)
    requires Refs(s) && Refs(t) && Visits(s, t, q) && Leads(s, path, target)
    requires forall i :: 0 <= i < |path| ==> path[i] < |t.arena| && !t.arena[path[i]].published
    ensures Leads(t, path, target)
  {
    forall i | 0 <= i < |path|
      ensures Tracked(t, path[i]) && t.arena[path[i]].Deferred() && s.arena[path[i]].domain == t.arena[path[i]].domain
    {
      assert Tracked(s, path[i]);
      TrackedStill(s, t, q, path[i]);
    }
  }

  /** A visit that leaves `x` deferred leaves deferred whatever `x` waits on. */
  lemma WaitsStill(s: State, q: nat, x: nat, p: nat)
    requires Refs(s) && Tracked(s, q) && Tracked(s, x) && s.arena[x].Deferred() && !SweepEntry(s, q).arena[x].published
    requires WaitsOn(s, x, p)
    ensures WaitsOn(SweepEntry(s, q), x, p)
    ensures p < |s.arena| && s.arena[p].Deferred() ==> !SweepEntry(s, q).arena[p].published
  {
    hide SweepEntry;
    var t := SweepEntry(s, q);
    SweepEntryVisits(s, q);
    SweepEntryPublishes(s, q, x);
    var path :| Leads(s, path, p) && path[0] == x;
    forall i | 0 <= i < |path|
      ensures path[i] < |t.arena| && !t.arena[path[i]].published
    {
      WaitsAlong(s, path, p, i);
      SweepEntryPublishes(s, q, path[i]);
      if path[i] != x && path[i] != q && WaitsOn(s, path[i], q) {
        WaitsTransitive(s, x, path[i], q);
      }
    }
    LeadsAfter(s, t, q, path, p);
    if p < |s.arena| && s.arena[p].Deferred() {
      SweepEntryPublishes(s, q, p);
      if p != q && WaitsOn(s, p, q) {
        WaitsTransitive(s, x, p, q);
      }
    }
  }

  /** As long as `x` stays deferred, the other signals release it just as before the visit. */
  lemma ReleasesStill(s: State, q: nat, x: nat, p: nat)
    requires Refs(s) && Tracked(s, q) && Tracked(s, x) && s.arena[x].Deferred() && !SweepEntry(s, q).arena[x].published
    requires p != q
    ensures Releases(SweepEntry(s, q), p, x) <==> Releases(s, p, x)
  {
    hide SweepEntry;
    var t := SweepEntry(s, q);
    SweepEntryVisits(s, q);
    TrackedStill(s, t, q, p);
    if Releases(s, p, x) && x != p {
      WaitsStill(s, q, x, p);
    }
    if Releases(t, p, x) && x != p {
      var path :| Leads(t, path, p) && path[0] == x;
      LeadsBefore(s, t, q, path, p);
    }
  }

  // ----- the loop ------------------------------------------------------------------------

  /** A sweep under way: the flag is set, and the signals in `keys` are yet to be visited. */
  ghost predicate Sweeping(s: State, keys: seq<string>)
  {
    Core(s, {}) && s.armed && Distinct(keys) && forall k :: k in keys ==> k in s.signals
  }

  /** Is `x` published by the visit of one of the signals? */
  ghost predicate ReleasedBy(s: State, keys: seq<string>, x: nat)
    requires Refs(s) && forall k :: k in keys ==> k in s.signals
  {
    exists k :: k in keys && Releases(s, s.signals[k], x)
  }

  lemma SweepingOn(s: State, keys: seq<string>) returns (q: nat, mid: State)
    requires Sweeping(s, keys) && keys != []
    ensures q == s.signals[keys[0]] && Tracked(s, q) && mid == SweepEntry(s, q)
    ensures Sweeping(mid, keys[1..]) && Visits(s, mid, q) && SweepAll(s, keys).0 == SweepAll(mid, keys[1..]).0
    ensures forall k :: k in keys[1..] ==> s.signals[k] != q
  {
    hide SweepEntry, AllLocal, Waiting, Woken, Mirrored;
    q := s.signals[keys[0]];
    mid := SweepEntry(s, q);
    SweepEntryKeepsCore(s, q);
    SweepEntryVisits(s, q);
  }

  /** Visiting the first signal either publishes `x`, or leaves to the others whether they do. */
  lemma ReleasedByRest(s: State, keys: seq<string>, q: nat, mid: State, x: nat)
    requires Sweeping(s, keys) && keys != [] && q == s.signals[keys[0]] && mid == SweepEntry(s, q)
    requires forall k :: k in keys[1..] ==> s.signals[k] != q
    requires Tracked(s, q) && Tracked(s, x) && s.arena[x].Deferred() && !mid.arena[x].published
    ensures ReleasedBy(mid, keys[1..], x) <==> ReleasedBy(s, keys, x)
  {
    hide SweepEntry, AllLocal, Waiting, Woken, Mirrored, Releases;
    SweepEntryPublishes(s, q, x);
    forall k | k in keys[1..]
      ensures Releases(mid, mid.signals[k], x) <==> Releases(s, s.signals[k], x)
    {
      ReleasesStill(s, q, x, s.signals[k]);
    }
    assert keys == [keys[0]] + keys[1..];
  }

  lemma {:induction false} StaysPublished(s: State, keys: seq<string>, x: nat)
    requires Refs(s) && x < |s.arena| && s.arena[x].published && forall k :: k in keys ==> k in s.signals
    ensures SweepAll(s, keys).0.arena[x].published
    decreases |keys|
  {
    hide SweepEntry;
    if keys != [] {
      SweepEntryVisits(s, s.signals[keys[0]]);
      StaysPublished(SweepEntry(s, s.signals[keys[0]]), keys[1..], x);
    }
  }

  /** The visits publish exactly the signals that one of them releases. */
  lemma {:induction false} SweepAllPublishes(s: State, keys: seq<string>, x: nat)
    requires Sweeping(s, keys) && Tracked(s, x) && s.arena[x].Deferred()
    ensures SweepAll(s, keys).0.arena[x].published <==> ReleasedBy(s, keys, x)
    decreases |keys|
  {
    hide SweepEntry, AllLocal, Waiting, Woken, Mirrored, Releases;
    if keys != [] {
      var q, mid := SweepingOn(s, keys);
      SweepEntryPublishes(s, q, x);
      if mid.arena[x].published {
        StaysPublished(mid, keys[1..], x);
      } else {
        TrackedStill(s, mid, q, x);
        ReleasedByRest(s, keys, q, mid, x);
        SweepAllPublishes(mid, keys[1..], x);
      }
    }
  }

  // ----- notices -------------------------------------------------------------------------

  /** From s to t notices were only added. */
  ghost predicate NoticesExtend(s: State, t: State)
  {
    |s.notices| <= |t.notices| && t.notices[..|s.notices|] == s.notices
  }

  /** Among the notices added from s to t is an announcement of `x` with this link. */
  ghost predicate Announces(s: State, t: State, x: nat, link: Option<nat>)
  {
    exists i :: |s.notices| <= i < |t.notices| && t.notices[i] == Announced(x, link)
  }

  lemma AnnouncesThen(s: State, t: State, u: State, x: nat, link: Option<nat>)
    requires NoticesExtend(s, t) && NoticesExtend(t, u)
    ensures NoticesExtend(s, u)
    ensures Announces(s, u, x, link) <==> Announces(s, t, x, link) || Announces(t, u, x, link)
  {
    assert u.notices[..|s.notices|] == u.notices[..|t.notices|][..|s.notices|];
    assert forall i :: 0 <= i < |t.notices| ==> u.notices[i] == u.notices[..|t.notices|][i];
    if Announces(s, t, x, link) {
      var i :| |s.notices| <= i < |t.notices| && t.notices[i] == Announced(x, link);
      assert u.notices[i] == Announced(x, link);
    }
  }

  lemma {:induction false} AnnouncedEver(notices: seq<Notice>, i: nat)
    requires i < |notices| && notices[i].Announced?
    ensures notices[i].ref in EverAnnounced(notices)
  {
    if i < |notices| - 1 {
      AnnouncedEver(notices[..|notices| - 1], i);
    }
  }

  lemma {:induction false} NotAnnouncedAgain(notices: seq<Notice>, n: nat, i: nat)
    requires AnnouncedOnce(notices) && n <= i < |notices| && notices[i].Announced?
    ensures notices[i].ref !in EverAnnounced(notices[..n])
  {
    var before := notices[..|notices| - 1];
    if i < |notices| - 1 {
      assert before[..n] == notices[..n];
      NotAnnouncedAgain(before, n, i);
    } else {
      EverAnnouncedGrows(before, n);
      assert before[..n] == notices[..n];
    }
  }

  lemma {:induction false} EverAnnouncedGrows(notices: seq<Notice>, n: nat)
    requires n <= |notices|
    ensures EverAnnounced(notices[..n]) <= EverAnnounced(notices)
  {
    if n < |notices| {
      var before := notices[..|notices| - 1];
      assert before[..n] == notices[..n];
      EverAnnouncedGrows(before, n);
    } else {
      assert notices[..n] == notices;
    }
  }

  /** Exactly the newly published signals are announced. */
  lemma AnnouncedIffPublished(s: State, t: State, x: nat)
    requires Refs(s) && Refs(t) && NoticesMirrored(s) && NoticesMirrored(t) && NoticesExtend(s, t)
    requires |t.arena| == |s.arena| && x < |s.arena| && (s.arena[x].published ==> t.arena[x].published)
    ensures NewlyPublished(s, t, x) <==> exists link :: Announces(s, t, x, link)
  {
    if NewlyPublished(s, t, x) {
      WaitingAnnounced(s, t, x);
      var i :| |s.notices| <= i < |t.notices| && t.notices[i].Announced? && t.notices[i].ref == x;
      assert t.notices[i] == Announced(x, t.notices[i].link);
      assert Announces(s, t, x, t.notices[i].link);
    }
    if link: Option<nat> :| Announces(s, t, x, link) {
      var i :| |s.notices| <= i < |t.notices| && t.notices[i] == Announced(x, link);
      AnnouncedEver(t.notices, i);
      NotAnnouncedAgain(t.notices, |s.notices|, i);
      assert x in EverPublished(t) && x !in EverPublished(s);
    }
  }

  /** One visit announces `q` without a link, if it has waited long enough, and all others with theirs. */
  lemma SweepEntryAnnounces(s: State, q: nat, x: nat, link: Option<nat>)
    requires Core(s, {}) && Tracked(s, q)
    ensures NoticesExtend(s, SweepEntry(s, q))
    ensures Announces(s, SweepEntry(s, q), x, None) <==> x == q && DeferralEnds(s.arena[q])
    ensures Announces(s, SweepEntry(s, q), x, link) && link.Some? ==> x < |s.arena| && link == s.arena[x].domain
  {
    hide SweepEntry, Publish, AllLocal, Waiting, Woken, Mirrored;
    SweepEntryIs(s, q);
    var t := SweepEntry(s, q);
    if DeferralEnds(s.arena[q]) {
      DeferredPublishKeepsCore(s, q);
      PublishNotices(s, q);
      var first := t.notices[..|s.notices| + 1];
      assert t.notices[..|s.notices|] == first[..|s.notices|];
      assert t.notices[|s.notices|] == first[|s.notices|] == Announced(q, None);
    }
  }

  /** Is `x` still deferred when its own visit comes, and counted? */
  ghost predicate Unlinked(s: State, keys: seq<string>, x: nat)
    requires Refs(s) && x < |s.arena| && forall k :: k in keys ==> k in s.signals
  {
    exists i :: 0 <= i < |keys| && keys[i] == s.arena[x].id && Counted(s, x) && !ReleasedBy(s, keys[..i], x)
  }

  lemma SweepingMirrored(s: State, keys: seq<string>)
    requires Sweeping(s, keys)
    ensures
      var t := SweepAll(s, keys).0;
      NoticesMirrored(s) && NoticesMirrored(t)
  {
    hide SweepAll, AllLocal, Waiting, Woken, NoticesMirrored;
    SweepAllKeepsCore(s, keys);
  }

  /** What is published is not announced by the visits to come. */
  lemma PublishedNotAnnounced(s: State, keys: seq<string>, x: nat, link: Option<nat>)
    requires Sweeping(s, keys) && x < |s.arena| && s.arena[x].published && NoticesExtend(s, SweepAll(s, keys).0)
    ensures !Announces(s, SweepAll(s, keys).0, x, link)
  {
    hide SweepAll, AllLocal, Waiting, Woken, Mirrored;
    SweepingMirrored(s, keys);
    StaysPublished(s, keys, x);
    AnnouncedIffPublished(s, SweepAll(s, keys).0, x);
  }

  lemma UnlinkedByRest(s: State, keys: seq<string>, q: nat, mid: State, x: nat)
    requires Sweeping(s, keys) && keys != [] && q == s.signals[keys[0]] && mid == SweepEntry(s, q) && Visits(s, mid, q)
    requires forall k :: k in keys[1..] ==> s.signals[k] != q
    requires Tracked(s, q) && Tracked(s, x) && s.arena[x].Deferred() && !mid.arena[x].published
    ensures Unlinked(mid, keys[1..], x) <==> Unlinked(s, keys, x)
  {
    hide SweepEntry, AllLocal, Waiting, Woken, Mirrored, ReleasedBy;
    SweepEntryPublishes(s, q, x);
    TrackedStill(s, mid, q, x);
    forall i | 0 < i <= |keys|
      ensures ReleasedBy(mid, keys[1..][..i - 1], x) <==> ReleasedBy(s, keys[..i], x)
    {
      assert keys[..i][1..] == keys[1..][..i - 1];
      assert keys[..i][0] == keys[0];
      SweepingPrefix(s, keys, i);
      ReleasedByRest(s, keys[..i], q, mid, x);
    }
    if Unlinked(s, keys, x) {
      var i :| 0 <= i < |keys| && keys[i] == s.arena[x].id && Counted(s, x) && !ReleasedBy(s, keys[..i], x);
      assert keys[1..][i - 1] == keys[i];
    }
    if Unlinked(mid, keys[1..], x) {
      var i :| 0 <= i < |keys[1..]| && keys[1..][i] == mid.arena[x].id && Counted(mid, x) && !ReleasedBy(mid, keys[1..][..i], x);
      assert keys[i + 1] == keys[1..][i];
      assert !ReleasedBy(s, keys[..i + 1], x);
    }
  }

  lemma SweepingPrefix(s: State, keys: seq<string>, i: nat)
    requires Sweeping(s, keys) && i <= |keys|
    ensures Sweeping(s, keys[..i])
  {
    hide Core;
  }

  /** The visits announce without its link exactly what is still deferred, and counted, when its own visit comes. */
  lemma {:induction false} SweepAllAnnounces(s: State, keys: seq<string>, x: nat, link: Option<nat>)
    requires Sweeping(s, keys) && Tracked(s, x) && s.arena[x].Deferred()
    ensures
      var t := SweepAll(s, keys).0;
      && NoticesExtend(s, t)
      && (Announces(s, t, x, None) <==> Unlinked(s, keys, x))
      && (Announces(s, t, x, link) && link.Some? ==> link == s.arena[x].domain)
    decreases |keys|
  {
    hide SweepEntry, AllLocal, Waiting, Woken, Mirrored, Unlinked;
    if keys == [] {
      NothingUnlinked(s, x);
    } else {
      var q, mid := SweepingOn(s, keys);
      var t := SweepAll(mid, keys[1..]).0;
      SweepEntryAnnounces(s, q, x, link);
      SweepEntryPublishes(s, q, x);
      SweepAllExtends(mid, keys[1..]);
      AnnouncesThen(s, mid, t, x, None);
      AnnouncesThen(s, mid, t, x, link);
      if mid.arena[x].published {
        PublishedNotAnnounced(mid, keys[1..], x, None);
        PublishedNotAnnounced(mid, keys[1..], x, link);
        UnlinkedFirst(s, keys, q, x);
      } else {
        TrackedStill(s, mid, q, x);
        UnlinkedByRest(s, keys, q, mid, x);
        SweepAllAnnounces(mid, keys[1..], x, link);
        NotYetAnnounced(s, q, x, None);
        NotYetAnnounced(s, q, x, link);
      }
    }
  }

  lemma NothingUnlinked(s: State, x: nat)
    requires Refs(s) && x < |s.arena|
    ensures !Unlinked(s, [], x)
  {
  }

  lemma {:induction false} SweepAllExtends(s: State, keys: seq<string>)
    requires Sweeping(s, keys)
    ensures NoticesExtend(s, SweepAll(s, keys).0)
    decreases |keys|
  {
    hide SweepEntry, Core;
    if keys != [] {
      var q, mid := SweepingOn(s, keys);
      SweepingCore(s, keys);
      SweepEntryAnnounces(s, q, 0, None);
      SweepAllExtends(mid, keys[1..]);
      AnnouncesThen(s, mid, SweepAll(mid, keys[1..]).0, 0, None);
    }
  }

  lemma SweepingCore(s: State, keys: seq<string>)
    requires Sweeping(s, keys)
    ensures Core(s, {}) && Refs(s)
  {
  }

  /** If the first visit publishes `x`, `x` goes without its link only if it is the one visited. */
  lemma UnlinkedFirst(s: State, keys: seq<string>, q: nat, x: nat)
    requires Refs(s) && keys != [] && (forall k :: k in keys ==> k in s.signals) && q == s.signals[keys[0]]
    requires Tracked(s, x) && Releases(s, q, x) && Distinct(keys)
    ensures Unlinked(s, keys, x) <==> x == q
  {
    if x == q {
      assert keys[0] == s.arena[x].id && !ReleasedBy(s, keys[..0], x);
    } else {
      forall i | 0 <= i < |keys| && keys[i] == s.arena[x].id
        ensures ReleasedBy(s, keys[..i], x)
      {
        assert i > 0;
        assert keys[..i][0] == keys[0];
      }
    }
  }

  lemma NotYetAnnounced(s: State, q: nat, x: nat, link: Option<nat>)
    requires Core(s, {}) && s.armed && Tracked(s, q) && x < |s.arena| && !s.arena[x].published && !SweepEntry(s, q).arena[x].published
    requires NoticesExtend(s, SweepEntry(s, q))
    ensures !Announces(s, SweepEntry(s, q), x, link)
  {
    hide SweepEntry, AllLocal, Waiting, Woken, NoticesMirrored;
    SweepEntryKeepsCore(s, q);
    SweepEntryVisits(s, q);
    AnnouncedIffPublished(s, SweepEntry(s, q), x);
  }

  // ----- the timer event -----------------------------------------------------------------

  lemma TimerReaches(s: State, t: State)
    requires Refs(s) && Reaches(s, [EvTimer], t)
    ensures t == Fire(s)
  {
    hide Reaches, Fire;
    var events := [EvTimer];
    ReachesExactlyRun(s, events, t);
    assert events[1..] == [];
    assert Run(s, events) == Run(Step(s, events[0]), []);
  }

  /** A sweep is due in s, and t is the state after it. */
  ghost predicate SweptTo(s: State, t: State)
  {
    Reachable(s) && Refs(s) && s.timer.SweepDue? && Reaches(s, [EvTimer], t)
  }

  lemma SweepStarts(s: State, t: State)
    requires SweptTo(s, t)
    ensures
      var fired := s.(timer := Idle);
      && Sweeping(fired, Order(s))
      && t.arena == SweepAll(fired, Order(s)).0.arena && t.notices == SweepAll(fired, Order(s)).0.notices
      && |t.arena| == |s.arena|
  {
    hide SweepAll, Reachable, Reaches, AllLocal, Waiting, Woken, PublishedKeys, PublishedRefs, EverPublished;
    ReachableInv(s);
    TimerReaches(s, t);
    StillCore(s);
    OrderedKeys.SortedDistinct(s.signals.Keys);
  }

  lemma StillCore(s: State)
    requires Inv(s) && s.timer.SweepDue?
    ensures Core(s.(timer := Idle), {}) && s.armed
  {
    SamePublished(s, s.(timer := Idle));
  }

  lemma ReleasesUntimed(s: State, q: nat, x: nat)
    requires Refs(s)
    ensures Releases(s.(timer := Idle), q, x) == Releases(s, q, x)
  {
    var fired := s.(timer := Idle);
    if WaitsOn(s, x, q) {
      var path :| Leads(s, path, q) && path[0] == x;
      assert Leads(fired, path, q);
    }
    if WaitsOn(fired, x, q) {
      var path :| Leads(fired, path, q) && path[0] == x;
      assert Leads(s, path, q);
    }
  }

  /** A counted signal that the sweep gets to before `x`, and that `x` waits on. */
  ghost predicate ReleasedEarlier(s: State, q: nat, x: nat)
    requires Refs(s) && x < |s.arena|
  {
    Counted(s, q) && WaitsOn(s, x, q) && OrderedKeys.Less(s.arena[q].id, s.arena[x].id)
  }

  lemma ReleasedByEarlier(s: State, x: nat, i: nat)
    requires Refs(s) && Tracked(s, x) && i < |Order(s)| && Order(s)[i] == s.arena[x].id
    ensures ReleasedBy(s, Order(s)[..i], x) <==> exists q :: ReleasedEarlier(s, q, x)
  {
    hide WaitsOn, OrderedKeys.Less;
    forall k
      ensures k in Order(s)[..i] <==> k in s.signals && OrderedKeys.Less(k, s.arena[x].id)
    {
      OrderedKeys.SortedPrefix(s.signals.Keys, i, k);
    }
    OrderedKeys.LessTotal(s.arena[x].id, s.arena[x].id);
    if ReleasedBy(s, Order(s)[..i], x) {
      var k :| k in Order(s)[..i] && Releases(s, s.signals[k], x);
      assert s.arena[s.signals[k]].id == k;
      assert ReleasedEarlier(s, s.signals[k], x);
    }
    if q: nat :| ReleasedEarlier(s, q, x) {
      assert s.arena[q].id in Order(s)[..i] && Releases(s, s.signals[s.arena[q].id], x);
    }
  }

  lemma UnlinkedUntimed(s: State, x: nat)
    requires Refs(s) && Tracked(s, x)
    ensures Unlinked(s.(timer := Idle), Order(s), x) <==> Counted(s, x) && !exists q :: ReleasedEarlier(s, q, x)
  {
    hide WaitsOn, Releases;
    var fired := s.(timer := Idle);
    assert s.arena[x].id in Order(s);
    var i :| 0 <= i < |Order(s)| && Order(s)[i] == s.arena[x].id;
    OrderedKeys.SortedDistinct(s.signals.Keys);
    forall k | k in Order(s)
      ensures Releases(fired, fired.signals[k], x) == Releases(s, s.signals[k], x)
    {
      ReleasesUntimed(s, s.signals[k], x);
    }
    assert forall k :: k in Order(s)[..i] ==> k in Order(s);
    assert ReleasedBy(fired, Order(s)[..i], x) == ReleasedBy(s, Order(s)[..i], x);
    ReleasedByEarlier(s, x, i);
  }

  /** A sweep publishes exactly the deferred signals that are counted or wait on a counted one. */
  lemma SweepPublishesExactly(s: State, t: State, x: nat)
    requires SweptTo(s, t) && Tracked(s, x) && s.arena[x].Deferred()
    ensures |t.arena| == |s.arena|
    ensures t.arena[x].published <==> exists q :: Releases(s, q, x)
    ensures NoticesExtend(s, t) && (t.arena[x].published <==> exists link :: Announces(s, t, x, link))
  {
    hide SweepAll, Releases, Announces, NoticesMirrored, Reaches, Reachable, AllLocal, Waiting, Woken;
    var fired := s.(timer := Idle);
    SweepStarts(s, t);
    assert Tracked(fired, x);
    SweepAllPublishes(fired, Order(s), x);
    SweepAllExtends(fired, Order(s));
    SweepingMirrored(fired, Order(s));
    AnnouncedIffPublished(fired, SweepAll(fired, Order(s)).0, x);
    AnnouncesUntimed(s, t, x);
    if k :| k in Order(s) && Releases(fired, fired.signals[k], x) {
      ReleasesUntimed(s, s.signals[k], x);
    }
    if q: nat :| Releases(s, q, x) {
      ReleasesUntimed(s, q, x);
      ReleasesTracked(s, q, x);
      assert s.arena[q].id in Order(s);
    }
  }

  lemma ReleasesTracked(s: State, q: nat, x: nat)
    requires Refs(s) && Releases(s, q, x)
    ensures Counted(s, q)
  {
  }

  lemma AnnouncesUntimed(s: State, t: State, x: nat)
    requires SweptTo(s, t)
    ensures
      var swept := SweepAll(s.(timer := Idle), Order(s)).0;
      forall link :: Announces(s, t, x, link) == Announces(s.(timer := Idle), swept, x, link)
  {
    hide SweepAll, Reaches, Reachable, Core;
    SweepStarts(s, t);
  }

  /**
   A sweep announces a deferred signal without the link to its domain if and only if an earlier
   sweep has counted it, and it waits on no counted signal that this sweep gets to first. In
   particular a signal whose counter is zero keeps its link.
   */
  lemma LinkDroppedExactly(s: State, t: State, x: nat, link: Option<nat>)
    requires SweptTo(s, t) && Tracked(s, x) && s.arena[x].Deferred()
    ensures NoticesExtend(s, t)
    ensures Announces(s, t, x, None) <==> s.arena[x].sweeps >= 1 && !exists q :: ReleasedEarlier(s, q, x)
    ensures Announces(s, t, x, link) && (link.Some? || s.arena[x].sweeps == 0) ==> link.Some? && link == s.arena[x].domain
  {
    hide SweepAll, Announces, Unlinked, ReleasedEarlier, Reaches, Reachable, AllLocal, Waiting, Woken, Mirrored;
    var fired := s.(timer := Idle);
    SweepStarts(s, t);
    assert Tracked(fired, x);
    SweepAllAnnounces(fired, Order(s), x, link);
    AnnouncesUntimed(s, t, x);
    UnlinkedUntimed(s, x);
  }

  // ----- cycles --------------------------------------------------------------------------

  /** Every member of a cycle waits on every member. */
  lemma CycleWaitsThroughout(s: State, cycle: seq<nat>, i: nat, j: nat)
    requires Refs(s) && DeferredCycle(s, cycle) && i < |cycle| && j < |cycle|
    ensures WaitsOn(s, cycle[i], cycle[j])
    ensures Tracked(s, cycle[i]) && s.arena[cycle[i]].Deferred()
  {
    CycleWaits(s, cycle, i);
    WaitsAlong(s, cycle, cycle[0], i);
    WaitsAlong(s, cycle, cycle[0], j);
    if cycle[j] != cycle[0] {
      WaitsTransitive(s, cycle[i], cycle[0], cycle[j]);
    }
  }

  /** Domain links never lead out of a cycle. */
  lemma {:induction false} CycleClosed(s: State, cycle: seq<nat>, i: nat, path: seq<nat>, q: nat)
    requires Refs(s) && DeferredCycle(s, cycle) && i < |cycle| && Leads(s, path, q) && path[0] == cycle[i]
    ensures q in cycle
    decreases |path|
  {
    CycleWaits(s, cycle, i);
    assert Tracked(s, path[0]);
    if |path| > 1 {
      LeadsOn(s, path, q);
      CycleClosed(s, cycle, (i + 1) % |cycle|, path[1..], q);
    }
  }

  ghost predicate CountedMember(s: State, cycle: seq<nat>, q: nat)
  {
    q < |s.arena| && s.arena[q].sweeps >= 1 && exists j :: 0 <= j < |cycle| && cycle[j] == q
  }

  lemma CycleReleased(s: State, cycle: seq<nat>, i: nat, q: nat)
    requires Refs(s) && DeferredCycle(s, cycle) && i < |cycle| && cycle[i] < |s.arena|
    ensures Releases(s, q, cycle[i]) <==> CountedMember(s, cycle, q)
    ensures ReleasedEarlier(s, q, cycle[i]) <==> CountedMember(s, cycle, q) && OrderedKeys.Less(s.arena[q].id, s.arena[cycle[i]].id)
  {
    hide OrderedKeys.Less;
    if j :| 0 <= j < |cycle| && cycle[j] == q {
      hide Leads;
      CycleWaitsThroughout(s, cycle, i, j);
      CycleWaitsThroughout(s, cycle, j, i);
    } else if WaitsOn(s, cycle[i], q) {
      var path :| Leads(s, path, q) && path[0] == cycle[i];
      CycleClosed(s, cycle, i, path, q);
    } else {
      hide Leads;
      CycleWaitsThroughout(s, cycle, i, i);
    }
  }

  /** A counted member of the cycle, the first in the order of the sweep. */
  ghost predicate FirstCounted(s: State, cycle: seq<nat>, i: nat)
    requires Refs(s) && i < |cycle| && forall j :: 0 <= j < |cycle| ==> cycle[j] < |s.arena|
  {
    && s.arena[cycle[i]].sweeps >= 1
    && forall j :: 0 <= j < |cycle| && cycle[j] != cycle[i] && s.arena[cycle[j]].sweeps >= 1 ==>
         OrderedKeys.Less(s.arena[cycle[i]].id, s.arena[cycle[j]].id)
  }

  lemma FirstCountedExists(s: State, cycle: seq<nat>, some: nat) returns (i: nat)
    requires Refs(s) && some < |cycle|
    requires forall j :: 0 <= j < |cycle| ==> cycle[j] < |s.arena| && Tracked(s, cycle[j])
    requires s.arena[cycle[some]].sweeps >= 1
    ensures i < |cycle| && FirstCounted(s, cycle, i)
  {
    hide OrderedKeys.Less;
    var ids := set j | 0 <= j < |cycle| && s.arena[cycle[j]].sweeps >= 1 :: s.arena[cycle[j]].id;
    assert s.arena[cycle[some]].id in ids;
    OrderedKeys.LeastExists(ids);
    var least :| OrderedKeys.IsLeast(least, ids);
    i :| 0 <= i < |cycle| && s.arena[cycle[i]].sweeps >= 1 && s.arena[cycle[i]].id == least;
    forall j | 0 <= j < |cycle| && cycle[j] != cycle[i] && s.arena[cycle[j]].sweeps >= 1
      ensures OrderedKeys.Less(s.arena[cycle[i]].id, s.arena[cycle[j]].id)
    {
      assert Tracked(s, cycle[i]) && Tracked(s, cycle[j]);
      assert s.arena[cycle[j]].id in ids;
    }
  }

  /** The domain of a member. */
  function Next(cycle: seq<nat>, j: nat): nat
    requires j < |cycle|
  {
    cycle[(j + 1) % |cycle|]
  }

  /** The cycle is broken at member `i`: it alone is announced without a link, all others with theirs. */
  ghost predicate BrokenAt(s: State, t: State, cycle: seq<nat>, i: nat)
    requires i < |cycle|
  {
    && Announces(s, t, cycle[i], None)
    && forall j :: 0 <= j < |cycle| && cycle[j] != cycle[i] ==>
         !Announces(s, t, cycle[j], None) && Announces(s, t, cycle[j], Some(Next(cycle, j)))
  }

  /**
   A sweep breaks a cycle of deferred signals if and only if one of them is counted. Then it
   publishes all of them, exactly one without the link to its domain: the first counted one.
   */
  lemma CycleBrokenOnce(s: State, t: State, cycle: seq<nat>)
    requires SweptTo(s, t) && DeferredCycle(s, cycle)
    ensures |t.arena| == |s.arena| && forall i :: 0 <= i < |cycle| ==> cycle[i] < |s.arena|
    ensures
      var counted := exists i :: 0 <= i < |cycle| && s.arena[cycle[i]].sweeps >= 1;
      && (forall i :: 0 <= i < |cycle| ==> t.arena[cycle[i]].published == counted)
      && (counted ==> exists i :: 0 <= i < |cycle| && FirstCounted(s, cycle, i) && BrokenAt(s, t, cycle, i))
      && (!counted ==> forall i, link :: 0 <= i < |cycle| ==> !Announces(s, t, cycle[i], link))
  {
    hide Reachable, Reaches, Leads, DeferredCycle, Announces, Releases, ReleasedEarlier, OrderedKeys.Less;
    CycleTracked(s, t, cycle);
    forall i | 0 <= i < |cycle|
      ensures t.arena[cycle[i]].published == exists q :: CountedMember(s, cycle, q)
      ensures t.arena[cycle[i]].published == SomehowAnnounced(s, t, cycle[i])
    {
      SweepPublishesExactly(s, t, cycle[i]);
      forall q: nat
        ensures Releases(s, q, cycle[i]) <==> CountedMember(s, cycle, q)
      {
        CycleReleased(s, cycle, i, q);
      }
    }
    if some :| 0 <= some < |cycle| && s.arena[cycle[some]].sweeps >= 1 {
      assert CountedMember(s, cycle, cycle[some]);
      var i := FirstCountedExists(s, cycle, some);
      BreaksAtFirst(s, t, cycle, i);
    }
  }

  lemma CycleTracked(s: State, t: State, cycle: seq<nat>)
    requires SweptTo(s, t) && DeferredCycle(s, cycle)
    ensures Refs(s) && |t.arena| == |s.arena| && cycle != []
    ensures forall i :: 0 <= i < |cycle| ==> Tracked(s, cycle[i]) && s.arena[cycle[i]].Deferred()
  {
    hide SweepAll, Reaches, Reachable, Leads, Core;
    SweepStarts(s, t);
    forall i | 0 <= i < |cycle|
      ensures Tracked(s, cycle[i]) && s.arena[cycle[i]].Deferred()
    {
      CycleWaitsThroughout(s, cycle, i, i);
    }
  }

  ghost predicate SomehowAnnounced(s: State, t: State, x: nat)
  {
    exists link :: Announces(s, t, x, link)
  }

  lemma BreaksAtFirst(s: State, t: State, cycle: seq<nat>, i: nat)
    requires SweptTo(s, t) && DeferredCycle(s, cycle) && i < |cycle|
    requires forall j :: 0 <= j < |cycle| ==> Tracked(s, cycle[j]) && s.arena[cycle[j]].Deferred()
    requires FirstCounted(s, cycle, i)
    requires forall j :: 0 <= j < |cycle| ==> SomehowAnnounced(s, t, cycle[j])
    ensures BrokenAt(s, t, cycle, i)
  {
    hide Reachable, Reaches, Leads, DeferredCycle, Announces, ReleasedEarlier, OrderedKeys.Less;
    forall j | 0 <= j < |cycle|
      ensures Announces(s, t, cycle[j], None) <==> cycle[j] == cycle[i]
    {
      LinkDroppedExactly(s, t, cycle[j], None);
      forall q: nat
        ensures ReleasedEarlier(s, q, cycle[j]) <==>
          CountedMember(s, cycle, q) && OrderedKeys.Less(s.arena[q].id, s.arena[cycle[j]].id)
      {
        CycleReleased(s, cycle, j, q);
      }
      assert CountedMember(s, cycle, cycle[i]);
      if cycle[j] == cycle[i] {
        forall q: nat | CountedMember(s, cycle, q)
          ensures !OrderedKeys.Less(s.arena[q].id, s.arena[cycle[i]].id)
        {
          OrderedKeys.LessTotal(s.arena[q].id, s.arena[cycle[i]].id);
        }
      } else if s.arena[cycle[j]].sweeps >= 1 {
        assert ReleasedEarlier(s, cycle[i], cycle[j]);
      }
    }
    forall j | 0 <= j < |cycle| && cycle[j] != cycle[i]
      ensures Announces(s, t, cycle[j], Some(Next(cycle, j)))
    {
      var link: Option<nat> :| Announces(s, t, cycle[j], link);
      LinkDroppedExactly(s, t, cycle[j], link);
      CycleWaits(s, cycle, j);
    }
  }
}
