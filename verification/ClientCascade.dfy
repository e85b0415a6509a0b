/** Which signals one publication announces, and with which links. */
module ClientCascade {
  import opened Wrappers
  import opened ClientState
  import opened ClientEvents
  import opened ClientInvariant
  import opened ClientSafety
  import DeviceMirror
  import OrderedKeys

  // ----- exactly the waiting signals -----------------------------------------------------

  /** Each signal on the path is deferred and has the next one as its domain; the last one's domain is `target`. */
  ghost predicate Leads(s: State, path: seq<nat>, target: nat)
    requires Refs(s)
  {
    && path != []
    && forall i {:trigger s.arena[path[i]]} {:trigger Tracked(s, path[i])} :: 0 <= i < |path| ==>
         && Tracked(s, path[i])
         && s.arena[path[i]].Deferred()
         && s.arena[path[i]].domain == Some(if i + 1 < |path| then path[i + 1] else target)
  }

  ghost predicate WaitsOn(s: State, x: nat, target: nat)
    requires Refs(s)
  {
    exists path :: Leads(s, path, target) && path[0] == x
  }

  lemma CascadePath(s: State, t: State, path: seq<nat>, target: nat)
    requires Refs(s) && Refs(t) && Cascade(s, t) && Leads(t, path, target)
    ensures Leads(s, path, target)
  {
    forall i | 0 <= i < |path|
      ensures Tracked(s, path[i]) && s.arena[path[i]] == t.arena[path[i]]
    {
      assert Tracked(t, path[i]) && t.arena[path[i]].Deferred();
    }
  }

  lemma {:induction false} PublishedWaited(s: State, r: nat, x: nat)
    requires Refs(s) && r < |s.arena| && s.arena[r].Deferred()
    requires NewlyPublished(s, Publish(s, r), x) && x != r
    ensures WaitsOn(s, x, r)
    decreases Unpublished(s), 0
  {
    MarkIsCascade(s, r);
    var marked := MarkPublished(s, r);
    CascadeKeepsRefs(s, marked);
    assert NewlyPublished(marked, Publish(s, r), x);
    DependentWaited(marked, r, Order(s), x);
    var path :| Leads(marked, path, r) && path[0] == x;
    CascadePath(s, marked, path, r);
  }

  lemma {:induction false} DependentWaited(s: State, r: nat, keys: seq<string>, x: nat)
    requires Refs(s) && r < |s.arena| && forall k :: k in keys ==> k in s.signals
    requires NewlyPublished(s, PublishDependents(s, r, keys), x)
    ensures WaitsOn(s, x, r)
    decreases Unpublished(s), 1 + |keys|
  {
    var d := s.signals[keys[0]];
    if d != r && s.arena[d].domain == Some(r) && s.arena[d].Deferred() {
      var t := Publish(s, d);
      if NewlyPublished(s, t, x) {
        FirstDependentWaited(s, r, keys[0], x);
      } else {
        DependentWaited(t, r, keys[1..], x);
        var path :| Leads(t, path, r) && path[0] == x;
        CascadePath(s, t, path, r);
      }
    } else {
      DependentWaited(s, r, keys[1..], x);
    }
  }

  lemma {:induction false} FirstDependentWaited(s: State, r: nat, k: string, x: nat)
    requires Refs(s) && r < |s.arena| && k in s.signals
    requires s.arena[s.signals[k]].domain == Some(r) && s.arena[s.signals[k]].Deferred()
    requires NewlyPublished(s, Publish(s, s.signals[k]), x)
    ensures WaitsOn(s, x, r)
    decreases Unpublished(s), 1
  {
    var d := s.signals[k];
    assert Tracked(s, d);
    if x == d {
      assert Leads(s, [d], r) && [d][0] == x;
    } else {
      PublishedWaited(s, d, x);
      var path :| Leads(s, path, d) && path[0] == x;
      LeadsFurther(s, path, d, r);
    }
  }

  lemma LeadsFurther(s: State, path: seq<nat>, d: nat, target: nat)
    requires Refs(s) && Leads(s, path, d)
    requires Tracked(s, d) && s.arena[d].Deferred() && s.arena[d].domain == Some(target)
    ensures WaitsOn(s, path[0], target)
  {
    var longer := path + [d];
    forall i | 0 <= i < |longer|
      ensures Tracked(s, longer[i]) && s.arena[longer[i]].Deferred()
      ensures s.arena[longer[i]].domain == Some(if i + 1 < |longer| then longer[i + 1] else target)
    {
      assert i < |path| ==> Tracked(s, path[i]);
    }
    assert Leads(s, longer, target) && longer[0] == path[0];
  }

  lemma LeadsShorter(s: State, path: seq<nat>, target: nat)
    requires Refs(s) && Leads(s, path, target) && |path| > 1
    ensures Leads(s, path[..|path| - 1], path[|path| - 1])
  {
    var shorter := path[..|path| - 1];
    forall i | 0 <= i < |shorter|
      ensures Tracked(s, shorter[i]) && s.arena[shorter[i]].Deferred()
      ensures s.arena[shorter[i]].domain == Some(if i + 1 < |shorter| then shorter[i + 1] else path[|path| - 1])
    {
      assert Tracked(s, path[i]);
    }
  }

  lemma LeadsOn(s: State, path: seq<nat>, target: nat)
    requires Refs(s) && Leads(s, path, target) && |path| > 1
    ensures Leads(s, path[1..], target) && Tracked(s, path[0]) && s.arena[path[0]].domain == Some(path[1])
  {
    var rest := path[1..];
    assert Tracked(s, path[0]);
    forall i | 0 <= i < |rest|
      ensures Tracked(s, rest[i]) && s.arena[rest[i]].Deferred()
      ensures s.arena[rest[i]].domain == Some(if i + 1 < |rest| then rest[i + 1] else target)
    {
      assert Tracked(s, path[i + 1]);
    }
  }

  lemma {:induction false} WaitingPublished(s: State, t: State, path: seq<nat>, target: nat)
    requires Refs(s) && Refs(t) && Cascade(s, t) && NobodyLeftBehind(s, t)
    requires Leads(s, path, target) && NewlyPublished(s, t, target)
    ensures NewlyPublished(s, t, path[0])
    decreases |path|
  {
    var last := path[|path| - 1];
    assert Tracked(s, last) && s.arena[last].Deferred() && s.arena[last].domain == Some(target);
    assert t.signals[s.arena[last].id] == last;
    assert NewlyPublished(s, t, last);
    if |path| > 1 {
      LeadsShorter(s, path, target);
      WaitingPublished(s, t, path[..|path| - 1], last);
    }
  }

  /** One publication announces the signal itself and exactly the signals that wait on it, directly or not. */
  lemma PublishesExactlyTheWaiting(s: State, r: nat, x: nat)
    requires Refs(s) && r < |s.arena| && s.arena[r].Deferred()
    ensures NewlyPublished(s, Publish(s, r), x) <==> x == r || WaitsOn(s, x, r)
  {
    var t := Publish(s, r);
    PublishPublishes(s, r);
    if NewlyPublished(s, t, x) && x != r {
      PublishedWaited(s, r, x);
    }
    if WaitsOn(s, x, r) {
      var path :| Leads(s, path, r) && path[0] == x;
      PublishLeavesNobodyBehind(s, r);
      WaitingPublished(s, t, path, r);
    }
  }

  // ----- with their links ----------------------------------------------------------------

  /** A notice that announces a signal with the domain link it has in s. */
  ghost predicate LinkedNotice(s: State, n: Notice)
  {
    n.Announced? && n.ref < |s.arena| && n.link == s.arena[n.ref].domain && n.link.Some?
  }

  /** t continues s's notices by linked announcements only. */
  ghost predicate LinkedSince(s: State, t: State)
  {
    && |s.notices| <= |t.notices|
    && t.notices[..|s.notices|] == s.notices
    && (forall i :: |s.notices| <= i < |t.notices| ==> LinkedNotice(s, t.notices[i]))
  }

  lemma LinkedSinceTransitive(s: State, t: State, u: State)
    requires LinkedSince(s, t) && LinkedSince(t, u) && Cascade(s, t)
    ensures LinkedSince(s, u)
  {
    assert u.notices[..|s.notices|] == u.notices[..|t.notices|][..|s.notices|];
    forall i | |s.notices| <= i < |u.notices|
      ensures LinkedNotice(s, u.notices[i])
    {
      if i < |t.notices| {
        assert u.notices[i] == u.notices[..|t.notices|][i];
      } else {
        var ref := u.notices[i].ref;
        assert t.arena[ref] == s.arena[ref] || t.arena[ref] == PublishedForm(s.arena[ref]);
      }
    }
  }

  lemma {:induction false} PublishNotices(s: State, r: nat)
    requires Refs(s) && r < |s.arena| && s.arena[r].Deferred()
    ensures
      var t := Publish(s, r);
      && |s.notices| < |t.notices|
      && t.notices[..|s.notices| + 1] == s.notices + [Announced(r, LinkOf(s, r))]
      && (forall i :: |s.notices| < i < |t.notices| ==> LinkedNotice(s, t.notices[i]))
    decreases Unpublished(s), 0
  {
    MarkIsCascade(s, r);
    var marked := MarkPublished(s, r);
    CascadeKeepsRefs(s, marked);
    DependentsLinked(marked, r, Order(s));
    var t := Publish(s, r);
    forall i | |s.notices| < i < |t.notices|
      ensures LinkedNotice(s, t.notices[i])
    {
      assert LinkedNotice(marked, t.notices[i]);
      var ref := t.notices[i].ref;
      assert marked.arena[ref] == s.arena[ref] || marked.arena[ref] == PublishedForm(s.arena[ref]);
    }
  }

  lemma {:induction false} DependentsLinked(s: State, r: nat, keys: seq<string>)
    requires Refs(s) && r < |s.arena| && s.arena[r].published && forall k :: k in keys ==> k in s.signals
    ensures LinkedSince(s, PublishDependents(s, r, keys))
    decreases Unpublished(s), 1 + |keys|
  {
    if keys != [] {
      var d := s.signals[keys[0]];
      if d != r && s.arena[d].domain == Some(r) && s.arena[d].Deferred() {
        var t := Publish(s, d);
        PublishNotices(s, d);
        FirstNoticeLinked(s, t, d);
        assert t.arena[r] == s.arena[r];
        DependentsLinked(t, r, keys[1..]);
        LinkedSinceTransitive(s, t, PublishDependents(t, r, keys[1..]));
      } else {
        DependentsLinked(s, r, keys[1..]);
      }
    }
  }

  lemma FirstNoticeLinked(s: State, t: State, d: nat)
    requires Refs(s) && d < |s.arena| && s.arena[d].domain.Some? && LinkOf(s, d) == s.arena[d].domain
    requires |s.notices| < |t.notices| && t.notices[..|s.notices| + 1] == s.notices + [Announced(d, LinkOf(s, d))]
    requires forall i :: |s.notices| < i < |t.notices| ==> LinkedNotice(s, t.notices[i])
    ensures LinkedSince(s, t)
  {
    assert t.notices[|s.notices|] == t.notices[..|s.notices| + 1][|s.notices|];
    assert t.notices[..|s.notices|] == t.notices[..|s.notices| + 1][..|s.notices|];
  }

  // ----- in which order ------------------------------------------------------------------

  /** A deferred tracked signal whose domain is `r`. */
  ghost predicate DefersOn(s: State, b: nat, r: nat)
    requires Refs(s)
  {
    Tracked(s, b) && b != r && s.arena[b].Deferred() && s.arena[b].domain == Some(r)
  }

  /** From position `n` on there is an announcement of `b`. */
  predicate AnnouncedFrom(notices: seq<Notice>, n: nat, b: nat)
  {
    exists i :: n <= i < |notices| && notices[i].Announced? && notices[i].ref == b
  }

  lemma WaitsNowhere(s: State, d: nat, b: nat, r: nat)
    requires Refs(s) && r < |s.arena| && s.arena[r].published && d != r && DefersOn(s, b, r)
    ensures !WaitsOn(s, b, d)
  {
    forall path | Leads(s, path, d)
      ensures path[0] != b
    {
      assert Tracked(s, path[0]);
      assert |path| > 1 ==> Tracked(s, path[1]);
    }
  }

  /** The publication of another signal leaves a signal deferred that waits for a published one. */
  lemma StillDefers(s: State, d: nat, b: nat, r: nat)
    requires Refs(s) && d < |s.arena| && s.arena[d].Deferred() && r < |s.arena| && s.arena[r].published
    requires DefersOn(s, b, r) && b != d
    ensures DefersOn(Publish(s, d), b, r) && Publish(s, d).arena[b].id == s.arena[b].id
  {
    hide WaitsOn;
    PublishesExactlyTheWaiting(s, d, b);
    WaitsNowhere(s, d, b, r);
  }

  lemma NextNotice(notices: seq<Notice>, more: seq<Notice>, n: Notice)
    requires |notices| < |more| && more[..|notices| + 1] == notices + [n]
    ensures notices <= more && more[|notices|] == n
  {
    assert more[|notices|] == more[..|notices| + 1][|notices|];
    assert more[..|notices|] == more[..|notices| + 1][..|notices|];
  }

  lemma NoticesStay(s: State, d: nat)
    requires Refs(s) && d < |s.arena| && s.arena[d].Deferred()
    ensures s.notices <= Publish(s, d).notices && AnnouncedFrom(Publish(s, d).notices, |s.notices|, d)
  {
    hide Publish, LinkedNotice, Refs;
    PublishNotices(s, d);
    NextNotice(s.notices, Publish(s, d).notices, Announced(d, LinkOf(s, d)));
  }

  lemma AnnouncedLonger(notices: seq<Notice>, more: seq<Notice>, n: nat, b: nat)
    requires notices <= more && AnnouncedFrom(notices, n, b)
    ensures AnnouncedFrom(more, n, b)
  {
    var i :| n <= i < |notices| && notices[i].Announced? && notices[i].ref == b;
    assert more[i] == notices[i];
  }

  /** The signals that defer on `r` are all announced by the visits, and nothing that was announced is lost. */
  lemma {:induction false} DependentsAnnounced(s: State, r: nat, keys: seq<string>, b: nat)
    requires Refs(s) && r < |s.arena| && s.arena[r].published && forall k :: k in keys ==> k in s.signals
    ensures s.notices <= PublishDependents(s, r, keys).notices
    ensures DefersOn(s, b, r) && s.arena[b].id in keys ==> AnnouncedFrom(PublishDependents(s, r, keys).notices, |s.notices|, b)
    decreases |keys|
  {
    hide Publish, AnnouncedFrom;
    if keys != [] {
      var d := s.signals[keys[0]];
      assert keys == [keys[0]] + keys[1..];
      if d != r && s.arena[d].domain == Some(r) && s.arena[d].Deferred() {
        var t := Publish(s, d);
        NoticesStay(s, d);
        StayedPublished(s, d, r);
        DependentsAnnounced(t, r, keys[1..], b);
        if DefersOn(s, b, r) && s.arena[b].id in keys {
          if b == d {
            AnnouncedLonger(t.notices, PublishDependents(s, r, keys).notices, |s.notices|, b);
          } else {
            StillDefers(s, d, b, r);
            AnnouncedSooner(PublishDependents(s, r, keys).notices, |s.notices|, |t.notices|, b);
          }
        }
      } else {
        DependentsAnnounced(s, r, keys[1..], b);
      }
    }
  }

  lemma AnnouncedSooner(notices: seq<Notice>, n: nat, m: nat, b: nat)
    requires n <= m && AnnouncedFrom(notices, m, b)
    ensures AnnouncedFrom(notices, n, b)
  {
  }

  lemma StayedPublished(s: State, d: nat, r: nat)
    requires Refs(s) && d < |s.arena| && s.arena[d].Deferred() && r < |s.arena| && s.arena[r].published
    ensures Publish(s, d).signals == s.signals && |Publish(s, d).arena| == |s.arena| && Publish(s, d).arena[r].published
  {
  }

  /** From position `n` on, `a` is announced and then `b`. */
  predicate InOrder(notices: seq<Notice>, n: nat, a: nat, b: nat)
  {
    exists i, j :: n <= i < j < |notices| && AnnouncesAt(notices, i, a) && AnnouncesAt(notices, j, b)
  }

  predicate AnnouncesAt(notices: seq<Notice>, i: nat, a: nat)
    requires i < |notices|
  {
    notices[i].Announced? && notices[i].ref == a
  }

  lemma OneThenOther(first: seq<Notice>, all: seq<Notice>, n: nat, a: nat, b: nat)
    requires first <= all && AnnouncedFrom(first, n, a) && AnnouncedFrom(all, |first|, b)
    ensures InOrder(all, n, a, b)
  {
    var i :| n <= i < |first| && first[i].Announced? && first[i].ref == a;
    var j :| |first| <= j < |all| && all[j].Announced? && all[j].ref == b;
    assert AnnouncesAt(all, i, a) && AnnouncesAt(all, j, b);
  }

  lemma {:induction false} VisitedInOrder(s: State, r: nat, keys: seq<string>, i: nat, j: nat, a: nat, b: nat)
    requires Refs(s) && r < |s.arena| && s.arena[r].published && forall k :: k in keys ==> k in s.signals
    requires forall x, y :: 0 <= x < y < |keys| ==> keys[x] != keys[y]
    requires DefersOn(s, a, r) && DefersOn(s, b, r) && i < j < |keys| && keys[i] == s.arena[a].id && keys[j] == s.arena[b].id
    ensures InOrder(PublishDependents(s, r, keys).notices, |s.notices|, a, b)
    decreases |keys|
  {
    hide Publish, AnnouncedFrom, InOrder, Cascade, Unpublished;
    var d := s.signals[keys[0]];
    var u := PublishDependents(s, r, keys);
    if d != r && s.arena[d].domain == Some(r) && s.arena[d].Deferred() {
      var t := Publish(s, d);
      NoticesStay(s, d);
      StayedPublished(s, d, r);
      StillDefers(s, d, b, r);
      assert keys[1..][j - 1] == keys[j];
      DependentsAnnounced(t, r, keys[1..], b);
      if i == 0 {
        OneThenOther(t.notices, u.notices, |s.notices|, a, b);
      } else {
        StillDefers(s, d, a, r);
        VisitedInOrder(t, r, keys[1..], i - 1, j - 1, a, b);
        OrderedSooner(u.notices, |s.notices|, |t.notices|, a, b);
      }
    } else {
      VisitedInOrder(s, r, keys[1..], i - 1, j - 1, a, b);
    }
  }

  lemma OrderedSooner(notices: seq<Notice>, n: nat, m: nat, a: nat, b: nat)
    requires n <= m && InOrder(notices, m, a, b)
    ensures InOrder(notices, n, a, b)
  {
  }

  lemma MarkedDefers(s: State, r: nat, b: nat)
    requires Refs(s) && r < |s.arena| && s.arena[r].Deferred() && DefersOn(s, b, r)
    ensures Refs(MarkPublished(s, r)) && DefersOn(MarkPublished(s, r), b, r) && MarkPublished(s, r).arena[r].published
    ensures MarkPublished(s, r).arena[b].id == s.arena[b].id && |s.notices| <= |MarkPublished(s, r).notices|
    ensures MarkPublished(s, r).signals == s.signals && |MarkPublished(s, r).arena| == |s.arena|
  {
    MarkIsCascade(s, r);
    CascadeKeepsRefs(s, MarkPublished(s, r));
  }

  /** Of two signals deferred on the one that is published, the one with the smaller id is announced first. */
  lemma DependentsInOrder(s: State, r: nat, a: nat, b: nat)
    requires Refs(s) && r < |s.arena| && s.arena[r].Deferred()
    requires DefersOn(s, a, r) && DefersOn(s, b, r) && OrderedKeys.Less(s.arena[a].id, s.arena[b].id)
    ensures InOrder(Publish(s, r).notices, |s.notices|, a, b)
  {
    hide InOrder, DefersOn, Cascade, Unpublished, MarkPublished, OrderedKeys.Less, Order;
    MarkedDefers(s, r, a);
    MarkedDefers(s, r, b);
    var marked := MarkPublished(s, r);
    var i, j := PlacesInOrder(s, a, b, r);
    VisitedInOrder(marked, r, Order(s), i, j, a, b);
    OrderedSooner(Publish(s, r).notices, |s.notices|, |marked.notices|, a, b);
  }

  lemma PlacesInOrder(s: State, a: nat, b: nat, r: nat) returns (i: nat, j: nat)
    requires Refs(s) && DefersOn(s, a, r) && DefersOn(s, b, r) && OrderedKeys.Less(s.arena[a].id, s.arena[b].id)
    ensures i < j < |Order(s)| && Order(s)[i] == s.arena[a].id && Order(s)[j] == s.arena[b].id
    ensures forall x, y :: 0 <= x < y < |Order(s)| ==> Order(s)[x] != Order(s)[y]
    ensures forall k :: k in Order(s) ==> k in s.signals
  {
    var order := Order(s);
    OrderedKeys.SortedDistinct(s.signals.Keys);
    assert s.arena[a].id in order && s.arena[b].id in order;
    i :| 0 <= i < |order| && order[i] == s.arena[a].id;
    j :| 0 <= j < |order| && order[j] == s.arena[b].id;
    OrderedKeys.LessTotal(s.arena[a].id, s.arena[b].id);
  }

  // ----- cycles --------------------------------------------------------------------------

  /** Deferred signals each of which has the next one as its domain, and the last one the first. */
  ghost predicate DeferredCycle(s: State, cycle: seq<nat>)
    requires Refs(s)
  {
    cycle != [] && Leads(s, cycle, cycle[0]) && Tracked(s, cycle[0]) && s.arena[cycle[0]].Deferred()
  }

  lemma {:induction false} AnnouncedSince(notices: seq<Notice>, n: nat, x: nat)
    requires n <= |notices| && x in EverAnnounced(notices) && x !in EverAnnounced(notices[..n])
    ensures exists i :: n <= i < |notices| && notices[i].Announced? && notices[i].ref == x
    decreases |notices|
  {
    var last := |notices| - 1;
    assert notices[..|notices|] == notices;
    if notices[last].Announced? && notices[last].ref == x {
    } else {
      assert notices[..last][..n] == notices[..n];
      AnnouncedSince(notices[..last], n, x);
      var i :| n <= i < last && notices[..last][i].Announced? && notices[..last][i].ref == x;
      assert notices[i] == notices[..last][i];
    }
  }

  lemma CycleWaits(s: State, cycle: seq<nat>, i: nat)
    requires Refs(s) && DeferredCycle(s, cycle) && i < |cycle|
    ensures Tracked(s, cycle[i]) && s.arena[cycle[i]].domain == Some(cycle[(i + 1) % |cycle|])
    ensures WaitsOn(s, cycle[i], cycle[0])
  {
    assert Tracked(s, cycle[i]);
    assert i + 1 < |cycle| ==> (i + 1) % |cycle| == i + 1;
    var path := cycle[i..];
    forall j | 0 <= j < |path|
      ensures Tracked(s, path[j]) && s.arena[path[j]].Deferred()
      ensures s.arena[path[j]].domain == Some(if j + 1 < |path| then path[j + 1] else cycle[0])
    {
      assert Tracked(s, cycle[i + j]);
    }
    assert Leads(s, path, cycle[0]) && path[0] == cycle[i];
  }

  lemma WaitingAnnounced(s: State, t: State, x: nat)
    requires NoticesAgree(s) && NoticesAgree(t) && NewlyPublished(s, t, x)
    requires |s.notices| <= |t.notices| && t.notices[..|s.notices|] == s.notices
    ensures exists i :: |s.notices| <= i < |t.notices| && t.notices[i].Announced? && t.notices[i].ref == x
  {
    assert x in EverPublished(t) && x !in EverPublished(s);
    AnnouncedSince(t.notices, |s.notices|, x);
  }

  ghost predicate NoticesAgree(s: State)
  {
    EverAnnounced(s.notices) == EverPublished(s)
  }
}
