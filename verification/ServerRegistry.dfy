/**
 The server's registry of streamed signals and its reconciliation with the component tree:
 every signal is registered after its domain signal.
 */
module ServerRegistry {
  import opened Wrappers
  import OrderedKeys

  /** A signal component as a rescan finds it; `domain` refers to another signal by its place in the world. */
  datatype Signal = Signal(id: string, domain: Option<nat>, described: bool, removed: bool)

  type World = seq<Signal>

  /** A registered signal and the domain signal it had when it was registered. */
  datatype Record = Record(signal: nat, domain: Option<nat>)

  datatype Call = Added(id: string, signal: nat) | Removed(id: string)

  /** `server` holds the ids the streaming server knows; `calls` is the history of changes to it. */
  datatype Registry = Registry(records: map<string, Record>, server: set<string>, calls: seq<Call>)

  /** What an operation leaves and whether it ended with an exception. */
  datatype Outcome = Outcome(registry: Registry, thrown: bool)

  // ----- the transitions -----------------------------------------------------------------

  function Add(g: Registry, id: string, record: Record): Registry
  {
    Registry(g.records[id := record], g.server + {id}, g.calls + [Added(id, record.signal)])
  }

  function Remove(g: Registry, id: string): Registry
  {
    Registry(g.records - {id}, g.server - {id}, g.calls + [Removed(id)])
  }

  /** Domain links stay inside the world and are acyclic: they lead to signals of lower rank. */
  ghost predicate Ranked(w: World, rank: seq<nat>)
  {
    && |rank| == |w|
    && forall r :: 0 <= r < |w| && w[r].domain.Some? ==> w[r].domain.value < |w| && rank[w[r].domain.value] < rank[r]
  }

  /**
   Registers one signal whose domain has been dealt with. A changed domain ends the old registration
   first; a signal without a descriptor has no metadata to register it with.
   */
  function Enter(w: World, g: Registry, r: nat): Outcome
    requires r < |w|
  {
    var id := w[r].id;
    if id in g.records && g.records[id].domain == w[r].domain then
      Outcome(g, false)
    else
      var base := if id in g.records then Remove(g, id) else g;
      if w[r].described then Outcome(Add(base, id, Record(r, w[r].domain)), false) else Outcome(base, true)
  }

  ghost function CreateListener(w: World, rank: seq<nat>, g: Registry, r: nat): Outcome
    requires Ranked(w, rank) && r < |w|
    decreases rank[r]
  {
    var first := if w[r].domain.Some? then CreateListener(w, rank, g, w[r].domain.value) else Outcome(g, false);
    if first.thrown then first else Enter(w, first.registry, r)
  }

  function RemoveDead(w: World, g: Registry, keys: seq<string>): Registry
    decreases |keys|
  {
    if keys == [] then
      g
    else
      var dead := keys[0] in g.records && g.records[keys[0]].signal < |w| && w[g.records[keys[0]].signal].removed;
      RemoveDead(w, if dead then Remove(g, keys[0]) else g, keys[1..])
  }

  ghost predicate InWorld(w: World, items: seq<nat>)
  {
    forall i :: 0 <= i < |items| ==> items[i] < |w|
  }

  ghost function CreateAll(w: World, rank: seq<nat>, g: Registry, items: seq<nat>): Outcome
    requires Ranked(w, rank) && InWorld(w, items)
    decreases |items|
  {
    if items == [] then
      Outcome(g, false)
    else
      var first := if w[items[0]].described then CreateListener(w, rank, g, items[0]) else Outcome(g, false);
      if first.thrown then first else CreateAll(w, rank, first.registry, items[1..])
  }

  ghost function Rescan(w: World, rank: seq<nat>, g: Registry, items: seq<nat>): Outcome
    requires Ranked(w, rank) && InWorld(w, items)
  {
    CreateAll(w, rank, RemoveDead(w, g, OrderedKeys.Sorted(g.records.Keys)), items)
  }

  // ----- what a rescan should do ---------------------------------------------------------

  /** A signal and its domain signals, all the way up. */
  ghost function Chain(w: World, rank: seq<nat>, r: nat): (chain: set<nat>)
    requires Ranked(w, rank) && r < |w|
    ensures r in chain && forall d :: d in chain ==> d < |w| && rank[d] <= rank[r]
    decreases rank[r]
  {
    {r} + if w[r].domain.Some? then Chain(w, rank, w[r].domain.value) else {}
  }

  /** The described signals of the tree and all their domain signals. */
  ghost function Closure(w: World, rank: seq<nat>, items: seq<nat>): (closure: set<nat>)
    requires Ranked(w, rank) && InWorld(w, items)
    ensures forall d :: d in closure ==> d < |w|
    decreases |items|
  {
    if items == [] then {}
    else (if w[items[0]].described then Chain(w, rank, items[0]) else {}) + Closure(w, rank, items[1..])
  }

  ghost function Ids(w: World, refs: set<nat>): set<string>
    requires forall d :: d in refs ==> d < |w|
  {
    set d | d in refs :: w[d].id
  }

  /** Live signals have unique ids, and a live signal's domain is live. */
  ghost predicate WellFormed(w: World, rank: seq<nat>)
  {
    && Ranked(w, rank)
    && (forall i, j :: 0 <= i < |w| && 0 <= j < |w| && !w[i].removed && !w[j].removed && w[i].id == w[j].id ==> i == j)
    && (forall r :: 0 <= r < |w| && !w[r].removed && w[r].domain.Some? ==> !w[w[r].domain.value].removed)
  }

  ghost predicate InTree(w: World, r: nat)
  {
    r < |w| && !w[r].removed
  }

  ghost predicate AllInTree(w: World, items: seq<nat>)
  {
    forall i :: 0 <= i < |items| ==> InTree(w, items[i])
  }

  /** The ids the calls leave registered with the server. */
  ghost function Present(calls: seq<Call>): set<string>
  {
    if calls == [] then
      {}
    else
      var before := Present(calls[..|calls| - 1]);
      match calls[|calls| - 1]
      case Added(id, _) => before + {id}
      case Removed(id) => before - {id}
  }

  /** The server knows exactly the recorded signals, each recorded under its own id. */
  ghost predicate Valid(w: World, g: Registry)
  {
    && g.server == g.records.Keys == Present(g.calls)
    && forall id :: id in g.records ==> g.records[id].signal < |w| && w[g.records[id].signal].id == id
  }

  ghost predicate NoDead(w: World, g: Registry)
  {
    Valid(w, g) && forall id :: id in g.records ==> !w[g.records[id].signal].removed
  }

  /** The signal is registered with its current domain. */
  ghost predicate Settled(w: World, g: Registry, r: nat)
  {
    r < |w| && w[r].id in g.records && g.records[w[r].id] == Record(r, w[r].domain)
  }

  ghost predicate AllSettled(w: World, g: Registry, refs: set<nat>)
  {
    forall d :: d in refs ==> Settled(w, g, d)
  }

  /** The signals can be registered: each has a descriptor or needs no new registration. */
  ghost predicate AllEnterable(w: World, g: Registry, refs: set<nat>)
  {
    forall d :: d in refs ==> d < |w| && (w[d].described || Settled(w, g, d))
  }

  ghost predicate AllLive(w: World, refs: set<nat>)
  {
    forall d :: d in refs ==> InTree(w, d)
  }

  /** What was settled stays so, and nothing was newly registered without a descriptor. */
  ghost predicate Respects(w: World, g: Registry, t: Registry)
  {
    forall d: nat :: InTree(w, d) ==>
      && (Settled(w, g, d) ==> Settled(w, t, d))
      && (Settled(w, t, d) && !w[d].described ==> Settled(w, g, d))
  }

  /** A call that adds a signal comes when the signal is not registered but all its domain signals are. */
  ghost predicate ProperCall(w: World, rank: seq<nat>, call: Call, present: set<string>)
    requires Ranked(w, rank)
  {
    match call
    case Added(id, r) =>
      r < |w| && w[r].id == id && id !in present && forall d :: d in Chain(w, rank, r) && d != r ==> w[d].id in present
    case Removed(id) => id in present
  }

  /** The calls after the first `n` are proper. */
  ghost predicate ProperCalls(w: World, rank: seq<nat>, calls: seq<Call>, n: nat)
    requires Ranked(w, rank)
  {
    forall i :: n <= i < |calls| ==> ProperCall(w, rank, calls[i], Present(calls[..i]))
  }

  /** t's calls continue g's, properly. */
  ghost predicate Continues(w: World, rank: seq<nat>, g: Registry, t: Registry)
    requires Ranked(w, rank)
  {
    |g.calls| <= |t.calls| && t.calls[..|g.calls|] == g.calls && ProperCalls(w, rank, t.calls, |g.calls|)
  }

  lemma ContinuesTransitive(w: World, rank: seq<nat>, g: Registry, t: Registry, u: Registry)
    requires Ranked(w, rank) && Continues(w, rank, g, t) && Continues(w, rank, t, u)
    ensures Continues(w, rank, g, u)
  {
    assert u.calls[..|g.calls|] == u.calls[..|t.calls|][..|g.calls|];
    forall i | |g.calls| <= i < |u.calls|
      ensures ProperCall(w, rank, u.calls[i], Present(u.calls[..i]))
    {
      if i < |t.calls| {
        assert u.calls[i] == u.calls[..|t.calls|][i] == t.calls[i];
        assert u.calls[..i] == u.calls[..|t.calls|][..i] == t.calls[..i];
      }
    }
  }

  lemma CallAppended(w: World, rank: seq<nat>, g: Registry, t: Registry, call: Call)
    requires Ranked(w, rank) && t.calls == g.calls + [call] && ProperCall(w, rank, call, Present(g.calls))
    ensures Continues(w, rank, g, t)
    ensures Present(t.calls) == match call case Added(id, _) => Present(g.calls) + {id} case Removed(id) => Present(g.calls) - {id}
  {
    assert t.calls[..|g.calls|] == g.calls;
  }

  // ----- one signal ----------------------------------------------------------------------

  /**
   From g to t the signals `refs` were settled, and nothing else was added or changed; if they were
   settled before, nothing happened at all.
   */
  ghost predicate Advances(w: World, rank: seq<nat>, g: Registry, t: Registry, refs: set<nat>)
    requires Ranked(w, rank) && AllLive(w, refs)
  {
    && NoDead(w, t)
    && Continues(w, rank, g, t)
    && AllSettled(w, t, refs)
    && ChangesOnly(w, g, t, refs)
    && Respects(w, g, t)
    && (AllSettled(w, g, refs) ==> t == g)
  }

  /** From g to t some of the signals `refs` were dealt with before an exception; the others are as they were. */
  ghost predicate Stops(w: World, rank: seq<nat>, g: Registry, t: Registry, refs: set<nat>)
    requires Ranked(w, rank) && AllLive(w, refs)
  {
    && NoDead(w, t)
    && Continues(w, rank, g, t)
    && t.records.Keys <= g.records.Keys + Ids(w, refs)
    && OthersUnchanged(w, g, t, refs)
    && Respects(w, g, t)
  }

  ghost predicate OthersUnchanged(w: World, g: Registry, t: Registry, refs: set<nat>)
    requires AllLive(w, refs)
  {
    forall id :: id in g.records && id !in Ids(w, refs) ==> id in t.records && t.records[id] == g.records[id]
  }

  /** The operation that deals with `refs` throws exactly if one of them cannot be registered. */
  ghost predicate Deals(w: World, rank: seq<nat>, g: Registry, o: Outcome, refs: set<nat>)
    requires Ranked(w, rank) && AllLive(w, refs)
  {
    && (o.thrown <==> !AllEnterable(w, g, refs))
    && if o.thrown then Stops(w, rank, g, o.registry, refs) else Advances(w, rank, g, o.registry, refs)
  }

  /** From g to t records were added or changed for the signals `refs` only. */
  ghost predicate ChangesOnly(w: World, g: Registry, t: Registry, refs: set<nat>)
    requires AllLive(w, refs)
  {
    t.records.Keys == g.records.Keys + Ids(w, refs) && OthersUnchanged(w, g, t, refs)
  }

  lemma IdsOfBoth(w: World, first: set<nat>, second: set<nat>)
    requires AllLive(w, first) && AllLive(w, second)
    ensures AllLive(w, first + second) && Ids(w, first + second) == Ids(w, first) + Ids(w, second)
  {
  }

  lemma ChangesThen(w: World, g: Registry, t: Registry, u: Registry, first: set<nat>, second: set<nat>)
    requires AllLive(w, first) && AllLive(w, second)
    requires ChangesOnly(w, g, t, first) && ChangesOnly(w, t, u, second)
    ensures AllLive(w, first + second) && ChangesOnly(w, g, u, first + second)
  {
    IdsOfBoth(w, first, second);
  }

  lemma SettledThen(w: World, g: Registry, t: Registry, u: Registry, first: set<nat>, second: set<nat>)
    requires AllLive(w, first) && AllLive(w, second)
    requires Respects(w, g, t) && Respects(w, t, u) && AllSettled(w, t, first) && AllSettled(w, u, second)
    ensures Respects(w, g, u) && AllSettled(w, u, first + second)
  {
    hide Settled;
    RespectsThen(w, g, t, u);
    forall d | d in first + second
      ensures Settled(w, u, d)
    {
      assert d in first ==> InTree(w, d) && Settled(w, t, d);
    }
  }

  lemma AdvancesThen(w: World, rank: seq<nat>, g: Registry, t: Registry, u: Registry, first: set<nat>, second: set<nat>)
    requires Ranked(w, rank) && AllLive(w, first) && AllLive(w, second)
    requires Advances(w, rank, g, t, first) && Advances(w, rank, t, u, second)
    ensures AllLive(w, first + second) && Advances(w, rank, g, u, first + second)
  {
    IdsOfBoth(w, first, second);
    ContinuesTransitive(w, rank, g, t, u);
    ChangesThen(w, g, t, u, first, second);
    SettledThen(w, g, t, u, first, second);
    assert AllSettled(w, g, first + second) ==> AllSettled(w, g, first) && AllSettled(w, g, second);
    hide Continues, AllSettled, NoDead, ChangesOnly, Respects;
  }

  lemma OthersThen(w: World, g: Registry, t: Registry, u: Registry, first: set<nat>, second: set<nat>)
    requires AllLive(w, first) && AllLive(w, second)
    requires ChangesOnly(w, g, t, first) && OthersUnchanged(w, t, u, second)
    ensures AllLive(w, first + second) && OthersUnchanged(w, g, u, first + second)
  {
    IdsOfBoth(w, first, second);
  }

  lemma RespectsThen(w: World, g: Registry, t: Registry, u: Registry)
    requires Respects(w, g, t) && Respects(w, t, u)
    ensures Respects(w, g, u)
  {
    hide Settled;
  }

  lemma StopsThen(w: World, rank: seq<nat>, g: Registry, t: Registry, u: Registry, first: set<nat>, second: set<nat>)
    requires Ranked(w, rank) && AllLive(w, first) && AllLive(w, second)
    requires Advances(w, rank, g, t, first) && Stops(w, rank, t, u, second)
    ensures AllLive(w, first + second) && Stops(w, rank, g, u, first + second)
  {
    IdsOfBoth(w, first, second);
    ContinuesTransitive(w, rank, g, t, u);
    OthersThen(w, g, t, u, first, second);
    RespectsThen(w, g, t, u);
    hide Continues, NoDead, Ids, Respects, OthersUnchanged, AllSettled;
  }

  /** Dealing with some signals leaves it open or settled as before whether the others can be registered. */
  lemma StillEnterable(w: World, g: Registry, t: Registry, refs: set<nat>)
    requires Respects(w, g, t) && AllLive(w, refs)
    ensures AllEnterable(w, t, refs) == AllEnterable(w, g, refs)
  {
    hide Settled;
    forall d | d in refs
      ensures w[d].described || Settled(w, t, d) == Settled(w, g, d)
    {
      assert InTree(w, d);
    }
  }

  /** Dealing with `first` and, unless that throws, with `second`. */
  lemma DealsThen(w: World, rank: seq<nat>, g: Registry, o: Outcome, u: Outcome, first: set<nat>, second: set<nat>)
    requires Ranked(w, rank) && AllLive(w, first) && AllLive(w, second)
    requires Deals(w, rank, g, o, first)
    requires if o.thrown then u == o else Deals(w, rank, o.registry, u, second)
    ensures AllLive(w, first + second) && Deals(w, rank, g, u, first + second)
  {
    IdsOfBoth(w, first, second);
    assert AllEnterable(w, g, first + second) == (AllEnterable(w, g, first) && AllEnterable(w, g, second));
    if o.thrown {
      hide Continues, Respects, NoDead, Ids, AllEnterable;
    } else {
      StillEnterable(w, g, o.registry, second);
      if u.thrown {
        StopsThen(w, rank, g, o.registry, u.registry, first, second);
      } else {
        AdvancesThen(w, rank, g, o.registry, u.registry, first, second);
      }
      hide Stops, Advances, AllEnterable;
    }
  }

  lemma RemoveKeepsValid(w: World, rank: seq<nat>, g: Registry, id: string)
    requires Ranked(w, rank) && Valid(w, g) && id in g.records
    ensures Valid(w, Remove(g, id)) && Continues(w, rank, g, Remove(g, id))
  {
    CallAppended(w, rank, g, Remove(g, id), Removed(id));
  }

  lemma AddKeepsValid(w: World, rank: seq<nat>, g: Registry, r: nat)
    requires Ranked(w, rank) && Valid(w, g) && r < |w| && w[r].id !in g.records
    requires ProperCall(w, rank, Added(w[r].id, r), Present(g.calls))
    ensures
      var t := Add(g, w[r].id, Record(r, w[r].domain));
      Valid(w, t) && Continues(w, rank, g, t)
  {
    hide ProperCall, Continues;
    CallAppended(w, rank, g, Add(g, w[r].id, Record(r, w[r].domain)), Added(w[r].id, r));
  }

  /** Taking out the signal itself leaves its domain signals registered. */
  lemma DomainsStay(w: World, rank: seq<nat>, g: Registry, base: Registry, r: nat)
    requires WellFormed(w, rank) && NoDead(w, g) && InTree(w, r)
    requires w[r].domain.Some? ==> AllSettled(w, g, Chain(w, rank, w[r].domain.value))
    requires base.records == g.records - {w[r].id} && Valid(w, base)
    ensures ProperCall(w, rank, Added(w[r].id, r), Present(base.calls))
  {
    forall d | d in Chain(w, rank, r) && d != r
      ensures w[d].id in Present(base.calls)
    {
      assert Settled(w, g, d);
      assert !w[d].removed;
    }
  }

  /** The registration of a signal that is not settled first ends the one it has. */
  lemma TakenOut(w: World, rank: seq<nat>, g: Registry, r: nat) returns (base: Registry)
    requires WellFormed(w, rank) && NoDead(w, g) && InTree(w, r)
    ensures base == if w[r].id in g.records then Remove(g, w[r].id) else g
    ensures Valid(w, base) && Continues(w, rank, g, base) && base.records == g.records - {w[r].id}
  {
    base := g;
    if w[r].id in g.records {
      RemoveKeepsValid(w, rank, g, w[r].id);
      base := Remove(g, w[r].id);
    }
  }

  lemma RegisterAnew(w: World, rank: seq<nat>, g: Registry, r: nat) returns (t: Registry)
    requires WellFormed(w, rank) && NoDead(w, g) && InTree(w, r)
    requires w[r].domain.Some? ==> AllSettled(w, g, Chain(w, rank, w[r].domain.value))
    ensures t == Add(if w[r].id in g.records then Remove(g, w[r].id) else g, w[r].id, Record(r, w[r].domain))
    ensures Valid(w, t) && Continues(w, rank, g, t)
  {
    var base := TakenOut(w, rank, g, r);
    DomainsStay(w, rank, g, base, r);
    AddKeepsValid(w, rank, base, r);
    t := Add(base, w[r].id, Record(r, w[r].domain));
    ContinuesTransitive(w, rank, g, base, t);
  }

  lemma AnewAdvances(w: World, rank: seq<nat>, g: Registry, t: Registry, r: nat)
    requires WellFormed(w, rank) && NoDead(w, g) && InTree(w, r) && w[r].described && !Settled(w, g, r)
    requires Valid(w, t) && Continues(w, rank, g, t) && t.records == g.records[w[r].id := Record(r, w[r].domain)]
    ensures Advances(w, rank, g, t, {r})
  {
    hide Continues, Ranked, Present;
    assert Ids(w, {r}) == {w[r].id};
    assert r in {r};
  }

  lemma TakenOutStops(w: World, rank: seq<nat>, g: Registry, t: Registry, r: nat)
    requires WellFormed(w, rank) && NoDead(w, g) && InTree(w, r) && !Settled(w, g, r)
    requires Valid(w, t) && Continues(w, rank, g, t) && t.records == g.records - {w[r].id}
    ensures Stops(w, rank, g, t, {r})
  {
    hide Continues, Ranked, Present;
    assert Ids(w, {r}) == {w[r].id};
  }

  lemma AlreadyEntered(w: World, rank: seq<nat>, g: Registry, r: nat)
    requires Ranked(w, rank) && NoDead(w, g) && InTree(w, r) && Settled(w, g, r)
    ensures Advances(w, rank, g, g, {r})
  {
    hide NoDead, Ranked;
    assert Ids(w, {r}) == {w[r].id};
  }

  /** A signal whose domain signals are settled is settled, and only that, or it cannot be registered. */
  lemma EnterDeals(w: World, rank: seq<nat>, g: Registry, r: nat)
    requires WellFormed(w, rank) && NoDead(w, g) && InTree(w, r)
    requires w[r].domain.Some? ==> AllSettled(w, g, Chain(w, rank, w[r].domain.value))
    ensures Deals(w, rank, g, Enter(w, g, r), {r})
  {
    hide Advances, Stops, Continues, Present;
    var id := w[r].id;
    if id in g.records && g.records[id].domain == w[r].domain {
      assert g.records[id].signal == r;
      AlreadyEntered(w, rank, g, r);
    } else if w[r].described {
      var t := RegisterAnew(w, rank, g, r);
      assert t.records == g.records[id := Record(r, w[r].domain)];
      AnewAdvances(w, rank, g, t, r);
    } else {
      var base := TakenOut(w, rank, g, r);
      TakenOutStops(w, rank, g, base, r);
      assert r in {r};
    }
  }

  lemma {:induction false} ChainLive(w: World, rank: seq<nat>, r: nat)
    requires WellFormed(w, rank) && InTree(w, r)
    ensures AllLive(w, Chain(w, rank, r))
    decreases rank[r]
  {
    if w[r].domain.Some? {
      ChainLive(w, rank, w[r].domain.value);
    }
  }

  /**
   Registering a signal throws exactly if one of it and its domain signals has no descriptor and is
   not settled; otherwise it settles all of them and adds and changes nothing else.
   */
  lemma {:induction false} CreateListenerDeals(w: World, rank: seq<nat>, g: Registry, r: nat)
    requires WellFormed(w, rank) && NoDead(w, g) && InTree(w, r)
    ensures AllLive(w, Chain(w, rank, r)) && Deals(w, rank, g, CreateListener(w, rank, g, r), Chain(w, rank, r))
    decreases rank[r]
  {
    hide Continues, AllSettled, NoDead, Enter, AllEnterable, Respects, ChangesOnly;
    ChainLive(w, rank, r);
    if w[r].domain.Some? {
      var d := w[r].domain.value;
      CreateListenerDeals(w, rank, g, d);
      var first := CreateListener(w, rank, g, d);
      if !first.thrown {
        EnterDeals(w, rank, first.registry, r);
      }
      DealsThen(w, rank, g, first, CreateListener(w, rank, g, r), Chain(w, rank, d), {r});
      assert Chain(w, rank, r) == Chain(w, rank, d) + {r};
    } else {
      EnterDeals(w, rank, g, r);
      assert Chain(w, rank, r) == {r};
    }
  }

  // ----- the whole rescan ----------------------------------------------------------------

  /** The live among the recorded ids. */
  ghost function Surviving(w: World, g: Registry): set<string>
    requires Valid(w, g)
  {
    set id | id in g.records && !w[g.records[id].signal].removed
  }

  lemma {:induction false} RemoveDeadKeepsLive(w: World, rank: seq<nat>, g: Registry, keys: seq<string>)
    requires Ranked(w, rank) && Valid(w, g)
    ensures
      var t := RemoveDead(w, g, keys);
      && Valid(w, t) && Continues(w, rank, g, t)
      && (forall id :: id in t.records ==> id in g.records && t.records[id] == g.records[id])
      && (forall id :: id in g.records && !w[g.records[id].signal].removed ==> id in t.records)
      && (forall id :: id in keys && id in t.records ==> !w[t.records[id].signal].removed)
      && (NoDead(w, g) ==> t == g)
    decreases |keys|
  {
    if keys != [] {
      var dead := keys[0] in g.records && w[g.records[keys[0]].signal].removed;
      var next := if dead then Remove(g, keys[0]) else g;
      if dead {
        RemoveKeepsValid(w, rank, g, keys[0]);
      }
      RemoveDeadKeepsLive(w, rank, next, keys[1..]);
      ContinuesTransitive(w, rank, g, next, RemoveDead(w, g, keys));
      forall id | id in keys
        ensures id == keys[0] || id in keys[1..]
      {
      }
    }
  }

  lemma NothingAdvances(w: World, rank: seq<nat>, g: Registry)
    requires Ranked(w, rank) && NoDead(w, g)
    ensures Advances(w, rank, g, g, {}) && AllEnterable(w, g, {})
  {
  }

  lemma {:induction false} ClosureLive(w: World, rank: seq<nat>, items: seq<nat>)
    requires WellFormed(w, rank) && AllInTree(w, items)
    ensures AllLive(w, Closure(w, rank, items))
    decreases |items|
  {
    if items != [] {
      ChainLive(w, rank, items[0]);
      ClosureLive(w, rank, items[1..]);
    }
  }

  lemma {:induction false} CreateAllDeals(w: World, rank: seq<nat>, g: Registry, items: seq<nat>)
    requires WellFormed(w, rank) && NoDead(w, g) && AllInTree(w, items)
    ensures AllLive(w, Closure(w, rank, items)) && Deals(w, rank, g, CreateAll(w, rank, g, items), Closure(w, rank, items))
    decreases |items|
  {
    hide Continues, AllSettled, NoDead, AllEnterable, Respects, ChangesOnly, OthersUnchanged;
    ClosureLive(w, rank, items);
    if items == [] {
      NothingAdvances(w, rank, g);
    } else if w[items[0]].described {
      var first := CreateListener(w, rank, g, items[0]);
      CreateListenerDeals(w, rank, g, items[0]);
      ClosureLive(w, rank, items[1..]);
      if !first.thrown {
        CreateAllDeals(w, rank, first.registry, items[1..]);
      }
      DealsThen(w, rank, g, first, CreateAll(w, rank, g, items), Chain(w, rank, items[0]), Closure(w, rank, items[1..]));
    } else {
      CreateAllDeals(w, rank, g, items[1..]);
      assert Closure(w, rank, items) == Closure(w, rank, items[1..]);
    }
  }

  lemma AllDeadRemoved(w: World, rank: seq<nat>, g: Registry)
    requires Ranked(w, rank) && Valid(w, g)
    ensures
      var live := RemoveDead(w, g, OrderedKeys.Sorted(g.records.Keys));
      && NoDead(w, live) && Continues(w, rank, g, live) && live.records.Keys == Surviving(w, g)
      && (forall id :: id in live.records ==> live.records[id] == g.records[id])
      && (forall d: nat :: InTree(w, d) ==> Settled(w, live, d) == Settled(w, g, d))
      && (NoDead(w, g) ==> live == g)
  {
    var keys := OrderedKeys.Sorted(g.records.Keys);
    RemoveDeadKeepsLive(w, rank, g, keys);
    var live := RemoveDead(w, g, keys);
    forall id | id in live.records
      ensures id in keys
    {
    }
  }

  /**
   A rescan throws exactly if one of the described signals of the tree or of their domain signals has
   no descriptor and is not registered with its current domain. Otherwise it leaves registered exactly
   the surviving signals and all of those, the latter recorded with their current domains. In either
   case the server knows the same signals as the registry, every signal was added after all its domain
   signals, none of the others is touched and no settled one is lost.
   */
  lemma RescanMeetsSpecification(w: World, rank: seq<nat>, g: Registry, items: seq<nat>)
    requires WellFormed(w, rank) && Valid(w, g) && AllInTree(w, items)
    ensures
      var o := Rescan(w, rank, g, items);
      var t := o.registry;
      var closure := Closure(w, rank, items);
      && (o.thrown <==> !AllEnterable(w, g, closure))
      && (if o.thrown then t.records.Keys <= Surviving(w, g) + Ids(w, closure)
          else t.records.Keys == Surviving(w, g) + Ids(w, closure) && AllSettled(w, t, closure))
      && (forall id :: id in Surviving(w, g) && id !in Ids(w, closure) ==> id in t.records && t.records[id] == g.records[id])
      && NoDead(w, t) && Respects(w, g, t)
      && Continues(w, rank, g, t)
  {
    AllDeadRemoved(w, rank, g);
    var live := RemoveDead(w, g, OrderedKeys.Sorted(g.records.Keys));
    CreateAllDeals(w, rank, live, items);
    var o := Rescan(w, rank, g, items);
    ContinuesTransitive(w, rank, g, live, o.registry);
    SameEnterable(w, g, live, Closure(w, rank, items));
    hide Settled, Continues, AllEnterable;
  }

  lemma SameEnterable(w: World, g: Registry, live: Registry, refs: set<nat>)
    requires AllLive(w, refs) && forall d: nat :: InTree(w, d) ==> Settled(w, live, d) == Settled(w, g, d)
    ensures AllEnterable(w, live, refs) == AllEnterable(w, g, refs)
  {
    hide Settled;
    assert forall d :: d in refs ==> InTree(w, d);
  }

  // ----- rescanning again ----------------------------------------------------------------

  /** Registering settled signals does nothing. */
  lemma SettledAgain(w: World, rank: seq<nat>, g: Registry, r: nat)
    requires WellFormed(w, rank) && NoDead(w, g) && InTree(w, r) && AllSettled(w, g, Chain(w, rank, r))
    ensures CreateListener(w, rank, g, r) == Outcome(g, false)
  {
    CreateListenerDeals(w, rank, g, r);
    hide Settled, Continues;
    assert AllEnterable(w, g, Chain(w, rank, r));
  }

  /** A registration that throws, throws again where it threw, with nothing more done. */
  lemma {:induction false} ListenerAgain(w: World, rank: seq<nat>, g: Registry, r: nat)
    requires WellFormed(w, rank) && NoDead(w, g) && InTree(w, r)
    ensures
      var o := CreateListener(w, rank, g, r);
      NoDead(w, o.registry) && CreateListener(w, rank, o.registry, r) == o
    decreases rank[r]
  {
    hide Continues, Respects, AllEnterable, NoDead;
    CreateListenerDeals(w, rank, g, r);
    var o := CreateListener(w, rank, g, r);
    if !o.thrown {
      SettledAgain(w, rank, o.registry, r);
    } else if w[r].domain.Some? {
      var d := w[r].domain.value;
      var first := CreateListener(w, rank, g, d);
      ListenerAgain(w, rank, g, d);
      if !first.thrown {
        CreateListenerDeals(w, rank, g, d);
        EnterDeals(w, rank, first.registry, r);
        ChainLive(w, rank, d);
        KeepsAllSettled(w, first.registry, o.registry, Chain(w, rank, d));
        SettledAgain(w, rank, o.registry, d);
      }
    }
  }

  lemma KeepsAllSettled(w: World, g: Registry, t: Registry, refs: set<nat>)
    requires Respects(w, g, t) && AllLive(w, refs) && AllSettled(w, g, refs)
    ensures AllSettled(w, t, refs)
  {
    hide Settled;
    forall d | d in refs
      ensures Settled(w, t, d)
    {
      assert InTree(w, d);
    }
  }

  lemma {:induction false} CreateAllAgain(w: World, rank: seq<nat>, g: Registry, items: seq<nat>)
    requires WellFormed(w, rank) && NoDead(w, g) && AllInTree(w, items)
    ensures
      var o := CreateAll(w, rank, g, items);
      CreateAll(w, rank, o.registry, items) == o
    decreases |items|
  {
    hide Continues, Respects, AllEnterable, NoDead, Enter;
    if items == [] {
    } else if w[items[0]].described {
      var first := CreateListener(w, rank, g, items[0]);
      ListenerAgain(w, rank, g, items[0]);
      if !first.thrown {
        CreateListenerDeals(w, rank, g, items[0]);
        CreateAllDeals(w, rank, first.registry, items[1..]);
        CreateAllAgain(w, rank, first.registry, items[1..]);
        var o := CreateAll(w, rank, g, items);
        KeepsAllSettled(w, first.registry, o.registry, Chain(w, rank, items[0]));
        SettledAgain(w, rank, o.registry, items[0]);
      }
    } else {
      CreateAllAgain(w, rank, g, items[1..]);
    }
  }

  /** Rescanning an unchanged tree adds and removes nothing; a rescan that threw throws again. */
  lemma RescanTwice(w: World, rank: seq<nat>, g: Registry, items: seq<nat>)
    requires WellFormed(w, rank) && Valid(w, g) && AllInTree(w, items)
    ensures
      var o := Rescan(w, rank, g, items);
      Valid(w, o.registry) && Rescan(w, rank, o.registry, items) == o
  {
    hide Continues, Respects, AllEnterable;
    AllDeadRemoved(w, rank, g);
    var live := RemoveDead(w, g, OrderedKeys.Sorted(g.records.Keys));
    CreateAllDeals(w, rank, live, items);
    CreateAllAgain(w, rank, live, items);
    AllDeadRemoved(w, rank, Rescan(w, rank, g, items).registry);
  }

  // ----- the order of registrations ------------------------------------------------------

  /** The place of the last call that added `id`, counted from one; zero if there is none. */
  ghost function LastAdded(calls: seq<Call>, id: string): (n: nat)
    ensures n <= |calls|
  {
    if calls == [] then
      0
    else
      var last := calls[|calls| - 1];
      if last.Added? && last.id == id then |calls| else LastAdded(calls[..|calls| - 1], id)
  }

  /** The signal's registration came after its domain's latest one. */
  ghost predicate AfterDomain(w: World, g: Registry, r: nat)
    requires r < |w| && w[r].domain.Some? && w[r].domain.value < |w|
  {
    LastAdded(g.calls, w[w[r].domain.value].id) < LastAdded(g.calls, w[r].id)
  }

  /** The domain of each of the signals is among them. */
  ghost predicate DomainClosed(w: World, rank: seq<nat>, refs: set<nat>)
    requires Ranked(w, rank)
  {
    forall d :: d in refs ==> d < |w| && (w[d].domain.Some? ==> w[d].domain.value in refs)
  }

  /** Of the signals `refs` exactly those not settled before were registered anew, each after its domain. */
  ghost predicate Renews(w: World, rank: seq<nat>, g: Registry, t: Registry, refs: set<nat>)
    requires Ranked(w, rank) && forall d :: d in refs ==> d < |w|
  {
    && (forall id :: id !in Ids(w, refs) ==> LastAdded(t.calls, id) == LastAdded(g.calls, id))
    && (forall d :: d in refs ==> RenewedIfNeeded(w, g, t, d))
    && (forall d :: d in refs && w[d].domain.Some? && !Settled(w, g, d) ==> AfterDomain(w, t, d))
  }

  ghost predicate RenewedIfNeeded(w: World, g: Registry, t: Registry, d: nat)
    requires d < |w|
  {
    if Settled(w, g, d) then LastAdded(t.calls, w[d].id) == LastAdded(g.calls, w[d].id)
    else |g.calls| < LastAdded(t.calls, w[d].id)
  }

  /** An id among those of live signals belongs to that signal only. */
  lemma OwnId(w: World, rank: seq<nat>, refs: set<nat>, d: nat)
    requires WellFormed(w, rank) && InTree(w, d) && AllLive(w, refs)
    ensures w[d].id in Ids(w, refs) <==> d in refs
  {
  }

  /** What the registration of other signals leaves as it was. */
  lemma OthersKept(w: World, rank: seq<nat>, g: Registry, t: Registry, refs: set<nat>, d: nat)
    requires WellFormed(w, rank) && InTree(w, d) && AllLive(w, refs)
    requires ChangesOnly(w, g, t, refs) && Renews(w, rank, g, t, refs) && d !in refs
    ensures Settled(w, t, d) == Settled(w, g, d) && LastAdded(t.calls, w[d].id) == LastAdded(g.calls, w[d].id)
  {
    OwnId(w, rank, refs, d);
  }

  /** A signal settled before `refs` are dealt with keeps its registration. */
  lemma SettledKept(w: World, rank: seq<nat>, t: Registry, u: Registry, refs: set<nat>, d: nat)
    requires WellFormed(w, rank) && InTree(w, d) && AllLive(w, refs)
    requires ChangesOnly(w, t, u, refs) && Renews(w, rank, t, u, refs) && Settled(w, t, d)
    ensures LastAdded(u.calls, w[d].id) == LastAdded(t.calls, w[d].id)
  {
    if d in refs {
      assert RenewedIfNeeded(w, t, u, d);
    } else {
      OthersKept(w, rank, t, u, refs, d);
    }
  }

  lemma RenewsThen(w: World, rank: seq<nat>, g: Registry, t: Registry, u: Registry, first: set<nat>, second: set<nat>)
    requires WellFormed(w, rank) && DomainClosed(w, rank, first) && AllLive(w, first) && AllLive(w, second)
    requires ChangesOnly(w, g, t, first) && Renews(w, rank, g, t, first) && AllSettled(w, t, first)
    requires ChangesOnly(w, t, u, second) && Renews(w, rank, t, u, second) && |g.calls| <= |t.calls|
    ensures AllLive(w, first + second) && Renews(w, rank, g, u, first + second)
  {
    IdsOfBoth(w, first, second);
    assert Ranked(w, rank);
    hide ChangesOnly, WellFormed, LastAdded;
    forall d | d in first + second
      ensures RenewedIfNeeded(w, g, u, d)
      ensures w[d].domain.Some? && !Settled(w, g, d) ==> AfterDomain(w, u, d)
    {
      assert InTree(w, d);
      if d in first {
        RenewedFirst(w, rank, g, t, u, first, second, d);
      } else {
        OthersKept(w, rank, g, t, first, d);
        assert RenewedIfNeeded(w, t, u, d);
      }
    }
  }

  lemma RenewedFirst(w: World, rank: seq<nat>, g: Registry, t: Registry, u: Registry, first: set<nat>, second: set<nat>, d: nat)
    requires WellFormed(w, rank) && DomainClosed(w, rank, first) && d in first && AllLive(w, first) && AllLive(w, second)
    requires Renews(w, rank, g, t, first) && AllSettled(w, t, first)
    requires ChangesOnly(w, t, u, second) && Renews(w, rank, t, u, second)
    ensures RenewedIfNeeded(w, g, u, d)
    ensures w[d].domain.Some? && !Settled(w, g, d) ==> AfterDomain(w, u, d)
  {
    hide ChangesOnly, WellFormed, LastAdded;
    assert InTree(w, d) && Settled(w, t, d) && RenewedIfNeeded(w, g, t, d);
    SettledKept(w, rank, t, u, second, d);
    if w[d].domain.Some? {
      var domain := w[d].domain.value;
      assert domain in first && InTree(w, domain) && Settled(w, t, domain);
      SettledKept(w, rank, t, u, second, domain);
    }
  }

  lemma {:induction false} ChainClosed(w: World, rank: seq<nat>, r: nat)
    requires Ranked(w, rank) && r < |w|
    ensures DomainClosed(w, rank, Chain(w, rank, r))
    decreases rank[r]
  {
    if w[r].domain.Some? {
      ChainClosed(w, rank, w[r].domain.value);
    }
  }

  lemma {:induction false} ClosureClosed(w: World, rank: seq<nat>, items: seq<nat>)
    requires Ranked(w, rank) && InWorld(w, items)
    ensures DomainClosed(w, rank, Closure(w, rank, items))
    decreases |items|
  {
    if items != [] {
      ClosureClosed(w, rank, items[1..]);
      ChainClosed(w, rank, items[0]);
    }
  }

  /** A new registration's own addition comes last. */
  lemma EnterRenews(w: World, rank: seq<nat>, g: Registry, r: nat)
    requires WellFormed(w, rank) && NoDead(w, g) && InTree(w, r)
    ensures !Enter(w, g, r).thrown ==> Renews(w, rank, g, Enter(w, g, r).registry, {r})
  {
    hide Present;
    var id := w[r].id;
    assert Ids(w, {r}) == {id};
    if id in g.records && g.records[id].domain == w[r].domain {
      assert Settled(w, g, r);
    } else if w[r].described {
      AnewAdded(w, g, r);
      if w[r].domain.Some? {
        assert InTree(w, w[r].domain.value) && w[w[r].domain.value].id != id;
      }
    }
  }

  lemma AnewAdded(w: World, g: Registry, r: nat)
    requires r < |w| && w[r].described && !(w[r].id in g.records && g.records[w[r].id].domain == w[r].domain)
    ensures
      var t := Enter(w, g, r).registry;
      && |g.calls| < |t.calls|
      && forall id :: LastAdded(t.calls, id) == if id == w[r].id then |t.calls| else LastAdded(g.calls, id)
  {
    var base := if w[r].id in g.records then Remove(g, w[r].id) else g;
    var t := Enter(w, g, r).registry;
    assert base != g ==> base.calls[..|g.calls|] == g.calls;
    assert t.calls[..|base.calls|] == base.calls;
    forall id
      ensures LastAdded(t.calls, id) == if id == w[r].id then |t.calls| else LastAdded(g.calls, id)
    {
      assert LastAdded(base.calls, id) == LastAdded(g.calls, id);
    }
  }

  lemma {:induction false} CreateListenerRenews(w: World, rank: seq<nat>, g: Registry, r: nat)
    requires WellFormed(w, rank) && NoDead(w, g) && InTree(w, r)
    ensures
      var o := CreateListener(w, rank, g, r);
      !o.thrown ==> Renews(w, rank, g, o.registry, Chain(w, rank, r))
    decreases rank[r]
  {
    hide ProperCalls, AllSettled, AllEnterable, NoDead, Enter, Renews, ChangesOnly, Respects;
    ChainLive(w, rank, r);
    if w[r].domain.Some? {
      var d := w[r].domain.value;
      ChainClosed(w, rank, d);
      CreateListenerDeals(w, rank, g, d);
      CreateListenerRenews(w, rank, g, d);
      var first := CreateListener(w, rank, g, d);
      if !first.thrown {
        var mid := first.registry;
        EnterDeals(w, rank, mid, r);
        EnterRenews(w, rank, mid, r);
        if !Enter(w, mid, r).thrown {
          RenewsThen(w, rank, g, mid, Enter(w, mid, r).registry, Chain(w, rank, d), {r});
        }
      }
      assert Chain(w, rank, r) == Chain(w, rank, d) + {r};
    } else {
      EnterRenews(w, rank, g, r);
      assert Chain(w, rank, r) == {r};
    }
  }

  lemma {:induction false} CreateAllRenews(w: World, rank: seq<nat>, g: Registry, items: seq<nat>)
    requires WellFormed(w, rank) && NoDead(w, g) && AllInTree(w, items)
    ensures
      var o := CreateAll(w, rank, g, items);
      !o.thrown ==> Renews(w, rank, g, o.registry, Closure(w, rank, items))
    decreases |items|
  {
    hide ProperCalls, AllSettled, AllEnterable, NoDead, ChangesOnly, Respects;
    if items == [] {
    } else if w[items[0]].described {
      var first := CreateListener(w, rank, g, items[0]);
      CreateListenerDeals(w, rank, g, items[0]);
      CreateListenerRenews(w, rank, g, items[0]);
      if !first.thrown {
        var next := first.registry;
        CreateAllDeals(w, rank, next, items[1..]);
        CreateAllRenews(w, rank, next, items[1..]);
        ChainClosed(w, rank, items[0]);
        var o := CreateAll(w, rank, next, items[1..]);
        if !o.thrown {
          hide Renews;
          RenewsThen(w, rank, g, next, o.registry, Chain(w, rank, items[0]), Closure(w, rank, items[1..]));
        }
      }
    } else {
      CreateAllRenews(w, rank, g, items[1..]);
      assert Closure(w, rank, items) == Closure(w, rank, items[1..]);
    }
  }

  lemma {:induction false} RemoveDeadAddsNothing(w: World, g: Registry, keys: seq<string>, id: string)
    ensures LastAdded(RemoveDead(w, g, keys).calls, id) == LastAdded(g.calls, id)
    ensures |g.calls| <= |RemoveDead(w, g, keys).calls|
    decreases |keys|
  {
    if keys != [] {
      var dead := keys[0] in g.records && g.records[keys[0]].signal < |w| && w[g.records[keys[0]].signal].removed;
      if dead {
        assert Remove(g, keys[0]).calls[..|g.calls|] == g.calls;
      }
      RemoveDeadAddsNothing(w, if dead then Remove(g, keys[0]) else g, keys[1..], id);
    }
  }

  /**
   Which registrations are made against a current one: after a rescan that did not throw, a signal was registered after
   its domain exactly if the rescan registered it anew, or if that held before and the rescan did not
   register the domain anew. A signal whose own domain link has not changed keeps its registration
   even when its domain is registered anew.
   */
  lemma RegisteredAfterDomain(w: World, rank: seq<nat>, g: Registry, items: seq<nat>, r: nat)
    requires WellFormed(w, rank) && Valid(w, g) && AllInTree(w, items)
    requires r in Closure(w, rank, items) && w[r].domain.Some?
    ensures
      var o := Rescan(w, rank, g, items);
      !o.thrown ==>
        (AfterDomain(w, o.registry, r) <==>
           !Settled(w, g, r) || (Settled(w, g, w[r].domain.value) && AfterDomain(w, g, r)))
  {
    hide Continues, ChangesOnly, LastAdded;
    var keys := OrderedKeys.Sorted(g.records.Keys);
    var live := RemoveDead(w, g, keys);
    var d := w[r].domain.value;
    AllDeadRemoved(w, rank, g);
    CreateAllRenews(w, rank, live, items);
    ClosureClosed(w, rank, items);
    ClosureLive(w, rank, items);
    assert InTree(w, r) && InTree(w, d);
    forall x | x in {r, d}
      ensures Settled(w, live, x) == Settled(w, g, x)
      ensures LastAdded(live.calls, w[x].id) == LastAdded(g.calls, w[x].id)
    {
      RemoveDeadAddsNothing(w, g, keys, w[x].id);
    }
    var o := CreateAll(w, rank, live, items);
    if !o.thrown {
      assert RenewedIfNeeded(w, live, o.registry, r) && RenewedIfNeeded(w, live, o.registry, d);
    }
  }

  // ----- a history of rescans ------------------------------------------------------------

  /** What a rescan finds: all signals there have been, ranked, and those of the tree in search order. */
  datatype Snapshot = Snapshot(world: World, rank: seq<nat>, items: seq<nat>)

  /** Components come and go and change, but a signal keeps its global id. */
  ghost predicate Evolves(w: World, later: World)
  {
    |w| <= |later| && forall r :: 0 <= r < |w| ==> later[r].id == w[r].id
  }

  ghost predicate History(snapshots: seq<Snapshot>)
  {
    && (forall i :: 0 <= i < |snapshots| ==>
          WellFormed(snapshots[i].world, snapshots[i].rank) && AllInTree(snapshots[i].world, snapshots[i].items))
    && (forall i :: 0 < i < |snapshots| ==> Evolves(snapshots[i - 1].world, snapshots[i].world))
  }

  /** The registry after all the rescans, and whether the last one threw. */
  ghost function RescanAll(g: Registry, snapshots: seq<Snapshot>): Outcome
    requires History(snapshots)
  {
    if snapshots == [] then
      Outcome(g, false)
    else
      var last := snapshots[|snapshots| - 1];
      Rescan(last.world, last.rank, RescanAll(g, snapshots[..|snapshots| - 1]).registry, last.items)
  }

  lemma StaysValid(w: World, later: World, g: Registry)
    requires Valid(w, g) && Evolves(w, later)
    ensures Valid(later, g)
  {
  }

  /**
   Through any history of rescans, whether some of them threw or not, the server knows exactly the
   recorded signals and no removed signal is recorded after a rescan. The last rescan threw exactly if
   a described signal of the tree, or one of its domain signals, is now not registered with its
   current domain.
   */
  lemma {:induction false} HistoryReconciled(snapshots: seq<Snapshot>)
    requires History(snapshots) && snapshots != []
    ensures
      var last := snapshots[|snapshots| - 1];
      var o := RescanAll(Registry(map[], {}, []), snapshots);
      && o.registry.server == o.registry.records.Keys
      && NoDead(last.world, o.registry)
      && (o.thrown <==> !AllSettled(last.world, o.registry, Closure(last.world, last.rank, last.items)))
  {
    var empty := Registry(map[], {}, []);
    var last := snapshots[|snapshots| - 1];
    var before := snapshots[..|snapshots| - 1];
    var g := RescanAll(empty, before).registry;
    if before == [] {
      assert Valid(last.world, empty);
    } else {
      HistoryReconciled(before);
      StaysValid(before[|before| - 1].world, last.world, g);
    }
    hide Continues, Settled;
    RescanMeetsSpecification(last.world, last.rank, g, last.items);
    var o := Rescan(last.world, last.rank, g, last.items);
    ClosureLive(last.world, last.rank, last.items);
    StillEnterable(last.world, g, o.registry, Closure(last.world, last.rank, last.items));
  }

  /** A value signal, its domain and a third signal; then the third one becomes the domain's own domain. */
  const BEFORE: World := [Signal("value", Some(1), true, false), Signal("time", None, true, false), Signal("clock", None, true, false)]
  const AFTER: World := BEFORE[1 := Signal("time", Some(2), true, false)]
  const DEPTHS: seq<nat> := [2, 1, 0]
  const ITEMS: seq<nat> := [0, 1, 2]

  /** Three described signals with different ids whose links lead to signals of lower depth. */
  lemma ThreeSignals(w: World)
    requires Ranked(w, DEPTHS) && |w| == 3
    requires forall i :: 0 <= i < 3 ==> !w[i].removed && w[i].described
    requires w[0].id != w[1].id && w[1].id != w[2].id && w[0].id != w[2].id
    ensures WellFormed(w, DEPTHS) && AllInTree(w, ITEMS)
  {
    forall i, j | 0 <= i < 3 && 0 <= j < 3 && w[i].id == w[j].id
      ensures i == j
    {
    }
  }

  lemma BothSnapshots()
    ensures WellFormed(BEFORE, DEPTHS) && WellFormed(AFTER, DEPTHS)
    ensures AllInTree(BEFORE, ITEMS) && AllInTree(AFTER, ITEMS) && Evolves(BEFORE, AFTER)
  {
    hide WellFormed, AllInTree;
    assert "value"[0] != "time"[0] && "time"[0] != "clock"[0] && "clock"[0] != "value"[0];
    ThreeSignals(BEFORE);
    ThreeSignals(AFTER);
  }

  /** A run in which a signal keeps a registration made before its domain's current one. */
  lemma DomainRegisteredAnew()
    ensures
      var history := [Snapshot(BEFORE, DEPTHS, ITEMS), Snapshot(AFTER, DEPTHS, ITEMS)];
      && History(history)
      && !AfterDomain(AFTER, RescanAll(Registry(map[], {}, []), history).registry, 0)
  {
    hide Rescan, WellFormed, AllInTree, Evolves, NoDead, Closure, Valid, AfterDomain;
    var first := Snapshot(BEFORE, DEPTHS, ITEMS);
    var history := [first, Snapshot(AFTER, DEPTHS, ITEMS)];
    BothSnapshots();
    assert history[..1] == [first] && [first][..0] == [];
    assert History([first]) && History([]);
    assert RescanAll(Registry(map[], {}, []), []).registry == Registry(map[], {}, []);
    assert RescanAll(Registry(map[], {}, []), [first]) == Rescan(BEFORE, DEPTHS, RescanAll(Registry(map[], {}, []), []).registry, ITEMS);
    SecondRescan(RescanAll(Registry(map[], {}, []), [first]).registry);
  }

  /** A rescan that finds only described signals does not throw. */
  lemma DescribedRescan(w: World, rank: seq<nat>, g: Registry, items: seq<nat>)
    requires WellFormed(w, rank) && Valid(w, g) && AllInTree(w, items) && forall i :: 0 <= i < |w| ==> w[i].described
    ensures
      var o := Rescan(w, rank, g, items);
      !o.thrown && Valid(w, o.registry) && AllSettled(w, o.registry, Closure(w, rank, items))
  {
    hide Rescan, Continues, Settled;
    RescanMeetsSpecification(w, rank, g, items);
  }

  lemma SecondRescan(g: Registry)
    requires Ranked(BEFORE, DEPTHS) && InWorld(BEFORE, ITEMS)
    requires g == Rescan(BEFORE, DEPTHS, Registry(map[], {}, []), ITEMS).registry
    ensures Ranked(AFTER, DEPTHS) && InWorld(AFTER, ITEMS)
    ensures !AfterDomain(AFTER, Rescan(AFTER, DEPTHS, g, ITEMS).registry, 0)
  {
    BothSnapshots();
    hide Rescan, WellFormed, Closure, LastAdded, AllInTree, Ranked;
    DescribedRescan(BEFORE, DEPTHS, Registry(map[], {}, []), ITEMS);
    StaysValid(BEFORE, AFTER, g);
    InClosure();
    assert Settled(BEFORE, g, 0) && Settled(BEFORE, g, 1);
    DescribedRescan(AFTER, DEPTHS, g, ITEMS);
    RegisteredAfterDomain(AFTER, DEPTHS, g, ITEMS, 0);
  }

  lemma InClosure()
    ensures Ranked(BEFORE, DEPTHS) && Ranked(AFTER, DEPTHS) && InWorld(BEFORE, ITEMS) && InWorld(AFTER, ITEMS)
    ensures {0, 1} <= Closure(BEFORE, DEPTHS, ITEMS) && 0 in Closure(AFTER, DEPTHS, ITEMS)
  {
    BothSnapshots();
    ItemsInClosure(BEFORE, DEPTHS, ITEMS, 0);
    ItemsInClosure(BEFORE, DEPTHS, ITEMS, 1);
    ItemsInClosure(AFTER, DEPTHS, ITEMS, 0);
  }

  lemma {:induction false} ItemsInClosure(w: World, rank: seq<nat>, items: seq<nat>, i: nat)
    requires Ranked(w, rank) && InWorld(w, items) && i < |items| && w[items[i]].described
    ensures items[i] in Closure(w, rank, items)
    decreases |items|
  {
    if i > 0 {
      ItemsInClosure(w, rank, items[1..], i - 1);
    }
  }

  // ----- the server object ---------------------------------------------------------------

  class WsStreamingServer {
    var localSignals: map<string, Record>
    var server: set<string>
    ghost var calls: seq<Call>

    constructor ()
      ensures Contents() == Registry(map[], {}, [])
    {
      localSignals, server, calls := map[], {}, [];
    }

    ghost function Contents(): Registry
      reads this
    {
      Registry(localSignals, server, calls)
    }

    method RemoveLocalSignal(id: string)
      modifies this
      ensures Contents() == Remove(old(Contents()), id)
    {
      server := server - {id};
      localSignals := localSignals - {id};
      calls := calls + [Removed(id)];
    }

    method AddLocalSignal(id: string, record: Record)
      modifies this
      ensures Contents() == Add(old(Contents()), id, record)
    {
      localSignals := localSignals[id := record];
      server := server + {id};
      calls := calls + [Added(id, record.signal)];
    }

    method CreateListenerFor(w: World, ghost rank: seq<nat>, r: nat) returns (thrown: bool)
      requires Ranked(w, rank) && r < |w|
      modifies this
      ensures Outcome(Contents(), thrown) == CreateListener(w, rank, old(Contents()), r)
      decreases rank[r]
    {
      var signal := w[r];
      if signal.domain.Some? {
        thrown := CreateListenerFor(w, rank, signal.domain.value);
        if thrown {
          return;
        }
      }
      if signal.id in localSignals {
        if signal.domain == localSignals[signal.id].domain {
          return false;
        }
        RemoveLocalSignal(signal.id);
      }
      if !signal.described {
        return true;
      }
      AddLocalSignal(signal.id, Record(r, signal.domain));
      return false;
    }

    method RemoveDeadSignals(w: World)
      requires forall id :: id in localSignals ==> localSignals[id].signal < |w|
      modifies this
      ensures Contents() == RemoveDead(w, old(Contents()), OrderedKeys.Sorted(old(localSignals).Keys))
    {
      var keys := OrderedKeys.Sorted(localSignals.Keys);
      OrderedKeys.SortedDistinct(localSignals.Keys);
      ghost var g := Contents();
      for i := 0 to |keys|
        invariant forall id :: id in localSignals ==> localSignals[id].signal < |w|
        invariant forall j :: i <= j < |keys| ==> keys[j] in localSignals
        invariant RemoveDead(w, Contents(), keys[i..]) == RemoveDead(w, g, keys)
      {
        assert keys[i..][1..] == keys[i + 1..];
        if w[localSignals[keys[i]].signal].removed {
          RemoveLocalSignal(keys[i]);
        }
      }
    }

    method RescanTree(w: World, ghost rank: seq<nat>, items: seq<nat>) returns (thrown: bool)
      requires Ranked(w, rank) && InWorld(w, items)
      requires forall id :: id in localSignals ==> localSignals[id].signal < |w|
      modifies this
      ensures Outcome(Contents(), thrown) == Rescan(w, rank, old(Contents()), items)
    {
      RemoveDeadSignals(w);
      ghost var g := Contents();
      for i := 0 to |items|
        invariant CreateAll(w, rank, Contents(), items[i..]) == CreateAll(w, rank, g, items)
      {
        assert items[i..][1..] == items[i + 1..];
        if w[items[i]].described {
          thrown := CreateListenerFor(w, rank, items[i]);
          if thrown {
            return;
          }
        }
      }
      return false;
    }
  }
}
