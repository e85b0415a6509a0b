/**
 The sweep/resubscribe chain stops: if nothing but the timer happens, it fires at most eight
 more times, however many signals are tracked, and leaves no fetch or deferral behind.
 */
module ClientTimer {
  import opened Wrappers
  import opened ClientState
  import opened ClientEvents
  import opened ClientInvariant
  import opened ClientSafety

  const MAX_FIRINGS := 8

  /** The number of sweeps that will still find work to do on the entry. */
  function Remaining(e: Entry): int
  {
    if e.published then
      if e.fetch.Held? then 2 - e.sweeps else 0
    else if e.descriptor.Some? then
      2 - e.sweeps + (if e.fetch.Fetching? then 2 else 0)
    else
      match e.fetch
      case Fetching => MAX_ATTEMPTS + 1 - e.attempts
      case AwaitingRetry => MAX_ATTEMPTS + 2 - e.attempts
      case _ => 0
  }

  lemma RemainingBounds(e: Entry)
    requires Local(e)
    ensures 0 <= Remaining(e) <= 4
    ensures e.Pending() ==> Remaining(e) >= 1
    ensures Retries(e) ==> Remaining(e) >= 2
    ensures DueForRetry(e) ==> 2 <= Remaining(e) <= 3
  {
  }

  /** Sweeping an entry uses up one of its sweeps, except that a retry keeps its place until it is sent. */
  ghost predicate Progress(before: Entry, after: Entry)
  {
    || (before == after && !before.Pending())
    || (before.Pending() && Remaining(after) < Remaining(before) && !Retries(after) && !DueForRetry(after))
    || (Retries(before) && DueForRetry(after) && Remaining(after) == Remaining(before))
  }

  ghost predicate UntilVisited(before: Entry, after: Entry)
  {
    before == after || Progress(before, after)
  }

  lemma SweptProgress(e: Entry)
    requires Local(e) && !DeferralEnds(e)
    ensures Progress(e, SweptForm(e))
  {
  }

  lemma PublishedProgress(e: Entry, swept: Entry)
    requires Local(e) && e.Deferred() && (swept == e || swept == e.(sweeps := e.sweeps + 1))
    ensures Progress(e, PublishedForm(swept))
    ensures Local(PublishedForm(swept))
  {
  }

  lemma SweepEntryProgress(s: State, r: nat)
    requires Refs(s) && AllLocal(s) && r < |s.arena|
    ensures Progress(s.arena[r], SweepEntry(s, r).arena[r])
    ensures forall i :: 0 <= i < |s.arena| ==> UntilVisited(s.arena[i], SweepEntry(s, r).arena[i])
  {
    var e := s.arena[r];
    assert Local(e);
    var swept := Put(s, r, SweptForm(e));
    PutKeepsRefs(s, r, SweptForm(e));
    if DeferralEnds(e) {
      var t := Publish(swept, r);
      PublishPublishes(swept, r);
      forall i | 0 <= i < |s.arena|
        ensures UntilVisited(s.arena[i], t.arena[i]) && (i == r ==> Progress(s.arena[i], t.arena[i]))
      {
        assert Local(s.arena[i]);
        if t.arena[i] != swept.arena[i] {
          PublishedProgress(s.arena[i], swept.arena[i]);
        }
      }
    } else {
      SweptProgress(e);
    }
  }

  /** An entry that made progress before it was visited has made progress after the visit as well. */
  lemma ProgressComposes(a: Entry, b: Entry, c: Entry)
    requires UntilVisited(a, b) && UntilVisited(b, c)
    ensures UntilVisited(a, c)
    ensures Progress(a, b) || Progress(b, c) ==> Progress(a, c)
  {
  }

  lemma {:induction false} SweepAllProgress(s: State, keys: seq<string>)
    requires Core(s, {}) && s.armed && forall k :: k in keys ==> k in s.signals
    ensures
      var t := SweepAll(s, keys).0;
      && (forall i :: 0 <= i < |s.arena| ==> UntilVisited(s.arena[i], t.arena[i]))
      && (forall k :: k in keys ==> Progress(s.arena[s.signals[k]], t.arena[s.signals[k]]))
    decreases |keys|
  {
    hide UntilVisited, Progress, SweepEntry, Local, Waiting, Woken, Mirrored;
    if keys == [] {
      hide Core;
      forall i | 0 <= i < |s.arena|
        ensures UntilVisited(s.arena[i], s.arena[i])
      {
        StillUntilVisited(s.arena[i]);
      }
    } else {
      var r := s.signals[keys[0]];
      var mid := SweepEntry(s, r);
      SweepEntryKeepsCore(s, r);
      SweepEntryProgress(s, r);
      SweepAllProgress(mid, keys[1..]);
      var t := SweepAll(mid, keys[1..]).0;
      forall i | 0 <= i < |s.arena|
        ensures UntilVisited(s.arena[i], t.arena[i])
        ensures Progress(s.arena[i], mid.arena[i]) || Progress(mid.arena[i], t.arena[i]) ==> Progress(s.arena[i], t.arena[i])
      {
        ProgressComposes(s.arena[i], mid.arena[i], t.arena[i]);
      }
      forall k | k in keys
        ensures k == keys[0] || k in keys[1..]
      {
      }
    }
  }

  lemma StillUntilVisited(e: Entry)
    ensures UntilVisited(e, e)
  {
  }

  /** A sweep schedules a retry only for an entry that was due for one when the sweep began. */
  lemma {:induction false} SweepAllRetries(s: State, keys: seq<string>)
    requires Core(s, {}) && s.armed && forall k :: k in keys ==> k in s.signals
    ensures SweepAll(s, keys).1 ==> exists k :: k in keys && Retries(s.arena[s.signals[k]])
    decreases |keys|
  {
    hide Progress, SweepEntry, Local, Waiting, Woken, Mirrored;
    if keys != [] && !Retries(s.arena[s.signals[keys[0]]]) {
      var r := s.signals[keys[0]];
      var mid := SweepEntry(s, r);
      SweepEntryKeepsCore(s, r);
      SweepEntryProgress(s, r);
      SweepAllRetries(mid, keys[1..]);
      if SweepAll(mid, keys[1..]).1 {
        var k :| k in keys[1..] && Retries(mid.arena[mid.signals[k]]);
        RetriedBefore(s.arena[s.signals[k]], mid.arena[s.signals[k]]);
        assert k in keys;
      }
    }
  }

  lemma RetriedBefore(before: Entry, after: Entry)
    requires UntilVisited(before, after) && Retries(after)
    ensures Retries(before)
  {
  }

  // ----- how far the chain can still go --------------------------------------------------

  ghost predicate Retrying(s: State)
    requires Refs(s)
  {
    exists k :: k in s.signals && Retries(s.arena[s.signals[k]])
  }

  /** At most `m` more sweeps have work to do on any entry that takes part in the chain. */
  ghost predicate SweepsLeft(s: State, m: int)
    requires Refs(s)
  {
    forall k :: k in s.signals && (Retrying(s) || s.arena[s.signals[k]].Pending()) ==> Remaining(s.arena[s.signals[k]]) <= m
  }

  /** The same while a resubscribe is due: the entries to be retried are one sweep behind. */
  ghost predicate RetriesLeft(s: State, m: int)
    requires Refs(s)
  {
    forall k :: k in s.signals ==>
      Remaining(s.arena[s.signals[k]]) <= (if DueForRetry(s.arena[s.signals[k]]) then m else m - 1)
  }

  /** The timer is idle and no signal waits for it. */
  ghost predicate Quiet(s: State)
    requires Refs(s)
  {
    s.timer.Idle? && !s.armed && !AnyPending(s)
  }

  /** A sweep makes progress on every tracked entry and leaves the timer as the entries require. */
  lemma SweepFires(s: State)
    requires Core(s, {}) && s.armed && s.timer.Idle?
    ensures
      var t := Sweep(s);
      && t.signals == s.signals && |t.arena| == |s.arena|
      && (forall k :: k in s.signals ==> Progress(s.arena[s.signals[k]], t.arena[s.signals[k]]))
      && (|| (Retrying(s) && t.timer.ResubscribeDue?)
          || (t.timer == (if AnyPending(t) then SweepDue else Idle) && t.armed == AnyPending(t)))
  {
    hide Refs, LinksMirrored, Waiting;
    SweepAllProgress(s, Order(s));
    SweepAllRetries(s, Order(s));
    SweepAllKeepsCore(s, Order(s));
    var (swept, retrying) := SweepAll(s, Order(s));
    forall k | k in s.signals
      ensures k in Order(s)
    {
    }
  }

  lemma SweepAdvances(s: State, m: nat)
    requires Inv(s) && s.timer.SweepDue? && SweepsLeft(s, m)
    ensures
      var t := Fire(s);
      || Quiet(t)
      || (t.timer.SweepDue? && m >= 2 && SweepsLeft(t, m - 1))
      || (t.timer.ResubscribeDue? && m >= 2 && RetriesLeft(t, m))
  {
    hide Sweep, Local, MarkPublished;
    var fired := s.(timer := Idle);
    SamePublished(s, fired);
    FireKeepsInv(s);
    SweepFires(fired);
    SweptAdvances(fired, Fire(s), m);
  }

  lemma SweptAdvances(s: State, t: State, m: nat)
    requires Refs(s) && Refs(t) && AllLocal(s) && AllLocal(t) && SweepsLeft(s, m)
    requires t.signals == s.signals && |t.arena| == |s.arena|
    requires forall k :: k in s.signals ==> Progress(s.arena[s.signals[k]], t.arena[s.signals[k]])
    requires
      || (Retrying(s) && t.timer.ResubscribeDue?)
      || (t.timer == (if AnyPending(t) then SweepDue else Idle) && t.armed == AnyPending(t))
    ensures Quiet(t) || (t.timer.SweepDue? && m >= 2 && SweepsLeft(t, m - 1)) || (t.timer.ResubscribeDue? && m >= 2 && RetriesLeft(t, m))
  {
    forall k | k in s.signals
      ensures !Retries(t.arena[s.signals[k]])
      ensures t.arena[s.signals[k]].Pending() ==> 1 <= Remaining(t.arena[s.signals[k]]) < Remaining(s.arena[s.signals[k]]) <= m
    {
      RemainingBounds(s.arena[s.signals[k]]);
      RemainingBounds(t.arena[s.signals[k]]);
    }
    assert !Retrying(t);
    if t.timer.ResubscribeDue? {
      RetriesDue(s, t, m);
    }
  }

  lemma RetriesDue(s: State, t: State, m: nat)
    requires Refs(s) && Refs(t) && AllLocal(s) && AllLocal(t) && SweepsLeft(s, m) && Retrying(s)
    requires t.signals == s.signals && |t.arena| == |s.arena|
    requires forall k :: k in s.signals ==> Progress(s.arena[s.signals[k]], t.arena[s.signals[k]])
    ensures m >= 2 && RetriesLeft(t, m)
  {
    var retried :| retried in s.signals && Retries(s.arena[s.signals[retried]]);
    RemainingBounds(s.arena[s.signals[retried]]);
    forall k | k in t.signals
      ensures Remaining(t.arena[t.signals[k]]) <= (if DueForRetry(t.arena[t.signals[k]]) then m else m - 1)
    {
      RemainingBounds(s.arena[s.signals[k]]);
      RemainingBounds(t.arena[t.signals[k]]);
    }
  }

  // ----- resubscribing -------------------------------------------------------------------

  lemma {:induction false} ResubscribeAllProgress(s: State, keys: seq<string>)
    requires Refs(s) && forall k :: k in keys ==> k in s.signals
    ensures
      var t := ResubscribeAll(s, keys).0;
      && (forall i :: 0 <= i < |s.arena| ==>
            t.arena[i] == s.arena[i] || (DueForRetry(s.arena[i]) && t.arena[i] == Retried(s.arena[i])))
      && (forall k :: k in keys ==> !DueForRetry(t.arena[s.signals[k]]))
    decreases |keys|
  {
    if keys != [] {
      var r := s.signals[keys[0]];
      var mid := if DueForRetry(s.arena[r]) then Put(s, r, Retried(s.arena[r])) else s;
      if DueForRetry(s.arena[r]) {
        PutKeepsRefs(s, r, Retried(s.arena[r]));
      }
      ResubscribeAllProgress(mid, keys[1..]);
      forall k | k in keys
        ensures k == keys[0] || k in keys[1..]
      {
      }
    }
  }

  /** Resubscribing sends every due retry and leaves all other entries alone. */
  lemma ResubscribeRetries(s: State)
    requires Refs(s)
    ensures
      var t := Resubscribe(s);
      && t.signals == s.signals && |t.arena| == |s.arena|
      && (forall k :: k in s.signals ==>
            var before := s.arena[s.signals[k]];
            t.arena[s.signals[k]] == (if DueForRetry(before) then Retried(before) else before))
  {
    var start := s.(armed := false);
    ResubscribeAllProgress(start, Order(start));
    assert Resubscribe(s).arena == ResubscribeAll(start, Order(start)).0.arena;
    forall k | k in s.signals
      ensures k in Order(start)
    {
    }
  }

  lemma ResubscribeRearms(s: State)
    requires Refs(s) && s.timer.Idle?
    ensures Quiet(Resubscribe(s)) || Resubscribe(s).timer.SweepDue?
  {
    var start := s.(armed := false);
    ResubscribeKeepsTimer(start, Order(start));
    var (resent, pending) := ResubscribeAll(start, Order(start));
    assert Resubscribe(s) == if pending || AnyPending(resent) then Arm(resent) else resent;
  }

  lemma {:induction false} ResubscribeKeepsTimer(s: State, keys: seq<string>)
    requires Refs(s) && forall k :: k in keys ==> k in s.signals
    ensures
      var t := ResubscribeAll(s, keys).0;
      t.timer == s.timer && t.armed == s.armed
    decreases |keys|
  {
    if keys != [] {
      var r := s.signals[keys[0]];
      if DueForRetry(s.arena[r]) {
        PutKeepsRefs(s, r, Retried(s.arena[r]));
        ResubscribeKeepsTimer(Put(s, r, Retried(s.arena[r])), keys[1..]);
      } else {
        ResubscribeKeepsTimer(s, keys[1..]);
      }
    }
  }

  lemma ResubscribeAdvances(s: State, m: nat)
    requires Inv(s) && s.timer.ResubscribeDue? && RetriesLeft(s, m) && m >= 2
    ensures Quiet(Fire(s)) || (Fire(s).timer.SweepDue? && SweepsLeft(Fire(s), m - 1))
  {
    hide Resubscribe, Order, SetTimer, SweepEntry, PlainIds;
    var fired := s.(timer := Idle);
    SamePublished(s, fired);
    ResubscribeRetries(fired);
    ResubscribeRearms(fired);
    var t := Resubscribe(fired);
    forall k | k in t.signals
      ensures Remaining(t.arena[t.signals[k]]) <= m - 1
    {
    }
  }

  // ----- the whole chain -----------------------------------------------------------------

  /** The timer fires `n` times and nothing else happens. */
  function Firings(n: nat): seq<Event>
  {
    seq(n, i => EvTimer)
  }

  lemma {:induction false} QuietStays(s: State, n: nat)
    requires Refs(s) && Quiet(s)
    ensures Run(s, Firings(n)) == s
  {
    if n > 0 {
      assert Firings(n)[1..] == Firings(n - 1);
      QuietStays(s, n - 1);
    }
  }

  lemma RunUnfolds(s: State, events: seq<Event>)
    requires Refs(s) && events != []
    ensures Run(s, events) == Run(Step(s, events[0]), events[1..])
  {
    hide Step, Refs;
  }

  lemma TimerStep(s: State, event: Event)
    requires Refs(s) && event.EvTimer?
    ensures Step(s, event) == Fire(s)
  {
    hide Fire, Refs;
  }

  lemma FiresOnce(s: State, n: nat)
    requires Refs(s) && n > 0
    ensures Run(s, Firings(n)) == Run(Fire(s), Firings(n - 1))
  {
    hide Run, Step, Fire, Refs;
    RunUnfolds(s, Firings(n));
    TimerStep(s, Firings(n)[0]);
    assert Firings(n)[1..] == Firings(n - 1);
  }

  lemma {:induction false} SweepChainStops(s: State, m: nat, n: nat)
    requires Inv(s) && s.timer.SweepDue? && SweepsLeft(s, m) && n >= 1 && n >= 2 * m - 1
    ensures Quiet(Run(s, Firings(n)))
    decreases m, 1
  {
    SweepAdvances(s, m);
    FireKeepsInv(s);
    FiresOnce(s, n);
    ChainContinues(Fire(s), m, n - 1);
  }

  lemma {:induction false} ChainContinues(t: State, m: nat, n: nat)
    requires Inv(t) && n >= 2 * m - 2
    requires Quiet(t) || (t.timer.SweepDue? && m >= 2 && SweepsLeft(t, m - 1)) || (t.timer.ResubscribeDue? && m >= 2 && RetriesLeft(t, m))
    ensures Quiet(Run(t, Firings(n)))
    decreases m, 0
  {
    hide Refs, AllLocal, Waiting, Woken, Mirrored, TimerSound, Quiet, SweepsLeft, RetriesLeft, Fire, Run, Firings;
    if Quiet(t) {
      QuietStays(t, n);
    } else if t.timer.SweepDue? {
      SweepChainStops(t, m - 1, n);
    } else {
      ResubscribeAdvances(t, m);
      FireKeepsInv(t);
      FiresOnce(t, n);
      if Quiet(Fire(t)) {
        QuietStays(Fire(t), n - 1);
      } else {
        SweepChainStops(Fire(t), m - 1, n - 1);
      }
    }
  }

  /**
   From every reachable state the chain is over after eight firings: the timer is idle, no fetch
   subscription is held or unanswered, and every signal with a descriptor has been announced.
   */
  lemma TimerChainStops(s: State, n: nat, t: State)
    requires Reachable(s) && n >= MAX_FIRINGS && Reaches(s, Firings(n), t)
    ensures Refs(t) && t.timer == Idle && !t.armed
    ensures forall k :: k in t.signals ==>
      var e := t.arena[t.signals[k]];
      !e.fetch.Held? && (!e.published ==> !e.fetch.Fetching?) && (e.descriptor.Some? ==> e.published)
  {
    hide Reaches, Reachable, Run, Firings;
    ReachableInv(s);
    ReachesExactlyRun(s, Firings(n), t);
    forall k | k in s.signals
      ensures 0 <= Remaining(s.arena[s.signals[k]]) <= 4
    {
      RemainingBounds(s.arena[s.signals[k]]);
    }
    match s.timer
    case Idle => QuietStays(s, n);
    case SweepDue => SweepChainStops(s, 4, n);
    case ResubscribeDue => ChainContinues(s, 5, n);
  }
}
