/** Which domain signal metadata names, said without the search that finds it. */
module ClientLookup {
  import opened Wrappers
  import opened ClientState
  import opened ClientEvents

  // ----- the related signals -------------------------------------------------------------

  /** An element of type "time" that names a signal. */
  predicate NamesTime(element: Related)
  {
    element.RelatedSignal? && element.kind == Str("time") && element.signalId.Str?
  }

  /** An element whose type is there but is not a string. */
  predicate BadType(element: Related)
  {
    element.RelatedSignal? && element.kind.OtherJson?
  }

  /** No element before `i` ends the search. */
  predicate Undecided(related: seq<Related>, i: nat)
    requires i <= |related|
  {
    forall j :: 0 <= j < i ==> !NamesTime(related[j]) && !BadType(related[j])
  }

  predicate FirstNames(related: seq<Related>, i: nat, x: string)
    requires i < |related|
  {
    related[i] == RelatedSignal(Str("time"), Str(x)) && Undecided(related, i)
  }

  predicate FirstBad(related: seq<Related>, i: nat)
    requires i < |related|
  {
    BadType(related[i]) && Undecided(related, i)
  }

  /** The first element of type "time" that names a signal names `x`, and no type before it is an error. */
  predicate TimeNamed(related: seq<Related>, x: string)
  {
    exists i :: 0 <= i < |related| && FirstNames(related, i, x)
  }

  /** A type that is not a string comes before any element of type "time" that names a signal. */
  predicate TimeMalformed(related: seq<Related>)
  {
    exists i :: 0 <= i < |related| && FirstBad(related, i)
  }

  lemma UndecidedRest(related: seq<Related>, i: nat)
    requires 0 < i <= |related|
    ensures Undecided(related, i) <==> !NamesTime(related[0]) && !BadType(related[0]) && Undecided(related[1..], i - 1)
  {
    if Undecided(related, i) {
      forall j | 0 <= j < i - 1
        ensures !NamesTime(related[1..][j]) && !BadType(related[1..][j])
      {
        assert related[1..][j] == related[j + 1];
      }
    }
    if !NamesTime(related[0]) && !BadType(related[0]) && Undecided(related[1..], i - 1) {
      forall j | 0 <= j < i
        ensures !NamesTime(related[j]) && !BadType(related[j])
      {
        assert j > 0 ==> related[j] == related[1..][j - 1];
      }
    }
  }

  lemma NamedInRest(related: seq<Related>, x: string)
    requires related != [] && !NamesTime(related[0]) && !BadType(related[0])
    ensures TimeNamed(related, x) <==> TimeNamed(related[1..], x)
    ensures TimeMalformed(related) <==> TimeMalformed(related[1..])
    ensures Undecided(related, |related|) <==> Undecided(related[1..], |related[1..]|)
  {
    forall i | 0 < i < |related|
      ensures FirstNames(related, i, x) == FirstNames(related[1..], i - 1, x)
      ensures FirstBad(related, i) == FirstBad(related[1..], i - 1)
    {
      UndecidedRest(related, i);
    }
    forall i | 0 <= i < |related[1..]|
      ensures FirstNames(related, i + 1, x) == FirstNames(related[1..], i, x)
      ensures FirstBad(related, i + 1) == FirstBad(related[1..], i)
    {
      UndecidedRest(related, i + 1);
    }
    UndecidedRest(related, |related|);
  }

  lemma DecidedAtFirst(related: seq<Related>)
    requires related != [] && (NamesTime(related[0]) || BadType(related[0]))
    ensures forall x :: TimeNamed(related, x) <==> FirstNames(related, 0, x)
    ensures TimeMalformed(related) <==> BadType(related[0])
    ensures !Undecided(related, |related|)
  {
    forall i | 0 < i <= |related|
      ensures !Undecided(related, i)
    {
      UndecidedRest(related, i);
    }
    assert FirstBad(related, 0) == BadType(related[0]);
  }

  /**
   The time reference is `x` exactly if the first element of type "time" that names a signal names
   `x`; it is an error exactly if a type that is not a string comes first; there is none otherwise.
   */
  lemma {:induction false} TimeFoundExactly(related: seq<Related>, x: string)
    ensures FindTime(related) == TimeSignal(x) <==> TimeNamed(related, x)
    ensures FindTime(related) == MalformedTime <==> TimeMalformed(related)
    ensures FindTime(related) == NoTime <==> Undecided(related, |related|)
    decreases |related|
  {
    if related != [] {
      if NamesTime(related[0]) || BadType(related[0]) {
        DecidedAtFirst(related);
      } else {
        TimeFoundExactly(related[1..], x);
        NamedInRest(related, x);
      }
    }
  }

  // ----- the domain signal ---------------------------------------------------------------

  /** The signal's table is that of another signal. */
  predicate ForeignTable(id: string, meta: Metadata)
  {
    meta.tableId != "" && meta.tableId != id
  }

  /** The time reference decides: the table of another signal is named, and it is not tracked. */
  predicate AsksTime(tracked: set<string>, id: string, meta: Metadata)
  {
    ForeignTable(id, meta) && meta.tableId !in tracked
  }

  /** The metadata names the tracked signal `x` as the domain. */
  predicate NamesTracked(tracked: set<string>, id: string, meta: Metadata, x: string)
  {
    && x in tracked && x != id && ForeignTable(id, meta)
    && (x == meta.tableId || (AsksTime(tracked, id, meta) && x != "" && TimeNamed(meta.related, x)))
  }

  /** The metadata names `x`, which only the connection knows, as the domain. */
  predicate NamesHidden(tracked: set<string>, connection: set<string>, id: string, meta: Metadata, x: string)
  {
    && x in connection && x !in tracked && x != "" && x != id
    && AsksTime(tracked, id, meta) && TimeNamed(meta.related, x)
  }

  /** The metadata has a descriptor, and the time reference, if it is asked for, is no error. */
  predicate Understood(tracked: set<string>, id: string, meta: Metadata)
  {
    meta.descriptor.Some? && !(AsksTime(tracked, id, meta) && TimeMalformed(meta.related))
  }

  /**
   A signal without the table of another has no domain. The table's signal is the domain whenever it
   is tracked; otherwise the time reference is, if it is another signal and tracked, or known to the
   connection as a hidden one. Only a time reference that is asked for can be an error.
   */
  lemma DomainFoundExactly(tracked: set<string>, connection: set<string>, id: string, meta: Metadata, x: string)
    ensures
      var found := FindDomain(tracked, connection, id, meta);
      && (found == Known(x) <==> NamesTracked(tracked, id, meta, x))
      && (found == Hidden(x) <==> NamesHidden(tracked, connection, id, meta, x))
      && (found == Malformed <==> AsksTime(tracked, id, meta) && TimeMalformed(meta.related))
  {
    hide FindTime, TimeNamed, TimeMalformed;
    TimeFoundExactly(meta.related, x);
    match FindTime(meta.related)
    case TimeSignal(y) => TimeFoundExactly(meta.related, y);
    case _ =>
  }
}
