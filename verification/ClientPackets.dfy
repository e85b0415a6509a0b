/** Packets of value signals that share a linear domain signal. */
module ClientPackets {
  import opened Wrappers
  import opened ClientState
  import opened ClientEvents
  import opened ClientInvariant
  import opened ClientSafety

  /** Data on subscribed signals whose domain is the linear signal `d`, and none on `d` itself. */
  ghost predicate SharedDomainData(s: State, d: nat, events: seq<Event>)
    requires Refs(s)
  {
    && d < |s.arena|
    && s.arena[d].descriptor.Some? && s.arena[d].descriptor.value.IsLinear()
    && forall i :: 0 <= i < |events| ==>
         && events[i].EvData?
         && events[i].id in s.signals
         && events[i].id != s.arena[d].id
         && s.arena[s.signals[events[i].id]].subscribed
         && s.arena[s.signals[events[i].id]].domain == Some(d)
  }

  function Values(events: seq<Event>): seq<int>
    requires forall i :: 0 <= i < |events| ==> events[i].EvData?
  {
    seq(|events|, i requires 0 <= i < |events| => events[i].value)
  }

  /** The packets published for a signal id, and those published for any other. */
  function PacketsOf(outputs: seq<Output>, id: string): seq<Packet>
  {
    if outputs == [] then []
    else if outputs[0].Data? && outputs[0].id == id then [outputs[0].packet] + PacketsOf(outputs[1..], id)
    else PacketsOf(outputs[1..], id)
  }

  function OtherPackets(outputs: seq<Output>, id: string): seq<(string, Packet)>
  {
    if outputs == [] then []
    else if outputs[0].Data? && outputs[0].id != id then [(outputs[0].id, outputs[0].packet)] + OtherPackets(outputs[1..], id)
    else OtherPackets(outputs[1..], id)
  }

  /** The domain packets carry the given offsets, under the domain's descriptor. */
  ghost predicate CarryOffsets(s: State, d: nat, packets: seq<Packet>, offsets: seq<int>)
    requires d < |s.arena|
  {
    && |packets| == |offsets|
    && forall i :: 0 <= i < |packets| ==>
         packets[i].offset == Some(offsets[i]) && packets[i].descriptor == s.arena[d].descriptor
  }

  /** The packet for one data event: attached to a domain packet with its own value and the domain's descriptor. */
  ghost predicate Attached(s: State, d: nat, event: Event, id: string, packet: Packet)
    requires Refs(s) && d < |s.arena|
  {
    && event.EvData? && event.id == id && id in s.signals
    && packet.descriptor == s.arena[s.signals[id]].descriptor
    && packet.count == event.count
    && packet.domain.Some?
    && packet.domain.value.offset == Some(event.value)
    && packet.domain.value.descriptor == s.arena[d].descriptor
  }

  ghost predicate AllAttached(s: State, d: nat, events: seq<Event>, packets: seq<(string, Packet)>)
    requires Refs(s) && d < |s.arena|
  {
    && |packets| == |events|
    && forall i :: 0 <= i < |packets| ==> Attached(s, d, events[i], packets[i].0, packets[i].1)
  }

  function LastOffset(e: Entry): Option<int>
  {
    if e.lastPacket.Some? then e.lastPacket.value.offset else None
  }

  /** Only remembered packets differ. */
  ghost predicate SamePlaces(s: State, t: State)
  {
    && t.signals == s.signals && |t.arena| == |s.arena|
    && forall i :: 0 <= i < |s.arena| ==> t.arena[i] == s.arena[i].(lastPacket := t.arena[i].lastPacket)
  }

  lemma SharedStill(s: State, t: State, d: nat, events: seq<Event>)
    requires Refs(s) && Refs(t) && SamePlaces(s, t) && SharedDomainData(s, d, events)
    ensures SharedDomainData(t, d, events)
  {
  }

  function DomainPacket(s: State, d: nat, event: Event): Packet
    requires d < |s.arena| && event.EvData?
  {
    Packet(s.arena[d].descriptor, event.count, Some(event.value), None)
  }

  /** What one data event publishes: a domain packet if the value is new, and the value packet. */
  ghost function Published(s: State, d: nat, event: Event, packet: Packet): seq<Output>
    requires d < |s.arena| && event.EvData?
  {
    (if LastOffset(s.arena[d]) == Some(event.value) then [] else [Data(s.arena[d].id, DomainPacket(s, d, event))])
    + [Data(event.id, packet)]
  }

  /** The domain packet of a data event, which is new exactly if the domain's last one has another value. */
  lemma DomainPacketChosen(s: State, r: nat, d: nat, value: int, count: nat)
    requires Refs(s) && r < |s.arena| && s.arena[r].domain == Some(d)
    requires s.arena[d].descriptor.Some? && s.arena[d].descriptor.value.IsLinear() && PhaseConsistent(s.arena[d])
    ensures
      var (mid, packet) := DomainPacketFor(s, r, value, count);
      && SamePlaces(s, mid) && LastOffset(mid.arena[d]) == Some(value)
      && packet.Some? && packet.value.offset == Some(value) && packet.value.descriptor == s.arena[d].descriptor
      && var offered := Data(s.arena[d].id, Packet(s.arena[d].descriptor, count, Some(value), None));
      mid.outbox == s.outbox + if LastOffset(s.arena[d]) == Some(value) then [] else [offered]
  {
  }

  lemma OneDataEvent(s: State, d: nat, event: Event) returns (packet: Packet)
    requires Inv(s) && event.EvData? && SharedDomainData(s, d, [event])
    ensures
      var t := Step(s, event);
      && SamePlaces(s, t)
      && LastOffset(t.arena[d]) == Some(event.value)
      && Attached(s, d, event, event.id, packet)
      && t.outbox == s.outbox + Published(s, d, event, packet)
  {
    hide Waiting, Woken, Mirrored, TimerSound, PhaseConsistent, NeedsDomainPacket, DomainPacketFor;
    assert [event][0] == event;
    var r := s.signals[event.id];
    assert Local(s.arena[d]);
    DomainPacketChosen(s, r, d, event.value, event.count);
    var (mid, domainPacket) := DomainPacketFor(s, r, event.value, event.count);
    packet := Packet(s.arena[r].descriptor, event.count, None, domainPacket);
    assert s.arena[r].id == event.id;
    assert Step(s, event).outbox == mid.outbox + [Data(event.id, packet)];
  }

  /** The outputs of a run of data events, sorted into domain packets and value packets. */
  ghost predicate Outputs(s: State, d: nat, events: seq<Event>, outputs: seq<Output>)
    requires Refs(s) && SharedDomainData(s, d, events)
  {
    && CarryOffsets(s, d, PacketsOf(outputs, s.arena[d].id), WithoutRepeats(LastOffset(s.arena[d]), Values(events)))
    && AllAttached(s, d, events, OtherPackets(outputs, s.arena[d].id))
  }

  lemma OutputsExtend(s: State, t: State, d: nat, events: seq<Event>, packet: Packet, rest: seq<Output>)
    requires Refs(s) && Refs(t) && SamePlaces(s, t) && SharedDomainData(s, d, events) && events != []
    requires LastOffset(t.arena[d]) == Some(events[0].value)
    requires Attached(s, d, events[0], events[0].id, packet)
    requires SharedDomainData(t, d, events[1..]) && Outputs(t, d, events[1..], rest)
    ensures Outputs(s, d, events, Published(s, d, events[0], packet) + rest)
  {
    hide Refs, Attached;
    var event := events[0];
    var id := s.arena[d].id;
    assert t.arena[d].id == id && t.arena[d].descriptor == s.arena[d].descriptor;
    assert Values(events)[1..] == Values(events[1..]);
    var first := [Data(event.id, packet)] + rest;
    assert first[1..] == rest;
    assert OtherPackets(first, id) == [(event.id, packet)] + OtherPackets(rest, id);
    assert PacketsOf(first, id) == PacketsOf(rest, id);
    var outputs := Published(s, d, event, packet) + rest;
    if LastOffset(s.arena[d]) == Some(event.value) {
      assert outputs == first;
    } else {
      assert outputs[1..] == first;
    }
    AttachedStill(s, t, d, events, OtherPackets(rest, id));
  }

  lemma AttachedStill(s: State, t: State, d: nat, events: seq<Event>, packets: seq<(string, Packet)>)
    requires Refs(s) && Refs(t) && SamePlaces(s, t) && d < |s.arena| && events != []
    requires AllAttached(t, d, events[1..], packets)
    ensures AllAttached(s, d, events[1..], packets)
  {
    forall i | 0 <= i < |packets|
      ensures Attached(s, d, events[1..][i], packets[i].0, packets[i].1)
    {
      assert Attached(t, d, events[1..][i], packets[i].0, packets[i].1);
    }
  }

  lemma FirstDataEvent(s: State, d: nat, events: seq<Event>) returns (t: State, packet: Packet)
    requires Inv(s) && SharedDomainData(s, d, events) && events != []
    ensures Inv(t) && Run(s, events) == Run(t, events[1..])
    ensures SamePlaces(s, t) && SharedDomainData(t, d, events[1..])
    ensures LastOffset(t.arena[d]) == Some(events[0].value)
    ensures Attached(s, d, events[0], events[0].id, packet)
    ensures t.outbox == s.outbox + Published(s, d, events[0], packet)
  {
    assert SharedDomainData(s, d, [events[0]]);
    packet := OneDataEvent(s, d, events[0]);
    StepKeepsInv(s, events[0]);
    t := Step(s, events[0]);
    SharedStill(s, t, d, events[1..]);
  }

  /**
   In any run of data events on subscribed signals that share a linear domain, the domain packets
   published carry the received domain values without adjacent repeats, and each value packet is
   attached to a domain packet with its own value and the domain's descriptor.
   */
  lemma LinearDomainPackets(s: State, d: nat, events: seq<Event>, t: State)
    requires Reachable(s) && Refs(s) && SharedDomainData(s, d, events) && Reaches(s, events, t)
    ensures |s.outbox| <= |t.outbox| && t.outbox[..|s.outbox|] == s.outbox
    ensures Outputs(s, d, events, t.outbox[|s.outbox|..])
  {
    hide Reaches, Reachable, SharedDomainData, Outputs, Run;
    ReachableInv(s);
    ReachesExactlyRun(s, events, t);
    LinearDomainRun(s, d, events);
  }

  lemma {:induction false} LinearDomainRun(s: State, d: nat, events: seq<Event>)
    requires Inv(s) && SharedDomainData(s, d, events)
    ensures
      var n := |s.outbox|;
      var outbox := Run(s, events).outbox;
      n <= |outbox| && outbox[..n] == s.outbox && Outputs(s, d, events, outbox[n..])
    decreases |events|
  {
    if events != [] {
      var t, packet := FirstDataEvent(s, d, events);
      LinearDomainRun(t, d, events[1..]);
      var outbox := Run(s, events).outbox;
      var rest := outbox[|t.outbox|..];
      OutputsExtend(s, t, d, events, packet, rest);
      SplitOutbox(s.outbox, Published(s, d, events[0], packet), outbox);
    }
  }

  lemma SplitOutbox(before: seq<Output>, first: seq<Output>, outbox: seq<Output>)
    requires |before + first| <= |outbox| && outbox[..|before + first|] == before + first
    ensures outbox[..|before|] == before && outbox[|before|..] == first + outbox[|before + first|..]
  {
    assert outbox[..|before|] == (before + first)[..|before|];
    assert outbox == before + first + outbox[|before + first|..];
  }
}
