/**
 The server's listener on one subscribed signal: packets dequeued on the acquisition thread become
 tasks that run in order on the streaming executor. A peer that keeps only the last metadata it
 was sent must still know each packet's own descriptor.
 */
module Listener {
  import opened Wrappers
  import opened Descriptors
  import MetadataCodec

  /** A data packet's `offset` is that of its domain packet, if it has one with an offset. */
  datatype Packet =
    | DataPacket(descriptor: Descriptor, offset: Option<int>, sampleCount: nat, raw: seq<bv8>)
    | DescriptorChanged(valueChanged: bool, newValue: Option<Descriptor>)
    | OtherPacket

  datatype Task =
    | SetMetadata(metadata: WireMetadata)
    | PublishData(offset: int, sampleCount: nat, raw: seq<bv8>)

  /** `posted` is all that was ever handed to the executor. */
  datatype State = State(last: Descriptor, posted: seq<Task>, queue: seq<Packet>)

  /** The ids of the signal and of its domain signal; a new domain signal means a new listener. */
  datatype Identity = Identity(signalId: string, domainId: string)

  function MetadataOf(who: Identity, d: Descriptor): WireMetadata
  {
    MetadataCodec.Encode(d, who.signalId, who.domainId)
  }

  // ----- the transitions -----------------------------------------------------------------

  /** Posts new metadata unless the descriptor is the one sent last. */
  function Announce(who: Identity, s: State, d: Descriptor): State
  {
    if d == s.last then s else s.(last := d, posted := s.posted + [SetMetadata(MetadataOf(who, d))])
  }

  function OffsetOf(offset: Option<int>): int
  {
    if offset.Some? then offset.value else 0
  }

  function OnData(who: Identity, s: State, packet: Packet): State
    requires packet.DataPacket?
  {
    var t := Announce(who, s, packet.descriptor);
    if packet.raw == [] then t
    else t.(posted := t.posted + [PublishData(OffsetOf(packet.offset), packet.sampleCount, packet.raw)])
  }

  /** A changed descriptor that is null has no metadata: translating it throws. */
  predicate Throws(packet: Packet)
  {
    packet.DescriptorChanged? && packet.valueChanged && packet.newValue.None?
  }

  function OnPacket(who: Identity, s: State, packet: Packet): State
    requires !Throws(packet)
  {
    match packet
    case DataPacket(_, _, _, _) => OnData(who, s, packet)
    case DescriptorChanged(valueChanged, newValue) => if valueChanged then Announce(who, s, newValue.value) else s
    case OtherPacket => s
  }

  /** Dequeues until the queue is empty or a packet throws, which takes that packet along. */
  function Drain(who: Identity, s: State): State
    decreases |s.queue|
  {
    if s.queue == [] then
      s
    else
      var dequeued := s.(queue := s.queue[1..]);
      if Throws(s.queue[0]) then dequeued else Drain(who, OnPacket(who, dequeued, s.queue[0]))
  }

  // ----- the peer ------------------------------------------------------------------------

  /** Data as the peer receives it, under the metadata it was sent last. */
  datatype Reading = Reading(metadata: WireMetadata, offset: int, sampleCount: nat, raw: seq<bv8>)

  function Replay(metadata: WireMetadata, tasks: seq<Task>): seq<Reading>
    decreases |tasks|
  {
    if tasks == [] then
      []
    else
      match tasks[0]
      case SetMetadata(m) => Replay(m, tasks[1..])
      case PublishData(offset, count, raw) => [Reading(metadata, offset, count, raw)] + Replay(metadata, tasks[1..])
  }

  function LastMetadata(metadata: WireMetadata, tasks: seq<Task>): WireMetadata
    decreases |tasks|
  {
    if tasks == [] then metadata
    else LastMetadata(if tasks[0].SetMetadata? then tasks[0].metadata else metadata, tasks[1..])
  }

  /** The packets that are processed before one throws. */
  function Processed(packets: seq<Packet>): seq<Packet>
  {
    if packets == [] || Throws(packets[0]) then [] else [packets[0]] + Processed(packets[1..])
  }

  /** What the peer should read: the data packets that carry data, each under its own descriptor. */
  function Readings(who: Identity, packets: seq<Packet>): seq<Reading>
  {
    if packets == [] then
      []
    else
      (match packets[0]
       case DataPacket(descriptor, offset, count, raw) =>
         if raw == [] then [] else [Reading(MetadataOf(who, descriptor), OffsetOf(offset), count, raw)]
       case _ => [])
      + Readings(who, packets[1..])
  }

  // ----- refinement ----------------------------------------------------------------------

  lemma {:induction false} ReplayAppend(metadata: WireMetadata, tasks: seq<Task>, more: seq<Task>)
    ensures Replay(metadata, tasks + more) == Replay(metadata, tasks) + Replay(LastMetadata(metadata, tasks), more)
    ensures LastMetadata(metadata, tasks + more) == LastMetadata(LastMetadata(metadata, tasks), more)
    decreases |tasks|
  {
    if tasks == [] {
      assert [] + more == more;
    } else {
      assert (tasks + more)[1..] == tasks[1..] + more;
      ReplayAppend(if tasks[0].SetMetadata? then tasks[0].metadata else metadata, tasks[1..], more);
    }
  }

  /** The tasks posted so far leave the peer with the metadata of the last descriptor. */
  ghost predicate Synced(who: Identity, first: WireMetadata, s: State)
  {
    LastMetadata(first, s.posted) == MetadataOf(who, s.last)
  }

  lemma OnePacket(who: Identity, first: WireMetadata, s: State, packet: Packet)
    requires Synced(who, first, s) && !Throws(packet)
    ensures
      var t := OnPacket(who, s, packet);
      && t.queue == s.queue
      && Synced(who, first, t)
      && Replay(first, t.posted) == Replay(first, s.posted) + Readings(who, [packet])
  {
    hide MetadataCodec.Encode;
    var now := MetadataOf(who, s.last);
    ReplayAppend(first, s.posted, []);
    assert s.posted + [] == s.posted;
    match packet
    case DataPacket(d, offset, count, raw) =>
      var mid := Announce(who, s, d);
      ReplayAppend(first, s.posted, [SetMetadata(MetadataOf(who, d))]);
      ReplayAppend(first, mid.posted, [PublishData(OffsetOf(offset), count, raw)]);
      assert Readings(who, [packet]) == if raw == [] then [] else [Reading(MetadataOf(who, d), OffsetOf(offset), count, raw)];
    case DescriptorChanged(valueChanged, newValue) =>
      if valueChanged {
        ReplayAppend(first, s.posted, [SetMetadata(MetadataOf(who, newValue.value))]);
      }
    case OtherPacket =>
  }

  /**
   Whatever is queued, the peer reads exactly the data packets dequeued that carry data, in order,
   each under the metadata of its own descriptor; and it stays ready for the packets to come.
   */
  lemma {:induction false} DrainIsFaithful(who: Identity, first: WireMetadata, s: State)
    requires Synced(who, first, s)
    ensures
      var t := Drain(who, s);
      && Synced(who, first, t)
      && Replay(first, t.posted) == Replay(first, s.posted) + Readings(who, Processed(s.queue))
    decreases |s.queue|
  {
    hide MetadataCodec.Encode, Synced, OnPacket, Replay;
    if s.queue != [] && !Throws(s.queue[0]) {
      var packet := s.queue[0];
      var dequeued := s.(queue := s.queue[1..]);
      SyncedStill(who, first, s, dequeued);
      OnePacket(who, first, dequeued, packet);
      DrainIsFaithful(who, first, OnPacket(who, dequeued, packet));
      ReadingsCons(who, packet, Processed(s.queue[1..]));
    } else if s.queue != [] {
      SyncedStill(who, first, s, s.(queue := s.queue[1..]));
    }
  }

  lemma SyncedStill(who: Identity, first: WireMetadata, s: State, t: State)
    requires Synced(who, first, s) && t.last == s.last && t.posted == s.posted
    ensures Synced(who, first, t)
  {
  }

  lemma ReadingsCons(who: Identity, packet: Packet, rest: seq<Packet>)
    ensures Readings(who, [packet] + rest) == Readings(who, [packet]) + Readings(who, rest)
  {
    assert ([packet] + rest)[1..] == rest;
    assert [packet][1..] == [];
  }

  /** The state a listener starts in: its constructor sets the metadata of the signal's descriptor. */
  function Started(d: Descriptor): State
  {
    State(d, [], [])
  }

  /** Packets arriving in batches, each drained before the next. */
  function Receive(who: Identity, s: State, batches: seq<seq<Packet>>): State
    decreases |batches|
  {
    if batches == [] then s
    else
      var before := Receive(who, s, batches[..|batches| - 1]);
      Drain(who, before.(queue := before.queue + batches[|batches| - 1]))
  }

  /** Is no descriptor event of the batches a null one? */
  predicate NoneThrows(packets: seq<Packet>)
  {
    forall i :: 0 <= i < |packets| ==> !Throws(packets[i])
  }

  function Flatten(batches: seq<seq<Packet>>): seq<Packet>
  {
    if batches == [] then [] else Flatten(batches[..|batches| - 1]) + batches[|batches| - 1]
  }

  lemma {:induction false} ProcessedAll(packets: seq<Packet>)
    requires NoneThrows(packets)
    ensures Processed(packets) == packets
  {
    if packets != [] {
      ProcessedAll(packets[1..]);
    }
  }

  lemma {:induction false} DrainEmpties(who: Identity, s: State)
    requires NoneThrows(s.queue)
    ensures Drain(who, s).queue == []
    decreases |s.queue|
  {
    if s.queue != [] {
      DrainEmpties(who, OnPacket(who, s.(queue := s.queue[1..]), s.queue[0]));
    }
  }

  lemma {:induction false} ReadingsAppend(who: Identity, packets: seq<Packet>, more: seq<Packet>)
    ensures Readings(who, packets + more) == Readings(who, packets) + Readings(who, more)
  {
    hide MetadataCodec.Encode;
    if packets == [] {
      assert [] + more == more;
    } else {
      assert packets + more == [packets[0]] + (packets[1..] + more) && packets == [packets[0]] + packets[1..];
      ReadingsCons(who, packets[0], packets[1..] + more);
      ReadingsCons(who, packets[0], packets[1..]);
      ReadingsAppend(who, packets[1..], more);
    }
  }

  /** Over the whole life of a listener without null descriptor events, the peer reads all data packets faithfully. */
  lemma {:induction false} ListenerIsFaithful(who: Identity, d: Descriptor, batches: seq<seq<Packet>>)
    requires NoneThrows(Flatten(batches))
    ensures
      var t := Receive(who, Started(d), batches);
      && t.queue == []
      && Synced(who, MetadataOf(who, d), t)
      && Replay(MetadataOf(who, d), t.posted) == Readings(who, Flatten(batches))
    decreases |batches|
  {
    hide MetadataCodec.Encode;
    if batches != [] {
      var before, batch := batches[..|batches| - 1], batches[|batches| - 1];
      assert NoneThrows(Flatten(before)) && NoneThrows(batch) by {
        assert forall i :: 0 <= i < |Flatten(before)| ==> Flatten(before)[i] == Flatten(batches)[i];
        assert forall i :: 0 <= i < |batch| ==> batch[i] == Flatten(batches)[|Flatten(before)| + i];
      }
      ListenerIsFaithful(who, d, before);
      var s := Receive(who, Started(d), before).(queue := batch);
      assert [] + batch == batch;
      DrainIsFaithful(who, MetadataOf(who, d), s);
      DrainEmpties(who, s);
      ProcessedAll(batch);
      ReadingsAppend(who, Flatten(before), batch);
    }
  }

  /** At any time the tasks run so far are a prefix, and what the peer has read is a prefix of what it will read. */
  lemma PeerReadsPrefix(metadata: WireMetadata, tasks: seq<Task>, n: nat)
    requires n <= |tasks|
    ensures Replay(metadata, tasks[..n]) <= Replay(metadata, tasks)
  {
    ReplayAppend(metadata, tasks[..n], tasks[n..]);
    assert tasks[..n] + tasks[n..] == tasks;
  }

  // ----- what is announced ---------------------------------------------------------------

  /** The descriptors the packets show: those of data packets and those that an event says have changed. */
  function Shown(packets: seq<Packet>): seq<Descriptor>
  {
    if packets == [] then
      []
    else
      (match packets[0]
       case DataPacket(descriptor, _, _, _) => [descriptor]
       case DescriptorChanged(true, Some(descriptor)) => [descriptor]
       case _ => [])
      + Shown(packets[1..])
  }

  /** The metadata that the tasks set. */
  function Announced(tasks: seq<Task>): seq<WireMetadata>
  {
    if tasks == [] then [] else (if tasks[0].SetMetadata? then [tasks[0].metadata] else []) + Announced(tasks[1..])
  }

  function MetadataOfAll(who: Identity, ds: seq<Descriptor>): seq<WireMetadata>
  {
    seq(|ds|, i requires 0 <= i < |ds| => MetadataOf(who, ds[i]))
  }

  /** The last of the descriptors, or the one before them. */
  function Latest(d: Descriptor, ds: seq<Descriptor>): Descriptor
  {
    if ds == [] then d else ds[|ds| - 1]
  }

  lemma {:induction false} AnnouncedAppend(tasks: seq<Task>, more: seq<Task>)
    ensures Announced(tasks + more) == Announced(tasks) + Announced(more)
  {
    if tasks == [] {
      assert tasks + more == more;
    } else {
      assert (tasks + more)[1..] == tasks[1..] + more;
      AnnouncedAppend(tasks[1..], more);
    }
  }

  lemma OnePacketAnnounces(who: Identity, s: State, packet: Packet)
    requires !Throws(packet)
    ensures
      var t := OnPacket(who, s, packet);
      var shown := Shown([packet]);
      && |shown| <= 1 && t.last == Latest(s.last, shown)
      && Announced(t.posted) == Announced(s.posted) + MetadataOfAll(who, WithoutRepeats(Some(s.last), shown))
  {
    hide MetadataOf;
    var shown := Shown([packet]);
    assert [packet][1..] == [] && Shown([]) == [];
    assert |shown| <= 1;
    AnnouncedAppend(s.posted, []);
    assert s.posted + [] == s.posted;
    if shown != [] {
      assert shown[1..] == [];
      var task := SetMetadata(MetadataOf(who, shown[0]));
      AnnouncedAppend(s.posted, [task]);
      assert [task][1..] == [];
      assert MetadataOfAll(who, [shown[0]]) == [MetadataOf(who, shown[0])];
      var mid := Announce(who, s, shown[0]);
      if packet.DataPacket? && packet.raw != [] {
        var data := PublishData(OffsetOf(packet.offset), packet.sampleCount, packet.raw);
        AnnouncedAppend(mid.posted, [data]);
        assert [data][1..] == [];
      }
    }
  }

  lemma {:induction false} RepeatsCons(d: Descriptor, e: Descriptor, ds: seq<Descriptor>)
    ensures WithoutRepeats(Some(d), [e] + ds) == WithoutRepeats(Some(d), [e]) + WithoutRepeats(Some(e), ds)
  {
    assert ([e] + ds)[1..] == ds && [e][1..] == [];
  }

  lemma MetadataOfBoth(who: Identity, ds: seq<Descriptor>, more: seq<Descriptor>)
    ensures MetadataOfAll(who, ds + more) == MetadataOfAll(who, ds) + MetadataOfAll(who, more)
  {
  }

  lemma ShownCons(packet: Packet, rest: seq<Packet>)
    ensures Shown([packet] + rest) == Shown([packet]) + Shown(rest)
  {
    assert ([packet] + rest)[1..] == rest && [packet][1..] == [];
  }

  lemma ShownStep(who: Identity, d: Descriptor, shown: seq<Descriptor>, rest: seq<Descriptor>)
    requires |shown| <= 1
    ensures Latest(d, shown + rest) == Latest(Latest(d, shown), rest)
    ensures WithoutRepeats(Some(d), shown + rest)
      == WithoutRepeats(Some(d), shown) + WithoutRepeats(Some(Latest(d, shown)), rest)
  {
    if shown == [] {
      assert shown + rest == rest;
    } else {
      assert shown == [shown[0]];
      RepeatsCons(d, shown[0], rest);
    }
  }

  /**
   The metadata announced is that of the descriptors the processed packets show, in order, with each
   that repeats the one before it left out; the listener ends with the last one shown.
   */
  lemma {:induction false} DrainAnnounces(who: Identity, s: State)
    ensures
      var t := Drain(who, s);
      var shown := Shown(Processed(s.queue));
      && t.last == Latest(s.last, shown)
      && Announced(t.posted) == Announced(s.posted) + MetadataOfAll(who, WithoutRepeats(Some(s.last), shown))
    decreases |s.queue|
  {
    hide MetadataOf, OnPacket, Throws, Latest, Announced, MetadataOfAll, WithoutRepeats;
    if s.queue == [] || Throws(s.queue[0]) {
      NothingShown(who, s.last);
      assert Announced(s.posted) + [] == Announced(s.posted);
    } else {
      var packet, rest := s.queue[0], Processed(s.queue[1..]);
      var dequeued := s.(queue := s.queue[1..]);
      var mid := OnPacket(who, dequeued, packet);
      OnePacketAnnounces(who, dequeued, packet);
      OnPacketKeepsQueue(who, dequeued, packet);
      DrainAnnounces(who, mid);
      ShownCons(packet, rest);
      ShownStep(who, s.last, Shown([packet]), Shown(rest));
      MetadataOfBoth(who, WithoutRepeats(Some(s.last), Shown([packet])), WithoutRepeats(Some(mid.last), Shown(rest)));
    }
  }

  lemma OnPacketKeepsQueue(who: Identity, s: State, packet: Packet)
    requires !Throws(packet)
    ensures OnPacket(who, s, packet).queue == s.queue
  {
  }

  lemma NothingShown(who: Identity, d: Descriptor)
    ensures Latest(d, []) == d && MetadataOfAll(who, WithoutRepeats(Some(d), [])) == []
  {
  }

  /** The first null descriptor event, if there is one, ends the processing; what is behind it stays in the queue. */
  lemma {:induction false} DrainStopsAtNull(who: Identity, s: State, n: nat)
    requires n <= |s.queue| && forall i :: 0 <= i < n ==> s.queue[i] != DescriptorChanged(true, None)
    requires n < |s.queue| ==> s.queue[n] == DescriptorChanged(true, None)
    ensures Processed(s.queue) == s.queue[..n]
    ensures Drain(who, s).queue == if n < |s.queue| then s.queue[n + 1..] else []
    decreases n
  {
    hide MetadataOf, OnPacket;
    if n > 0 {
      var dequeued := s.(queue := s.queue[1..]);
      assert s.queue[0] != DescriptorChanged(true, None);
      OnPacketKeepsQueue(who, dequeued, s.queue[0]);
      DrainStopsAtNull(who, OnPacket(who, dequeued, s.queue[0]), n - 1);
      assert s.queue[..n] == [s.queue[0]] + s.queue[1..][..n - 1];
      assert n < |s.queue| ==> s.queue[1..][n..] == s.queue[n + 1..];
    }
  }

  function DataPackets(packets: seq<Packet>): seq<Packet>
  {
    if packets == [] then []
    else (if packets[0].DataPacket? && packets[0].raw != [] then [packets[0]] else []) + DataPackets(packets[1..])
  }

  /** From the metadata of a reading the peer recovers the packet's descriptor, if the protocol can express it. */
  lemma {:induction false} DescriptorsRecovered(who: Identity, packets: seq<Packet>, i: nat)
    requires i < |Readings(who, packets)|
    ensures |DataPackets(packets)| == |Readings(who, packets)|
    ensures
      var reading, packet := Readings(who, packets)[i], DataPackets(packets)[i];
      && packet.DataPacket?
      && reading.raw == packet.raw && reading.sampleCount == packet.sampleCount
      && reading.offset == (match packet.offset case Some(offset) => offset case None => 0)
      && reading.metadata.tableId == (if who.domainId != "" then who.domainId else who.signalId)
      && (MetadataCodec.Decode(reading.metadata) == packet.descriptor <==> MetadataCodec.Representable(packet.descriptor))
  {
    hide MetadataCodec.Encode, MetadataCodec.Decode, MetadataCodec.Representable;
    SameCount(who, packets);
    if packets[0].DataPacket? && packets[0].raw != [] {
      MetadataCodec.RoundTripExactlyRepresentable(packets[0].descriptor, who.signalId, who.domainId);
      TableOf(who, packets[0].descriptor);
      if i > 0 {
        DescriptorsRecovered(who, packets[1..], i - 1);
      }
    } else {
      DescriptorsRecovered(who, packets[1..], i);
    }
  }

  /** A signal's table is that of its domain signal, or its own. */
  lemma TableOf(who: Identity, d: Descriptor)
    ensures MetadataOf(who, d).tableId == if who.domainId != "" then who.domainId else who.signalId
  {
  }

  lemma {:induction false} SameCount(who: Identity, packets: seq<Packet>)
    ensures |DataPackets(packets)| == |Readings(who, packets)|
  {
    if packets != [] {
      SameCount(who, packets[1..]);
    }
  }

  // ----- the objects ---------------------------------------------------------------------

  /** The streamed signal: its metadata, and what has been published to the peer. */
  class LocalSignal {
    var metadata: WireMetadata
    var published: seq<Reading>

    constructor (metadata: WireMetadata)
      ensures this.metadata == metadata && published == []
    {
      this.metadata, published := metadata, [];
    }

    /** Runs tasks in the order they were posted. */
    method Run(tasks: seq<Task>)
      modifies this
      ensures metadata == LastMetadata(old(metadata), tasks)
      ensures published == old(published) + Replay(old(metadata), tasks)
    {
      for i := 0 to |tasks|
        invariant LastMetadata(metadata, tasks[i..]) == LastMetadata(old(metadata), tasks)
        invariant published + Replay(metadata, tasks[i..]) == old(published) + Replay(old(metadata), tasks)
      {
        assert tasks[i..][1..] == tasks[i + 1..];
        match tasks[i]
        case SetMetadata(m) => metadata := m;
        case PublishData(offset, count, raw) => published := published + [Reading(metadata, offset, count, raw)];
      }
    }
  }

  class WsStreamingListener {
    const who: Identity
    const localSignal: LocalSignal
    var connection: seq<Packet>
    var lastDescriptor: Descriptor
    var executor: seq<Task>

    /** The metadata of the signal's descriptor is set directly on the local signal. */
    constructor (who: Identity, descriptor: Descriptor, localSignal: LocalSignal)
      modifies localSignal
      ensures this.who == who && this.localSignal == localSignal && Contents() == Started(descriptor)
      ensures localSignal.metadata == MetadataOf(who, descriptor) && localSignal.published == old(localSignal.published)
    {
      this.who, this.localSignal := who, localSignal;
      connection, lastDescriptor, executor := [], descriptor, [];
      new;
      localSignal.metadata := MetadataOf(who, descriptor);
    }

    function Contents(): State
      reads this
    {
      State(lastDescriptor, executor, connection)
    }

    method Post(task: Task)
      modifies this`executor
      ensures executor == old(executor) + [task]
    {
      executor := executor + [task];
    }

    method AnnounceDescriptor(descriptor: Descriptor)
      modifies this`executor, this`lastDescriptor
      ensures Contents() == Announce(who, old(Contents()), descriptor)
    {
      if descriptor != lastDescriptor {
        Post(SetMetadata(MetadataOf(who, descriptor)));
        lastDescriptor := descriptor;
      }
    }

    method OnDataPacketReceived(packet: Packet)
      requires packet.DataPacket?
      modifies this`executor, this`lastDescriptor
      ensures Contents() == OnData(who, old(Contents()), packet)
    {
      var offset := 0;
      if packet.offset.Some? {
        offset := packet.offset.value;
      }
      AnnounceDescriptor(packet.descriptor);
      if packet.raw != [] {
        Post(PublishData(offset, packet.sampleCount, packet.raw));
      }
    }

    method OnEventPacketReceived(packet: Packet) returns (thrown: bool)
      requires packet.DescriptorChanged?
      modifies this`executor, this`lastDescriptor
      ensures thrown == Throws(packet)
      ensures Contents() == if thrown then old(Contents()) else OnPacket(who, old(Contents()), packet)
    {
      thrown := false;
      if packet.valueChanged {
        if packet.newValue.None? {
          thrown := true;
        } else {
          AnnounceDescriptor(packet.newValue.value);
        }
      }
    }

    /** The dequeue loop; a packet that throws ends it. */
    method PacketReceived()
      modifies this
      ensures Contents() == Drain(who, old(Contents()))
    {
      hide MetadataOf;
      while connection != []
        invariant Drain(who, Contents()) == Drain(who, old(Contents()))
        decreases |connection|
      {
        var packet := connection[0];
        connection := connection[1..];
        if packet.DataPacket? {
          OnDataPacketReceived(packet);
        } else if packet.DescriptorChanged? {
          var thrown := OnEventPacketReceived(packet);
          if thrown {
            return;
          }
        }
      }
    }
  }
}
