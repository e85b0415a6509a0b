/** What the client makes of the metadata that an openDAQ server sends. */
module ClientMetadata {
  import opened Wrappers
  import opened Descriptors
  import opened ClientState
  import opened ClientEvents
  import MetadataCodec

  /** Metadata as the client's handler sees it; openDAQ servers list no related signals. */
  function Received(w: WireMetadata): Metadata
  {
    Metadata(Some(MetadataCodec.Decode(w)), w.tableId, [])
  }

  /** Does the server's domain signal id name a tracked signal other than the signal itself? */
  predicate NamesTracked(tracked: set<string>, id: string, domainId: string)
  {
    domainId in tracked && domainId != "" && domainId != id
  }

  /** The client finds the domain signal in the encoded table exactly when it tracks that signal. */
  lemma TableNamesDomain(tracked: set<string>, connection: set<string>, id: string, domainId: string, d: Descriptor)
    ensures
      FindDomain(tracked, connection, id, Received(MetadataCodec.Encode(d, id, domainId)))
      == if NamesTracked(tracked, id, domainId) then Known(domainId) else NoDomain
  {
    assert FindTime([]) == NoTime;
  }

  lemma CascadeKeepsMetadata(s: State, t: State, r: nat)
    requires Cascade(s, t) && r < |s.arena|
    ensures t.arena[r].descriptor == s.arena[r].descriptor && t.arena[r].domain == s.arena[r].domain
    ensures t.arena[r].lastPacket == s.arena[r].lastPacket
  {
  }

  lemma SettleKeepsMetadata(s: State, r: nat, domain: Option<nat>)
    requires Refs(s) && r < |s.arena| && s.arena[r].descriptor.Some?
    requires domain.Some? ==> domain.value < |s.arena| && domain.value != r
    ensures
      var t := Settle(s, r, domain);
      && r < |t.arena| && t.arena[r].descriptor == s.arena[r].descriptor && t.arena[r].domain == domain
      && t.arena[r].lastPacket == s.arena[r].lastPacket
  {
    hide DomainEvents, Publish;
    var linked := Put(s, r, s.arena[r].(domain := domain));
    PutExtends(s, r, s.arena[r].(domain := domain));
    if !linked.arena[r].published && !(domain.Some? && !linked.arena[domain.value].published) {
      CascadeKeepsMetadata(linked, Publish(linked, r), r);
    }
  }

  /**
   Metadata encoded by the server gives the entry the server's descriptor, if the protocol can
   express it, and the server's domain signal, if the client tracks it.
   */
  lemma ServedMetadata(s: State, r: nat, d: Descriptor, domainId: string, connection: Connection)
    requires Refs(s) && Tracked(s, r)
    ensures
      var id := s.arena[r].id;
      var t := MetadataChanged(s, r, Received(MetadataCodec.Encode(d, id, domainId)), connection);
      && r < |t.arena|
      && (t.arena[r].descriptor == Some(d) <==> MetadataCodec.Representable(d))
      && t.arena[r].domain == if NamesTracked(s.signals.Keys, id, domainId) then Some(s.signals[domainId]) else None
  {
    hide Settle, FindDomain, MetadataCodec.Decode, MetadataCodec.Encode, MetadataCodec.Representable;
    var id := s.arena[r].id;
    var meta := Received(MetadataCodec.Encode(d, id, domainId));
    TableNamesDomain(s.signals.Keys, connection.Keys, id, domainId, d);
    MetadataCodec.RoundTripExactlyRepresentable(d, id, domainId);
    PutExtends(s, r, Described(s.arena[r], meta.descriptor));
    var known := Put(s, r, Described(s.arena[r], meta.descriptor));
    SettleKeepsMetadata(known, r, if NamesTracked(s.signals.Keys, id, domainId) then Some(s.signals[domainId]) else None);
  }
}
