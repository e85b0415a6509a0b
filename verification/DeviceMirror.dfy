/**
 The mirror a `WsStreamingDevice` keeps of the announced signals: a folder of mirrored
 signals, looked up by local id, and a table of them by streaming id.
 */
module DeviceMirror {
  import opened Wrappers
  import opened Descriptors

  /** `domain` is the streaming id of the mirrored signal this one has as its domain signal. */
  datatype Mirror = Mirror(id: string, descriptor: Descriptor, domain: Option<string>)

  datatype Device = Device(folder: seq<Mirror>, streaming: map<string, Mirror>)

  datatype Failure = NotFound

  const EMPTY := Device([], map[])

  /** A component's local id may not contain '/', so '#' stands in for it. */
  function LocalId(id: string): string
  {
    seq(|id|, i requires 0 <= i < |id| => if id[i] == '/' then '#' else id[i])
  }

  /** The last signal of the folder that carries the local id. */
  function FindLocal(folder: seq<Mirror>, localId: string): (found: Option<Mirror>)
    ensures found.Some? ==> found.value in folder && LocalId(found.value.id) == localId
    ensures found.None? ==> forall m :: m in folder ==> LocalId(m.id) != localId
  {
    if folder == [] then
      None
    else
      var last := folder[|folder| - 1];
      if LocalId(last.id) == localId then Some(last) else FindLocal(folder[..|folder| - 1], localId)
  }

  /** The signal at `i` has the local id, and none behind it does. */
  predicate LastWith(folder: seq<Mirror>, localId: string, i: nat)
    requires i < |folder|
  {
    LocalId(folder[i].id) == localId && forall j :: i < j < |folder| ==> LocalId(folder[j].id) != localId
  }

  /** With several signals of one local id the one announced last is found. */
  lemma {:induction false} FoundLast(folder: seq<Mirror>, localId: string, i: nat)
    requires i < |folder| && LastWith(folder, localId, i)
    ensures FindLocal(folder, localId) == Some(folder[i])
    decreases |folder|
  {
    hide LocalId;
    if i < |folder| - 1 {
      var before := folder[..|folder| - 1];
      assert LocalId(folder[|folder| - 1].id) != localId;
      assert forall j :: 0 <= j < |before| ==> before[j] == folder[j];
      FoundLast(before, localId, i);
    }
  }

  function Without(folder: seq<Mirror>, id: string): (rest: seq<Mirror>)
    ensures forall m :: m in rest <==> m in folder && m.id != id
  {
    if folder == [] then
      []
    else if folder[0].id == id then
      Without(folder[1..], id)
    else
      [folder[0]] + Without(folder[1..], id)
  }

  /** The others stay in their order. */
  lemma {:induction false} WithoutKeepsOrder(folder: seq<Mirror>, m: Mirror, id: string)
    ensures Without(folder + [m], id) == Without(folder, id) + if m.id == id then [] else [m]
  {
    if folder == [] {
      assert [m][1..] == [];
    } else {
      assert (folder + [m])[1..] == folder[1..] + [m];
      WithoutKeepsOrder(folder[1..], m, id);
    }
  }

  function Insert(d: Device, m: Mirror): Device
  {
    Device(d.folder + [m], d.streaming[m.id := m])
  }

  /** A domain link must name a signal that is already in the folder. */
  function OnAvailable(d: Device, id: string, link: Option<string>, descriptor: Descriptor): Result<Device, Failure>
  {
    match link
    case None => Ok(Insert(d, Mirror(id, descriptor, None)))
    case Some(domainId) =>
      match FindLocal(d.folder, LocalId(domainId))
      case None => Err(NotFound)
      case Some(m) => Ok(Insert(d, Mirror(id, descriptor, Some(m.id))))
  }

  function OnUnavailable(d: Device, id: string): Device
  {
    if id in d.streaming then Device(Without(d.folder, id), d.streaming - {id}) else d
  }

  /** The folder and the table hold the same signals, each under its own id. */
  ghost predicate Consistent(d: Device)
  {
    && (forall m :: m in d.folder ==> m.id in d.streaming && d.streaming[m.id] == m)
    && (forall id :: id in d.streaming ==> d.streaming[id] in d.folder && d.streaming[id].id == id)
  }

  predicate PlainId(id: string)
  {
    '#' !in id
  }

  lemma LocalIdInjective(a: string, b: string)
    requires PlainId(a) && PlainId(b) && LocalId(a) == LocalId(b)
    ensures a == b
  {
    assert |a| == |LocalId(a)| == |b|;
    forall i | 0 <= i < |a|
      ensures a[i] == b[i]
    {
      assert LocalId(a)[i] == LocalId(b)[i];
      assert a[i] in a && b[i] in b;
    }
  }

  /** With a '#' in an id the local id no longer identifies the signal. */
  lemma LocalIdCollides()
    ensures LocalId("a/b") == LocalId("a#b")
  {
    assert LocalId("a/b") == "a#b" == LocalId("a#b");
  }

  /** A link is refused exactly if no signal of the folder has the local id of the one it names. */
  lemma LinkRefused(d: Device, id: string, domainId: string, descriptor: Descriptor)
    ensures OnAvailable(d, id, Some(domainId), descriptor).Err? <==> forall m :: m in d.folder ==> LocalId(m.id) != LocalId(domainId)
  {
  }

  /** Linking to a signal that is in the mirror succeeds, and with plain ids it links to that very signal. */
  lemma AvailableSucceeds(d: Device, id: string, link: Option<string>, descriptor: Descriptor)
    requires Consistent(d) && id !in d.streaming
    requires link.Some? ==> link.value in d.streaming
    ensures
      var r := OnAvailable(d, id, link, descriptor);
      && r.Ok?
      && Consistent(r.value)
      && r.value.streaming.Keys == d.streaming.Keys + {id}
      && (forall k :: k in d.streaming ==> r.value.streaming[k] == d.streaming[k])
      && r.value.streaming[id].descriptor == descriptor
      && ((forall k :: k in d.streaming ==> PlainId(k)) ==> r.value.streaming[id].domain == link)
  {
    if link.Some? {
      assert d.streaming[link.value] in d.folder;
      var found := FindLocal(d.folder, LocalId(link.value));
      assert found.Some?;
      if forall k :: k in d.streaming ==> PlainId(k) {
        LocalIdInjective(found.value.id, link.value);
      }
    }
  }

  /** Withdrawing undoes announcing: the mirror is back where it was. */
  lemma UnavailableForgets(d: Device, id: string)
    requires Consistent(d)
    ensures
      var r := OnUnavailable(d, id);
      && Consistent(r)
      && r.streaming == d.streaming - {id}
  {
  }

  // ----- the device object ---------------------------------------------------------------

  /** The signal components of the device and the table of them by streaming id. */
  class WsStreamingDevice {
    var folder: seq<Mirror>
    var streamingSignals: map<string, Mirror>

    constructor ()
      ensures Contents() == EMPTY
    {
      folder, streamingSignals := [], map[];
    }

    ghost function Contents(): Device
      reads this
    {
      Device(folder, streamingSignals)
    }

    /** The search goes over all signals and keeps the last match. */
    method FindDomain(localId: string) returns (found: Option<Mirror>)
      ensures found == FindLocal(folder, localId)
    {
      found := None;
      for i := 0 to |folder|
        invariant found == FindLocal(folder[..i], localId)
      {
        assert folder[..i + 1][..i] == folder[..i];
        if LocalId(folder[i].id) == localId {
          found := Some(folder[i]);
        }
      }
      assert folder[..|folder|] == folder;
    }

    /** Not registered means that the domain link names no signal of the device; nothing changes then. */
    method OnSignalAvailable(id: string, link: Option<string>, descriptor: Descriptor) returns (registered: bool)
      modifies this
      ensures
        var mirrored := OnAvailable(old(Contents()), id, link, descriptor);
        && registered == mirrored.Ok?
        && Contents() == if registered then mirrored.value else old(Contents())
    {
      var domain := None;
      if link.Some? {
        var found := FindDomain(LocalId(link.value));
        if found.None? {
          return false;
        }
        domain := Some(found.value.id);
      }
      var mirror := Mirror(id, descriptor, domain);
      folder := folder + [mirror];
      streamingSignals := streamingSignals[id := mirror];
      registered := true;
    }

    method OnSignalUnavailable(id: string)
      modifies this
      ensures Contents() == OnUnavailable(old(Contents()), id)
    {
      if id !in streamingSignals {
        return;
      }
      RemoveSignal(id);
      streamingSignals := streamingSignals - {id};
    }

    method RemoveSignal(id: string)
      modifies this`folder
      ensures folder == Without(old(folder), id)
    {
      var kept := [];
      for i := 0 to |folder|
        invariant folder == old(folder)
        invariant kept + Without(folder[i..], id) == Without(folder, id)
      {
        assert folder[i..][1..] == folder[i + 1..];
        if folder[i].id != id {
          kept := kept + [folder[i]];
        }
      }
      folder := kept;
    }
  }
}
