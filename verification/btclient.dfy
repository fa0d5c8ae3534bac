/** Model of the Bluetooth signal handlers (btclient.py).

    The client listens to system-bus signals, keeps a registry of media
    transports (object path to a stored volume) and turns property changes
    of a transport into `play`, `pause` and `volume` callbacks. Here each
    handler is a pure function of the registry and the signal's arguments;
    the callbacks it makes are returned as a sequence of events, in order.
 */
module BtClient {
  import opened Exceptions

  /** The BlueZ interface of a media transport. */
  const MediaTransport: string := "org.bluez.MediaTransport1"

  /** The interface name `_interfaceRemoved` compares with: it starts with a space. */
  const RemovedInterfaceAsWritten: string := " org.bluez.MediaTransport1"

  /** Object path of each known transport, with its stored volume. */
  type Registry = map<string, nat>

  /** A callback made by the signal handlers. */
  datatype BtEvent = Play | Pause | Volume(level: nat)

  /** The entries of a PropertiesChanged dictionary the handler reads: the
      transport's `State` string and its `Volume` (a D-Bus uint16). */
  datatype Changed = Changed(state: Option<string>, volume: Option<nat>)

  /** The registry after a property change, and the callbacks it made. */
  datatype Signal = Signal(registry: Registry, events: seq<BtEvent>)

  /** No stored volume is ever anything but the initial 0. */
  ghost predicate AllVolumesZero(reg: Registry) {
    forall path :: path in reg ==> reg[path] == 0
  }

  /** `_interfaceAdded`: register a media transport with volume 0,
      overwriting an existing entry; other interfaces are ignored. */
  function InterfaceAdded(reg: Registry, path: string, iface: string): (r: Registry)
    ensures iface != MediaTransport ==> r == reg
    ensures iface == MediaTransport ==>
      && r.Keys == reg.Keys + {path}
      && r[path] == 0
      && forall p :: p in reg && p != path ==> r[p] == reg[p]
  {
    if iface != MediaTransport then reg
    else reg[path := 0]
  }

  /** `_interfaceRemoved`, as written: it deletes only when the interface
      equals the name with a leading space, and deleting an unknown path
      raises KeyError. */
  function InterfaceRemoved(reg: Registry, path: string, iface: string): (r: Result<Registry>)
    ensures iface != RemovedInterfaceAsWritten ==> r == Ok(reg)
    ensures iface == RemovedInterfaceAsWritten ==>
      (path in reg ==> r == Ok(reg - {path})) && (path !in reg ==> r == Err(UnknownPath))
  {
    if iface != RemovedInterfaceAsWritten then Ok(reg)
    else if path !in reg then Err(UnknownPath)
    else Ok(reg - {path})
  }

  /** The real interface name never removes anything: a transport that was
      added and then announced as removed stays registered. */
  lemma InterfaceRemovedKeepsTransport(reg: Registry, path: string)
    ensures InterfaceRemoved(InterfaceAdded(reg, path, MediaTransport), path, MediaTransport)
      == Ok(InterfaceAdded(reg, path, MediaTransport))
    ensures path in InterfaceRemoved(InterfaceAdded(reg, path, MediaTransport), path, MediaTransport).value
  {
  }

  /** `_interfaceRemoved` with the interface name it evidently means. */
  function InterfaceRemovedIntended(reg: Registry, path: string, iface: string): (r: Result<Registry>)
    ensures iface != MediaTransport ==> r == Ok(reg)
    ensures iface == MediaTransport && path !in reg ==> r == Err(UnknownPath)
    ensures iface == MediaTransport && path in reg ==>
      r.Ok? && r.value.Keys == reg.Keys - {path}
      && forall p :: p in r.value ==> r.value[p] == reg[p]
  {
    if iface != MediaTransport then Ok(reg)
    else if path !in reg then Err(UnknownPath)
    else Ok(reg - {path})
  }

  /** Removing an added transport restores the registry the add started
      from, when the path was new. */
  lemma AddThenRemoveIntended(reg: Registry, path: string)
    requires path !in reg
    ensures InterfaceRemovedIntended(InterfaceAdded(reg, path, MediaTransport), path, MediaTransport)
      == Ok(reg)
  {
    var added := InterfaceAdded(reg, path, MediaTransport);
    assert added - {path} == reg by {
      assert (added - {path}).Keys == reg.Keys;
    }
  }

  /** The callbacks a `State` value makes: 'pending' plays, 'idle' pauses. */
  function StateEvents(state: Option<string>): seq<BtEvent> {
    match state
    case Some(s) =>
      if s == "pending" then [Play]
      else if s == "idle" then [Pause]
      else []
    case None => []
  }

  /** `_propertiesChanged`: for a media transport, register an unknown path
      with volume 0, then call back for the state and then for the volume. */
  function PropertiesChanged(reg: Registry, iface: string, changed: Changed, path: string): (s: Signal)
    ensures iface != MediaTransport ==> s == Signal(reg, [])
    ensures iface == MediaTransport ==>
      && s.registry.Keys == reg.Keys + {path}
      && (forall p :: p in reg ==> s.registry[p] == reg[p])
      && (path !in reg ==> s.registry[path] == 0)
    ensures |s.events| ==
      (if iface == MediaTransport && changed.state in {Some("pending"), Some("idle")} then 1 else 0)
      + (if iface == MediaTransport && changed.volume.Some? then 1 else 0)
    ensures Play in s.events <==> iface == MediaTransport && changed.state == Some("pending")
    ensures Pause in s.events <==> iface == MediaTransport && changed.state == Some("idle")
    ensures (exists v :: Volume(v) in s.events) <==> iface == MediaTransport && changed.volume.Some?
    ensures iface == MediaTransport && changed.volume.Some? ==>
      s.events[|s.events| - 1] == Volume(changed.volume.value)
  {
    if iface != MediaTransport then Signal(reg, [])
    else
      var reg' := if path !in reg then reg[path := 0] else reg;
      var volume := match changed.volume
        case Some(v) => [Volume(v)]
        case None => [];
      Signal(reg', StateEvents(changed.state) + volume)
  }

  /** None of the three handlers ever stores a volume other than 0. */
  lemma HandlersKeepVolumesZero(reg: Registry, path: string, iface: string, changed: Changed)
    requires AllVolumesZero(reg)
    ensures AllVolumesZero(InterfaceAdded(reg, path, iface))
    ensures InterfaceRemoved(reg, path, iface).Ok? ==> AllVolumesZero(InterfaceRemoved(reg, path, iface).value)
    ensures InterfaceRemovedIntended(reg, path, iface).Ok? ==>
      AllVolumesZero(InterfaceRemovedIntended(reg, path, iface).value)
    ensures AllVolumesZero(PropertiesChanged(reg, iface, changed, path).registry)
  {
  }

  /** A state change and a volume change in one signal: play, then volume. */
  lemma PlayThenVolume(reg: Registry, path: string, v: nat)
    ensures PropertiesChanged(reg, MediaTransport, Changed(Some("pending"), Some(v)), path).events
      == [Play, Volume(v)]
  {
  }
}
