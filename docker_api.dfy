/**
 * What the Docker client hands to the reconciliation code, reduced to the
 * fields it reads: container ids, the `NetworkSettings.Ports` mapping and
 * decoded events. The client itself is not modelled; its answers are inputs.
 */
module DockerApi {
  import opened Wrappers

  type ContainerId = string
  type HostPort = string

  /**
   * One item of a container's `NetworkSettings.Ports`: the key (such as
   * "3000/tcp") and its list of bindings, each reduced to its `HostPort`.
   * `None` stands for a null value (a port that is exposed but not published).
   */
  datatype PortEntry = PortEntry(key: string, bindings: Option<seq<HostPort>>)

  /** A listed container; `ports` is `None` when `NetworkSettings.Ports` is null. */
  datatype Container = Container(id: ContainerId, ports: Option<seq<PortEntry>>)

  /** A decoded event: its `Type`, its `status` and its `id`. */
  datatype Event = Event(kind: string, status: string, id: ContainerId)

  /**
   * The answer of `containers.get(event['id'])` at the moment the event is
   * handled: the container's ports, the `docker.errors.NotFound` exception,
   * or any other exception.
   */
  datatype Lookup = Found(ports: Option<seq<PortEntry>>) | NotFound | Failed

  /** One element of the event feed together with the lookup it triggers. */
  datatype Delivery = Delivery(event: Event, lookup: Lookup)

  predicate IsContainerEvent(e: Event, status: string) {
    e.kind == "container" && e.status == status
  }

  /** The bindings of one entry; a null or empty list yields none (`if v:`). */
  function Bindings(e: PortEntry): (ports: seq<HostPort>)
    ensures ports != [] <==> e.bindings.Some? && e.bindings.value != []
    ensures forall p :: p in ports <==> e.bindings.Some? && p in e.bindings.value
  {
    match e.bindings
    case None => []
    case Some(v) => v
  }

  /** Every host port bound for a container, entry by entry, binding by binding. */
  function HostPorts(entries: seq<PortEntry>): (ports: seq<HostPort>)
    ensures forall i :: 0 <= i < |entries| ==> forall p :: p in Bindings(entries[i]) ==> p in ports
    ensures forall p :: p in ports ==> exists i :: 0 <= i < |entries| && p in Bindings(entries[i])
  {
    if entries == [] then []
    else
      var rest := HostPorts(entries[1..]);
      assert forall i :: 1 <= i < |entries| ==> entries[i] == entries[1..][i - 1];
      Bindings(entries[0]) + rest
  }

  /** Host ports of consecutive entries are concatenated: one port per binding, entry by entry. */
  lemma {:induction false} HostPortsAppend(a: seq<PortEntry>, b: seq<PortEntry>)
    ensures HostPorts(a + b) == HostPorts(a) + HostPorts(b)
    decreases |a|
  {
    if a == [] {
      assert a + b == b;
    } else {
      assert (a + b)[0] == a[0] && (a + b)[1..] == a[1..] + b;
      HostPortsAppend(a[1..], b);
    }
  }

  /** A single entry contributes exactly its bindings, in their order. */
  lemma HostPortsSingle(e: PortEntry)
    ensures HostPorts([e]) == Bindings(e)
  {
    assert [e][1..] == [];
  }

  /** The host ports of a listed container; none when its ports are null. */
  function ContainerPorts(c: Container): (ports: seq<HostPort>)
    ensures c.ports.None? ==> ports == []
    ensures forall p :: p in ports ==> c.ports.Some? && exists i :: 0 <= i < |c.ports.value| && p in Bindings(c.ports.value[i])
  {
    match c.ports
    case None => []
    case Some(entries) => HostPorts(entries)
  }

  /** The ids of the listed containers, in order. */
  function Ids(cs: seq<Container>): (ids: seq<ContainerId>)
    ensures |ids| == |cs| && forall i :: 0 <= i < |cs| ==> ids[i] == cs[i].id
  {
    seq(|cs|, i requires 0 <= i < |cs| => cs[i].id)
  }

  /** Listed containers have pairwise different ids, as `containers.list()` returns them. */
  predicate DistinctIds(cs: seq<Container>) {
    forall i, j :: 0 <= i < j < |cs| ==> cs[i].id != cs[j].id
  }
}
