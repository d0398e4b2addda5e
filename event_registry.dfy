/**
 * The tunnel bookkeeping of harbormaster/harbormaster.py, as functions on
 * values: `dRunning` maps a container id to the handles of the tunnels
 * opened for it, filled by the start-up snapshot, changed by `start` and
 * `die` events, and drained by `cleanup`.
 */
module EventRegistry {
  import opened Wrappers
  import opened PyDict
  import opened DockerApi
  import opened Processes

  /** `dRunning` with the logs of spawned tunnels and of terminate requests. */
  datatype State = State(running: Dict<ContainerId, seq<Handle>>, spawned: seq<Tunnel>, terminated: seq<Handle>)

  /** The state reached and whether an exception other than NotFound left `main`. */
  datatype Run = Run(state: State, aborted: bool)

  /** The control-socket tunnel is the first process `main` spawns. */
  const CONTROL: Handle := 0

  /** The state right after the control-socket tunnel is spawned. */
  function Initial(): (s: State) {
    State(Empty(), [ControlSocket], [])
  }

  /** The handles stored for `id`; none when `id` is not a key. */
  function Tracked(s: State, id: ContainerId): (hs: seq<Handle>) {
    HandlesOf(s.running, id)
  }

  /** One `createTunnel` and its registration: appended to the list of `id`, or a new list. */
  function Register(s: State, id: ContainerId, port: HostPort): (r: State)
    ensures r.spawned == s.spawned + [Forward(port)] && r.terminated == s.terminated
    ensures id in r.running.entries && Tracked(r, id) == Tracked(s, id) + [|s.spawned|]
  {
    State(s.running.Put(id, Tracked(s, id) + [|s.spawned|]), s.spawned + [Forward(port)], s.terminated)
  }

  /** One tunnel per port, registered in turn under `id`. */
  function AddTunnels(s: State, id: ContainerId, ports: seq<HostPort>): (r: State)
    ensures r.terminated == s.terminated && |r.spawned| == |s.spawned| + |ports|
    decreases |ports|
  {
    if ports == [] then s else AddTunnels(Register(s, id, ports[0]), id, ports[1..])
  }

  /** A `die` for a tracked id: every handle terminated in order, then the key deleted. */
  function Close(s: State, id: ContainerId): (r: State)
    requires id in s.running.entries
    ensures id !in r.running.entries && r.spawned == s.spawned
    ensures r.terminated == s.terminated + Tracked(s, id)
  {
    State(s.running.Delete(id), s.spawned, s.terminated + s.running.entries[id])
  }

  /**
   * The start-up scan of `containers.list()`: a container already tracked is
   * skipped; for the others every host port gets a tunnel. Null ports on an
   * untracked container make `.items()` raise, which is not caught in `main`.
   */
  function Snapshot(s: State, cs: seq<Container>): (r: Run)
    ensures r.state.terminated == s.terminated && |s.spawned| <= |r.state.spawned|
    ensures r.aborted ==> exists c :: c in cs && c.ports.None? && c.id !in r.state.running.entries
    decreases |cs|
  {
    if cs == [] then Run(s, false)
    else if cs[0].id in s.running.entries then Snapshot(s, cs[1..])
    else
      match cs[0].ports
      case None => Run(s, true)
      case Some(entries) => Snapshot(AddTunnels(s, cs[0].id, HostPorts(entries)), cs[1..])
  }

  /** One turn of the event loop, with the `try`/`except docker.errors.NotFound` around it. */
  function OnEvent(s: State, d: Delivery): (r: Run)
    ensures r.aborted <==> (IsContainerEvent(d.event, "start") || IsContainerEvent(d.event, "die")) && d.lookup.Failed?
    ensures r.aborted ==> r.state == s
  {
    var e := d.event;
    if IsContainerEvent(e, "start") then
      match d.lookup
      case NotFound => Run(s, false)
      case Failed => Run(s, true)
      case Found(None) => Run(s, false)
      case Found(Some(entries)) => Run(AddTunnels(s, e.id, HostPorts(entries)), false)
    else if IsContainerEvent(e, "die") then
      match d.lookup
      case NotFound => Run(s, false)
      case Failed => Run(s, true)
      case Found(_) => Run(if e.id in s.running.entries then Close(s, e.id) else s, false)
    else Run(s, false)
  }

  /** The event loop over a finite prefix of the feed, in feed order, until an exception escapes. */
  function Replay(s: State, feed: seq<Delivery>): (r: Run)
    ensures r.aborted ==> exists i :: 0 <= i < |feed| && feed[i].lookup.Failed?
    decreases |feed|
  {
    if feed == [] then Run(s, false)
    else
      var step := OnEvent(s, feed[0]);
      if step.aborted then step else Replay(step.state, feed[1..])
  }

  /** The handles of the keys `ks`, key by key, each list in its order. */
  function Drain(d: Dict<ContainerId, seq<Handle>>, ks: seq<ContainerId>): (hs: seq<Handle>)
    ensures forall h :: h in hs ==> exists k :: k in ks && h in HandlesOf(d, k)
  {
    if ks == [] then [] else Drain(d, ks[..|ks| - 1]) + HandlesOf(d, ks[|ks| - 1])
  }

  function HandlesOf(d: Dict<ContainerId, seq<Handle>>, k: ContainerId): (hs: seq<Handle>) {
    if k in d.entries then d.entries[k] else []
  }

  /** The terminate log after `cleanup`: every stored handle in dict order, then the control tunnel. */
  function ShutdownLog(s: State, control: Handle): (log: seq<Handle>)
    ensures |log| > |s.terminated| && log[..|s.terminated|] == s.terminated && log[|log| - 1] == control
  {
    s.terminated + Drain(s.running, s.running.keys) + [control]
  }

  // ---------------------------------------------------------------------
  // The registry invariant

  /** `h` is stored under some key. */
  ghost predicate Stored(m: map<ContainerId, seq<Handle>>, h: Handle) {
    exists id :: id in m && h in m[id]
  }

  /** No handle is stored under two keys. */
  ghost predicate Disjoint(m: map<ContainerId, seq<Handle>>) {
    forall a, b, h :: a in m && b in m && h in m[a] && h in m[b] ==> a == b
  }

  /** A stored list: non-empty, no repeats, each a port tunnel still running. */
  ghost predicate LiveList(s: State, hs: seq<Handle>) {
    && |hs| > 0
    && NoDup(hs)
    && forall h :: h in hs ==> h < |s.spawned| && s.spawned[h].Forward? && h !in s.terminated
  }

  /**
   * What the bookkeeping keeps true while `main` runs: the control tunnel is
   * running, no handle was terminated twice, every stored list is non-empty
   * and holds running port tunnels only, no handle is stored twice, and every
   * running port tunnel is stored (none is orphaned).
   */
  ghost predicate Inv(s: State, control: Handle) {
    && s.running.Valid()
    && control < |s.spawned| && s.spawned[control] == ControlSocket && control !in s.terminated
    && (forall h :: 0 <= h < |s.spawned| && h != control ==> s.spawned[h].Forward?)
    && NoDup(s.terminated)
    && (forall h :: h in s.terminated ==> h < |s.spawned|)
    && (forall id :: id in s.running.entries ==> LiveList(s, s.running.entries[id]))
    && Disjoint(s.running.entries)
    && (forall h: Handle :: h < |s.spawned| && s.spawned[h].Forward? && h !in s.terminated ==> Stored(s.running.entries, h))
  }

  lemma InitialInv()
    ensures Inv(Initial(), CONTROL)
  {
  }

  lemma {:induction false} RegisterKeepsInv(s: State, control: Handle, id: ContainerId, port: HostPort)
    requires Inv(s, control)
    ensures Inv(Register(s, id, port), control)
  {
    var r := Register(s, id, port);
    var n := |s.spawned|;
    var m, m' := s.running.entries, r.running.entries;
    assert m' == m[id := Tracked(s, id) + [n]];
    assert n !in s.terminated;
    forall k | k in m ensures n !in m[k] {
      assert LiveList(s, m[k]);
    }
    assert r.spawned == s.spawned + [Forward(port)] && r.terminated == s.terminated;
    forall k | k in m' ensures LiveList(r, m'[k]) {
      if k != id {
        LiveListGrows(s, r, m[k]);
      } else {
        var hs := Tracked(s, id);
        if id in m { LiveListGrows(s, r, m[id]); }
        NoDupAppend(hs, [n]);
        assert forall h :: h in hs + [n] ==> h in hs || h == n;
      }
    }
    AppendFresh(m, id, n);
    forall h: Handle | h < |r.spawned| && r.spawned[h].Forward? && h !in r.terminated
      ensures Stored(m', h)
    {
      if h != n {
        assert s.spawned[h] == r.spawned[h];
      }
    }
  }

  /** A stored list stays live while processes are only spawned. */
  lemma LiveListGrows(s: State, r: State, hs: seq<Handle>)
    requires LiveList(s, hs)
    requires |s.spawned| <= |r.spawned| && r.spawned[..|s.spawned|] == s.spawned && r.terminated == s.terminated
    ensures LiveList(r, hs)
  {
    forall h | h in hs ensures r.spawned[h] == s.spawned[h] {
      assert r.spawned[..|s.spawned|][h] == r.spawned[h];
    }
  }

  /** Appending a handle stored nowhere to the list of `id` keeps lists disjoint and loses no handle. */
  lemma AppendFresh(m: map<ContainerId, seq<Handle>>, id: ContainerId, n: Handle)
    requires Disjoint(m)
    requires forall k :: k in m ==> n !in m[k]
    ensures var m' := m[id := (if id in m then m[id] else []) + [n]];
      && Disjoint(m')
      && Stored(m', n)
      && (forall h :: Stored(m, h) ==> Stored(m', h))
  {
    var m' := m[id := (if id in m then m[id] else []) + [n]];
    forall a, b, h | a in m' && b in m' && h in m'[a] && h in m'[b] ensures a == b {
      if h != n {
        assert a != id ==> h in m[a];
        assert b != id ==> h in m[b];
      }
    }
    assert n in m'[id];
    forall h | Stored(m, h) ensures Stored(m', h) {
      var k :| k in m && h in m[k];
      assert h in m'[k];
    }
  }

  lemma {:induction false} AddTunnelsKeepsInv(s: State, control: Handle, id: ContainerId, ports: seq<HostPort>)
    requires Inv(s, control)
    ensures Inv(AddTunnels(s, id, ports), control)
    decreases |ports|
  {
    if ports != [] {
      RegisterKeepsInv(s, control, id, ports[0]);
      AddTunnelsKeepsInv(Register(s, id, ports[0]), control, id, ports[1..]);
    }
  }

  lemma {:induction false} CloseKeepsInv(s: State, control: Handle, id: ContainerId)
    requires Inv(s, control) && id in s.running.entries
    ensures Inv(Close(s, id), control)
  {
    var r := Close(s, id);
    var m, m' := s.running.entries, r.running.entries;
    var hs := m[id];
    assert LiveList(s, hs);
    NoDupAppend(s.terminated, hs);
    forall k | k in m' ensures LiveList(r, m'[k]) {
      assert LiveList(s, m[k]);
    }
    forall h: Handle | h < |r.spawned| && r.spawned[h].Forward? && h !in r.terminated
      ensures Stored(m', h)
    {
      var k :| k in m && h in m[k];
      assert k != id;
      assert h in m'[k];
    }
  }

  lemma {:induction false} SnapshotKeepsInv(s: State, control: Handle, cs: seq<Container>)
    requires Inv(s, control)
    ensures Inv(Snapshot(s, cs).state, control)
    decreases |cs|
  {
    if cs != [] && cs[0].id !in s.running.entries && cs[0].ports.Some? {
      var s' := AddTunnels(s, cs[0].id, HostPorts(cs[0].ports.value));
      AddTunnelsKeepsInv(s, control, cs[0].id, HostPorts(cs[0].ports.value));
      SnapshotKeepsInv(s', control, cs[1..]);
    } else if cs != [] && cs[0].id in s.running.entries {
      SnapshotKeepsInv(s, control, cs[1..]);
    }
  }

  lemma OnEventKeepsInv(s: State, control: Handle, d: Delivery)
    requires Inv(s, control)
    ensures Inv(OnEvent(s, d).state, control)
  {
    var e := d.event;
    if IsContainerEvent(e, "start") && d.lookup.Found? && d.lookup.ports.Some? {
      AddTunnelsKeepsInv(s, control, e.id, HostPorts(d.lookup.ports.value));
    } else if IsContainerEvent(e, "die") && d.lookup.Found? && e.id in s.running.entries {
      CloseKeepsInv(s, control, e.id);
    }
  }

  lemma {:induction false} ReplayKeepsInv(s: State, control: Handle, feed: seq<Delivery>)
    requires Inv(s, control)
    ensures Inv(Replay(s, feed).state, control)
    decreases |feed|
  {
    if feed != [] {
      OnEventKeepsInv(s, control, feed[0]);
      ReplayKeepsInv(OnEvent(s, feed[0]).state, control, feed[1..]);
    }
  }

  // ---------------------------------------------------------------------
  // What each operation does

  /**
   * Opening tunnels for `ports`: one new process per port, in order, with
   * consecutive fresh handles appended after the handles `id` already had;
   * no other key changes and nothing is terminated. No ports: no change.
   */
  lemma {:induction false} AddTunnelsEffect(s: State, id: ContainerId, ports: seq<HostPort>)
    ensures var r := AddTunnels(s, id, ports);
      && r.spawned == s.spawned + Forwards(ports)
      && r.terminated == s.terminated
      && (ports == [] ==> r.running == s.running)
      && (ports != [] ==> r.running == s.running.Put(id, Tracked(s, id) + Fresh(|s.spawned|, |ports|)))
  {
    AddTunnelsSpawns(s, id, ports);
    if ports != [] {
      AddTunnelsRegisters(s, id, ports);
    }
  }

  lemma {:induction false} AddTunnelsSpawns(s: State, id: ContainerId, ports: seq<HostPort>)
    ensures AddTunnels(s, id, ports).spawned == s.spawned + Forwards(ports)
    ensures AddTunnels(s, id, ports).terminated == s.terminated
    decreases |ports|
  {
    if ports != [] {
      var s1 := Register(s, id, ports[0]);
      assert AddTunnels(s, id, ports) == AddTunnels(s1, id, ports[1..]);
      AddTunnelsSpawns(s1, id, ports[1..]);
      SpawnsCons(s.spawned, s1.spawned, AddTunnels(s1, id, ports[1..]).spawned, ports);
    }
  }

  lemma {:induction false} AddTunnelsRegisters(s: State, id: ContainerId, ports: seq<HostPort>)
    requires ports != []
    ensures AddTunnels(s, id, ports).running == s.running.Put(id, Tracked(s, id) + Fresh(|s.spawned|, |ports|))
    decreases |ports|
  {
    var n := |s.spawned|;
    var s1 := Register(s, id, ports[0]);
    var whole := Tracked(s, id) + Fresh(n, |ports|);
    if ports[1..] == [] {
      assert Fresh(n, 1) == [n];
    } else {
      AddTunnelsRegisters(s1, id, ports[1..]);
      assert Tracked(s1, id) + Fresh(n + 1, |ports| - 1) == whole;
      s.running.PutPut(id, Tracked(s, id) + [n], whole);
    }
  }

  /** The host ports a delivery opens tunnels for: those of a `start` whose container was found with non-null ports. */
  function StartPorts(d: Delivery): seq<HostPort> {
    if IsContainerEvent(d.event, "start") && d.lookup.Found? && d.lookup.ports.Some?
    then HostPorts(d.lookup.ports.value) else []
  }

  /** A delivery that closes tunnels: a `die` whose container was found and whose id is tracked. */
  predicate Closes(s: State, d: Delivery) {
    IsContainerEvent(d.event, "die") && d.lookup.Found? && d.event.id in s.running.entries
  }

  /**
   * One turn of the event loop, every case at once: the loop stops only
   * when the lookup of a `start` or `die` raises something other than
   * NotFound; tunnels are spawned only for a found `start`'s ports and
   * appended after the id's existing handles; only a found `die` of a
   * tracked id terminates, exactly that id's handles, and drops the key;
   * every other id keeps its handles.
   */
  lemma OnEventEffect(s: State, d: Delivery)
    ensures var r := OnEvent(s, d); var id := d.event.id;
      && (r.aborted <==> (IsContainerEvent(d.event, "start") || IsContainerEvent(d.event, "die")) && d.lookup.Failed?)
      && r.state.spawned == s.spawned + Forwards(StartPorts(d))
      && r.state.terminated == s.terminated + (if Closes(s, d) then s.running.entries[id] else [])
      && (forall k :: k != id ==> (k in r.state.running.entries <==> k in s.running.entries))
      && (forall k :: k != id ==> Tracked(r.state, k) == Tracked(s, k))
      && (id in r.state.running.entries <==> !Closes(s, d) && (id in s.running.entries || StartPorts(d) != []))
      && Tracked(r.state, id) == (if Closes(s, d) then [] else Tracked(s, id) + Fresh(|s.spawned|, |StartPorts(d)|))
  {
    var ports := StartPorts(d);
    if ports != [] {
      AddTunnelsEffect(s, d.event.id, ports);
    } else if IsContainerEvent(d.event, "start") && d.lookup.Found? && d.lookup.ports.Some? {
      AddTunnelsEffect(s, d.event.id, ports);
    }
  }

  /**
   * A `start` whose container is found: the new handles go after the ones
   * already stored for the id, which are kept; one tunnel per host port.
   */
  lemma StartAppendsTunnels(s: State, d: Delivery, entries: seq<PortEntry>)
    requires IsContainerEvent(d.event, "start") && d.lookup == Found(Some(entries))
    ensures var r := OnEvent(s, d).state; var ports := HostPorts(entries);
      && !OnEvent(s, d).aborted
      && Tracked(r, d.event.id) == Tracked(s, d.event.id) + Fresh(|s.spawned|, |ports|)
      && r.spawned == s.spawned + Forwards(ports)
      && r.terminated == s.terminated
  {
    OnEventEffect(s, d);
  }

  /** A `start` whose lookup raised NotFound, or whose ports are null, changes nothing and the loop goes on. */
  lemma StartWithoutPortsIgnored(s: State, d: Delivery)
    requires IsContainerEvent(d.event, "start") && (d.lookup == NotFound || d.lookup == Found(None))
    ensures OnEvent(s, d) == Run(s, false)
  {
  }

  /** A found `die` of a tracked id: its handles are terminated, each once, in order; the key goes; nothing else changes. */
  lemma DieClosesTunnels(s: State, d: Delivery)
    requires IsContainerEvent(d.event, "die") && d.lookup.Found? && d.event.id in s.running.entries
    ensures var r := OnEvent(s, d).state;
      && !OnEvent(s, d).aborted
      && r.terminated == s.terminated + s.running.entries[d.event.id]
      && d.event.id !in r.running.entries
      && r.running.entries == s.running.entries - {d.event.id}
      && r.spawned == s.spawned
  {
  }

  /** A `die` for an untracked id or one whose lookup raised NotFound, and any other event, change nothing and the loop goes on. */
  lemma OtherEventsIgnored(s: State, d: Delivery)
    requires || (IsContainerEvent(d.event, "die") && (d.lookup == NotFound || (d.lookup.Found? && d.event.id !in s.running.entries)))
             || (!IsContainerEvent(d.event, "start") && !IsContainerEvent(d.event, "die"))
    ensures OnEvent(s, d) == Run(s, false)
  {
  }

  /** The snapshot leaves alone every id already tracked or not listed, never terminates, and only appends spawns. */
  lemma {:induction false} SnapshotFrame(s: State, cs: seq<Container>)
    ensures var r := Snapshot(s, cs).state;
      && r.terminated == s.terminated
      && |s.spawned| <= |r.spawned| && r.spawned[..|s.spawned|] == s.spawned
      && (forall id :: (id in s.running.entries || id !in Ids(cs)) ==>
            (id in r.running.entries <==> id in s.running.entries) && Tracked(r, id) == Tracked(s, id))
    decreases |cs|
  {
    if cs != [] {
      var c := cs[0];
      assert Ids(cs) == [c.id] + Ids(cs[1..]);
      if c.id in s.running.entries {
        SnapshotFrame(s, cs[1..]);
      } else if c.ports.Some? {
        var s1 := AddTunnels(s, c.id, HostPorts(c.ports.value));
        AddTunnelsEffect(s, c.id, HostPorts(c.ports.value));
        SnapshotFrame(s1, cs[1..]);
        var r := Snapshot(s, cs).state;
        assert r.spawned[..|s.spawned|] == s1.spawned[..|s.spawned|];
      }
    }
  }

  /**
   * `id` holds exactly one handle per port of `ports`, the k-th forwarding
   * the k-th port, and is a key exactly when there is a port.
   */
  ghost predicate OpenedFor(r: State, id: ContainerId, ports: seq<HostPort>) {
    && (id in r.running.entries <==> ports != [])
    && |Tracked(r, id)| == |ports|
    && forall k :: 0 <= k < |ports| ==> Tracked(r, id)[k] < |r.spawned| && r.spawned[Tracked(r, id)[k]] == Forward(ports[k])
  }

  lemma AddTunnelsOpens(s: State, id: ContainerId, ports: seq<HostPort>)
    requires id !in s.running.entries
    ensures OpenedFor(AddTunnels(s, id, ports), id, ports)
  {
    AddTunnelsEffect(s, id, ports);
  }

  /** What a later step leaves alone stays opened: same handles, same key, spawn log only extended. */
  lemma OpenedForStable(r1: State, r2: State, id: ContainerId, ports: seq<HostPort>)
    requires OpenedFor(r1, id, ports)
    requires (id in r2.running.entries <==> id in r1.running.entries) && Tracked(r2, id) == Tracked(r1, id)
    requires |r1.spawned| <= |r2.spawned| && r2.spawned[..|r1.spawned|] == r1.spawned
    ensures OpenedFor(r2, id, ports)
  {
    forall k | 0 <= k < |ports| ensures r2.spawned[Tracked(r2, id)[k]] == Forward(ports[k]) {
      assert r2.spawned[..|r1.spawned|][Tracked(r1, id)[k]] == r1.spawned[Tracked(r1, id)[k]];
    }
  }

  /**
   * The snapshot, when no exception escapes: every listed container that was
   * not tracked gets exactly one tunnel per host-port binding, handle k
   * forwarding its k-th port, and is tracked exactly when it has a binding;
   * a container already tracked keeps its handles.
   */
  lemma {:induction false} SnapshotOpensOnePerBinding(s: State, cs: seq<Container>)
    requires DistinctIds(cs)
    ensures var run := Snapshot(s, cs);
      && (forall i :: 0 <= i < |cs| && cs[i].id in s.running.entries ==> Tracked(run.state, cs[i].id) == Tracked(s, cs[i].id))
      && (!run.aborted ==> forall i :: 0 <= i < |cs| && cs[i].id !in s.running.entries ==> OpenedFor(run.state, cs[i].id, ContainerPorts(cs[i])))
    decreases |cs|
  {
    SnapshotFrame(s, cs);
    if cs != [] {
      var c := cs[0];
      var rest := cs[1..];
      assert DistinctIds(rest) by {
        forall i, j | 0 <= i < j < |rest| ensures rest[i].id != rest[j].id {
          assert rest[i] == cs[i + 1] && rest[j] == cs[j + 1];
        }
      }
      if c.id in s.running.entries {
        SnapshotOpensOnePerBinding(s, rest);
        forall i | 1 <= i < |cs| ensures cs[i] == rest[i - 1] { }
      } else if c.ports.Some? {
        var s1 := AddTunnels(s, c.id, ContainerPorts(c));
        AddTunnelsEffect(s, c.id, ContainerPorts(c));
        AddTunnelsOpens(s, c.id, ContainerPorts(c));
        SnapshotOpensOnePerBinding(s1, rest);
        SnapshotFrame(s1, rest);
        var run := Snapshot(s1, rest);
        assert run == Snapshot(s, cs);
        assert c.id !in Ids(rest) by {
          forall i | 0 <= i < |rest| ensures Ids(rest)[i] != c.id { assert rest[i] == cs[i + 1]; }
        }
        OpenedForStable(s1, run.state, c.id, ContainerPorts(c));
        forall i | 1 <= i < |cs|
          ensures cs[i] == rest[i - 1]
          ensures cs[i].id in s1.running.entries <==> cs[i].id in s.running.entries
          ensures Tracked(s1, cs[i].id) == Tracked(s, cs[i].id)
        {
          assert cs[i].id != c.id;
        }
      }
    }
  }

  // ---------------------------------------------------------------------
  // Shutdown

  lemma {:induction false} DrainMembers(d: Dict<ContainerId, seq<Handle>>, ks: seq<ContainerId>)
    requires forall k :: k in ks ==> k in d.entries
    ensures forall k, h :: k in ks && h in d.entries[k] ==> h in Drain(d, ks)
    ensures forall h :: h in Drain(d, ks) ==> exists k :: k in ks && h in d.entries[k]
    decreases |ks|
  {
    if ks != [] {
      var init, last := ks[..|ks| - 1], ks[|ks| - 1];
      assert ks == init + [last];
      DrainMembers(d, init);
      forall h | h in Drain(d, ks) ensures exists k :: k in ks && h in d.entries[k] {
        if h in Drain(d, init) {
          var k :| k in init && h in d.entries[k];
          assert k in ks;
        } else {
          assert h in d.entries[last];
        }
      }
    }
  }

  lemma {:induction false} DrainNoDup(d: Dict<ContainerId, seq<Handle>>, ks: seq<ContainerId>)
    requires forall k :: k in ks ==> k in d.entries
    requires NoDup(ks) && Disjoint(d.entries)
    requires forall k :: k in d.entries ==> NoDup(d.entries[k])
    ensures NoDup(Drain(d, ks))
    decreases |ks|
  {
    if ks != [] {
      var init, last := ks[..|ks| - 1], ks[|ks| - 1];
      assert ks == init + [last];
      DrainNoDup(d, init);
      DrainMembers(d, init);
      forall h | h in Drain(d, init) ensures h !in d.entries[last] {
        var k :| k in init && h in d.entries[k];
        assert k != last;
      }
      NoDupAppend(Drain(d, init), d.entries[last]);
    }
  }

  /**
   * `cleanup` on a registry that satisfies the invariant: the log holds
   * every handle stored in the registry and nothing else beyond what was
   * already terminated, ends with the control tunnel, terminates no process
   * twice, and by then every process ever spawned has been terminated.
   */
  lemma ShutdownTerminatesEveryTunnelOnce(s: State, control: Handle)
    requires Inv(s, control)
    ensures var log := ShutdownLog(s, control);
      && log[|log| - 1] == control
      && (forall h :: h in log[|s.terminated|..|log| - 1] <==> Stored(s.running.entries, h))
      && NoDup(log)
      && (forall h: Handle :: h in log <==> h < |s.spawned|)
  {
    var d := s.running;
    var drained := Drain(d, d.keys);
    var log := ShutdownLog(s, control);
    DrainMembers(d, d.keys);
    forall k | k in d.entries ensures NoDup(d.entries[k]) {
      assert LiveList(s, d.entries[k]);
    }
    DrainNoDup(d, d.keys);
    forall h | h in drained ensures h !in s.terminated && h != control && h < |s.spawned| {
      var k :| k in d.keys && h in d.entries[k];
      assert LiveList(s, d.entries[k]);
    }
    NoDupAppend(s.terminated, drained);
    NoDupAppend(s.terminated + drained, [control]);
    assert log[|s.terminated|..|log| - 1] == drained;
    forall h | h in log ensures h < |s.spawned| {
      if h in drained {
        var k :| k in d.keys && h in d.entries[k];
        assert LiveList(s, d.entries[k]);
      }
    }
    forall h: Handle | h < |s.spawned| ensures h in log {
      if h !in s.terminated && h != control {
        assert s.spawned[h].Forward?;
        var k :| k in d.entries && h in d.entries[k];
        assert h in drained;
      }
    }
  }

  /**
   * A whole run of `main` followed by `cleanup`: whatever the snapshot and
   * the events were, and whether the run stopped at null ports in the
   * snapshot, at a failed lookup, or at the end of the feed, cleanup
   * terminates every process that was spawned, each exactly once. Each
   * container and each event is one step here, so an interrupt inside a
   * step is outside this statement.
   */
  lemma EveryTunnelTerminatedOnce(cs: seq<Container>, feed: seq<Delivery>)
    ensures var snap := Snapshot(Initial(), cs);
      var run := if snap.aborted then snap else Replay(snap.state, feed);
      var log := ShutdownLog(run.state, CONTROL);
      && NoDup(log)
      && forall h: Handle :: h in log <==> h < |run.state.spawned|
  {
    InitialInv();
    var snap := Snapshot(Initial(), cs);
    SnapshotKeepsInv(Initial(), CONTROL, cs);
    if !snap.aborted {
      ReplayKeepsInv(snap.state, CONTROL, feed);
    }
    var run := if snap.aborted then snap else Replay(snap.state, feed);
    ShutdownTerminatesEveryTunnelOnce(run.state, CONTROL);
  }
}
