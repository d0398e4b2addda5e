/**
 * harbormaster/harbormaster.py as a stateful object: the module globals
 * `dRunning` and `dockerTunnel`, the shell start-up file, and the loops of
 * `main` and `cleanup` that change them. Each method is proved to do what
 * the matching function of EventRegistry describes.
 */
module Harbormaster {
  import opened Wrappers
  import opened PyDict
  import opened DockerApi
  import opened Processes
  import opened ShellConfig
  import opened EventRegistry

  class Session {
    /** `dRunning`: container id to the handles of its tunnels, in dict order. */
    var running: Dict<ContainerId, seq<Handle>>
    /** Every process spawned so far; a handle is a position in this log. */
    var spawned: seq<Tunnel>
    /** Every `terminate()` call so far, in order. */
    var terminated: seq<Handle>
    /** The lines of the shell start-up file. */
    var profile: seq<string>
    /** The local port of the forwarded Docker socket (`-p`). */
    const port: int
    /** `dockerTunnel`. */
    const controlTunnel: Handle

    function View(): State
      reads this
    {
      State(running, spawned, terminated)
    }

    ghost predicate Valid()
      reads this
    {
      Inv(View(), controlTunnel)
    }

    /** The start of a run: the marker block written to the shell file, then the control-socket tunnel spawned. */
    constructor (port: int, profile: seq<string>)
      ensures Valid()
      ensures this.port == port && this.profile == ConfigFile(profile, port)
      ensures View() == Initial() && controlTunnel == CONTROL
    {
      this.port := port;
      this.profile := ConfigFile(profile, port);
      this.controlTunnel := CONTROL;
      running := Empty();
      spawned := [ControlSocket];
      terminated := [];
      new;
      InitialInv();
    }

    /** `createTunnel`: a new process forwarding `hostPort`; its handle is returned. */
    method CreateTunnel(hostPort: HostPort) returns (h: Handle)
      modifies this`spawned
      ensures h == |old(spawned)| && spawned == old(spawned) + [Forward(hostPort)]
    {
      h := |spawned|;
      spawned := spawned + [Forward(hostPort)];
    }

    /** `p.terminate()`. */
    method Terminate(h: Handle)
      modifies this`terminated
      ensures terminated == old(terminated) + [h]
    {
      terminated := terminated + [h];
    }

    /** The nested loops over `NetworkSettings.Ports`: one tunnel per binding, appended under `id`. */
    method OpenTunnels(id: ContainerId, entries: seq<PortEntry>)
      modifies this`running, this`spawned
      ensures View() == AddTunnels(old(View()), id, HostPorts(entries))
    {
      for i := 0 to |entries|
        invariant terminated == old(terminated)
        invariant AddTunnels(View(), id, HostPorts(entries[i..])) == AddTunnels(old(View()), id, HostPorts(entries))
      {
        assert HostPorts(entries[i..]) == Bindings(entries[i]) + HostPorts(entries[i + 1..]) by {
          assert entries[i..][0] == entries[i] && entries[i..][1..] == entries[i + 1..];
        }
        var v := entries[i].bindings;
        if v.Some? && v.value != [] {
          var bindings := v.value;
          assert bindings == Bindings(entries[i]) && bindings[0..] == bindings;
          for j := 0 to |bindings|
            invariant terminated == old(terminated)
            invariant AddTunnels(View(), id, bindings[j..] + HostPorts(entries[i + 1..]))
                   == AddTunnels(old(View()), id, HostPorts(entries))
          {
            ghost var before := View();
            SliceAppendTail(bindings, j, HostPorts(entries[i + 1..]));
            var proc := CreateTunnel(bindings[j]);
            assert proc == |before.spawned|;
            if id in running.entries {
              running := running.Put(id, running.entries[id] + [proc]);
            } else {
              assert Tracked(before, id) + [proc] == [proc];
              running := running.Put(id, [proc]);
            }
            assert running == before.running.Put(id, Tracked(before, id) + [proc]);
            assert View() == Register(before, id, bindings[j]);
          }
          assert bindings[|bindings|..] + HostPorts(entries[i + 1..]) == HostPorts(entries[i + 1..]);
        } else {
          assert Bindings(entries[i]) == [];
          assert HostPorts(entries[i..]) == HostPorts(entries[i + 1..]);
        }
      }
    }

    /** A tracked container died: terminate each of its tunnels, then `del dRunning[id]`. */
    method CloseTunnels(id: ContainerId)
      requires id in running.entries
      modifies this`running, this`terminated
      ensures View() == Close(old(View()), id)
    {
      var procs := running.entries[id];
      for k := 0 to |procs|
        invariant terminated == old(terminated) + procs[..k]
        invariant running == old(running) && spawned == old(spawned)
      {
        Terminate(procs[k]);
        assert procs[..k + 1] == procs[..k] + [procs[k]];
      }
      assert procs[..|procs|] == procs;
      running := running.Delete(id);
    }

    /** The start-up scan over `containers.list()`; `aborted` when `.items()` met null ports. */
    method ScanRunning(cs: seq<Container>) returns (aborted: bool)
      requires Valid()
      modifies this`running, this`spawned
      ensures Valid()
      ensures Run(View(), aborted) == Snapshot(old(View()), cs)
    {
      SnapshotKeepsInv(View(), controlTunnel, cs);
      for i := 0 to |cs|
        invariant Snapshot(View(), cs[i..]) == Snapshot(old(View()), cs)
      {
        assert cs[i..][0] == cs[i] && cs[i..][1..] == cs[i + 1..];
        var c := cs[i];
        if c.id !in running.entries {
          match c.ports
          case None =>
            return true;
          case Some(entries) =>
            OpenTunnels(c.id, entries);
        }
      }
      aborted := false;
    }

    /** One turn of the event loop; `aborted` when an exception other than NotFound escapes. */
    method HandleEvent(d: Delivery) returns (aborted: bool)
      requires Valid()
      modifies this`running, this`spawned, this`terminated
      ensures Valid()
      ensures Run(View(), aborted) == OnEvent(old(View()), d)
    {
      OnEventKeepsInv(View(), controlTunnel, d);
      var e := d.event;
      aborted := false;
      if IsContainerEvent(e, "start") {
        match d.lookup
        case NotFound =>
        case Failed =>
          aborted := true;
        case Found(ports) =>
          if ports.Some? {
            OpenTunnels(e.id, ports.value);
          }
      } else if IsContainerEvent(e, "die") {
        match d.lookup
        case NotFound =>
        case Failed =>
          aborted := true;
        case Found(_) =>
          if e.id in running.entries {
            CloseTunnels(e.id);
          }
      }
    }

    /** The event loop over the deliveries, in feed order, until an exception escapes. */
    method Watch(feed: seq<Delivery>) returns (aborted: bool)
      requires Valid()
      modifies this`running, this`spawned, this`terminated
      ensures Valid()
      ensures Run(View(), aborted) == Replay(old(View()), feed)
    {
      aborted := false;
      var i := 0;
      while i < |feed| && !aborted
        invariant 0 <= i <= |feed|
        invariant Valid()
        invariant (if aborted then Run(View(), true) else Replay(View(), feed[i..])) == Replay(old(View()), feed)
      {
        assert feed[i..][0] == feed[i] && feed[i..][1..] == feed[i + 1..];
        aborted := HandleEvent(feed[i]);
        i := i + 1;
      }
    }

    /** `main` after the control tunnel: the snapshot, then the event loop unless the snapshot raised. */
    method Serve(cs: seq<Container>, feed: seq<Delivery>) returns (aborted: bool)
      requires Valid()
      modifies this`running, this`spawned, this`terminated
      ensures Valid()
      ensures var snap := Snapshot(old(View()), cs);
        Run(View(), aborted) == if snap.aborted then snap else Replay(snap.state, feed)
    {
      aborted := ScanRunning(cs);
      if !aborted {
        aborted := Watch(feed);
      }
    }

    /** The loops of `cleanup` over `dRunning`: every stored tunnel terminated, in dict order. */
    method TerminateStored()
      modifies this`terminated
      ensures terminated == old(terminated) + Drain(running, running.keys)
    {
      var keys := running.keys;
      for i := 0 to |keys|
        invariant terminated == old(terminated) + Drain(running, keys[..i])
      {
        var procs := HandlesOf(running, keys[i]);
        for j := 0 to |procs|
          invariant terminated == old(terminated) + Drain(running, keys[..i]) + procs[..j]
        {
          Terminate(procs[j]);
          assert procs[..j + 1] == procs[..j] + [procs[j]];
        }
        assert keys[..i + 1][..i] == keys[..i] && procs[..|procs|] == procs;
      }
      assert keys[..|keys|] == keys;
    }

    /** The loops of `cleanup` and then `dockerTunnel.terminate()`. */
    method TerminateAll()
      modifies this`terminated
      ensures terminated == ShutdownLog(old(View()), controlTunnel)
    {
      TerminateStored();
      Terminate(controlTunnel);
    }

    /**
     * `cleanup`: the marker lines removed from the shell file, every stored
     * tunnel terminated in dict order, then the control tunnel. No process
     * is terminated twice and none is left running.
     */
    method Cleanup()
      requires Valid()
      modifies this`terminated, this`profile
      ensures profile == CleanFile(old(profile), port)
      ensures terminated == ShutdownLog(old(View()), controlTunnel)
      ensures NoDup(terminated) && forall h: Handle :: h in terminated <==> h < |spawned|
    {
      ghost var before := View();
      ShutdownTerminatesEveryTunnelOnce(before, controlTunnel);
      profile := CleanFile(profile, port);
      TerminateAll();
    }
  }
}
