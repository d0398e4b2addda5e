/**
 * The older polling script harbormaster.py as a stateful object: the
 * dict `dRunning` (a local of `main`), the global `dockerTunnel`, the
 * shell start-up file, and the loops of the `while True` round and of
 * `cleanup`. Each method is proved to do what the matching function of
 * PollingRound describes. Since `dRunning` is local to `main`, `cleanup`
 * can only reach the global control tunnel, which is why it leaves every
 * stored forward running.
 */
module Poller {
  import opened Wrappers
  import opened PyDict
  import opened DockerApi
  import opened Processes
  import opened ShellConfig
  import opened PollingRound

  class Poller {
    /** `dRunning`: container id to the one handle it stores, in dict order. */
    var running: Dict<ContainerId, Handle>
    /** Every process spawned so far; a handle is a position in this log. */
    var spawned: seq<Tunnel>
    /** Every `terminate()` call so far, in order. */
    var terminated: seq<Handle>
    /** The lines of the shell start-up file. */
    var profile: seq<string>
    /** The local port of the forwarded Docker socket (`-p`). */
    const port: int
    /** `dockerTunnel`. */
    const dockerTunnel: Handle

    function View(): PollState
      reads this
    {
      PollState(running, spawned, terminated)
    }

    ghost predicate Valid()
      reads this
    {
      PollInv(View(), dockerTunnel)
    }

    /** `configfile`, then the control-socket tunnel spawned at the top of `main`. */
    constructor (port: int, profile: seq<string>)
      ensures Valid()
      ensures this.port == port && this.profile == ConfigFile(profile, port)
      ensures View() == Initial() && dockerTunnel == CONTROL
    {
      this.port := port;
      this.profile := ConfigFile(profile, port);
      this.dockerTunnel := CONTROL;
      running := Empty();
      spawned := [ControlSocket];
      terminated := [];
      new;
      InitialPollInv();
    }

    /** `createTunnel`: a new process forwarding `hostPort`; its handle is returned. */
    method CreateTunnel(hostPort: HostPort) returns (h: Handle)
      modifies this`spawned
      ensures h == |old(spawned)| && spawned == old(spawned) + [Forward(hostPort)]
    {
      h := |spawned|;
      spawned := spawned + [Forward(hostPort)];
    }

    /** `p.terminate()`. */
    method Terminate(h: Handle)
      modifies this`terminated
      ensures terminated == old(terminated) + [h]
    {
      terminated := terminated + [h];
    }

    /**
     * The loops over the `NetworkSettings.Ports` of a new container: a
     * tunnel per binding, each stored as `dRunning[id]` and `tRunning[id]`.
     */
    method SpawnTunnels(id: ContainerId, entries: seq<PortEntry>, seen: set<ContainerId>)
      returns (seen': set<ContainerId>)
      modifies this`running, this`spawned
      ensures Scan(View(), seen') == SpawnAll(Scan(old(View()), seen), id, HostPorts(entries))
    {
      seen' := seen;
      for i := 0 to |entries|
        invariant terminated == old(terminated)
        invariant SpawnAll(Scan(View(), seen'), id, HostPorts(entries[i..]))
               == SpawnAll(Scan(old(View()), seen), id, HostPorts(entries))
      {
        assert HostPorts(entries[i..]) == Bindings(entries[i]) + HostPorts(entries[i + 1..]) by {
          assert entries[i..][0] == entries[i] && entries[i..][1..] == entries[i + 1..];
        }
        var v := entries[i].bindings;
        if v.Some? && v.value != [] {
          var bindings := v.value;
          assert bindings == Bindings(entries[i]) && bindings[0..] == bindings;
          for j := 0 to |bindings|
            invariant terminated == old(terminated)
            invariant SpawnAll(Scan(View(), seen'), id, bindings[j..] + HostPorts(entries[i + 1..]))
                   == SpawnAll(Scan(old(View()), seen), id, HostPorts(entries))
          {
            ghost var before := Scan(View(), seen');
            SliceAppendTail(bindings, j, HostPorts(entries[i + 1..]));
            var proc := CreateTunnel(bindings[j]);
            running := running.Put(id, proc);
            seen' := seen' + {id};
            assert running == before.state.running.Put(id, |before.state.spawned|)
              && spawned == before.state.spawned + [Forward(bindings[j])]
              && terminated == before.state.terminated && seen' == before.seen + {id};
            assert Scan(View(), seen') == Spawn(before, id, bindings[j]);
          }
          assert bindings[|bindings|..] + HostPorts(entries[i + 1..]) == HostPorts(entries[i + 1..]);
        } else {
          assert Bindings(entries[i]) == [];
          assert HostPorts(entries[i..]) == HostPorts(entries[i + 1..]);
        }
      }
    }

    /** The dead keys, each tunnel terminated and then `del dRunning[k]`. */
    method ReapDead(dead: seq<ContainerId>)
      requires forall k :: k in dead ==> k in running.entries
      requires NoDup(dead)
      modifies this`running, this`terminated
      ensures View() == Reap(old(View()), dead)
    {
      for j := 0 to |dead|
        invariant spawned == old(spawned)
        invariant forall k :: k in dead[j..] ==> k in running.entries
        invariant NoDup(dead[j..])
        invariant Reap(View(), dead[j..]) == Reap(old(View()), dead)
      {
        assert dead[j..][0] == dead[j] && dead[j..][1..] == dead[j + 1..];
        NoDupTail(dead[j..]);
        Terminate(running.entries[dead[j]]);
        running := running.Delete(dead[j]);
      }
    }

    /**
     * One pass of `while True`: walk `cList`, then reap the keys of
     * `dRunning` not in `tRunning`; `crashed` when `.items()` met null ports.
     */
    method RunRound(cs: seq<Container>) returns (crashed: bool)
      requires Valid()
      modifies this`running, this`spawned, this`terminated
      ensures Valid()
      ensures Outcome(View(), crashed) == Round(old(View()), cs)
    {
      RoundKeepsInv(View(), cs, dockerTunnel);
      ScanListValid(Scan(View(), {}), cs);
      var seen: set<ContainerId> := {};
      for i := 0 to |cs|
        invariant terminated == old(terminated)
        invariant ScanList(Scan(View(), seen), cs[i..]) == ScanList(Scan(old(View()), {}), cs)
      {
        assert cs[i..][0] == cs[i] && cs[i..][1..] == cs[i + 1..];
        var c := cs[i];
        if c.id !in running.entries {
          match c.ports
          case None =>
            return true;
          case Some(entries) =>
            seen := SpawnTunnels(c.id, entries, seen);
        } else {
          seen := seen + {c.id};
        }
      }
      var dead := DeadKeys(running.keys, seen);
      ReapDead(dead);
      crashed := false;
    }

    /** Successive rounds over the given container lists, until one raises. */
    method Poll(rounds: seq<seq<Container>>) returns (crashed: bool)
      requires Valid()
      modifies this`running, this`spawned, this`terminated
      ensures Valid()
      ensures Outcome(View(), crashed) == Rounds(old(View()), rounds)
    {
      crashed := false;
      var i := 0;
      while i < |rounds| && !crashed
        invariant 0 <= i <= |rounds|
        invariant Valid()
        invariant (if crashed then Outcome(View(), true) else Rounds(View(), rounds[i..])) == Rounds(old(View()), rounds)
      {
        assert rounds[i..][0] == rounds[i] && rounds[i..][1..] == rounds[i + 1..];
        crashed := RunRound(rounds[i]);
        i := i + 1;
      }
    }

    /**
     * `cleanup` of the older script: the marker lines removed from the shell
     * file, then only `dockerTunnel` terminated; every tunnel still stored
     * in `dRunning` is left running.
     */
    method Cleanup()
      requires Valid()
      modifies this`terminated, this`profile
      ensures profile == CleanFile(old(profile), port)
      ensures terminated == ShutdownLog(old(View()), dockerTunnel)
      ensures NoDup(terminated) && dockerTunnel in terminated
      ensures forall k :: k in running.entries ==> running.entries[k] !in terminated
    {
      ShutdownLeavesForwards(View(), dockerTunnel);
      profile := CleanFile(profile, port);
      Terminate(dockerTunnel);
    }
  }
}
