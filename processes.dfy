/**
 * The SSH processes, abstracted. A spawned process is known only by its
 * handle, which is its position in the log of spawned tunnels; terminating
 * it appends the handle to the log of terminate requests.
 */
module Processes {
  import opened DockerApi

  type Handle = nat

  /** What a process forwards: the Docker control socket or one host port. */
  datatype Tunnel = ControlSocket | Forward(port: HostPort)

  /** The `n` handles given out after `start` processes already exist. */
  function Fresh(start: nat, n: nat): (hs: seq<Handle>)
    ensures |hs| == n && forall i :: 0 <= i < n ==> hs[i] == start + i
  {
    seq(n, i => start + i)
  }

  /** The tunnels spawned for `ports`, one per port, in order. */
  function Forwards(ports: seq<HostPort>): (ts: seq<Tunnel>)
    ensures |ts| == |ports| && forall i :: 0 <= i < |ports| ==> ts[i] == Forward(ports[i])
  {
    seq(|ports|, i requires 0 <= i < |ports| => Forward(ports[i]))
  }

  lemma ForwardsAppend(a: seq<HostPort>, b: seq<HostPort>)
    ensures Forwards(a + b) == Forwards(a) + Forwards(b)
  {
    assert forall i :: 0 <= i < |a + b| ==> Forwards(a + b)[i] == (Forwards(a) + Forwards(b))[i];
  }

  /** Spawning the forwards of `a` and then those of `b` spawns the forwards of `a + b`. */
  lemma SpawnsCompose(s0: seq<Tunnel>, s1: seq<Tunnel>, s2: seq<Tunnel>, a: seq<HostPort>, b: seq<HostPort>)
    requires s1 == s0 + Forwards(a) && s2 == s1 + Forwards(b)
    ensures s2 == s0 + Forwards(a + b)
  {
    ForwardsAppend(a, b);
  }

  /** Spawning one forward and then the forwards of the rest spawns the forwards of the whole list. */
  lemma SpawnsCons(s0: seq<Tunnel>, s1: seq<Tunnel>, s2: seq<Tunnel>, ports: seq<HostPort>)
    requires ports != []
    requires s1 == s0 + [Forward(ports[0])] && s2 == s1 + Forwards(ports[1..])
    ensures s2 == s0 + Forwards(ports)
  {
    assert Forwards([ports[0]]) == [Forward(ports[0])];
    assert [ports[0]] + ports[1..] == ports;
    SpawnsCompose(s0, s1, s2, [ports[0]], ports[1..]);
  }

  /** The forwards of `ports` sit in `log` one after the other, starting at `base`. */
  predicate SpawnedAt(log: seq<Tunnel>, base: nat, ports: seq<HostPort>)
  {
    base + |ports| <= |log| && log[base..base + |ports|] == Forwards(ports)
  }

  /** Forwards spawned right after `before` stay in place in any later log that keeps `after` as a prefix. */
  lemma SpawnedWindow(before: seq<Tunnel>, after: seq<Tunnel>, later: seq<Tunnel>, ports: seq<HostPort>)
    requires after == before + Forwards(ports)
    requires |after| <= |later| && later[..|after|] == after
    ensures SpawnedAt(later, |before|, ports)
  {
    assert later[|before|..|before| + |ports|] == after[|before|..];
  }
}
