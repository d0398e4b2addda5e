/**
 * The reconciliation round of the older polling script harbormaster.py, as
 * functions on values. Here `dRunning` maps a container id to a single
 * tunnel handle, and `tRunning` is reduced to its key set, which is all
 * the round reads of it.
 */
module PollingRound {
  import opened Wrappers
  import opened PyDict
  import opened DockerApi
  import opened Processes

  /** `dRunning` with the logs of spawned tunnels and of terminate requests. */
  datatype PollState = PollState(running: Dict<ContainerId, Handle>, spawned: seq<Tunnel>, terminated: seq<Handle>)

  /** The round while it walks `cList`: the state and the ids put into `tRunning` so far. */
  datatype Scan = Scan(state: PollState, seen: set<ContainerId>)

  /** Where a walk over containers stopped, and whether `.items()` raised on null ports. */
  datatype ScanRun = ScanRun(scan: Scan, crashed: bool)

  /** The state a round (or several) reached, and whether the exception left `main`. */
  datatype Outcome = Outcome(state: PollState, crashed: bool)

  /** `dockerTunnel` is the first process the script spawns. */
  const CONTROL: Handle := 0

  /** The state right after the control-socket tunnel is spawned. */
  function Initial(): (s: PollState) {
    PollState(Empty(), [ControlSocket], [])
  }

  /** The ids of the listed containers. */
  function Listed(cs: seq<Container>): (ids: set<ContainerId>)
    ensures forall i :: 0 <= i < |cs| ==> cs[i].id in ids
    ensures forall k :: k in ids ==> exists i :: 0 <= i < |cs| && cs[i].id == k
  {
    if cs == [] then {}
    else
      var rest := Listed(cs[1..]);
      assert forall i :: 1 <= i < |cs| ==> cs[i] == cs[1..][i - 1];
      {cs[0].id} + rest
  }

  /** The ids of the listed containers that publish at least one host port. */
  function Bound(cs: seq<Container>): (ids: set<ContainerId>)
    ensures ids <= Listed(cs)
  {
    if cs == [] then {}
    else (if ContainerPorts(cs[0]) == [] then {} else {cs[0].id}) + Bound(cs[1..])
  }

  /** One `createTunnel`, stored as `dRunning[c.id] = proc` and `tRunning[c.id] = proc`. */
  function Spawn(sc: Scan, id: ContainerId, port: HostPort): (r: Scan)
    ensures r.state.spawned == sc.state.spawned + [Forward(port)] && r.state.terminated == sc.state.terminated
    ensures id in r.state.running.entries && r.state.running.entries[id] == |sc.state.spawned| && id in r.seen
  {
    var s := sc.state;
    Scan(PollState(s.running.Put(id, |s.spawned|), s.spawned + [Forward(port)], s.terminated), sc.seen + {id})
  }

  /** One tunnel per host port of a new container, each overwriting the last one stored. */
  function SpawnAll(sc: Scan, id: ContainerId, ports: seq<HostPort>): (r: Scan)
    ensures r.state.terminated == sc.state.terminated && |r.state.spawned| == |sc.state.spawned| + |ports|
    decreases |ports|
  {
    if ports == [] then sc else SpawnAll(Spawn(sc, id, ports[0]), id, ports[1..])
  }

  /** The body of `for c in cList`: a tracked container is only marked as seen. */
  function Visit(sc: Scan, c: Container): (r: ScanRun)
    ensures r.crashed ==> r.scan == sc
    ensures r.scan.state.terminated == sc.state.terminated
  {
    if c.id in sc.state.running.entries then ScanRun(Scan(sc.state, sc.seen + {c.id}), false)
    else
      match c.ports
      case None => ScanRun(sc, true)
      case Some(entries) => ScanRun(SpawnAll(sc, c.id, HostPorts(entries)), false)
  }

  /** Only an untracked container with null `Ports` makes `.items()` raise. */
  lemma VisitCrashes(sc: Scan, c: Container)
    ensures Visit(sc, c).crashed <==> c.id !in sc.state.running.entries && c.ports.None?
  {
  }

  /** `for c in cList`, in list order, until `.items()` raises. */
  function ScanList(sc: Scan, cs: seq<Container>): (r: ScanRun)
    ensures r.scan.state.terminated == sc.state.terminated
    ensures r.crashed ==> exists c :: c in cs && c.ports.None?
    decreases |cs|
  {
    if cs == [] then ScanRun(sc, false)
    else
      var v := Visit(sc, cs[0]);
      if v.crashed then v else ScanList(v.scan, cs[1..])
  }

  /** The keys of `dead`: the keys of `dRunning`, in dict order, that are not in `tRunning`. */
  function DeadKeys(keys: seq<ContainerId>, seen: set<ContainerId>): (dead: seq<ContainerId>)
    ensures forall k :: k in dead <==> k in keys && k !in seen
    ensures NoDup(keys) ==> NoDup(dead)
  {
    if keys == [] then []
    else
      var rest := DeadKeys(keys[1..], seen);
      assert NoDup(keys) ==> NoDup(keys[1..]) by {
        if NoDup(keys) {
          forall i, j | 0 <= i < j < |keys[1..]| ensures keys[1..][i] != keys[1..][j] {
            assert keys[1..][i] == keys[i + 1] && keys[1..][j] == keys[j + 1];
          }
        }
      }
      if keys[0] in seen then rest
      else
        assert NoDup(keys) ==> NoDup([keys[0]] + rest) by {
          if NoDup(keys) { NoDupAppend([keys[0]], rest); }
        }
        [keys[0]] + rest
  }

  /** The handles stored under `ks`, in that order. */
  function HandlesAt(m: map<ContainerId, Handle>, ks: seq<ContainerId>): (hs: seq<Handle>)
    requires forall k :: k in ks ==> k in m
    ensures |hs| == |ks|
  {
    if ks == [] then [] else [m[ks[0]]] + HandlesAt(m, ks[1..])
  }

  /** The `i`-th handle is the one stored under the `i`-th key. */
  lemma {:induction false} HandlesAtIndex(m: map<ContainerId, Handle>, ks: seq<ContainerId>)
    requires forall k :: k in ks ==> k in m
    ensures forall i :: 0 <= i < |ks| ==> HandlesAt(m, ks)[i] == m[ks[i]]
  {
    if ks != [] {
      HandlesAtIndex(m, ks[1..]);
    }
  }

  /** The handles depend only on what is stored under the keys asked for. */
  lemma {:induction false} HandlesAtAgree(m1: map<ContainerId, Handle>, m2: map<ContainerId, Handle>, ks: seq<ContainerId>)
    requires forall k :: k in ks ==> k in m1 && k in m2 && m1[k] == m2[k]
    ensures HandlesAt(m1, ks) == HandlesAt(m2, ks)
  {
    if ks != [] {
      HandlesAtAgree(m1, m2, ks[1..]);
    }
  }

  /** `for k in dead`: terminate the stored tunnel, then `del dRunning[k]`. */
  function Reap(s: PollState, dead: seq<ContainerId>): (r: PollState)
    requires forall k :: k in dead ==> k in s.running.entries
    requires NoDup(dead)
    ensures r.spawned == s.spawned && |r.terminated| == |s.terminated| + |dead|
    decreases |dead|
  {
    if dead == [] then s
    else
      var k := dead[0];
      NoDupTail(dead);
      Reap(PollState(s.running.Delete(k), s.spawned, s.terminated + [s.running.entries[k]]), dead[1..])
  }

  /** One pass of `while True`: the scan of `cList`, then the dead keys reaped. */
  function Round(s: PollState, cs: seq<Container>): (r: Outcome)
    requires s.running.Valid()
    ensures r.crashed ==> r.state.terminated == s.terminated && exists c :: c in cs && c.ports.None?
  {
    var r := ScanList(Scan(s, {}), cs);
    if r.crashed then Outcome(r.scan.state, true)
    else
      ScanListValid(Scan(s, {}), cs);
      var t := r.scan.state;
      Outcome(Reap(t, DeadKeys(t.running.keys, r.scan.seen)), false)
  }

  /** Successive rounds, one container list each, until one of them raises. */
  function Rounds(s: PollState, rounds: seq<seq<Container>>): (r: Outcome)
    requires s.running.Valid()
    ensures r.crashed ==> exists i :: 0 <= i < |rounds| && exists c :: c in rounds[i] && c.ports.None?
    decreases |rounds|
  {
    if rounds == [] then Outcome(s, false)
    else
      var r := Round(s, rounds[0]);
      if r.crashed then r
      else
        RoundValid(s, rounds[0]);
        Rounds(r.state, rounds[1..])
  }

  // ---------------------------------------------------------------------
  // The dict stays well formed

  lemma {:induction false} SpawnAllValid(sc: Scan, id: ContainerId, ports: seq<HostPort>)
    requires sc.state.running.Valid()
    ensures SpawnAll(sc, id, ports).state.running.Valid()
    decreases |ports|
  {
    if ports != [] {
      SpawnAllValid(Spawn(sc, id, ports[0]), id, ports[1..]);
    }
  }

  lemma {:induction false} ScanListValid(sc: Scan, cs: seq<Container>)
    requires sc.state.running.Valid()
    ensures ScanList(sc, cs).scan.state.running.Valid()
    decreases |cs|
  {
    if cs != [] {
      var c := cs[0];
      if c.id !in sc.state.running.entries && c.ports.Some? {
        SpawnAllValid(sc, c.id, HostPorts(c.ports.value));
      }
      if !Visit(sc, c).crashed {
        ScanListValid(Visit(sc, c).scan, cs[1..]);
      }
    }
  }

  lemma {:induction false} ReapValid(s: PollState, dead: seq<ContainerId>)
    requires forall k :: k in dead ==> k in s.running.entries
    requires NoDup(dead)
    requires s.running.Valid()
    ensures Reap(s, dead).running.Valid()
    decreases |dead|
  {
    if dead != [] {
      var k := dead[0];
      NoDupTail(dead);
      ReapValid(PollState(s.running.Delete(k), s.spawned, s.terminated + [s.running.entries[k]]), dead[1..]);
    }
  }

  lemma RoundValid(s: PollState, cs: seq<Container>)
    requires s.running.Valid()
    ensures Round(s, cs).state.running.Valid()
  {
    var r := ScanList(Scan(s, {}), cs);
    ScanListValid(Scan(s, {}), cs);
    if !r.crashed {
      var t := r.scan.state;
      ReapValid(t, DeadKeys(t.running.keys, r.scan.seen));
    }
  }

  // ---------------------------------------------------------------------
  // The registry invariant

  /** Some key of `m` stores `h`. */
  ghost predicate StoredIn(m: map<ContainerId, Handle>, h: Handle) {
    exists k :: k in m && m[k] == h
  }

  /**
   * What holds of the script's state between statements: the dict is well
   * formed; the control tunnel is spawned and never terminated; every other
   * process forwards a host port; every stored handle is a live forward
   * stored under one key only; no handle was terminated twice.
   */
  ghost predicate PollInv(s: PollState, control: Handle) {
    && s.running.Valid()
    && control < |s.spawned| && s.spawned[control] == ControlSocket
    && (forall h: Handle :: h < |s.spawned| && h != control ==> s.spawned[h].Forward?)
    && NoDup(s.terminated)
    && (forall h :: h in s.terminated ==> h < |s.spawned| && h != control)
    && (forall k :: k in s.running.entries ==>
          s.running.entries[k] < |s.spawned| && s.running.entries[k] != control && s.running.entries[k] !in s.terminated)
    && (forall k1, k2 :: k1 in s.running.entries && k2 in s.running.entries && k1 != k2 ==>
          s.running.entries[k1] != s.running.entries[k2])
  }

  lemma InitialPollInv()
    ensures PollInv(Initial(), CONTROL)
  {
  }

  lemma SpawnKeepsInv(sc: Scan, id: ContainerId, port: HostPort, control: Handle)
    requires PollInv(sc.state, control)
    ensures PollInv(Spawn(sc, id, port).state, control)
  {
    var s := sc.state;
    var r := Spawn(sc, id, port).state;
    forall h: Handle | h < |r.spawned| && h != control ensures r.spawned[h].Forward? {
      if h < |s.spawned| { assert r.spawned[h] == s.spawned[h]; }
    }
  }

  lemma {:induction false} SpawnAllKeepsInv(sc: Scan, id: ContainerId, ports: seq<HostPort>, control: Handle)
    requires PollInv(sc.state, control)
    ensures PollInv(SpawnAll(sc, id, ports).state, control)
    decreases |ports|
  {
    if ports != [] {
      SpawnKeepsInv(sc, id, ports[0], control);
      SpawnAllKeepsInv(Spawn(sc, id, ports[0]), id, ports[1..], control);
    }
  }

  lemma {:induction false} ScanListKeepsInv(sc: Scan, cs: seq<Container>, control: Handle)
    requires PollInv(sc.state, control)
    ensures PollInv(ScanList(sc, cs).scan.state, control)
    decreases |cs|
  {
    if cs != [] {
      var c := cs[0];
      if c.id !in sc.state.running.entries && c.ports.Some? {
        SpawnAllKeepsInv(sc, c.id, HostPorts(c.ports.value), control);
      }
      if !Visit(sc, c).crashed {
        ScanListKeepsInv(Visit(sc, c).scan, cs[1..], control);
      }
    }
  }

  lemma {:induction false} ReapKeepsInv(s: PollState, dead: seq<ContainerId>, control: Handle)
    requires forall k :: k in dead ==> k in s.running.entries
    requires NoDup(dead)
    requires PollInv(s, control)
    ensures PollInv(Reap(s, dead), control)
    decreases |dead|
  {
    if dead != [] {
      var k := dead[0];
      var h := s.running.entries[k];
      var next := PollState(s.running.Delete(k), s.spawned, s.terminated + [h]);
      NoDupTail(dead);
      NoDupAppend(s.terminated, [h]);
      assert PollInv(next, control);
      ReapKeepsInv(next, dead[1..], control);
    }
  }

  lemma RoundKeepsInv(s: PollState, cs: seq<Container>, control: Handle)
    requires PollInv(s, control)
    ensures PollInv(Round(s, cs).state, control)
  {
    var r := ScanList(Scan(s, {}), cs);
    ScanListKeepsInv(Scan(s, {}), cs, control);
    if !r.crashed {
      var t := r.scan.state;
      ReapKeepsInv(t, DeadKeys(t.running.keys, r.scan.seen), control);
    }
  }

  lemma {:induction false} RoundsKeepInv(s: PollState, rounds: seq<seq<Container>>, control: Handle)
    requires PollInv(s, control)
    ensures PollInv(Rounds(s, rounds).state, control)
    decreases |rounds|
  {
    if rounds != [] {
      RoundKeepsInv(s, rounds[0], control);
      if !Round(s, rounds[0]).crashed {
        RoundsKeepInv(Round(s, rounds[0]).state, rounds[1..], control);
      }
    }
  }

  // ---------------------------------------------------------------------
  // What a round does

  /** A new container's ports: one process each, in order; nothing terminated. */
  lemma {:induction false} SpawnAllLog(sc: Scan, id: ContainerId, ports: seq<HostPort>)
    ensures var r := SpawnAll(sc, id, ports);
      && r.state.spawned == sc.state.spawned + Forwards(ports)
      && r.state.terminated == sc.state.terminated
    decreases |ports|
  {
    if ports != [] {
      SpawnAllLog(Spawn(sc, id, ports[0]), id, ports[1..]);
      ForwardsAppend([ports[0]], ports[1..]);
      assert [ports[0]] + ports[1..] == ports;
    }
  }

  /**
   * The id of a new container with host ports ends up storing only the
   * last process spawned for it: `dRunning[c.id] = proc` overwrites.
   */
  lemma {:induction false} SpawnAllStoresLast(sc: Scan, id: ContainerId, ports: seq<HostPort>)
    requires ports != []
    ensures var r := SpawnAll(sc, id, ports);
      && r.state.running == sc.state.running.Put(id, |sc.state.spawned| + |ports| - 1)
      && r.seen == sc.seen + {id}
    decreases |ports|
  {
    var next := Spawn(sc, id, ports[0]);
    if ports[1..] != [] {
      SpawnAllStoresLast(next, id, ports[1..]);
      sc.state.running.PutPut(id, |sc.state.spawned|, |sc.state.spawned| + |ports| - 1);
    }
  }

  /** A walk over one container's ports only stores handles that are new. */
  lemma SpawnAllStores(sc: Scan, id: ContainerId, ports: seq<HostPort>)
    ensures var r := SpawnAll(sc, id, ports).state.running.entries;
      forall h: Handle :: StoredIn(r, h) ==> StoredIn(sc.state.running.entries, h) || h >= |sc.state.spawned|
  {
    var r := SpawnAll(sc, id, ports).state.running.entries;
    if ports != [] {
      SpawnAllStoresLast(sc, id, ports);
      forall h: Handle | StoredIn(r, h)
        ensures StoredIn(sc.state.running.entries, h) || h >= |sc.state.spawned|
      {
        var k :| k in r && r[k] == h;
        if k != id {
          assert k in sc.state.running.entries && sc.state.running.entries[k] == h;
        }
      }
    }
  }

  /** A walk over containers that does not raise terminates nothing and only appends spawns. */
  lemma {:induction false} ScanListLog(sc: Scan, cs: seq<Container>)
    ensures var r := ScanList(sc, cs).scan;
      && r.state.terminated == sc.state.terminated
      && |sc.state.spawned| <= |r.state.spawned| && r.state.spawned[..|sc.state.spawned|] == sc.state.spawned
    decreases |cs|
  {
    if cs != [] {
      var c := cs[0];
      if !Visit(sc, c).crashed {
        if c.id !in sc.state.running.entries && c.ports.Some? {
          SpawnAllLog(sc, c.id, HostPorts(c.ports.value));
        }
        ScanListLog(Visit(sc, c).scan, cs[1..]);
      }
    }
  }

  /**
   * A walk over containers that does not raise keeps every tracked id with
   * its handle, adds exactly the listed ids with host ports, and appends the
   * new keys after the old ones.
   */
  lemma {:induction false} ScanListKeys(sc: Scan, cs: seq<Container>)
    requires !ScanList(sc, cs).crashed
    ensures var r := ScanList(sc, cs).scan.state.running;
      var d := sc.state.running;
      && (forall k :: k in r.entries <==> k in d.entries || k in Bound(cs))
      && (forall k :: k in d.entries ==> r.entries[k] == d.entries[k])
    decreases |cs|
  {
    if cs != [] {
      VisitKeys(sc, cs[0]);
      ScanListKeys(Visit(sc, cs[0]).scan, cs[1..]);
    }
  }

  /** The walk only appends keys to `dRunning`, each of them an id with host ports. */
  lemma {:induction false} ScanListKeyOrder(sc: Scan, cs: seq<Container>)
    requires !ScanList(sc, cs).crashed
    ensures var r := ScanList(sc, cs).scan.state.running;
      var d := sc.state.running;
      && d.keys <= r.keys
      && (forall i :: |d.keys| <= i < |r.keys| ==> r.keys[i] in Bound(cs))
    decreases |cs|
  {
    if cs != [] {
      VisitKeys(sc, cs[0]);
      ScanListKeyOrder(Visit(sc, cs[0]).scan, cs[1..]);
    }
  }

  /** One container's turn: a new id with host ports is appended to the keys; stored handles stay. */
  lemma VisitKeys(sc: Scan, c: Container)
    requires !Visit(sc, c).crashed
    ensures var v := Visit(sc, c).scan.state.running;
      var d := sc.state.running;
      && v.keys == d.keys + (if c.id !in d.entries && ContainerPorts(c) != [] then [c.id] else [])
      && (forall k :: k in v.entries <==> k in d.entries || (k == c.id && ContainerPorts(c) != []))
      && (forall k :: k in d.entries ==> v.entries[k] == d.entries[k])
  {
    if c.id !in sc.state.running.entries && ContainerPorts(c) != [] {
      SpawnAllStoresLast(sc, c.id, ContainerPorts(c));
    }
  }

  /** `tRunning` after the walk: every listed id that was tracked, and every id with host ports. */
  lemma {:induction false} ScanListSeen(sc: Scan, cs: seq<Container>)
    requires !ScanList(sc, cs).crashed
    ensures var seen := ScanList(sc, cs).scan.seen;
      forall k :: k in seen <==> k in sc.seen || (k in Listed(cs) && k in sc.state.running.entries) || k in Bound(cs)
    decreases |cs|
  {
    if cs != [] {
      var c := cs[0];
      VisitSeen(sc, c);
      ScanListSeen(Visit(sc, c).scan, cs[1..]);
    }
  }

  /** One container's turn marks its id as seen when it was tracked or has a host port, and only then tracks it anew. */
  lemma VisitSeen(sc: Scan, c: Container)
    requires !Visit(sc, c).crashed
    ensures var v := Visit(sc, c).scan;
      var K := sc.state.running.entries.Keys;
      && v.seen == sc.seen + (if c.id in K || ContainerPorts(c) != [] then {c.id} else {})
      && v.state.running.entries.Keys == K + (if c.id !in K && ContainerPorts(c) != [] then {c.id} else {})
  {
    if c.id !in sc.state.running.entries && ContainerPorts(c) != [] {
      SpawnAllStoresLast(sc, c.id, ContainerPorts(c));
    }
  }

  /** A walk over containers only stores handles that are new. */
  lemma {:induction false} ScanListStores(sc: Scan, cs: seq<Container>)
    ensures var r := ScanList(sc, cs).scan;
      forall h: Handle :: StoredIn(r.state.running.entries, h) ==>
        StoredIn(sc.state.running.entries, h) || h >= |sc.state.spawned|
    decreases |cs|
  {
    if cs != [] {
      var c := cs[0];
      var v := Visit(sc, c);
      if !v.crashed {
        if c.id !in sc.state.running.entries && c.ports.Some? {
          SpawnAllStores(sc, c.id, HostPorts(c.ports.value));
          SpawnAllLog(sc, c.id, HostPorts(c.ports.value));
        }
        ScanListStores(v.scan, cs[1..]);
      }
    }
  }

  lemma {:induction false} DeadKeysAppend(a: seq<ContainerId>, b: seq<ContainerId>, seen: set<ContainerId>)
    ensures DeadKeys(a + b, seen) == DeadKeys(a, seen) + DeadKeys(b, seen)
    decreases |a|
  {
    if a != [] {
      AppendTail(a, b);
      DeadKeysUnfold(a + b, seen);
      DeadKeysUnfold(a, seen);
      DeadKeysAppend(a[1..], b, seen);
      AppendAssoc(if a[0] in seen then [] else [a[0]], DeadKeys(a[1..], seen), DeadKeys(b, seen));
    } else {
      assert a + b == b;
    }
  }

  /** One step of the comprehension: the first key is kept iff it was not seen. */
  lemma DeadKeysUnfold(keys: seq<ContainerId>, seen: set<ContainerId>)
    requires keys != []
    ensures DeadKeys(keys, seen) == (if keys[0] in seen then [] else [keys[0]]) + DeadKeys(keys[1..], seen)
  {
    if keys[0] in seen {
      assert [] + DeadKeys(keys[1..], seen) == DeadKeys(keys[1..], seen);
    }
  }

  lemma DeadKeysAllSeen(keys: seq<ContainerId>, seen: set<ContainerId>)
    requires forall k :: k in keys ==> k in seen
    ensures DeadKeys(keys, seen) == []
  {
  }

  /** Which keys are dead depends only on which of them were seen. */
  lemma {:induction false} DeadKeysAgree(keys: seq<ContainerId>, seen1: set<ContainerId>, seen2: set<ContainerId>)
    requires forall k :: k in keys ==> (k in seen1 <==> k in seen2)
    ensures DeadKeys(keys, seen1) == DeadKeys(keys, seen2)
    decreases |keys|
  {
    if keys != [] {
      assert forall k :: k in keys[1..] ==> k in keys;
      DeadKeysAgree(keys[1..], seen1, seen2);
    }
  }

  /** The reaping loop terminates the handles of the dead keys, in order, and spawns nothing. */
  lemma {:induction false} ReapLog(s: PollState, dead: seq<ContainerId>)
    requires forall k :: k in dead ==> k in s.running.entries
    requires NoDup(dead)
    ensures Reap(s, dead).spawned == s.spawned
    ensures Reap(s, dead).terminated == s.terminated + HandlesAt(s.running.entries, dead)
    decreases |dead|
  {
    if dead != [] {
      var k := dead[0];
      var next := PollState(s.running.Delete(k), s.spawned, s.terminated + [s.running.entries[k]]);
      var rest := dead[1..];
      NoDupTail(dead);
      assert forall x :: x in rest ==> x in dead;
      assert forall x :: x in rest ==> x in next.running.entries && next.running.entries[x] == s.running.entries[x];
      assert Reap(s, dead) == Reap(next, rest);
      ReapLog(next, rest);
      HandlesAtAgree(next.running.entries, s.running.entries, rest);
      var h := s.running.entries[k];
      var later := HandlesAt(s.running.entries, rest);
      assert HandlesAt(s.running.entries, dead) == [h] + later;
      AppendAssoc(s.terminated, [h], later);
    }
  }

  /** The reaping loop deletes exactly the dead keys; the others keep their handles. */
  lemma {:induction false} ReapKeys(s: PollState, dead: seq<ContainerId>)
    requires forall k :: k in dead ==> k in s.running.entries
    requires NoDup(dead)
    ensures var r := Reap(s, dead).running.entries;
      && (forall k :: k in r <==> k in s.running.entries && k !in dead)
      && (forall k :: k in r ==> r[k] == s.running.entries[k])
    decreases |dead|
  {
    if dead != [] {
      var k := dead[0];
      var next := PollState(s.running.Delete(k), s.spawned, s.terminated + [s.running.entries[k]]);
      NoDupTail(dead);
      ReapKeys(next, dead[1..]);
      assert forall x :: x in dead <==> x == k || x in dead[1..];
    }
  }

  /** The reaping loop terminates the handles of the dead keys in order and deletes exactly those keys. */
  lemma ReapEffect(s: PollState, dead: seq<ContainerId>)
    requires forall k :: k in dead ==> k in s.running.entries
    requires NoDup(dead)
    ensures var r := Reap(s, dead);
      && r.spawned == s.spawned
      && r.terminated == s.terminated + HandlesAt(s.running.entries, dead)
      && (forall k :: k in r.running.entries <==> k in s.running.entries && k !in dead)
      && (forall k :: k in r.running.entries ==> r.running.entries[k] == s.running.entries[k])
  {
    ReapLog(s, dead);
    ReapKeys(s, dead);
  }

  /**
   * The keys of `dead` in a round are the keys tracked before the round
   * whose container is no longer listed, in dict order.
   */
  lemma RoundDeadKeys(s: PollState, cs: seq<Container>)
    requires s.running.Valid()
    requires !ScanList(Scan(s, {}), cs).crashed
    ensures var r := ScanList(Scan(s, {}), cs).scan;
      DeadKeys(r.state.running.keys, r.seen) == DeadKeys(s.running.keys, Listed(cs))
  {
    var r := ScanList(Scan(s, {}), cs).scan;
    ScanListKeyOrder(Scan(s, {}), cs);
    ScanListSeen(Scan(s, {}), cs);
    forall k | k in s.running.keys ensures k in r.seen <==> k in Listed(cs) {
      assert k in s.running.entries;
    }
    DeadKeysExtend(s.running.keys, r.state.running.keys, r.seen, Listed(cs));
  }

  /** Keys appended after the old ones and all seen are never dead. */
  lemma DeadKeysExtend(before: seq<ContainerId>, after: seq<ContainerId>, seen: set<ContainerId>, listed: set<ContainerId>)
    requires before <= after
    requires forall i :: |before| <= i < |after| ==> after[i] in seen
    requires forall k :: k in before ==> (k in seen <==> k in listed)
    ensures DeadKeys(after, seen) == DeadKeys(before, listed)
  {
    var tail := after[|before|..];
    assert after == before + tail;
    DeadKeysAppend(before, tail, seen);
    forall k | k in tail ensures k in seen {
      var i :| 0 <= i < |tail| && tail[i] == k;
      assert after[|before| + i] == k;
    }
    DeadKeysAllSeen(tail, seen);
    DeadKeysAgree(before, seen, listed);
  }

  /**
   * After a round that does not raise, the tracked ids are exactly the
   * listed ids that were tracked before or publish a host port; every id
   * that stays keeps its handle; and the terminate log grew by the handles
   * of the ids tracked before but no longer listed, in dict order.
   */
  lemma RoundEffect(s: PollState, cs: seq<Container>)
    requires s.running.Valid()
    requires !Round(s, cs).crashed
    ensures var r := Round(s, cs).state;
      var gone := DeadKeys(s.running.keys, Listed(cs));
      && (forall k :: k in gone <==> k in s.running.entries && k !in Listed(cs))
      && (forall k :: k in r.running.entries <==> k in Listed(cs) && (k in s.running.entries || k in Bound(cs)))
      && (forall k :: k in s.running.entries && k in Listed(cs) ==> r.running.entries[k] == s.running.entries[k])
      && r.terminated == s.terminated + HandlesAt(s.running.entries, gone)
      && |s.spawned| <= |r.spawned| && r.spawned[..|s.spawned|] == s.spawned
  {
    var sc := ScanList(Scan(s, {}), cs).scan;
    var t := sc.state;
    ScanListKeys(Scan(s, {}), cs);
    ScanListLog(Scan(s, {}), cs);
    ScanListValid(Scan(s, {}), cs);
    RoundDeadKeys(s, cs);
    var gone := DeadKeys(s.running.keys, Listed(cs));
    ReapEffect(t, gone);
    HandlesAtAgree(t.running.entries, s.running.entries, gone);
  }

  /**
   * An id tracked before a round whose container is gone has its handle
   * terminated exactly once and is no longer tracked.
   */
  lemma RoundClosesGone(s: PollState, cs: seq<Container>, control: Handle, k: ContainerId)
    requires PollInv(s, control)
    requires !Round(s, cs).crashed
    requires k in s.running.entries && k !in Listed(cs)
    ensures var r := Round(s, cs).state;
      && k !in r.running.entries
      && s.running.entries[k] !in s.terminated
      && s.running.entries[k] in r.terminated
      && NoDup(r.terminated)
  {
    var r := Round(s, cs).state;
    var gone := DeadKeys(s.running.keys, Listed(cs));
    assert k !in r.running.entries && k in gone
      && r.terminated == s.terminated + HandlesAt(s.running.entries, gone) by {
      RoundEffect(s, cs);
    }
    assert NoDup(r.terminated) by {
      RoundKeepsInv(s, cs, control);
    }
    var j :| 0 <= j < |gone| && gone[j] == k;
    HandlesAtIndex(s.running.entries, gone);
    assert HandlesAt(s.running.entries, gone)[j] == s.running.entries[k];
    assert r.terminated[|s.terminated| + j] == s.running.entries[k];
  }

  // ---------------------------------------------------------------------
  // New containers, when `containers.list()` gives each id once

  /** The host ports of the listed containers not in `tracked`, in list order. */
  function NewPorts(tracked: set<ContainerId>, cs: seq<Container>): (ports: seq<HostPort>) {
    if cs == [] then []
    else (if cs[0].id in tracked then [] else ContainerPorts(cs[0])) + NewPorts(tracked, cs[1..])
  }

  lemma {:induction false} NewPortsAgree(k1: set<ContainerId>, k2: set<ContainerId>, cs: seq<Container>)
    requires forall i :: 0 <= i < |cs| ==> (cs[i].id in k1 <==> cs[i].id in k2)
    ensures NewPorts(k1, cs) == NewPorts(k2, cs)
    decreases |cs|
  {
    if cs != [] {
      assert forall i :: 0 <= i < |cs[1..]| ==> cs[1..][i] == cs[i + 1];
      NewPortsAgree(k1, k2, cs[1..]);
    }
  }

  lemma DistinctTail(cs: seq<Container>)
    requires cs != [] && DistinctIds(cs)
    ensures DistinctIds(cs[1..]) && cs[0].id !in Listed(cs[1..])
  {
    assert forall i :: 0 <= i < |cs[1..]| ==> cs[1..][i] == cs[i + 1];
  }

  /** With distinct ids, an id publishes a host port in the list exactly when its own container does. */
  lemma {:induction false} BoundAt(cs: seq<Container>, i: nat)
    requires DistinctIds(cs) && i < |cs|
    ensures cs[i].id in Bound(cs) <==> ContainerPorts(cs[i]) != []
    decreases i
  {
    DistinctTail(cs);
    if i == 0 {
      assert cs[0].id !in Bound(cs[1..]);
    } else {
      assert cs[1..][i - 1] == cs[i];
      BoundAt(cs[1..], i - 1);
    }
  }

  /** One container's turn: a forward per host port if it was untracked; only its own id can become tracked. */
  lemma VisitEffect(sc: Scan, c: Container)
    requires !Visit(sc, c).crashed
    ensures var v := Visit(sc, c).scan.state;
      var tracked := sc.state.running.entries.Keys;
      && v.spawned == sc.state.spawned + Forwards(if c.id in tracked then [] else ContainerPorts(c))
  {
    if c.id in sc.state.running.entries {
      assert Forwards([]) == [];
    } else {
      SpawnAllLog(sc, c.id, ContainerPorts(c));
    }
  }

  /** With distinct ids, the walk spawns one forward per host port of each untracked container, in list order. */
  lemma {:induction false} ScanListSpawns(sc: Scan, cs: seq<Container>)
    requires DistinctIds(cs)
    requires !ScanList(sc, cs).crashed
    ensures ScanList(sc, cs).scan.state.spawned
         == sc.state.spawned + Forwards(NewPorts(sc.state.running.entries.Keys, cs))
    decreases |cs|
  {
    if cs == [] {
      assert Forwards([]) == [];
    } else {
      var c := cs[0];
      var v := Visit(sc, c).scan;
      var tracked := sc.state.running.entries.Keys;
      VisitEffect(sc, c);
      VisitKeys(sc, c);
      DistinctTail(cs);
      var mine := if c.id in tracked then [] else ContainerPorts(c);
      var later := NewPorts(v.state.running.entries.Keys, cs[1..]);
      ScanListCons(sc, cs);
      ScanListSpawns(v, cs[1..]);
      NewPortsCons(tracked, v.state.running.entries.Keys, cs);
      SpawnsCompose(sc.state.spawned, v.state.spawned, ScanList(v, cs[1..]).scan.state.spawned, mine, later);
    }
  }

  /** The walk over a non-empty list is the first container's turn, then the walk over the rest. */
  lemma ScanListCons(sc: Scan, cs: seq<Container>)
    requires cs != [] && !Visit(sc, cs[0]).crashed
    ensures ScanList(sc, cs) == ScanList(Visit(sc, cs[0]).scan, cs[1..])
  {
  }

  /** With distinct ids, tracking the first id does not change the new ports of the rest. */
  lemma NewPortsCons(tracked: set<ContainerId>, after: set<ContainerId>, cs: seq<Container>)
    requires cs != [] && DistinctIds(cs)
    requires forall k :: k != cs[0].id ==> (k in after <==> k in tracked)
    ensures NewPorts(tracked, cs)
         == (if cs[0].id in tracked then [] else ContainerPorts(cs[0])) + NewPorts(after, cs[1..])
  {
    DistinctTail(cs);
    forall j | 0 <= j < |cs[1..]| ensures cs[1..][j].id in after <==> cs[1..][j].id in tracked {
      assert cs[1..][j].id != cs[0].id;
    }
    NewPortsAgree(after, tracked, cs[1..]);
  }

  /** A walk over `cs` is the walk over `cs[..i]` followed by the walk over `cs[i..]`. */
  lemma {:induction false} ScanListSplit(sc: Scan, cs: seq<Container>, i: nat)
    requires i <= |cs|
    requires !ScanList(sc, cs).crashed
    ensures !ScanList(sc, cs[..i]).crashed
    ensures ScanList(sc, cs) == ScanList(ScanList(sc, cs[..i]).scan, cs[i..])
    decreases i
  {
    if i == 0 {
      assert cs[..0] == [] && cs[0..] == cs;
    } else {
      assert cs[..i][0] == cs[0] && cs[..i][1..] == cs[1..][..i - 1];
      assert cs[1..][i - 1..] == cs[i..];
      ScanListSplit(Visit(sc, cs[0]).scan, cs[1..], i - 1);
    }
  }

  /** The walk up to the `i`-th container: it has spawned the ports of the new ones before it and left its id untracked. */
  lemma ScanPrefix(s: PollState, cs: seq<Container>, control: Handle, i: nat)
    requires PollInv(s, control) && DistinctIds(cs)
    requires !ScanList(Scan(s, {}), cs).crashed
    requires i < |cs| && cs[i].id !in s.running.entries
    ensures var p := ScanList(Scan(s, {}), cs[..i]).scan;
      && !ScanList(Scan(s, {}), cs[..i]).crashed
      && ScanList(Scan(s, {}), cs) == ScanList(p, cs[i..])
      && PollInv(p.state, control)
      && |p.state.spawned| == |s.spawned| + |NewPorts(s.running.entries.Keys, cs[..i])|
      && p.state.terminated == s.terminated
      && cs[i].id !in p.state.running.entries
  {
    var sc0 := Scan(s, {});
    ScanListSplit(sc0, cs, i);
    assert DistinctIds(cs[..i]);
    ScanListSpawns(sc0, cs[..i]);
    ScanListKeys(sc0, cs[..i]);
    ScanListLog(sc0, cs[..i]);
    ScanListKeepsInv(sc0, cs[..i], control);
    assert cs[i].id !in Listed(cs[..i]);
  }

  /** A new container's own turn: its forwards spawned in order, the last one stored, the others stored nowhere. */
  lemma VisitNew(sc: Scan, c: Container, control: Handle)
    requires PollInv(sc.state, control)
    requires c.id !in sc.state.running.entries
    requires !Visit(sc, c).crashed
    ensures var q := Visit(sc, c).scan.state;
      var ports := ContainerPorts(c);
      var base := |sc.state.spawned|;
      && q.terminated == sc.state.terminated
      && q.spawned == sc.state.spawned + Forwards(ports)
      && (ports != [] ==> c.id in q.running.entries && q.running.entries[c.id] == base + |ports| - 1)
      && (forall h: Handle :: base <= h < base + |ports| - 1 ==> !StoredIn(q.running.entries, h))
  {
    var ports := ContainerPorts(c);
    SpawnAllLog(sc, c.id, ports);
    if ports != [] {
      SpawnAllStoresLast(sc, c.id, ports);
    }
    SpawnAllStores(sc, c.id, ports);
  }

  /** The rest of the walk keeps what is stored under `id` and stores no old handle that was not stored. */
  lemma ScanSuffix(q: Scan, rest: seq<Container>, id: ContainerId)
    requires !ScanList(q, rest).crashed
    ensures var t := ScanList(q, rest).scan.state;
      && t.terminated == q.state.terminated
      && |q.state.spawned| <= |t.spawned| && t.spawned[..|q.state.spawned|] == q.state.spawned
      && (id in q.state.running.entries ==> id in t.running.entries && t.running.entries[id] == q.state.running.entries[id])
      && (forall h: Handle :: h < |q.state.spawned| && !StoredIn(q.state.running.entries, h) ==> !StoredIn(t.running.entries, h))
  {
    ScanListLog(q, rest);
    ScanListKeys(q, rest);
    ScanListStores(q, rest);
  }

  /**
   * The scan part of a round, seen from the `i`-th container, untracked
   * before the round: its forwards are spawned one after the other starting
   * at `base`, only the last one is stored under its id, and the others are
   * stored nowhere once the walk is over.
   */
  lemma ScanStoresLast(s: PollState, cs: seq<Container>, control: Handle, i: nat)
    requires PollInv(s, control) && DistinctIds(cs)
    requires !ScanList(Scan(s, {}), cs).crashed
    requires i < |cs| && cs[i].id !in s.running.entries
    ensures var t := ScanList(Scan(s, {}), cs).scan.state;
      var ports := ContainerPorts(cs[i]);
      var base := |s.spawned| + |NewPorts(s.running.entries.Keys, cs[..i])|;
      && t.terminated == s.terminated
      && SpawnedAt(t.spawned, base, ports)
      && (ports != [] ==> cs[i].id in t.running.entries && t.running.entries[cs[i].id] == base + |ports| - 1)
      && (forall h: Handle :: base <= h < base + |ports| - 1 ==> !StoredIn(t.running.entries, h))
  {
    var c := cs[i];
    var ports := ContainerPorts(c);
    ScanPrefix(s, cs, control, i);
    var p := ScanList(Scan(s, {}), cs[..i]).scan;
    assert cs[i..][0] == c && cs[i..][1..] == cs[i + 1..];
    var q := Visit(p, c).scan;
    assert ScanList(Scan(s, {}), cs) == ScanList(q, cs[i + 1..]);
    VisitNew(p, c, control);
    ScanSuffix(q, cs[i + 1..], c.id);
    ScanListWindow(Scan(s, {}), cs, i, |s.spawned| + |NewPorts(s.running.entries.Keys, cs[..i])|);
  }

  /** Any walk: the forwards of the `i`-th container, untracked when its turn comes, keep their place in the final spawn log. */
  lemma ScanListWindow(sc: Scan, cs: seq<Container>, i: nat, base: nat)
    requires i < |cs| && !ScanList(sc, cs).crashed
    requires cs[i].id !in ScanList(sc, cs[..i]).scan.state.running.entries
    requires base == |ScanList(sc, cs[..i]).scan.state.spawned|
    ensures SpawnedAt(ScanList(sc, cs).scan.state.spawned, base, ContainerPorts(cs[i]))
  {
    ScanListSplit(sc, cs, i);
    var p := ScanList(sc, cs[..i]).scan;
    assert cs[i..][0] == cs[i] && cs[i..][1..] == cs[i + 1..];
    VisitWindow(p, cs[i], cs[i + 1..]);
  }

  /** The forwards of an untracked container keep their place in the spawn log for the rest of the walk. */
  lemma VisitWindow(p: Scan, c: Container, rest: seq<Container>)
    requires c.id !in p.state.running.entries && !Visit(p, c).crashed
    requires !ScanList(Visit(p, c).scan, rest).crashed
    ensures var t := ScanList(Visit(p, c).scan, rest).scan.state;
      var ports := ContainerPorts(c);
      SpawnedAt(t.spawned, |p.state.spawned|, ports)
  {
    var q := Visit(p, c).scan;
    var t := ScanList(q, rest).scan.state;
    assert q.state.spawned == p.state.spawned + Forwards(ContainerPorts(c)) by {
      VisitEffect(p, c);
    }
    assert |q.state.spawned| <= |t.spawned| && t.spawned[..|q.state.spawned|] == q.state.spawned by {
      ScanListLog(q, rest);
    }
    SpawnedWindow(p.state.spawned, q.state.spawned, t.spawned, ContainerPorts(c));
  }

  /**
   * A container listed in a round and untracked before it, when ids are
   * distinct: its host ports get one tunnel each, spawned in turn from
   * `base`; with no host port it stays untracked (and counts as new again
   * next round); otherwise only the last tunnel is stored under its id, and
   * the earlier ones are neither stored nor terminated, so no later round
   * can stop them (`RoundsKeepOrphan`).
   */
  lemma RoundStoresLast(s: PollState, cs: seq<Container>, control: Handle, i: nat)
    requires PollInv(s, control) && DistinctIds(cs)
    requires !Round(s, cs).crashed
    requires i < |cs| && cs[i].id !in s.running.entries
    ensures var r := Round(s, cs).state;
      var ports := ContainerPorts(cs[i]);
      var base := |s.spawned| + |NewPorts(s.running.entries.Keys, cs[..i])|;
      && SpawnedAt(r.spawned, base, ports)
      && (ports == [] ==> cs[i].id !in r.running.entries)
      && (ports != [] ==> cs[i].id in r.running.entries && r.running.entries[cs[i].id] == base + |ports| - 1)
      && (forall h: Handle :: base <= h < base + |ports| - 1 ==> !StoredIn(r.running.entries, h) && h !in r.terminated)
  {
    var t := ScanList(Scan(s, {}), cs).scan.state;
    var gone := DeadKeys(s.running.keys, Listed(cs));
    var r := Round(s, cs).state;
    var ports := ContainerPorts(cs[i]);
    var base := |s.spawned| + |NewPorts(s.running.entries.Keys, cs[..i])|;
    ScanStoresLast(s, cs, control, i);
    assert ports == [] ==> cs[i].id !in r.running.entries by {
      RoundEffect(s, cs);
      BoundAt(cs, i);
    }
    assert r == Reap(t, gone) && NoDup(gone) && cs[i].id !in gone
      && (forall k :: k in gone ==> k in t.running.entries) by {
      ScanListValid(Scan(s, {}), cs);
      RoundDeadKeys(s, cs);
      RoundEffect(s, cs);
    }
    assert forall h: Handle :: h in t.terminated ==> h < base;
    ReapEffect(t, gone);
    forall h: Handle | base <= h < base + |ports| - 1
      ensures !StoredIn(r.running.entries, h) && h !in r.terminated
    {
      ReapSpares(t, gone, h);
    }
  }

  /** Reaping only removes entries: a handle stored nowhere stays so, and it is terminated afterwards only if it was before. */
  lemma ReapSpares(t: PollState, dead: seq<ContainerId>, h: Handle)
    requires forall k :: k in dead ==> k in t.running.entries
    requires NoDup(dead)
    requires !StoredIn(t.running.entries, h)
    ensures var r := Reap(t, dead);
      !StoredIn(r.running.entries, h) && (h in r.terminated <==> h in t.terminated)
  {
    ReapEffect(t, dead);
    HandlesAtIndex(t.running.entries, dead);
    assert h !in HandlesAt(t.running.entries, dead);
  }

  /** A spawned handle stored nowhere stays stored nowhere after a round, and the round does not terminate it. */
  lemma RoundKeepsOrphan(s: PollState, cs: seq<Container>, h: Handle)
    requires s.running.Valid()
    requires h < |s.spawned| && !StoredIn(s.running.entries, h)
    ensures var r := Round(s, cs).state;
      && h < |r.spawned| && !StoredIn(r.running.entries, h)
      && (h in r.terminated <==> h in s.terminated)
  {
    var run := ScanList(Scan(s, {}), cs);
    var t := run.scan.state;
    ScanListStores(Scan(s, {}), cs);
    ScanListLog(Scan(s, {}), cs);
    if !run.crashed {
      ScanListValid(Scan(s, {}), cs);
      ReapSpares(t, DeadKeys(t.running.keys, run.scan.seen), h);
    }
  }

  /**
   * Over any number of rounds, a handle stored nowhere is never stored again
   * and never terminated: the tunnels `RoundStoresLast` leaves unstored keep
   * running for as long as the script polls.
   */
  lemma {:induction false} RoundsKeepOrphan(s: PollState, rounds: seq<seq<Container>>, h: Handle)
    requires s.running.Valid()
    requires h < |s.spawned| && !StoredIn(s.running.entries, h)
    ensures var r := Rounds(s, rounds).state;
      && h < |r.spawned| && !StoredIn(r.running.entries, h)
      && (h in r.terminated <==> h in s.terminated)
    decreases |rounds|
  {
    if rounds != [] {
      RoundKeepsOrphan(s, rounds[0], h);
      if !Round(s, rounds[0]).crashed {
        RoundValid(s, rounds[0]);
        RoundsKeepOrphan(Round(s, rounds[0]).state, rounds[1..], h);
      }
    }
  }

  /**
   * With distinct ids, a round spawns exactly one forward per host port of
   * the containers that were untracked, in list order: a tracked container
   * causes no new tunnel.
   */
  lemma RoundSpawns(s: PollState, cs: seq<Container>)
    requires s.running.Valid() && DistinctIds(cs)
    requires !Round(s, cs).crashed
    ensures Round(s, cs).state.spawned == s.spawned + Forwards(NewPorts(s.running.entries.Keys, cs))
  {
    var t := ScanList(Scan(s, {}), cs).scan.state;
    ScanListSpawns(Scan(s, {}), cs);
    ScanListValid(Scan(s, {}), cs);
    RoundDeadKeys(s, cs);
    ReapEffect(t, DeadKeys(s.running.keys, Listed(cs)));
  }

  /** The terminate log after the older script's `cleanup`: only `dockerTunnel` is added. */
  function ShutdownLog(s: PollState, control: Handle): (log: seq<Handle>)
    ensures forall h :: h in log <==> h in s.terminated || h == control
  {
    s.terminated + [control]
  }

  /**
   * The older `cleanup` stops the control tunnel exactly once and none of
   * the tunnels still stored in `dRunning`.
   */
  lemma ShutdownLeavesForwards(s: PollState, control: Handle)
    requires PollInv(s, control)
    ensures var log := ShutdownLog(s, control);
      && NoDup(log) && control in log
      && forall k :: k in s.running.entries ==> s.running.entries[k] !in log
  {
    NoDupAppend(s.terminated, [control]);
  }
}
