# harbormaster, modelled in Dafny

harbormaster mirrors the published ports of the containers on a remote
Docker host as local SSH tunnels. It also points the local `docker` CLI at
the remote daemon through a tunnel to the Docker control socket. This
project models the bookkeeping that decides which tunnels exist, and proves
what that bookkeeping guarantees. Both versions of the program are covered.

- **Event-driven registry** (`harbormaster/harbormaster.py`).
  - `dRunning` maps a container id to the list of its tunnel processes.
  - A start-up snapshot of `containers.list()` fills it.
  - The Docker event stream then changes it: `start` appends tunnels, `die` terminates them and deletes the key.
  - `cleanup` terminates every stored tunnel and then the control tunnel.
  - Modules `EventRegistry` (functions on values) and `Harbormaster` (class `Session`, whose fields are the globals and whose methods hold the loops).
- **Polling reconciliation** (`harbormaster.py`, the older script).
  - Each round walks the container list.
  - It spawns tunnels for containers it has not seen, storing ONE handle per id.
  - It then terminates and deletes the ids whose container is gone.
  - Modules `PollingRound` (functions on values) and `Poller` (class `Poller`).
- **Shell start-up file** (`configfile`/`cleanfile`, the same code in both scripts).
  - `configfile` appends a three-line marker block.
  - `cleanfile` drops every line equal to one of those three lines.
  - Module `ShellConfig`.

Shared vocabulary:
- `PyDict.Dict` is a Python `dict`: a map plus the insertion order of its keys, which `cleanup` and the reaping loop iterate in.
- `DockerApi` holds the fields of containers and events that the code reads.
- `Processes` models a tunnel process by its handle.
  - A handle is the process's position in the log of spawned processes.
  - `terminate()` appends the handle to a log of terminate requests.
  - The control tunnel (`dockerTunnel`) is handle 0.

Each class method is proved equal to a function of the old state (`ensures View() == ...`). The lemmas then state what the source promises about those functions:
- the registry invariants each step preserves;
- the exact effect of each event;
- which ids a polling round keeps;
- which handles are terminated, and how often;
- the round trip of the shell-file edits.

Two quirks of the code are proved, not smoothed over.

In the polling script, a new container with several host ports spawns a
tunnel for each port. Only the last handle is stored under its id. The
others are neither stored nor terminated by that round (`RoundStoresLast`),
nor by any later one (`RoundsKeepOrphan`).

The older `cleanup` terminates only the control tunnel. Every tunnel still
stored is left running (`ShutdownLeavesForwards`, `Poller.Poller.Cleanup`).

The newer program fixes both. Its whole-run theorem
`EveryTunnelTerminatedOnce` covers any start-up snapshot and any finite
event feed. It also covers an exception that escapes between two containers
or two events: null ports in the snapshot, a failed lookup other than
`NotFound`, or the feed running out. In all of these, `cleanup` terminates
every process ever spawned exactly once. An interrupt in the middle of one
container's or one event's step is not covered (see "Left out").

## Model

| member | source | states |
|---|---|---|
| PyDict.Dict.Put | harbormaster/harbormaster.py:75-76 | `d[k] = v`: the map gets `k := v`; an existing key keeps its place in iteration order, a new key goes last; a well-formed dict stays well formed |
| PyDict.Dict.Delete | harbormaster/harbormaster.py:104 | `del d[k]`: exactly `k` leaves the map and the key order, the others keep their order |
| PyDict.Dict.PutPut | harbormaster.py:61 | assigning the same key twice leaves only the second value, in the first one's place |
| DockerApi.Bindings | harbormaster/harbormaster.py:69-70 | `if v: for p in v`: an entry gives host ports iff its binding list is present and non-empty, and gives exactly the ports of that list |
| DockerApi.ContainerPorts | harbormaster/harbormaster.py:67-70 | a container with null `Ports` has no host port; every host port is a binding of one of its entries |
| DockerApi.HostPorts | harbormaster/harbormaster.py:67-70 | a port is a host port of the entries iff it is a binding of one of them |
| DockerApi.HostPortsAppend | harbormaster/harbormaster.py:68-70 | the loop over `.items()` handles entry by entry: the host ports of `a + b` are those of `a` followed by those of `b` |
| DockerApi.HostPortsSingle | harbormaster/harbormaster.py:69-70 | one entry contributes exactly its bindings, in order, one host port per binding |
| ShellConfig.MarkerBlock | harbormaster/harbormaster.py:112-116 | the block is three pairwise different lines: begin marker, the export line for the port, end marker |
| ShellConfig.Decimal | harbormaster/harbormaster.py:114 | the f-string writes an int as a non-empty decimal that starts with `-` iff the int is negative |
| ShellConfig.ExportLine | harbormaster/harbormaster.py:114 | the export line is non-empty and ends with a newline, so it stays one line of the file |
| ShellConfig.ConfigFile | harbormaster/harbormaster.py:111-130 | the result is the original lines unchanged, followed by exactly the three marker lines for the port |
| ShellConfig.Drop | harbormaster/harbormaster.py:145 | the comprehension never makes the file longer |
| ShellConfig.DropMembers | harbormaster/harbormaster.py:145 | the comprehension keeps a line iff it is in the input and not in the drop list |
| ShellConfig.DropCounts | harbormaster/harbormaster.py:145 | the comprehension keeps every line outside the drop list exactly as often as it occurs, and no line of the list |
| ShellConfig.DropAppend | harbormaster/harbormaster.py:145 | the comprehension filters line by line, so filtering `a + b` is filtering `a` followed by filtering `b` |
| ShellConfig.CleanFile | harbormaster/harbormaster.py:136-149 | the cleaned file is never longer than the input |
| ShellConfig.CleanFileMembers | harbormaster/harbormaster.py:136-149 | a line is in the cleaned file iff it is in the input and equals none of the three marker lines |
| ShellConfig.CleanFileCounts | harbormaster/harbormaster.py:145 | every non-marker line is kept exactly as many times as it occurs, every marker line is dropped everywhere |
| ShellConfig.CleanFileAppend | harbormaster/harbormaster.py:145 | the filter works line by line: cleaning `a + b` is cleaning `a` followed by cleaning `b` (so order is kept) |
| ShellConfig.CleanFileKeepsUnmarked | harbormaster.py:103 | a file with no marker line is returned unchanged |
| ShellConfig.CleanFileIdempotent | harbormaster.py:94-107 | cleaning twice gives the same file as cleaning once |
| ShellConfig.CleanUndoesConfig | harbormaster/harbormaster.py:111-149 | cleaning a configured file equals cleaning the original file |
| ShellConfig.CleanConfigRoundTrip | harbormaster.py:73-107 | on a file without marker lines, `cleanfile(configfile(x)) == x` |
| EventRegistry.Register | harbormaster/harbormaster.py:72-76 | one `createTunnel` and store: the spawn log gains one forward for the port, nothing is terminated, and the id's list gains the new handle at its end |
| EventRegistry.AddTunnels | harbormaster/harbormaster.py:68-76 | the port loops terminate nothing and spawn exactly one process per port |
| EventRegistry.Close | harbormaster/harbormaster.py:100-104 | `die` of a tracked id: the id's handles are appended to the terminate log in order, the key is deleted, nothing is spawned |
| EventRegistry.Snapshot | harbormaster/harbormaster.py:61-76 | the start-up scan terminates nothing and only adds spawns; it raises only at an untracked listed container with null ports |
| EventRegistry.OnEvent | harbormaster/harbormaster.py:80-109 | one event raises out of the loop iff it is a container `start` or `die` whose lookup fails other than with `NotFound`, and then changes nothing |
| EventRegistry.Replay | harbormaster/harbormaster.py:79-109 | the event loop over a finite feed raises only at an event whose lookup failed |
| EventRegistry.Drain | harbormaster/harbormaster.py:159-162 | the cleanup loops terminate only handles stored under the keys they visit |
| EventRegistry.ShutdownLog | harbormaster/harbormaster.py:153-166 | cleanup keeps the old terminate log as a prefix and terminates the control tunnel last |
| EventRegistry.InitialInv | harbormaster/harbormaster.py:15 | the empty registry with only the control tunnel spawned satisfies the registry invariant |
| EventRegistry.RegisterKeepsInv | harbormaster/harbormaster.py:71-76 | one spawn-and-store keeps the invariant: lists non-empty, handles live and forwards, no handle under two keys or twice in a list, control tunnel untouched |
| EventRegistry.AppendFresh | harbormaster/harbormaster.py:72-76 | appending a handle stored nowhere to one id's list keeps the lists disjoint, stores the handle and loses no stored handle |
| EventRegistry.LiveListGrows | harbormaster/harbormaster.py:72 | spawning another process leaves every stored list live |
| EventRegistry.AddTunnelsKeepsInv | harbormaster/harbormaster.py:88-96 | opening the tunnels of a container keeps the invariant |
| EventRegistry.CloseKeepsInv | harbormaster/harbormaster.py:100-104 | terminating and deleting a tracked id keeps the invariant (no handle terminated twice) |
| EventRegistry.SnapshotKeepsInv | harbormaster/harbormaster.py:61-76 | the start-up scan keeps the invariant, also when it raises |
| EventRegistry.OnEventKeepsInv | harbormaster/harbormaster.py:80-109 | one turn of the event loop keeps the invariant, in every branch |
| EventRegistry.ReplayKeepsInv | harbormaster/harbormaster.py:79-109 | any finite sequence of events keeps the invariant |
| EventRegistry.AddTunnelsEffect | harbormaster/harbormaster.py:67-76 | one new process per port, in order; their consecutive handles are appended after the id's existing ones; nothing terminated; no ports means no change |
| EventRegistry.AddTunnelsSpawns | harbormaster/harbormaster.py:68-72 | the spawn log grows by exactly one forward per port, in port order, and nothing is terminated |
| EventRegistry.AddTunnelsRegisters | harbormaster/harbormaster.py:72-76 | with at least one port, the id's list becomes its old list followed by the fresh handles; no other key changes |
| EventRegistry.OnEventEffect | harbormaster/harbormaster.py:79-109 | one event, all cases: aborts iff a start/die lookup raises other than NotFound; spawns only for a found start with ports, appending; terminates only for a found die of a tracked id, exactly its list; other ids unchanged |
| EventRegistry.StartAppendsTunnels | harbormaster/harbormaster.py:88-96 | a found `start` keeps the id's existing handles and appends one per host port |
| EventRegistry.StartWithoutPortsIgnored | harbormaster/harbormaster.py:81-87 | a `start` whose lookup raises NotFound or whose ports are null changes nothing and the loop continues |
| EventRegistry.DieClosesTunnels | harbormaster/harbormaster.py:100-104 | a found `die` of a tracked id terminates exactly its handles in order and deletes only that key |
| EventRegistry.OtherEventsIgnored | harbormaster/harbormaster.py:97-109 | a `die` that is untracked or NotFound, and any event that is not a container start/die, change nothing |
| EventRegistry.SnapshotFrame | harbormaster/harbormaster.py:63-64 | the snapshot terminates nothing, only appends spawns, and leaves every tracked or unlisted id as it was |
| EventRegistry.AddTunnelsOpens | harbormaster/harbormaster.py:67-76 | an untracked container ends up with exactly one handle per host port, the k-th forwarding its k-th port, and is a key iff it has a port |
| EventRegistry.SnapshotOpensOnePerBinding | harbormaster/harbormaster.py:63-76 | after the snapshot, each listed untracked container has exactly one tunnel per binding and is tracked iff it has one; tracked ones keep their handles |
| EventRegistry.DrainMembers | harbormaster/harbormaster.py:159-162 | the cleanup loops terminate a handle iff it is stored under one of the keys |
| EventRegistry.DrainNoDup | harbormaster/harbormaster.py:159-162 | the cleanup loops terminate no handle twice when lists are disjoint and duplicate-free |
| EventRegistry.ShutdownTerminatesEveryTunnelOnce | harbormaster/harbormaster.py:153-166 | cleanup's log is the old log, then exactly the stored handles, then the control tunnel; no repeats; every spawned process is in it |
| EventRegistry.EveryTunnelTerminatedOnce | harbormaster/harbormaster.py:191-199 | `main` from the start (snapshot, then events, stopped by null snapshot ports, a failed lookup or the end of the feed) followed by `cleanup` in `finally`: every spawned process terminated exactly once |
| Harbormaster.Session.constructor | harbormaster/harbormaster.py:33-44 | the shell file gains the marker block; only the control tunnel is spawned; the registry is empty and valid |
| Harbormaster.Session.CreateTunnel | harbormaster/harbormaster.py:17-24 | spawning returns a fresh handle forwarding the given port |
| Harbormaster.Session.Terminate | harbormaster/harbormaster.py:103 | `terminate()` is logged once |
| Harbormaster.Session.OpenTunnels | harbormaster/harbormaster.py:88-96 | the nested port loops do exactly `AddTunnels` for the container's host ports |
| Harbormaster.Session.CloseTunnels | harbormaster/harbormaster.py:100-104 | terminates the id's handles in order, then deletes the key (`Close`) |
| Harbormaster.Session.ScanRunning | harbormaster/harbormaster.py:61-76 | the snapshot loop does exactly `Snapshot`, keeping the invariant, and reports the uncaught exception |
| Harbormaster.Session.HandleEvent | harbormaster/harbormaster.py:80-109 | one turn does exactly `OnEvent`, keeping the invariant |
| Harbormaster.Session.Watch | harbormaster/harbormaster.py:79-109 | the event loop over a finite feed does exactly `Replay`, stopping at the first escaping exception |
| Harbormaster.Session.Serve | harbormaster/harbormaster.py:61-109 | `main` after the control tunnel: snapshot, then events unless the snapshot raised |
| Harbormaster.Session.TerminateStored | harbormaster/harbormaster.py:159-162 | the cleanup loops terminate every stored handle in dict order, each list in order |
| Harbormaster.Session.TerminateAll | harbormaster/harbormaster.py:159-166 | the loops of `cleanup` and then `dockerTunnel.terminate()`: the terminate log gains the stored handles in dict order and then the control tunnel (`ShutdownLog`) |
| Harbormaster.Session.Cleanup | harbormaster/harbormaster.py:153-166 | marker lines removed; log extended by all stored handles then the control tunnel; no repeats; every spawned process terminated |
| PollingRound.Spawn | harbormaster.py:59-62 | one `createTunnel`: the spawn log gains one forward for the port, nothing is terminated, the id stores the new handle in `dRunning` and is marked in `tRunning` |
| PollingRound.SpawnAll | harbormaster.py:56-62 | the port loops terminate nothing and spawn exactly one process per port |
| PollingRound.Visit | harbormaster.py:53-64 | one container's turn terminates nothing; when `.items()` raises it changes nothing |
| PollingRound.VisitCrashes | harbormaster.py:53-56 | `.items()` raises iff the container is untracked and its `Ports` is null |
| PollingRound.ScanList | harbormaster.py:52-64 | the walk terminates nothing and raises only when a listed container has null ports |
| PollingRound.Reap | harbormaster.py:66-69 | the reaping loop spawns nothing and terminates exactly one handle per dead key |
| PollingRound.Round | harbormaster.py:49-69 | a round that raises has terminated nothing, and some listed container has null ports |
| PollingRound.Rounds | harbormaster.py:49-70 | a run of rounds stops with an exception only when some round listed a container with null ports |
| PollingRound.ShutdownLog | harbormaster.py:111-117 | the older `cleanup` terminates exactly the handles terminated before plus the control tunnel |
| PollingRound.DeadKeys | harbormaster.py:65 | `dead` holds exactly the keys not seen in this round, in dict order, each once |
| PollingRound.SpawnAllValid | harbormaster.py:56-62 | storing the new tunnels of a container keeps `dRunning` well formed |
| PollingRound.ScanListValid | harbormaster.py:52-64 | the container walk keeps `dRunning` well formed |
| PollingRound.ReapValid | harbormaster.py:66-69 | the reaping loop keeps `dRunning` well formed |
| PollingRound.InitialPollInv | harbormaster.py:29-44 | the empty `dRunning` with only `dockerTunnel` spawned satisfies the polling invariant |
| PollingRound.SpawnKeepsInv | harbormaster.py:59-62 | one spawn-and-store keeps the invariant: stored handles are live forwards, one per key, never terminated |
| PollingRound.SpawnAllKeepsInv | harbormaster.py:56-62 | a container's spawns keep the invariant |
| PollingRound.ScanListKeepsInv | harbormaster.py:52-64 | the walk keeps the invariant, also when `.items()` raises |
| PollingRound.ReapKeepsInv | harbormaster.py:65-69 | reaping keeps the invariant: no handle is terminated twice |
| PollingRound.RoundKeepsInv | harbormaster.py:49-69 | a whole round keeps the invariant |
| PollingRound.RoundsKeepInv | harbormaster.py:49-70 | any finite number of rounds keeps the invariant |
| PollingRound.SpawnAllLog | harbormaster.py:58-60 | one new forward per host port, in order; nothing terminated |
| PollingRound.SpawnAllStoresLast | harbormaster.py:56-62 | with at least one port, `dRunning[id]` ends up holding only the last handle spawned, and the id is marked seen |
| PollingRound.SpawnAllStores | harbormaster.py:56-62 | the walk over a container's ports stores no handle that already existed and was not stored |
| PollingRound.ScanListLog | harbormaster.py:52-64 | the walk terminates nothing and only appends spawns |
| PollingRound.ScanListKeys | harbormaster.py:52-64 | the walk keeps every tracked id with its handle and adds exactly the listed ids with host ports |
| PollingRound.ScanListKeyOrder | harbormaster.py:52-64 | the walk keeps the old key order as a prefix and appends only ids that publish a host port |
| PollingRound.VisitKeys | harbormaster.py:53-62 | one container's turn appends its id to the keys iff it was untracked and has a host port; stored handles stay |
| PollingRound.VisitSeen | harbormaster.py:53-64 | one container's turn marks its id seen iff it was tracked or has a host port |
| PollingRound.ScanListSeen | harbormaster.py:51-64 | `tRunning` ends up holding the listed ids that were tracked, plus every listed id with a host port |
| PollingRound.ScanListStores | harbormaster.py:52-62 | the walk stores only handles that were already stored or are new |
| PollingRound.DeadKeysAppend | harbormaster.py:65 | the comprehension filters key by key, keeping order |
| PollingRound.DeadKeysUnfold | harbormaster.py:65 | the comprehension keeps the first key iff it was not seen, then goes on with the rest |
| PollingRound.DeadKeysAgree | harbormaster.py:65 | which keys are dead depends only on which keys were seen |
| PollingRound.ReapLog | harbormaster.py:66-69 | the reaping loop spawns nothing and appends the dead keys' handles to the log, in order |
| PollingRound.ReapKeys | harbormaster.py:66-69 | the reaping loop deletes exactly the dead keys and leaves the other handles in place |
| PollingRound.HandlesAtIndex | harbormaster.py:66-68 | the i-th handle terminated is the one stored under the i-th dead key |
| PollingRound.HandlesAtAgree | harbormaster.py:66-68 | the handles terminated depend only on what is stored under the dead keys |
| PollingRound.ReapEffect | harbormaster.py:66-69 | reaping terminates the dead keys' handles in order and deletes exactly those keys; the other keys keep their handles |
| PollingRound.DeadKeysExtend | harbormaster.py:65 | keys appended after the old ones and all seen are never dead; old keys are dead as the listing decides |
| PollingRound.RoundDeadKeys | harbormaster.py:65 | the dead keys of a round are the keys tracked before whose container is not listed, in dict order |
| PollingRound.RoundEffect | harbormaster.py:49-69 | after a round: tracked ids are exactly the listed ids tracked before or with a host port; kept ids keep their handle; the log grows by the gone ids' handles, in order |
| PollingRound.RoundClosesGone | harbormaster.py:65-69 | a tracked id whose container is gone is deleted and its handle terminated exactly once |
| PollingRound.NewPortsAgree | harbormaster.py:53 | which containers count as new depends only on whether their ids are tracked |
| PollingRound.BoundAt | harbormaster.py:56-57 | with distinct ids, an id has a host port in the list iff its own container has one |
| PollingRound.VisitEffect | harbormaster.py:53-62 | one container's turn spawns one forward per host port iff it was untracked, and nothing otherwise |
| PollingRound.ScanListSpawns | harbormaster.py:52-62 | with distinct ids, the walk spawns exactly one forward per host port of each untracked container, in list order |
| PollingRound.NewPortsCons | harbormaster.py:53-62 | with distinct ids, the new ports of a list are those of its first container, if new, followed by those of the rest |
| PollingRound.ScanListSplit | harbormaster.py:52 | walking a list is walking a prefix and then the rest |
| PollingRound.ScanPrefix | harbormaster.py:52-62 | up to a new container, the walk has spawned the ports of the earlier new ones and not tracked its id |
| PollingRound.VisitNew | harbormaster.py:55-62 | a new container's ports are spawned in order; its id stores the last; the earlier ones are stored nowhere |
| PollingRound.ScanSuffix | harbormaster.py:52-64 | the rest of the walk terminates nothing, only appends spawns, keeps a stored handle in place and stores no old unstored handle |
| PollingRound.ScanStoresLast | harbormaster.py:52-64 | at the end of the walk, a new container stores only its last tunnel; its earlier tunnels are stored nowhere |
| PollingRound.ScanListWindow | harbormaster.py:52-62 | the forwards of a container untracked at its turn sit, in port order, where the spawn log stood at its turn, to the end of the walk |
| PollingRound.VisitWindow | harbormaster.py:53-62 | the forwards an untracked container spawns in its turn stay in place in the spawn log for the rest of the walk |
| PollingRound.RoundStoresLast | harbormaster.py:53-69 | a new container with n ports gets n tunnels; only the last is stored; after the round the other n-1 are neither stored nor terminated; with no port it stays untracked and counts as new next round |
| PollingRound.ReapSpares | harbormaster.py:65-69 | reaping leaves a handle stored nowhere still stored nowhere, and terminates it only if it was terminated already |
| PollingRound.RoundKeepsOrphan | harbormaster.py:49-69 | a spawned handle stored nowhere stays stored nowhere through a round, raising or not, and the round does not terminate it |
| PollingRound.RoundsKeepOrphan | harbormaster.py:49-70 | over any number of rounds, a handle stored nowhere is never stored again and never terminated |
| PollingRound.RoundSpawns | harbormaster.py:52-64 | with distinct ids, a round spawns one forward per host port of each untracked container, in list order; tracked containers cause no tunnel |
| PollingRound.ShutdownLeavesForwards | harbormaster.py:111-117 | the older `cleanup` terminates the control tunnel once and none of the tunnels still stored |
| Poller.Poller.constructor | harbormaster.py:29-33 | the shell file gains the marker block; only the control tunnel is spawned; `dRunning` is empty and valid |
| Poller.Poller.CreateTunnel | harbormaster.py:16-23 | spawning returns a fresh handle forwarding the given port |
| Poller.Poller.Terminate | harbormaster.py:68 | `terminate()` is logged once |
| Poller.Poller.SpawnTunnels | harbormaster.py:55-62 | the nested port loops do exactly `SpawnAll`: each binding spawns and overwrites `dRunning[id]`, and marks the id seen |
| Poller.Poller.ReapDead | harbormaster.py:66-69 | the reaping loop does exactly `Reap` |
| Poller.Poller.RunRound | harbormaster.py:50-69 | one pass of `while True` does exactly `Round`, keeping the invariant; `crashed` when `.items()` meets null ports |
| Poller.Poller.Poll | harbormaster.py:49-70 | a finite run of rounds does exactly `Rounds`, stopping at the first crash |
| Poller.Poller.Cleanup | harbormaster.py:111-117 | marker lines removed; only `dockerTunnel` terminated; every tunnel still in `dRunning` left running |

## Left out

- SSH itself. The `ssh` command lines, including the bind address, the legacy `-l` TCP option and the socket path, are not modelled. A spawn is a fresh handle that records only what it forwards. Whether the process starts or exits is not modelled.
- The Docker client (`DockerClient`, `ping`, `containers.list/get`, `events`). These are a foreign library, so their answers are inputs:
  - a container list;
  - a finite prefix of the event stream, each event paired with the outcome of its `containers.get` (found, `NotFound`, or another exception).
- The loop waiting for the tunnel to come up, with its bare `except` and `time.sleep`, and the sleeps of the older script. These are timing only.
- `while True` and the endless event stream. Only finitely many rounds and events are modelled.
- File I/O. A file is a sequence of lines as `readlines` returns them. Newline handling on write is not modelled, e.g. a last line without a newline merging with the first marker line. The newer `configfile` exits when the file cannot be read; that is not modelled either.
- The `__main__` blocks: argparse, logging, and how control reaches `cleanup` (Ctrl-C or `finally`). The newer `cleanup` runs after any outcome of `main`. `EveryTunnelTerminatedOnce` covers the outcomes at container and event boundaries only. The older script cleans up only on Ctrl-C, so an escaping `AttributeError` leaves everything running.
- `c.name`, `c.short_id` and the log messages. They are only printed.
- The `die` branch tests `c.id in dRunning` but indexes with `event['id']`. The model assumes the two are equal and uses the event id.
- `tRunning` in the older script is reduced to its set of keys. Its values ("still running" or a process) are never read.
- A null `Ports` on an untracked container in the start-up scan is not treated as no ports: `.items()` at harbormaster/harbormaster.py:68 and harbormaster.py:56 raises `AttributeError`. The model follows the code: the scan stops there with the exception (`Snapshot`'s `aborted`, `ScanList`'s `crashed`). The newer `start` handler checks for null ports first, and the model does the same.
- EventRegistry.EveryTunnelTerminatedOnce: each snapshot container and each event is one atomic step, so a Ctrl-C (harbormaster/harbormaster.py:194) inside a step is not modelled. Between `createTunnel` (:72 or :92) and the store (:73-76 or :93-96), it leaves the new process stored nowhere, so `cleanup` never terminates it. Inside the `die` loop (:102-103) before `del` (:104), it leaves handles that were already terminated in `dRunning`, so `cleanup` (:161-162) terminates them a second time.
- EventRegistry.SnapshotOpensOnePerBinding: stated only for container lists whose ids are distinct, as `containers.list()` returns them.
- PollingRound.RoundSpawns: stated only for container lists whose ids are distinct.
- PollingRound.RoundStoresLast: stated only for container lists whose ids are distinct.
- setup.py: packaging metadata.
