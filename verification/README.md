# uplinkmgr: a verified model of the daemon

uplinkmgr keeps a Linux router's policy routing in step with several WAN uplinks. A daemon reads the state files that
dhcpcd's exit hook leaves, probes each uplink, and issues `ip rule` and `ip route` commands; it also writes radvd
configurations and fires events. The daemon never reads the kernel back: it keeps a record of what it installed and
issues deltas from that record alone. This project models that design and proves what it is for.

## How the model is laid out

* `routing.dfy` is the kernel: rule lists by priority and routes by table and metric, with exactly the operations of
  routing.py (a rule is deleted by priority alone, an IPv4 route is replaced by metric and deleted by interface).
* `shadow.dfy` says which kernel a record stands for, and why one command keeps the two in agreement. This is where
  injective priorities, unique metrics and interfaces, and distinct macvlan names are needed.
* `daemon.dfy` is the daemon as a class acting on the kernel object. Its `Valid()` is the refinement: the kernel is
  exactly what the record and the two flags describe, over the untouched foreign contents it started from. Every method
  ends in the state that a function of `reconcile.dfy` or `daemonspec.dfy` names.
* `reconcile.dfy` and `daemonspec.dfy` specify one pass, one cycle, one turn of the loop and a whole run, for a script
  of arbitrary file contents, probe results, clock readings, signal arrivals, reloads and IPv6 route expiries.
* `invariants.dfy` and `runs.dfy` prove what holds at every loop boundary of every run. The consequences are drawn in
  `agreement.dfy` (primaries and kernel, earned `wan-up` events), `routed.dfy` (every reported UP has its route),
  `alternation.dfy` (exactly when events alternate), `tiers.dfy` (exactly when radvd files are current),
  `convergence.dfy` (what a pass depends on), `reload.dfy` (reload as restart), `primaries.dfy` (the chain of
  primary-change events) and `adverts.dfy` (what radvd's files say).
* `policy.dfy` walks the rules for one packet; `paths.dfy` tells the outcome from what a pass read, with addresses as
  numbers and without the daemon's record; `served.dfy` says when the kernel is that of a pass.
* `wakeup.dfy` interleaves hooks, signals and the daemon step by step; `rates.dfy` bounds probing and radvd occasions,
  and `sighups.dfy` ties these to the signals that are sent.
* `hookscript.dfy`, `statetext.dfy`, `state.dfy` cover the hook's handlers and the state files as text; `radvd.dfy`,
  `statemachine.dfy`, `priority.dfy`, `naming.dfy`, `config.dfy`, `hooks.dfy` the remaining parts. `trace.dfy` is the
  history of a run that event statements refer to.

## What is assumed

* The configuration is one that config.py accepts (`Accepted`, established by `Configuration.Load`), and macvlan names
  exist and differ within each IPv6 uplink (`WellNamed`). The daemon does not check names itself; only
  bin/uplinkmgr-setup does. `Reload.TeardownExactIffDistinct` proves that without this the kernel is not restored, and
  `Reload.CollidingNames` that such configurations load. Names are required for IA_NA-only uplinks too, because the
  code would write macvlan rules for them if a PD file existed.
* Before the daemon starts its priority block and its tables are unused (`Free`). The block has 1+2N+2U IPv6
  priorities; the repository's design document counts 1+2N+U, without the `pd_lo` family. The code is followed.
* IPv6 routes with an expiry may vanish while the daemon sleeps; nothing else changes the daemon's rules and routes.
* `time.monotonic()` does not run backwards (rates only).

## Where the code and a natural reading differ

* The accept rules keep the last delegation after it is lost, so the kernel is not a function of the files. It is one iff
  the remembered delegations agree (`Convergence.PassDetermines`, `Convergence.SameKernel`, with a failing pair of runs in
  `Convergence.DelegationLeavesTrace`).
* wan events need not alternate. They do iff no link recovers while all records of its family are gone
  (`Alternation.EventsAlternateIff`; what happens otherwise is `Alternation.ReportedDownTwice`). The last event and the
  health always agree.
* radvd files are not written at start or reload, so they are current before the first regeneration iff they fit the
  lease files (`Tiers.TiersAfterStart`, `Tiers.TiersAfterReload`, `Tiers.TiersInRuns`).
* IAIDs of different macvlans are equal when a network index spills into a later uplink's range
  (`Naming.IaidsDistinctIff`).
* Thresholds below one act as one. IPv4 is probed even without a lease (daemon.py:294), which the
  repository's design document excludes.

## Model

| member | source | states |
|---|---|---|
| Configuration.CheckUplink | src/uplinkmgr/config.py:181-209 | the outcome of the checks on one uplink entry, in the order of the source: it agrees with the declarative fault of that entry against all earlier entries |
| Configuration.ParseUplinks | src/uplinkmgr/config.py:169-218 | accepted iff no entry has a fault, else the first faulty entry and its reason; accepted uplinks have distinct names, interfaces and metrics |
| Configuration.ParseNetworks | src/uplinkmgr/config.py:151-166 | accepted iff every entry has a name and a valid interface; duplicate interfaces are not a fault, as in the code |
| Configuration.Load | src/uplinkmgr/config.py:96-135 | accepted iff every check of the source passes, and then the result is the raw lists entry by entry and satisfies the facts the daemon relies on; otherwise the first error in the order of the checks |
| Configuration.LoadsIff | src/uplinkmgr/config.py:96-218 | acceptance in plain terms, for all inputs: well-formed names and interfaces, positive metrics, hints of 1 to 64, and no name, interface or metric twice, a missing metric being 100 times the entry's number |
| Configuration.NoFaultIsDistinct | src/uplinkmgr/config.py:188-205 | absence of faults entry by entry means distinctness over all pairs of uplinks |
| Priority.Ipv6Bijection | src/uplinkmgr/priority.py:43-64 | the five IPv6 families map their slots one-to-one onto the contiguous block of 1+2UM+2U priorities, every accept rule below every prohibit rule |
| Priority.Ipv4Bijection | src/uplinkmgr/priority.py:19-28 | the IPv4 families map their slots one-to-one onto U+2 contiguous priorities |
| Priority.Injective6 | src/uplinkmgr/priority.py:43-64 | two IPv6 slots never share a priority (row-major arithmetic over uplinks and networks) |
| Priority.Surjective6 | src/uplinkmgr/priority.py:43-64 | every priority of the IPv6 block decodes to a slot: the block has no gap |
| Naming.MacvlanNameShape | src/uplinkmgr/naming.py:12-40 | a name can be made iff numeric suffix and uplink suffix fit 15 characters; it ends in both whole, after as much of the rest as fits, and holds no dot |
| Naming.MacvlanNamesDisjoint | src/uplinkmgr/naming.py:12-40 | names of different uplinks never collide, whatever the networks are called: the suffix can be read back |
| Naming.MacvlanIsNotLoopback | src/uplinkmgr/naming.py:12-40 | no macvlan is called `lo`, so forwarded traffic never matches a rule for the router's own |
| Naming.ValidateMacvlanNames | src/uplinkmgr/naming.py:123-138 | passes iff the names of all (PD uplink, network) pairs exist and differ; a failure names a witness, and a collision is always within one uplink |
| Naming.ValidatedIsWellNamed | src/uplinkmgr/naming.py:123-138 | for every accepted configuration: passing means that within each PD uplink names exist and differ; what the daemon needs is that plus the same for IA_NA uplinks without a delegation |
| Naming.IaidsDistinctIff | src/uplinkmgr/naming.py:51-60 | the IAIDs of all macvlans of PD uplinks differ iff the number of networks is at most 256 times the distance of any two PD uplinks: beyond that the network index spills into the next uplink's range |
| Naming.UndecDec | src/uplinkmgr/naming.py:24 | decimal numerals can be read back, hence determine the uplink index |
| StateMachine.UplinkState.UpdateLink | src/uplinkmgr/statemachine.py:45-73 | one probe on the state object is one step of the automaton on that family and leaves the other family alone |
| StateMachine.UplinkState.Update | src/uplinkmgr/statemachine.py:25-42 | both families in order; IPv6 only where enabled; the two flags tell exactly whether the state changed |
| StateMachine.UplinkState.constructor | src/uplinkmgr/statemachine.py:14-22 | a new state object is UP for both families with all counters zero |
| StateMachine.HysteresisIsLastWindow | src/uplinkmgr/statemachine.py:45-73 | for every probe sequence the automaton is DOWN iff some window of max(1,F) straight failures is not followed by a window of max(1,R) straight successes |
| StateMachine.FlapBound | src/uplinkmgr/statemachine.py:56-73 | t flips in n probes without forced downs satisfy (t/2)(F+R) + (t%2)F <= n |
| StateMachine.RecoveryBound | src/uplinkmgr/daemon.py:385-395 | recoveries times R never exceed the number of probes, with forced downs inserted anywhere |
| StateMachine.FlapPotential | src/uplinkmgr/statemachine.py:56-73 | the amortised count behind the flap bound: the counter is the credit towards the next flip |
| Routing.Kernel.AddIpv4PolicyRules | src/uplinkmgr/routing.py:18-25 | the two global IPv4 rules are appended at their priorities |
| Routing.Kernel.DelIpv4PolicyRules | src/uplinkmgr/routing.py:28-30 | one rule is taken out at each of the two priorities, by priority alone |
| Routing.Kernel.AddRule4 | src/uplinkmgr/routing.py:100-103 | a rule is appended at its priority; nothing else changes |
| Routing.Kernel.AddRule6 | src/uplinkmgr/routing.py:33-36 | a rule is appended at its priority; nothing else changes |
| Routing.Kernel.DelIpv4Rule | src/uplinkmgr/routing.py:106-107 | deletion by priority alone takes the first rule found there, whoever added it |
| Routing.Kernel.DelIpv6Rule | src/uplinkmgr/routing.py:110-111 | deletion by priority alone takes the first rule found there, whoever added it |
| Routing.Kernel.ReplaceIpv4Route | src/uplinkmgr/routing.py:47-50 | the route of the same table and metric is overwritten, whatever its device |
| Routing.Kernel.DelIpv4Route | src/uplinkmgr/routing.py:53-55 | deletion by device and table takes out the matching route of least metric |
| Routing.Kernel.ReplaceIpv6Route | src/uplinkmgr/routing.py:62-68 | the table's default route is overwritten; it carries an expiry iff the lifetime is not 0 |
| Routing.Kernel.DelIpv6Route | src/uplinkmgr/routing.py:71-73 | deletion by device and table takes out the matching route of least metric |
| Routing.RemoveBest | src/uplinkmgr/routing.py:53-55 | the search for the route to delete finds the unique best match or none |
| Shadow.NothingIsBase | src/uplinkmgr/daemon.py:663-717 | an empty record stands for exactly the kernel as it was found (both directions) |
| Shadow.AgreementIsExact | src/uplinkmgr/daemon.py:28-37 | the record, the flags and the foreign contents determine the kernel completely |
| Shadow.SetSlot6 | src/uplinkmgr/daemon.py:603-628 | a command at one priority changes the kernel exactly as the change of the record at that slot asks, because priorities are injective |
| Shadow.SetGw4 | src/uplinkmgr/daemon.py:493-500 | routes put in by metric and taken out by interface stay those of the record, because metrics and interfaces are unique |
| Shadow.OwnDevice4 | src/uplinkmgr/config.py:197-205 | in the daemon's tables the routes through an uplink's interface are exactly the uplink's own |
| Shadow.SetRoute6 | src/uplinkmgr/daemon.py:542-550 | replacing or deleting the IPv6 default route keeps the agreement |
| Shadow.ExpireRoutes | src/uplinkmgr/routing.py:62-68 | a route with an expiry may vanish from the kernel and only the expected route of that uplink is affected |
| Shadow.SwapFwd | src/uplinkmgr/daemon.py:451-467 | an accept rule can be added, narrowed in place or removed by priority alone, because the names of an uplink's macvlans differ |
| Shadow.SwapProhibit | src/uplinkmgr/daemon.py:622-628 | likewise for prohibit rules |
| Shadow.SwapLo6 | src/uplinkmgr/daemon.py:552-572 | the rule for the router's own packets is replaced by delete and add at one priority |
| Shadow.SwapPdLo6 | src/uplinkmgr/daemon.py:574-593 | likewise for packets from a delegated prefix |
| Shadow.SwapLo4 | src/uplinkmgr/daemon.py:502-518 | likewise for the IPv4 address |
| Shadow.SwapOn4 | src/uplinkmgr/daemon.py:436-443 | both global IPv4 rules come and go with their flag |
| Shadow.SwapOn6 | src/uplinkmgr/daemon.py:445-449 | the global IPv6 rule comes and goes with its flag |
| Trace.OkRunMeans | src/uplinkmgr/daemon.py:323-346 | the reading used for `wan-up` in plain terms: so many successes since a point after which there was no failure, no `wan-down` and no reset |
| Reconcile.NarrowStep | src/uplinkmgr/daemon.py:611-620 | one more network of the narrowing loop changes the record at that macvlan only |
| Invariants.ReconcileOneKeeps | src/uplinkmgr/daemon.py:474-601 | one uplink's pass keeps record and history in step, keeps every link tracked by its events, settles that uplink and touches no other |
| Invariants.ReconcileAllKeeps | src/uplinkmgr/daemon.py:469-472 | a whole pass keeps the invariant and settles every uplink: UP iff routed for IPv4 |
| Invariants.CycleKeeps | src/uplinkmgr/daemon.py:323-346 | a monitoring cycle keeps the whole invariant, including the double report of a link forced down while recovering |
| Invariants.ReportTracked | src/uplinkmgr/daemon.py:333-346 | the report of a flipped link names the state it has by then, and a report of UP is earned |
| Invariants.SetupKeeps | src/uplinkmgr/daemon.py:436-467 | fresh states, global rules and unconstrained accept rules establish the invariant |
| Invariants.NothingLeft | src/uplinkmgr/daemon.py:663-703 | what teardown leaves of any record that the history accounts for is nothing |
| Invariants.NarrowFollows | src/uplinkmgr/daemon.py:603-620 | narrowing to the newest delegation yields the accept rules the history asks for |
| Runs.EveryBoundary | src/uplinkmgr/daemon.py:132-157 | at every loop boundary of every run: record, health, events, primaries and (once regenerated) radvd tiers agree |
| Runs.StartBoundary | src/uplinkmgr/daemon.py:67-86 | the first boundary satisfies the invariant for all files |
| Runs.ReloadKeeps | src/uplinkmgr/daemon.py:198-218 | a reload re-establishes it for the new configuration, a failed one keeps it |
| Runs.ReconcileKeeps | src/uplinkmgr/daemon.py:236-266 | SIGUSR1 handling keeps it and leaves current radvd tiers |
| Runs.RunCycleKeeps | src/uplinkmgr/daemon.py:308-356 | a monitoring cycle keeps it |
| Runs.NoChangeSameTiers | src/uplinkmgr/daemon.py:342-356 | without an IPv6 flip the files that were current stay current, forced downs of unprobed links included |
| Runs.WakeKeeps | src/uplinkmgr/daemon.py:159-167 | expiry of IPv6 routes while asleep keeps it |
| Daemons.Daemon.constructor | src/uplinkmgr/daemon.py:41-61 | the object starts with nothing recorded and remembers the kernel as found |
| Daemons.Daemon.ForceLinkDown | src/uplinkmgr/daemon.py:385-395 | DOWN with zero counters for that family of that uplink only, one `wan-down`, kernel untouched |
| Daemons.Daemon.SyncGw4 | src/uplinkmgr/daemon.py:493-500 | both IPv4 routes follow the wanted gateway; no command if it is recorded already; the kernel still agrees with the record |
| Daemons.Daemon.SyncLo4 | src/uplinkmgr/daemon.py:502-518 | the IPv4 source rule follows the wanted address; no command if recorded already |
| Daemons.Daemon.SyncRoute6 | src/uplinkmgr/daemon.py:542-550 | the IPv6 route is refreshed, or removed if it was recorded |
| Daemons.Daemon.SyncLo6 | src/uplinkmgr/daemon.py:552-572 | the IPv6 source rule follows the wanted prefix; no command if recorded already |
| Daemons.Daemon.SyncPdLo6 | src/uplinkmgr/daemon.py:574-593 | likewise for the delegated prefix |
| Daemons.Daemon.ReconcileUplinkIpv4 | src/uplinkmgr/daemon.py:474-518 | the pass reaches the declared state, keeps the kernel in agreement, and issues no command if the record is unchanged |
| Daemons.Daemon.ReconcileUplinkIpv6 | src/uplinkmgr/daemon.py:520-601 | likewise for IPv6, including route, both source rules and all macvlan rules |
| Daemons.Daemon.CheckIpv6 | src/uplinkmgr/daemon.py:534-538 | the link is forced DOWN iff all three records are absent and it was UP |
| Daemons.Daemon.ReconcileMacvlanRules | src/uplinkmgr/daemon.py:603-628 | accept rules narrowed in place, prohibit rules added where missing, for every network |
| Daemons.Daemon.TeardownMacvlanProhibitRules | src/uplinkmgr/daemon.py:630-642 | the uplink's prohibit rules go, its accept rules stay |
| Daemons.Daemon.ReconcileAll | src/uplinkmgr/daemon.py:469-472 | the loop over uplinks refines the specification of a pass; an unchanged record means no command was issued |
| Daemons.Daemon.ReconcileAgain | src/uplinkmgr/daemon.py:469-642 | a second pass over the same records issues no rule command, fires no event and records nothing anew |
| Daemons.Daemon.SetupIpv4Rules | src/uplinkmgr/daemon.py:436-443 | both global IPv4 rules are in and flagged |
| Daemons.Daemon.SetupIpv6Rules | src/uplinkmgr/daemon.py:445-449 | the global IPv6 rule is in and flagged |
| Daemons.Daemon.SetupIpv6MacvlanRules | src/uplinkmgr/daemon.py:451-467 | an unconstrained accept rule for every macvlan of every PD uplink |
| Daemons.Daemon.TeardownMacvlanRules | src/uplinkmgr/daemon.py:644-661 | both kinds of macvlan rules of one uplink go |
| Daemons.Daemon.TeardownUplink | src/uplinkmgr/daemon.py:668-703 | the record of one uplink becomes empty, those of the others stay |
| Daemons.Daemon.TeardownAll | src/uplinkmgr/daemon.py:663-717 | from every reachable state the kernel is returned to exactly what it was before the daemon started |
| Daemons.Daemon.InitStates | src/uplinkmgr/daemon.py:723-731 | fresh state objects and empty records for exactly the configured uplinks |
| Daemons.Daemon.CycleUplink | src/uplinkmgr/daemon.py:323-346 | one uplink's part of a cycle, with reports naming the state after reconciling |
| Daemons.Daemon.RunCycleUplinks | src/uplinkmgr/daemon.py:321-346 | the loop over uplinks, and whether any IPv6 link flipped |
| Daemons.Daemon.RunCycle | src/uplinkmgr/daemon.py:308-356 | a whole monitoring cycle, radvd and primaries included |
| Daemons.Daemon.FireWanEvent | src/uplinkmgr/daemon.py:358-383 | the event carries the state the link has at that moment |
| Daemons.Daemon.BestIpv4 | src/uplinkmgr/daemon.py:397-402 | the UP uplink of least metric, if any is UP |
| Daemons.Daemon.IfaceByName | src/uplinkmgr/daemon.py:403-404 | the interface of the first uplink of that name, None if there is none |
| Daemons.Daemon.UpdatePrimaryUplinks | src/uplinkmgr/daemon.py:397-420 | both primaries are recomputed from health; an event is fired iff the primary changed, with the old and new name and interface |
| Primaries.PrimaryChain | src/uplinkmgr/daemon.py:399-420 | over every run, reloads included: each primary-change event goes from the primary announced before to a different one, and the last of each family announces the primary the daemon holds |
| Primaries.ChangeNames | src/uplinkmgr/daemon.py:403-418 | an event names the interfaces of the two uplinks, or none where the configuration has no uplink of that name |
| Daemons.Daemon.Start | src/uplinkmgr/daemon.py:67-86 | the start-up sequence on any kernel whose block and tables are free establishes agreement and the boundary invariant |
| Daemons.Daemon.DoReload | src/uplinkmgr/daemon.py:198-218 | a reload refines its specification: kept on failure, taken down and started afresh otherwise |
| Daemons.Daemon.DoRadvdSighup | src/uplinkmgr/daemon.py:225-234 | SIGUSR2: files rewritten, every unit signalled, the rate limiter reset |
| Daemons.Daemon.RefreshRadvd | src/uplinkmgr/daemon.py:241-266 | files rewritten always, units signalled iff the interval has passed or an advertisement is about to expire |
| Daemons.Daemon.LeastGwRemaining | src/uplinkmgr/daemon.py:268-284 | the loop computes the least remaining lifetime |
| DaemonSpec.MinGwRemaining | src/uplinkmgr/daemon.py:268-284 | a lower bound over all IPv6 uplinks with a finite advertisement, attained by one; None iff there is none |
| Daemons.Daemon.DoReconcile | src/uplinkmgr/daemon.py:236-266 | SIGUSR1: pass, primaries, radvd |
| Daemons.Daemon.LoopOnce | src/uplinkmgr/daemon.py:133-157 | one iteration of the loop refines one turn of the specification, for every arrival of signals between its actions |
| Daemons.Daemon.Loop | src/uplinkmgr/daemon.py:132-157 | every run refines its specification, and at its end the kernel is exactly what record and flags describe over untouched foreign contents |
| Daemons.Daemon.Cleanup | src/uplinkmgr/daemon.py:750-775 | the kernel is as it was found, radvd advertises all uplinks as UP |
| Daemons.Daemon.Run | src/uplinkmgr/daemon.py:67-86 | a whole life of the daemon, reloads included, leaves the kernel as it found it |
| Agreement.SharedTable | src/uplinkmgr/daemon.py:493-500 | the shared IPv4 table holds one route per UP uplink, through its interface, and nothing else |
| Agreement.Ipv4Agreement | src/uplinkmgr/daemon.py:397-409 | at every boundary the winning route of the shared table is that of the reported primary; None iff the table is empty |
| Agreement.TierAgreement | src/uplinkmgr/radvd.py:28-107 | exactly the file of the reported primary is `high`, and with exclusive_preferred_pd every other file is withdrawn |
| Agreement.WanUpIsEarned | src/uplinkmgr/daemon.py:323-346 | every `wan-up` of a run follows at least max(1,R) successes with no failure, `wan-down` or reset between |
| Routed.TurnUps | src/uplinkmgr/daemon.py:132-157 | every `wan-up` that a turn adds, of either family, names a configured uplink that is UP for that family when the turn is over; no `wan-up` comes from a reload or from SIGUSR1 |
| Routed.ReportedUpIsRouted | src/uplinkmgr/daemon.py:333-340 | an IPv4 `wan-up` of a turn has its route when the turn is over: recorded, and in every kernel that agrees with the record, in the shared and in the uplink's own table, through its interface |
| Routed.EveryWanUpIsRouted | src/uplinkmgr/daemon.py:132-157 | over every run from start-up: each IPv4 `wan-up` was fired in some turn whose end finds its route installed |
| Alternation.ReconcileOneAlternates | src/uplinkmgr/daemon.py:474-538 | a pass never breaks alternation, for any link: a forced DOWN hits only a link that was last reported UP |
| Alternation.PassAlternates | src/uplinkmgr/daemon.py:469-472 | nor does a whole pass over all uplinks |
| Alternation.CycleOneAlternates | src/uplinkmgr/daemon.py:323-340 | after one uplink's part of a cycle, events of any link and family alternate iff they did before and the link is not (DOWN, answering, at its last success before recovery, without any record of the family) |
| Alternation.ReportedDownTwice | src/uplinkmgr/daemon.py:483-484 | what a link that recovers so is reported as: DOWN, twice in a row, once by the forced DOWN and once by the report of the flip |
| Alternation.CycleAlternates | src/uplinkmgr/daemon.py:321-340 | the same for a whole cycle, judged by the health before the cycle |
| Alternation.TurnAlternates | src/uplinkmgr/daemon.py:132-157 | the same for a turn of the loop, reload, SIGUSR1 and SIGUSR2 handling included: only its cycle can break alternation |
| Alternation.EventsAlternateIff | src/uplinkmgr/daemon.py:132-157 | over every run, link by link: the wan events alternate iff no cycle of the run ever found the link recovering while its records were gone |
| Tiers.TiersAfterStart | src/uplinkmgr/daemon.py:67-86 | after start-up nothing is regenerated, and the tiers found on disk are current iff they fit the states that the lease files imply: UP unless no IPv6 record is there |
| Tiers.TiersAfterReload | src/uplinkmgr/daemon.py:198-218 | likewise after a reload, from any state whatever |
| Tiers.TiersAbsentAtStart | src/uplinkmgr/daemon.py:67-86 | an input for which they are not: a PD uplink whose radvd file does not exist yet |
| Tiers.TiersInRuns | src/uplinkmgr/daemon.py:132-157 | at every boundary of every run the tiers are current iff the files were regenerated since the last start or reload, or fit the states implied by what that one read |
| Convergence.AllConverge | src/uplinkmgr/daemon.py:469-642 | after a pass every uplink's record, route and health equal a declarative target that mentions no earlier record |
| Convergence.PassDetermines | src/uplinkmgr/daemon.py:469-642 | two passes over the same files that end with the same health end with the same record iff, before them, the last delegations agreed wherever they are remembered: under source checking, for IPv6 uplinks without a PD file |
| Convergence.SameKernel | src/uplinkmgr/daemon.py:469-642 | the same equivalence for the kernels themselves, down to the last rule and route |
| Convergence.SecondPass | src/uplinkmgr/daemon.py:469-642 | repeating a pass over unchanged files fires no event, changes no record, no health, and no IPv6 route but its expiry |
| Convergence.FwdRemembers | src/uplinkmgr/daemon.py:598-601 | for every uplink: two delegations yield the same accept rules iff they are equal, or source checking is off, or the uplink has no IPv6 |
| Convergence.DelegationLeavesTrace | src/uplinkmgr/daemon.py:594-601 | a run that once saw a delegation and a run that never did end with different records over the same files |
| Reload.ReloadIsRestart | src/uplinkmgr/daemon.py:198-218 | a successful reload ends with the health, record and primaries of a fresh start of the new configuration |
| Reload.ReloadSameKernel | src/uplinkmgr/daemon.py:198-218 | and with the same kernel |
| Reload.TeardownExactIffDistinct | src/uplinkmgr/daemon.py:451-467 | set up an uplink's macvlan rules, run any sequence of passes with and without delegations, tear down: accept and prohibit rules are back to what they were iff the macvlan names differ; otherwise an accept rule stays behind |
| Reload.CollidingNames | src/uplinkmgr/config.py:151-166 | whatever configuration loads still loads with two of its networks on one interface, and then every uplink's names collide |
| Reload.CollisionLoads | src/uplinkmgr/config.py:96-135 | for any valid interface and any two positions there is a configuration with a PD uplink that loads and has that collision |
| Policy.SourcePath | src/uplinkmgr/daemon.py:451-467 | a packet from macvlan (u,n) without a specific route leaves by u's interface if admitted and u has a route, else is prohibited iff prohibit rules are in, else falls through |
| Policy.RejectsWhereProhibited | src/uplinkmgr/daemon.py:603-628 | with prohibit rules in: routed iff the source lies in u's delegation and u has a route, prohibited otherwise |
| Policy.Ipv4Paths | src/uplinkmgr/daemon.py:493-518 | IPv4, from the record: the router's own packet leaves by the first UP uplink whose lease address is its source, any other by the UP uplink of least metric; it falls through iff none is UP |
| Policy.SpecificRouteWins | src/uplinkmgr/routing.py:18-36 | a packet with a specific route takes it, in both families, whatever the rest of the block says |
| Paths.VerdictAfterPass | src/uplinkmgr/daemon.py:469-642 | after a pass, from the records it read and addresses as numbers: the verdict on every packet from a PD macvlan, with gateway, interface and remaining lifetime of the route written out |
| Paths.WrongSourceRejected | src/uplinkmgr/daemon.py:603-628 | under reject_wrong_pd_src, after a pass that read a PD file: prohibited iff the source number is outside [net, net + 2^(128-length)) or there is no advertisement, else to the advertising gateway |
| Paths.AdvertisedIsRouted | src/uplinkmgr/radvd.py:120-147 | radvd and the rules agree: every address of a /64 that the regenerated file advertises on any network of an uplink is routed by that uplink from all its networks, while there is an advertisement |
| Paths.OwnPath6 | src/uplinkmgr/daemon.py:552-593 | after a pass, the router's own IPv6 packets: by the first UP uplink whose managed address, else advertised prefix, else advertised address covers the source; else by the first whose delegation does; else through the block |
| Paths.Ipv4AfterPass | src/uplinkmgr/daemon.py:474-518 | after a pass, IPv4: the router's own packet to the gateway of the first UP uplink whose lease address is its source, any other to the gateway of the UP uplink of least metric |
| Paths.HealthAfterPass | src/uplinkmgr/daemon.py:483-538 | a pass forces a family DOWN with cleared counters iff it was UP and all its records are absent, and changes no other link |
| Paths.DelegationRemembered | src/uplinkmgr/daemon.py:603-608 | a pass remembers the delegation it read, with its full length |
| Served.TurnServes | src/uplinkmgr/daemon.py:132-157 | in every turn: by the time of its cycle, a SIGUSR1 left the record and health of a pass over what it read, and so did a reload; the paths above then hold of the kernel |
| Served.StartServes | src/uplinkmgr/daemon.py:67-86 | likewise start-up |
| Served.Announced | src/uplinkmgr/daemon.py:67-86 | start, reload and stop are announced last; a reload that fails changes nothing |
| Served.HealthAfterCycle | src/uplinkmgr/daemon.py:308-340 | after a monitoring cycle each probed family of each uplink took one step on its own probe result, and is DOWN with cleared counters if it recovered without a record |
| Policy.NeverAnotherUplink | src/uplinkmgr/daemon.py:552-593 | whatever the packet: if the block routes it, its interface or source belongs to the uplink whose table was used |
| Policy.OwnPath | src/uplinkmgr/daemon.py:552-593 | the router's own IPv6 packets, from the record: the first uplink whose address prefix covers the source and has a route, else the first by delegation |
| Policy.SoleOwner | src/uplinkmgr/daemon.py:552-593 | if one uplink alone claims the source, its route is used, or the packet falls through the block if it has none |
| Policy.MacvlanVerdict | src/uplinkmgr/priority.py:43-64 | only the packet's own accept and prohibit rule speak, accept first |
| Policy.Ipv4Path | src/uplinkmgr/daemon.py:397-409 | at every boundary: packets that no lease address claims leave by the reported primary, and fall through iff no uplink is UP; the others by the uplink that claims them |
| Radvd.FirstUpMethod | src/uplinkmgr/radvd.py:28-34 | the first UP PD uplink, if any |
| Radvd.RadvdDir.RegenerateAll | src/uplinkmgr/radvd.py:37-117 | the files of all PD uplinks and the signalled units, as functions of health and records |
| Radvd.ConfFor | src/uplinkmgr/radvd.py:55-107 | one uplink's tier, lifetimes and prefixes |
| Radvd.RadvdConfFromState | src/uplinkmgr/generator.py:138-168 | one block per network; DOWN zeroes all lifetimes |
| Radvd.Clamp | src/uplinkmgr/generator.py:107-115 | 0 iff nothing remains; otherwise the value of 300 to 9000 nearest to what remains |
| Radvd.RegeneratedIsCurrent | src/uplinkmgr/radvd.py:55-107 | after a regeneration, by link states alone: low with all three lifetimes 0 on a DOWN uplink, high on the first UP one, medium on the others, which exclusive mode withdraws |
| Radvd.RegeneratedAdvertises | src/uplinkmgr/radvd.py:63-117 | and of every network of an UP uplink the remaining lifetimes written out as max(0, x - (now - timestamp)) or the placeholders, the nearest permitted router lifetime, and the n-th /64 iff the delegation has room for one each; no other file is touched |
| Adverts.AdvertsInRuns | src/uplinkmgr/radvd.py:37-117 | over every run: once the files were rewritten since the last start or reload, at every boundary they say this for the current link states and the records of the last writing |
| Adverts.CleanupAdvertises | src/uplinkmgr/daemon.py:750-775 | on stop the files advertise every uplink as UP, each unit is signalled once, and nothing is owned in the kernel |
| Radvd.TiersFollowState | src/uplinkmgr/radvd.py:55-61 | tiers and primary depend on nothing but which PD uplinks are UP for IPv6: whether given files are current, and the primary, are the same for any two healths that agree there |
| Radvd.OneHigh | src/uplinkmgr/radvd.py:28-96 | exactly one uplink's file is `high` iff some PD uplink is UP; exclusive mode withdraws all others |
| Radvd.DerivePrefixes | src/uplinkmgr/radvd.py:120-147 | the loop computes the declared subnets or nothing |
| Radvd.PrefixesAllOrNothing | src/uplinkmgr/radvd.py:120-147 | empty iff underivable; else every network has a /64, aligned, inside the delegation and pairwise disjoint; they match the (macvlan, SLA id) pairs dhcpcd gets iff the names differ |
| Radvd.PairsMatchIff | src/uplinkmgr/radvd.py:138-143 | the derived map holds every network's subnet under the pair that dhcpcd is given iff the macvlan names differ; otherwise the last network of a name has overwritten the others |
| Radvd.SubnetsFit | src/uplinkmgr/radvd.py:138-143 | each subnet is /64-aligned (the strict constructor cannot fail), inside the delegation, and disjoint from later ones |
| Radvd.PdDelegations | src/uplinkmgr/generator.py:65-70 | the enumeration of networks in the dhcpcd configuration: it fails iff a name cannot be made, else it yields SLA id n for network n |
| HookScript.Run.HandleIpv4Bound | hooks/dhcpcd-hook:58-65 | writes the IPv4 record iff there is a gateway, the first of the list |
| HookScript.Run.HandleRouteadvert | hooks/dhcpcd-hook:69-96 | writes the RA record iff IPv6 is wanted and a router is known; the address is dropped under the M flag |
| HookScript.Run.HandleIpv6Bound | hooks/dhcpcd-hook:104-131 | writes PD and IA_NA records where present; removes IA_NA unless reconfiguring |
| HookScript.Run.Dispatch | hooks/dhcpcd-hook:135-176 | all file changes of the reason, then one signal; nothing for another interface |
| HookScript.HookIsProgram | hooks/dhcpcd-hook:41-47 | every run writes first and signals last, touches its own uplink only, and signals whenever it wrote |
| HookScript.LeaseReachesDaemon | hooks/dhcpcd-hook:137-140 | after an IPv4 lease event the daemon reads exactly the lease's first gateway and address, and all else as before; without a gateway nothing changes |
| HookScript.AdvertisementReachesDaemon | hooks/dhcpcd-hook:147-150 | after an advertisement the daemon reads its values back, integers included; an unset lifetime or prefix length is read as 0 |
| HookScript.DelegationReachesDaemon | hooks/dhcpcd-hook:152-155 | after a delegation the daemon reads it back, integers included |
| HookScript.ExpiryReachesDaemon | hooks/dhcpcd-hook:142-166 | an expiry takes away the records of its family and no others; IPv6 expiries iff IPv6 is wanted |
| HookScript.Bound6ReachesDaemon | hooks/dhcpcd-hook:152-155 | after an IPv6 lease the managed address arrives, or is gone if there is none; the delegation arrives, or stays as it was; nothing else changes |
| HookScript.ReconfigureReachesDaemon | hooks/dhcpcd-hook:168-176 | after a catch-up run each of the four records is what the variables say, where they say anything, and as it was where they do not |
| HookScript.SignalsIff | hooks/dhcpcd-hook:135-176 | which events signal the daemon |
| HookScript.ReconfigureKeepsFiles | hooks/dhcpcd-hook:171-176 | a catch-up run never takes a record away |
| StateText.ReadKvState | src/uplinkmgr/state.py:105-128 | the two loops compute the fields of the parsed text; None iff the file is missing or a field has no value |
| StateText.Values | src/uplinkmgr/state.py:117-128 | a value for every field iff every field is present or defaulted and every integer parses |
| StateText.ReadIpv4State | src/uplinkmgr/state.py:62-64 | the IPv4 record |
| StateText.ReadRaState | src/uplinkmgr/state.py:67-76 | the RA record with its three defaults |
| StateText.ReadNaState | src/uplinkmgr/state.py:79-81 | the IA_NA record |
| StateText.ReadPdState | src/uplinkmgr/state.py:84-92 | the PD record |
| StateText.PrintfParsed | hooks/dhcpcd-hook:49-53 | for clean values, parsing what the hook prints gives back exactly the pairs |
| StateText.Ipv4RoundTrip | hooks/dhcpcd-hook:63-64 | IPv4 record: print then parse is the identity |
| StateText.RaRoundTrip | hooks/dhcpcd-hook:93-95 | RA record: print then parse is the identity |
| StateText.PdRoundTrip | hooks/dhcpcd-hook:117-120 | PD record: print then parse is the identity |
| StateText.NaRoundTrip | hooks/dhcpcd-hook:126-127 | IA_NA record: print then parse is the identity |
| StateText.PdReadable | src/uplinkmgr/state.py:84-128 | of any clean text the PD record is read, as written, iff all four numbers are integers |
| StateText.RaReadable | src/uplinkmgr/state.py:67-128 | likewise the RA record and its three numbers |
| StateText.Formats | hooks/dhcpcd-hook:63-127 | the four files line by line, key by key |
| StateText.IntRoundTrip | src/uplinkmgr/state.py:122 | decimal text of any integer parses to that integer |
| Wakeup.NoLostWakeup | src/uplinkmgr/daemon.py:132-167 | under every interleaving of hook steps, signals and daemon steps: asleep with no reconcile pending and no hook between write and signal, the newest version of every file was read |
| Wakeup.NeverKilled | src/uplinkmgr/daemon.py:67-77 | handlers are in place before the PID can be found, so no hook ends the daemon |
| Wakeup.Invariant | src/uplinkmgr/daemon.py:132-167 | every reachable world: each file is read in its newest version, or will be, or the flag is set, or some hook still owes a signal |
| Wakeup.DebtKept | hooks/dhcpcd-hook:41-47 | only a signal, or a look-up before the PID file exists, ends a hook's debt |
| Wakeup.OrderIsComplete | src/uplinkmgr/daemon.py:469-532 | a pass reads every record of every uplink |
| Rates.RatesOfRuns | src/uplinkmgr/daemon.py:132-157 | in every run, consecutive probe cycles are an interval apart unless a reload intervened, and non-urgent SIGHUPs a minimum interval apart |
| Rates.ProbeRate | src/uplinkmgr/daemon.py:148-157 | in any window W at most W/interval + 1 + reloads probe cycles start |
| Rates.OrdinaryRate | src/uplinkmgr/daemon.py:241-258 | in any window W at most W/min_interval + 1 SIGUSR1-driven occasions without urgency |
| Sighups.TurnSchedule | src/uplinkmgr/daemon.py:132-157 | what a turn does, in order, from the signals that came, the clocks, the advertisements and the probe results; the SIGHUPs it sends, and which signals stay pending |
| Sighups.SighupsOfRuns | src/uplinkmgr/daemon.py:225-266 | over every run the SIGHUPs sent are exactly those of the timed history: one to each PD unit on SIGUSR2, on a SIGUSR1 the limiter lets through, and when probing flips an IPv6 link, and no others |
| Sighups.FlipIff | src/uplinkmgr/daemon.py:321-354 | a cycle signals radvd for a flip iff the probe result of some IPv6 uplink changes its link state |
| Sighups.RadvdRate | src/uplinkmgr/daemon.py:241-258 | over every run: in a stretch whose limited occasions lie within W seconds a unit is sent at most W/min_interval + 1 SIGHUPs, and one for each occasion that is not limited |
| Rates.CyclesFit | src/uplinkmgr/daemon.py:148-157 | the intervals of a stretch fit between its bounds; each reload gives one cycle for free |
| Hooks.ResolveHookScripts | src/uplinkmgr/hooks.py:69-88 | strictly sorted by file name; contains exactly the user candidates and the system candidates no user candidate shares a stem with |
| Hooks.OrderImmaterial | src/uplinkmgr/hooks.py:69-88 | a strictly sorted list is determined by its elements, so listing order does not matter |
| Hooks.Survivors | src/uplinkmgr/hooks.py:80-86 | the lists before sorting hold exactly what is to run, once each |
| Hooks.ShadowedByStem | src/uplinkmgr/hooks.py:80-84 | no system script that runs shares a stem with a user script that runs; every other candidate of either directory runs |
| Hooks.Stem | src/uplinkmgr/hooks.py:43-45 | the name without a leading number and hyphen, if it has them |
| Hooks.BeforeMeans | src/uplinkmgr/hooks.py:87 | the sort order: a proper prefix first, else by the first character that differs |
| Hooks.SortByName | src/uplinkmgr/hooks.py:87 | the in-place sort: sorted and a permutation |
| Hooks.StrictlyBecauseShadowed | src/uplinkmgr/hooks.py:83-84 | a user and a system script never share a name, because a name shadows itself |

## Left out

- `_UplinkRouting` is a value in a map field of the daemon, not an object: updates in place through a local alias (`installed`) are modelled as updates of that map entry, so aliasing of two records is not modelled.
- Failing `ip` commands, subprocess execution, logging, `systemctl`, ping and the thread pool: probe results are arbitrary booleans, commands take effect.
- Spontaneous removal of IPv4 routes or rules by the kernel, and rejection of a duplicate rule at one priority.
- YAML parsing, type conversion of scalars, `_die` and CLI handling: `Load` starts from converted scalars and lists.
- `_reconfigure_dhcpcd`, PID liveness, `debug.env`, and everything about executing hook scripts (queue thread, eligibility, environment, timeout, kill).
- Daemons.Daemon.FireWanEvent: the event carries uplink, family and state, but not the gateway, address and prefix that the code reads from the files once more at that moment; index, metric and interface follow from the uplink.
- Daemons.Daemon.Start: assumes macvlan names that exist and differ, and an unused priority block and unused tables; without them the agreement is false (Reload.TeardownExactIffDistinct, Reload.CollidingNames), or the code raises while setting up.
- Daemons.Daemon.DoReload: the same assumption about the configuration it loads.
- Daemons.Daemon.LoopOnce: the same assumption about configurations loaded in the turn.
- Daemons.Daemon.Loop: the same assumption about every configuration of the script.
- Daemons.Daemon.Run: the same assumption about the first configuration and every configuration of the script.
- The text layout of dhcpcd, ifupdown, radvd and rt_tables files; radvd output is a record per network, dhcpcd output the (macvlan, SLA id) pairs.
- Address text: whether and to which number a text parses is a parameter, of each reading for the delegated prefix and of each packet for the kernel.
- Digits outside ASCII, which `int()` accepts too; decoding errors of state files; universal-newline translation.
- Any meaning of an RA lifetime of 0 beyond what the code does.
- Simultaneity of the three IPv6 file reads: a forced DOWN does not imply that all files were absent at one instant.
- Routing tables hold default routes only; destinations enter packet lookup as the non-default route of the main table.
- uplinkmgr-setup, packaging, systemd units, tests.
- Routing.Kernel.DelIpv4Rule: which of several rules at one priority the kernel deletes is taken to be the first; the daemon never has two.
- Rates.ProbeRate: stated for a stretch of the history whose cycles start within the window, for the least interval in force there.
- `_sleep`: its half-second polling; waking is modelled as the next turn beginning at any time.
- Wakeup.NoLostWakeup: proved of a state machine of its own, with the daemon's actions at the grain of single file reads and flag accesses; the daemon class reads each pass's records as one snapshot.
