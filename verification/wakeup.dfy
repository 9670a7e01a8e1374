/**
 * The write-then-signal protocol between the dhcpcd hook and the daemon, with every step of every hook interleaved
 * freely with every step of the daemon: no change of a state file goes unnoticed.
 */
module Wakeup {
  import opened Wrappers
  import opened Configuration
  import opened Naming
  import opened HookScript

  // ---------------------------------------------------------------- the world

  /** A running hook: what it has yet to do, what it wrote, and whether it found the daemon's PID. */
  datatype Hook = Hook(todo: seq<Op>, wrote: set<File>, found: bool)

  /** Where the main loop stands between two actions. */
  datatype Point = Head | Usr2Check | Usr1Check | ProbeCheck | SleepCheck | Sleeping | Ended

  datatype Phase =
    | NoHandlers
    | NoPid
    | Pass(i: nat, after: Point)
    | Between(point: Point)

  datatype Flags = Flags(hup: bool, usr1: bool, usr2: bool, running: bool)

  /** Whether the handlers are in place, whether the PID file holds the daemon's PID, and whether a signal ended it. */
  datatype Process = Process(handlers: bool, pidFile: bool, killed: bool)

  /** `disk` counts the changes of each file; `seen` holds the count at which the last reconcile pass read it. */
  datatype World = World(
    cfg: Config, disk: map<File, nat>, seen: map<File, nat>, flags: Flags, proc: Process, phase: Phase, hooks: seq<Hook>)

  datatype Action =
    | Spawn(env: Env)
    | HookStep(h: nat)
    | SendHup | SendUsr1 | SendUsr2 | SendTerm
    | DaemonStep(loaded: Option<Config>, timeout: bool)

  function Version(w: World, f: File): nat { GetOr(w.disk, f, 0) }

  /** The files a reconcile pass reads, in order (daemon.py, `_reconcile_all`). */
  function ReadOrder(cfg: Config, i: nat): seq<File>
    requires i <= |cfg.uplinks|
  {
    if i == 0 then []
    else
      var up := cfg.uplinks[i - 1];
      ReadOrder(cfg, i - 1) + [File(up.name, Ipv4)]
      + if Ipv6Uplink(up) then [File(up.name, Ipv6Ra), File(up.name, Ipv6Pd), File(up.name, Ipv6Na)] else []
  }

  function Order(cfg: Config): seq<File> { ReadOrder(cfg, |cfg.uplinks|) }

  // ---------------------------------------------------------------- steps

  /** A signal to a process without handlers ends it. */
  function Usr1(w: World): World {
    if w.proc.handlers then w.(flags := w.flags.(usr1 := true)) else w.(proc := w.proc.(killed := true))
  }

  function RunHook(w: World, h: nat): World
    requires h < |w.hooks| && w.hooks[h].todo != []
  {
    var k := w.hooks[h];
    var rest := k.(todo := k.todo[1..]);
    match k.todo[0]
    case Put(f) => w.(disk := w.disk[f := Version(w, f) + 1], hooks := w.hooks[h := rest.(wrote := k.wrote + {f})])
    case ReadPid => w.(hooks := w.hooks[h := rest.(found := w.proc.pidFile)])
    case Kill => (if k.found then Usr1(w) else w).(hooks := w.hooks[h := rest])
  }

  function ReadNext(w: World, i: nat, after: Point): World {
    if i < |Order(w.cfg)| then
      w.(seen := w.seen[Order(w.cfg)[i] := Version(w, Order(w.cfg)[i])], phase := Pass(i + 1, after))
    else w.(phase := Between(after))
  }

  function AtHead(w: World, loaded: Option<Config>): World {
    if !w.flags.running then w.(proc := w.proc.(pidFile := false), phase := Between(Ended))
    else if !w.flags.hup then w.(phase := Between(Usr2Check))
    else if loaded.None? then w.(flags := w.flags.(hup := false), phase := Between(Usr2Check))
    else w.(flags := w.flags.(hup := false), cfg := loaded.value, phase := Pass(0, Usr2Check))
  }

  function AtUsr1Check(w: World): World {
    if w.flags.usr1 then w.(flags := w.flags.(usr1 := false), phase := Pass(0, ProbeCheck)) else w.(phase := Between(ProbeCheck))
  }

  function AtSleepCheck(w: World, timeout: bool): World {
    if w.flags == Flags(false, false, false, true) && !timeout then w.(phase := Between(Sleeping))
    else w.(phase := Between(Head))
  }

  function Loop(w: World, point: Point, loaded: Option<Config>, timeout: bool): World {
    match point
    case Head => AtHead(w, loaded)
    case Usr2Check => w.(flags := w.flags.(usr2 := false), phase := Between(Usr1Check))
    case Usr1Check => AtUsr1Check(w)
    case ProbeCheck => w.(phase := Between(SleepCheck))
    case SleepCheck => AtSleepCheck(w, timeout)
    case Sleeping => w.(phase := Between(SleepCheck))
    case Ended => w
  }

  function RunDaemon(w: World, loaded: Option<Config>, timeout: bool): World {
    match w.phase
    case NoHandlers => w.(proc := w.proc.(handlers := true), phase := NoPid)
    case NoPid => w.(proc := w.proc.(pidFile := true), phase := Pass(0, Head))
    case Pass(i, after) => ReadNext(w, i, after)
    case Between(point) => Loop(w, point, loaded, timeout)
  }

  function Act(w: World, a: Action): World {
    match a
    case Spawn(env) => w.(hooks := w.hooks + [Hook(OpsOf(env), {}, false)])
    case HookStep(h) => if h < |w.hooks| && w.hooks[h].todo != [] then RunHook(w, h) else w
    case SendHup => w.(flags := w.flags.(hup := true))
    case SendUsr1 => w.(flags := w.flags.(usr1 := true))
    case SendUsr2 => w.(flags := w.flags.(usr2 := true))
    case SendTerm => w.(flags := w.flags.(running := false))
    case DaemonStep(loaded, timeout) => RunDaemon(w, loaded, timeout)
  }

  function Acts(w: World, actions: seq<Action>): World {
    if actions == [] then w else Act(Acts(w, actions[..|actions| - 1]), actions[|actions| - 1])
  }

  /** A daemon that is about to start; a PID file that a former one left does not hold its PID. */
  predicate Initial(w: World) {
    && w.seen == map[] && w.phase == NoHandlers && w.proc == Process(false, false, false)
    && w.flags == Flags(false, false, false, true) && w.hooks == []
  }

  // ---------------------------------------------------------------- the invariant

  predicate Newest(w: World, f: File) { f in w.seen && w.seen[f] == Version(w, f) }

  /** The daemon is bound to read `f` before it looks at its flags again. */
  predicate Ahead(w: World, f: File) {
    match w.phase
    case NoHandlers => f in Order(w.cfg)
    case NoPid => f in Order(w.cfg)
    case Pass(i, _) => i <= |Order(w.cfg)| && f in Order(w.cfg)[i..]
    case Between(_) => false
  }

  /** The hook wrote `f` and will still signal the daemon. */
  predicate Owes(k: Hook, f: File) {
    f in k.wrote && (ReadPid in k.todo || (k.found && Kill in k.todo))
  }

  ghost predicate Owed(hooks: seq<Hook>, f: File) {
    exists h :: 0 <= h < |hooks| && Owes(hooks[h], f)
  }

  ghost predicate Covered(w: World, f: File) {
    Newest(w, f) || w.flags.usr1 || Ahead(w, f) || w.phase == Between(Ended) || Owed(w.hooks, f)
  }

  ghost predicate HooksOk(hooks: seq<Hook>, handlers: bool) {
    forall h :: 0 <= h < |hooks| ==> Tail(hooks[h].todo) && (hooks[h].found ==> handlers)
  }

  ghost predicate AllCovered(w: World) {
    forall f :: f in Order(w.cfg) ==> Covered(w, f)
  }

  predicate Tail(todo: seq<Op>) { Program(todo) || todo == [Kill] }

  predicate PhaseOk(phase: Phase, proc: Process) {
    && !proc.killed
    && match phase
       case NoHandlers => !proc.handlers && !proc.pidFile
       case NoPid => proc.handlers && !proc.pidFile
       case Pass(_, after) => proc.handlers && proc.pidFile && after != Ended
       case Between(point) => proc.handlers && (proc.pidFile <==> point != Ended)
  }

  ghost predicate Inv(w: World) {
    PhaseOk(w.phase, w.proc) && HooksOk(w.hooks, w.proc.handlers) && AllCovered(w)
  }

  // ---------------------------------------------------------------- preservation

  /** A pass that is about to begin will read every file. */
  lemma PassBegins(w: World, after: Point)
    requires w.phase == Pass(0, after)
    ensures AllCovered(w)
  {
    hide Order, Owed;
    assert Order(w.cfg)[0..] == Order(w.cfg);
  }

  lemma ReadCovers(w: World, i: nat, after: Point)
    requires w.phase == Pass(i, after) && AllCovered(w)
    ensures AllCovered(ReadNext(w, i, after))
  {
    hide Order, Owed;
    var w' := ReadNext(w, i, after);
    forall f | f in Order(w'.cfg) ensures Covered(w', f) {
      assert Covered(w, f);
      if i < |Order(w.cfg)| {
        assert Order(w.cfg)[i..] == [Order(w.cfg)[i]] + Order(w.cfg)[i + 1..];
      }
    }
  }

  /** Nothing that coverage depends on is lost. */
  lemma CoveredStill(w: World, w': World)
    requires AllCovered(w) && w'.cfg == w.cfg && w'.disk == w.disk && w'.seen == w.seen && w'.hooks == w.hooks
    requires w.phase.Between? && w.phase.point != Ended && w'.phase.Between? && (w.flags.usr1 ==> w'.flags.usr1)
    ensures AllCovered(w')
  {
    hide Order, Owed;
    forall f | f in Order(w'.cfg) ensures Covered(w', f) {
      assert Covered(w, f);
    }
  }

  lemma LoopKeeps(w: World, point: Point, loaded: Option<Config>, timeout: bool)
    requires w.phase == Between(point) && Inv(w)
    ensures Inv(Loop(w, point, loaded, timeout))
  {
    hide Order, HooksOk, AllCovered;
    var w' := Loop(w, point, loaded, timeout);
    if w'.phase.Pass? {
      PassBegins(w', w'.phase.after);
    } else if point != Ended {
      CoveredStill(w, w');
    }
  }

  lemma HandlersSet(w: World)
    requires w.phase.NoHandlers? && Inv(w)
    ensures Inv(w.(proc := w.proc.(handlers := true), phase := NoPid))
  {
    hide Order, Owed, Tail;
    var w' := w.(proc := w.proc.(handlers := true), phase := NoPid);
    forall f | f in Order(w'.cfg) ensures Covered(w', f) {
      assert Covered(w, f);
    }
  }

  lemma DaemonKeeps(w: World, loaded: Option<Config>, timeout: bool)
    requires Inv(w)
    ensures Inv(RunDaemon(w, loaded, timeout))
  {
    hide Order, HooksOk, AllCovered, Loop;
    match w.phase
    case NoHandlers => HandlersSet(w);
    case NoPid => PassBegins(RunDaemon(w, loaded, timeout), Head);
    case Pass(i, after) => ReadCovers(w, i, after);
    case Between(point) => LoopKeeps(w, point, loaded, timeout);
  }

  lemma ProgramTail(todo: seq<Op>)
    requires Tail(todo) && todo != []
    ensures Tail(todo[1..])
    ensures todo[0].Put? ==> ReadPid in todo[1..]
    ensures todo[0] == ReadPid ==> todo == [ReadPid, Kill]
    ensures todo[0] == Kill ==> todo == [Kill]
    ensures todo == [Kill] ==> ReadPid !in todo
  {
    if todo[0].Put? {
      assert todo[1..][|todo| - 3..] == todo[|todo| - 2..];
      assert todo[1..][|todo| - 3] == ReadPid;
    }
  }

  lemma HookKeeps(w: World, h: nat)
    requires Inv(w) && h < |w.hooks| && w.hooks[h].todo != []
    ensures Inv(RunHook(w, h))
  {
    hide Program, Order, Covered;
    ProgramTail(w.hooks[h].todo);
    forall f | f in Order(w.cfg) ensures Covered(RunHook(w, h), f) {
      HookCovers(w, h, f);
    }
  }

  /** Only a signal, or a look-up without a PID, ends a debt. */
  lemma DebtKept(w: World, h: nat, f: File)
    requires h < |w.hooks| && Tail(w.hooks[h].todo) && w.hooks[h].todo != [] && Owed(w.hooks, f)
    ensures Owed(RunHook(w, h).hooks, f)
            || (w.hooks[h].todo[0] == Kill && w.hooks[h].found)
            || (w.hooks[h].todo[0] == ReadPid && !w.proc.pidFile)
  {
    hide Program;
    ProgramTail(w.hooks[h].todo);
    var j :| 0 <= j < |w.hooks| && Owes(w.hooks[j], f);
    if j != h {
      assert RunHook(w, h).hooks[j] == w.hooks[j];
    } else {
      assert Owes(RunHook(w, h).hooks[h], f)
             || (w.hooks[h].todo[0] == Kill && w.hooks[h].found)
             || (w.hooks[h].todo[0] == ReadPid && !w.proc.pidFile);
    }
  }

  lemma HookCovers(w: World, h: nat, f: File)
    requires Inv(w) && h < |w.hooks| && w.hooks[h].todo != [] && f in Order(w.cfg)
    ensures Covered(RunHook(w, h), f)
  {
    hide Program, Order, Owed, Tail;
    assert Covered(w, f) && Tail(w.hooks[h].todo);
    if Owed(w.hooks, f) {
      DebtKept(w, h, f);
    }
    if w.hooks[h].todo[0] == Put(f) {
      NewDebt(w, h, f);
    }
  }

  lemma NewDebt(w: World, h: nat, f: File)
    requires h < |w.hooks| && Tail(w.hooks[h].todo) && w.hooks[h].todo != [] && w.hooks[h].todo[0] == Put(f)
    ensures Owed(RunHook(w, h).hooks, f)
  {
    hide Program;
    ProgramTail(w.hooks[h].todo);
    assert Owes(RunHook(w, h).hooks[h], f);
  }

  lemma SpawnKeeps(w: World, env: Env)
    requires Inv(w)
    ensures Inv(Act(w, Spawn(env)))
  {
    hide Program, ReadOrder, Order, OpsOf;
    var w' := Act(w, Spawn(env));
    HookIsProgram(env);
    forall f | f in Order(w'.cfg) ensures Covered(w', f) {
      assert Covered(w, f);
      if h :| 0 <= h < |w.hooks| && Owes(w.hooks[h], f) {
        assert Owes(w'.hooks[h], f);
      }
    }
  }

  lemma ActKeeps(w: World, a: Action)
    requires Inv(w)
    ensures Inv(Act(w, a))
  {
    hide Program, Order, RunDaemon, RunHook, Owed, HooksOk;
    match a
    case Spawn(env) => SpawnKeeps(w, env);
    case HookStep(h) => if h < |w.hooks| && w.hooks[h].todo != [] { HookKeeps(w, h); }
    case DaemonStep(loaded, timeout) => DaemonKeeps(w, loaded, timeout);
    case _ =>
      var w' := Act(w, a);
      forall f | f in Order(w'.cfg) ensures Covered(w', f) {
        assert Covered(w, f);
      }
  }

  lemma {:induction false} Invariant(w: World, actions: seq<Action>)
    requires Initial(w)
    ensures Inv(Acts(w, actions))
  {
    hide Act;
    if actions != [] {
      Invariant(w, actions[..|actions| - 1]);
      ActKeeps(Acts(w, actions[..|actions| - 1]), actions[|actions| - 1]);
    }
  }

  // ---------------------------------------------------------------- results

  /** No hook is between its write and its signal. */
  ghost predicate Quiet(w: World) {
    forall h :: 0 <= h < |w.hooks| && w.hooks[h].wrote != {} ==> w.hooks[h].todo == []
  }

  /** Whenever the daemon sleeps with no reconcile pending and no hook under way, it has read the newest version of every file. */
  lemma {:induction false} NoLostWakeup(w: World, actions: seq<Action>)
    requires Initial(w)
    ensures var v := Acts(w, actions);
            v.phase == Between(Sleeping) && !v.flags.usr1 && Quiet(v) ==> forall f :: f in Order(v.cfg) ==> Newest(v, f)
  {
    hide Acts, ReadOrder;
    Invariant(w, actions);
    var v := Acts(w, actions);
    if v.phase == Between(Sleeping) && !v.flags.usr1 && Quiet(v) {
      forall f | f in Order(v.cfg) ensures Newest(v, f) {
        assert Covered(v, f);
      }
    }
  }

  /** The handlers are in place before the PID can be found: a hook never ends the daemon it means to wake. */
  lemma {:induction false} NeverKilled(w: World, actions: seq<Action>)
    requires Initial(w)
    ensures !Acts(w, actions).proc.killed
  {
    hide Acts;
    Invariant(w, actions);
  }

  /** Every pass covers exactly the records that `Reconcile.ReconcileAll` is given. */
  lemma {:induction false} OrderIsComplete(cfg: Config, i: nat, u: nat)
    requires u < i <= |cfg.uplinks|
    ensures File(cfg.uplinks[u].name, Ipv4) in ReadOrder(cfg, i)
    ensures Ipv6Uplink(cfg.uplinks[u]) ==>
              forall k: Kind :: k != Ipv4 ==> File(cfg.uplinks[u].name, k) in ReadOrder(cfg, i)
  {
    if u < i - 1 {
      OrderIsComplete(cfg, i - 1, u);
    }
  }
}
