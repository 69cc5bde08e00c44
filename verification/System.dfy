/** All tailnets of one installation, the registry, the disk and the operations in flight, interleaved.
    One step is one section under a tailnet's lock or the registry's lock; a crash and restart is a step too. */
module System {
  import opened Ipn
  import opened Model
  import opened Ids

  /** A callback between its unlock and its end. */
  datatype Pending = Pending(id: int, changed: bool, cleanup: Cleanup)

  /** `objs` are the tailnet objects of this process, deleted ones included; registered ones have a config.
      `logouts` counts the Logout calls between their two halves, `adders` the add requests past their check. */
  datatype Sys = Sys(
    objs: map<int, Tailnet>, w: World, logouts: multiset<int>, pending: seq<Pending>, adders: nat)

  datatype Action =
    | AddCheck
    | AddCommit(wanted: string, addIO: AddIO)
    | DoStart(id: int, startIO: StartIO)
    | DoStop(id: int, stopIO: StopIO)
    | DoLogoutBegin(id: int, save: Save)
    | DoLogoutEnd(id: int)
    | DoCallback(id: int, ipn: IPNState, reactIO: ReactIO)
    | DoFinish(index: nat, cleanupIO: CleanupIO)
    | DoDelete(id: int, save: Save)
    | Restart

  /** What a process starts with on the host: nothing opened, nothing closed. */
  const NEWHOST := Host(0, map[], multiset{})

  const INIT := Sys(map[], World(1, map[], Absent, true, NEWHOST, []), multiset{}, [], 0)

  /** A new process: objects are rebuilt from the file; handles, subscribers and calls in flight are gone. */
  ghost function Boot(s: Sys): Sys
    requires !s.w.disk.Unreadable?
  {
    BootFrom(s.w.disk, NEWHOST, [])
  }

  /** What loading a readable file makes of a process that has not registered anything yet. */
  ghost function BootFrom(disk: Disk, host: Host, events: seq<Event>): Sys
    requires !disk.Unreadable?
  {
    var configs := if disk.Absent? then map[] else disk.configs;
    Sys(map id | id in configs :: NewTailnet(configs[id]),
        World(NextIDAfter(configs.Keys), configs, disk, true, host, events),
        multiset{}, [], 0)
  }

  predicate Enabled(s: Sys, a: Action) {
    match a
    case AddCheck => !HasUnconfigured(s.w.configs)
    case AddCommit(_, _) => s.adders > 0
    case DoLogoutEnd(id) => id in s.objs && s.logouts[id] > 0
    case DoFinish(k, _) => k < |s.pending|
    case DoDelete(_, _) => true
    case Restart => !s.w.disk.Unreadable?
    case _ => a.id in s.objs
  }

  // What each step makes of the whole.

  ghost function AfterCheck(s: Sys): Sys {
    s.(adders := s.adders + 1)
  }

  ghost function AfterCommit(s: Sys, wanted: string, io: AddIO): Sys
    requires s.adders > 0
  {
    var (w, id) := Add(s.w, wanted, io);
    s.(w := w, adders := s.adders - 1,
       objs := if id.Some? then s.objs[id.value := NewTailnet(w.configs[id.value])] else s.objs)
  }

  ghost function AfterSection(s: Sys, id: int, r: Ran): Sys {
    s.(objs := s.objs[id := r.t], w := r.w)
  }

  ghost function AfterLogoutBegin(s: Sys, id: int, o: Save): Sys
    requires id in s.objs
  {
    var (t, w, begun) := LogoutBegin(s.objs[id], s.w, o);
    s.(objs := s.objs[id := t], w := w, logouts := if begun.InFlight? then s.logouts + multiset{id} else s.logouts)
  }

  ghost function AfterLogoutEnd(s: Sys, id: int): Sys
    requires id in s.objs
  {
    var (t, w) := LogoutEnd(s.objs[id], s.w);
    s.(objs := s.objs[id := t], w := w, logouts := s.logouts - multiset{id})
  }

  ghost function AfterCallback(s: Sys, id: int, ipn: IPNState, io: ReactIO): Sys
    requires id in s.objs
  {
    var r := React(s.objs[id], s.w, ipn, io);
    s.(objs := s.objs[id := r.t], w := r.w, pending := s.pending + [Pending(id, r.changed, r.cleanup)])
  }

  ghost function AfterFinish(s: Sys, k: nat, io: CleanupIO): Sys
    requires k < |s.pending|
  {
    var p := s.pending[k];
    s.(w := FinishReact(s.w, p.id, p.changed, p.cleanup, io), pending := s.pending[..k] + s.pending[k + 1..])
  }

  /** A step that is not enabled leaves everything as it is. */
  ghost function Step(s: Sys, a: Action): Sys {
    if !Enabled(s, a) then s
    else match a
      case AddCheck => AfterCheck(s)
      case AddCommit(wanted, io) => AfterCommit(s, wanted, io)
      case DoStart(id, io) => AfterSection(s, id, Start(s.objs[id], s.w, io))
      case DoStop(id, io) => AfterSection(s, id, Stop(s.objs[id], s.w, io))
      case DoLogoutBegin(id, o) => AfterLogoutBegin(s, id, o)
      case DoLogoutEnd(id) => AfterLogoutEnd(s, id)
      case DoCallback(id, ipn, io) => AfterCallback(s, id, ipn, io)
      case DoFinish(k, io) => AfterFinish(s, k, io)
      case DoDelete(id, o) => s.(w := Delete(s.w, id, o).0)
      case Restart => Boot(s)
  }

  lemma StartIsStep(s: Sys, id: int, io: StartIO)
    requires id in s.objs
    ensures Step(s, DoStart(id, io)) ==
            s.(objs := s.objs[id := Start(s.objs[id], s.w, io).t], w := Start(s.objs[id], s.w, io).w)
  {
  }

  /** The state after a whole run. */
  ghost function Exec(s: Sys, acts: seq<Action>): Sys
    decreases |acts|
  {
    if acts == [] then s else Exec(Step(s, acts[0]), acts[1..])
  }

  lemma ExecCons(s: Sys, a: Action, rest: seq<Action>)
    ensures Exec(s, [a] + rest) == Exec(Step(s, a), rest)
  {
    assert ([a] + rest)[1..] == rest;
  }

  lemma {:induction false} ExecAppend(s: Sys, xs: seq<Action>, ys: seq<Action>)
    ensures Exec(s, xs + ys) == Exec(Exec(s, xs), ys)
    decreases |xs|
  {
    if xs == [] {
      assert xs + ys == ys;
    } else {
      assert (xs + ys)[1..] == xs[1..] + ys;
      ExecAppend(Step(s, xs[0]), xs[1..], ys);
    }
  }
}
