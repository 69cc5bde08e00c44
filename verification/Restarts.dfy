/** What a crash and restart preserves, and how ids are handed out. */
module Restarts {
  import opened Text
  import opened Model
  import opened System
  import opened Invariants
  import opened Runs
  import Callbacks

  predicate Restorable(t: Tailnet) {
    t.user == UserEnabled && t.state == StoppedState
  }

  /** The tailnets that the restore loop tries to start: stopped, and wanted by the user. */
  ghost function Restored(s: Sys): set<int> {
    set id | id in s.w.configs && id in s.objs && Restorable(s.objs[id])
  }

  /** What the user wants at this moment. */
  ghost function Wanted(s: Sys): set<int> {
    set id | id in s.w.configs && id in s.objs && s.objs[id].user == UserEnabled && s.objs[id].terminalError == ""
  }

  /** If the last save succeeded, the tailnets started after a crash are exactly those the user had enabled and
      that had no terminal error, and they keep id, port, hostname, claimed suffix and recorded error. */
  lemma RestartPreservesIntent(acts: seq<Action>)
    requires Exec(INIT, acts).w.synced
    ensures var s := Exec(INIT, acts);
            && !s.w.disk.Unreadable?
            && Restored(Boot(s)) == Wanted(s)
            && Boot(s).w.configs == s.w.configs && Boot(s).objs.Keys == s.w.configs.Keys <= s.objs.Keys
            && forall id :: id in s.w.configs ==>
                 Survives(s.objs[id], Boot(s).objs[id], s.w.configs[id].suffix)
  {
    Reachable(acts);
    IntentSurvives(Exec(INIT, acts));
  }

  lemma IntentSurvives(s: Sys)
    requires Inv(s) && InSync(s.w)
    ensures Boot(s).w.configs == s.w.configs && Boot(s).objs.Keys == s.w.configs.Keys
    ensures Restored(Boot(s)) == Wanted(s)
    ensures forall id :: id in s.w.configs ==> Survives(s.objs[id], Boot(s).objs[id], s.w.configs[id].suffix)
  {
    forall id | id in s.w.configs
      ensures id in Restored(Boot(s)) <==> id in Wanted(s)
      ensures Survives(s.objs[id], Boot(s).objs[id], s.w.configs[id].suffix)
    {
      TailnetSurvives(s, id);
    }
  }

  lemma TailnetSurvives(s: Sys, id: int)
    requires Inv(s) && InSync(s.w) && id in s.w.configs
    ensures id in Boot(s).objs && Survives(s.objs[id], Boot(s).objs[id], s.w.configs[id].suffix)
    ensures id in Restored(Boot(s)) <==> id in Wanted(s)
  {
    assert ObjectOk(s, id);
    assert Boot(s).objs[id] == NewTailnet(s.w.configs[id]) && Boot(s).w.configs == s.w.configs;
  }

  predicate Survives(before: Tailnet, after: Tailnet, claimed: string) {
    && after.id == before.id && after.port == before.port && after.hostname == before.hostname
    && after.terminalError == before.terminalError
    && after.suffix == claimed && (before.suffix != "" ==> after.suffix == before.suffix)
    && (before.state == HasTerminalErrorState ==> after.state == HasTerminalErrorState)
  }

  /** Without that save the file may be behind, but what is restored is still well formed and has the same
      guarantees. */
  lemma RestartIsSafe(acts: seq<Action>)
    requires !Exec(INIT, acts).w.disk.Unreadable?
    ensures var b := Boot(Exec(INIT, acts));
            && Inv(b) && b.w.nextID <= Exec(INIT, acts).w.nextID
            && (b.w.nextID == 1 || b.w.nextID - 1 in b.w.configs)
            && forall id :: id in b.w.configs ==> id < b.w.nextID
  {
    Reachable(acts);
    BootIsSafe(Exec(INIT, acts));
  }

  lemma BootIsSafe(s: Sys)
    requires Inv(s) && !s.w.disk.Unreadable?
    ensures var w := Boot(s).w;
            && Inv(Boot(s)) && w.nextID <= s.w.nextID && (w.nextID == 1 || w.nextID - 1 in w.configs)
            && forall id :: id in w.configs ==> id < w.nextID
  {
    BootedWorld(s);
    RestartKeeps(s);
  }

  /** Every registered tailnet has a state directory of its own, so deleting one never removes another's state. */
  lemma StateDirsDiffer(acts: seq<Action>, i: int, j: int)
    requires var m := Exec(INIT, acts).w.configs; i in m && j in m && i != j
    ensures var m := Exec(INIT, acts).w.configs; m[i].stateDir != m[j].stateDir
  {
    Reachable(acts);
    var m := Exec(INIT, acts).w.configs;
    assert OwnDirectory(m[i]) && OwnDirectory(m[j]);
    if m[i].stateDir == m[j].stateDir {
      var prefix := "tailnets/";
      assert (prefix + Decimal(i))[|prefix|..] == Decimal(i) && (prefix + Decimal(j))[|prefix|..] == Decimal(j);
      DecimalInjective(i, j);
    }
  }

  /** A new process knows nothing of the one before it but the file: no handle, no event, no call in flight. */
  lemma RestartForgetsTheRest(s: Sys)
    requires Inv(s) && !s.w.disk.Unreadable?
    ensures var b := Step(s, Restart);
            && b.w.disk == s.w.disk && b.w.events == [] && b.w.host == Host(0, map[], multiset{})
            && b.logouts == multiset{} && b.pending == [] && b.adders == 0
            && b.objs.Keys == b.w.configs.Keys == (if s.w.disk.Stored? then s.w.disk.configs.Keys else {})
            && forall id :: id in b.objs ==>
                 b.objs[id].server.None? && b.objs[id].watcher.None? && b.objs[id].socks.None?
  {
  }

  // ----- Ids ---------------------------------------------------------------------------------------

  lemma IdsStep(s: Sys, a: Action)
    requires Inv(s) && !a.Restart?
    ensures s.objs.Keys <= Step(s, a).objs.Keys
    ensures Step(s, a).w.nextID == s.w.nextID + if a.AddCommit? && Enabled(s, a) then 1 else 0
    ensures forall id :: id in Step(s, a).objs && id !in s.objs ==> s.w.nextID <= id
  {
    if Enabled(s, a) {
      match a
      case AddCheck =>
      case AddCommit(wanted, io) => AddWorld(s.w, wanted, io);
      case DoStart(j, io) => assert ObjectOk(s, j); StartKeeps(s.objs[j], s.w, io);
      case DoStop(j, io) => assert ObjectOk(s, j); StopKeeps(s.objs[j], s.w, io);
      case DoLogoutBegin(j, o) => assert ObjectOk(s, j); LogoutBeginKeeps(s.objs[j], s.w, o);
      case DoLogoutEnd(j) =>
      case DoCallback(j, ipn, io) => assert ObjectOk(s, j); Callbacks.ReactKeeps(s.objs[j], s.w, ipn, io);
      case DoFinish(k, io) =>
      case DoDelete(j, o) =>
    }
  }

  /** How many adds a run performs, failing ones included. */
  ghost function Adds(s: Sys, acts: seq<Action>): nat
    decreases |acts|
  {
    if acts == [] then 0
    else (if acts[0].AddCommit? && Enabled(s, acts[0]) then 1 else 0) + Adds(Step(s, acts[0]), acts[1..])
  }

  /** Within one process an id is never used for a second tailnet: every object created during a run has an id
      that no earlier object had, deleted ones included; and every add spends one id, failing ones included. */
  lemma {:induction false} IdsNeverReused(s: Sys, acts: seq<Action>)
    requires Inv(s) && forall k :: 0 <= k < |acts| ==> !acts[k].Restart?
    ensures var s' := Exec(s, acts);
            && s.objs.Keys <= s'.objs.Keys && s'.w.nextID == s.w.nextID + Adds(s, acts)
            && (forall id :: id in s'.objs && id !in s.objs ==> s.w.nextID <= id)
            && (forall id :: id in s.objs ==> id < s.w.nextID)
    decreases |acts|
  {
    forall id | id in s.objs ensures id < s.w.nextID {
      assert ObjectOk(s, id);
    }
    if acts != [] {
      StepKeeps(s, acts[0]);
      IdsStep(s, acts[0]);
      IdsNeverReused(Step(s, acts[0]), acts[1..]);
    }
  }
}
