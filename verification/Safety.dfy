/** The properties of whole runs: unique and permanent suffixes, handle safety, split logouts, the terminal state. */
module Safety {
  import opened Ipn
  import opened Model
  import opened System
  import opened Invariants
  import opened Callbacks
  import opened Runs

  // ----- Suffixes ----------------------------------------------------------------------------------

  /** No two registered tailnets have claimed the same suffix, in memory or in the file, and a tailnet's own
      suffix is the one its config has. */
  lemma SuffixesUnique(acts: seq<Action>, i: int, j: int)
    ensures var s := Exec(INIT, acts);
            && s.w.configs.Keys <= s.objs.Keys
            && (i in s.w.configs && s.objs[i].suffix != "" ==> s.w.configs[i].suffix == s.objs[i].suffix)
            && (i in s.w.configs && j in s.w.configs && i != j ==>
                  && (s.w.configs[i].suffix != "" ==> s.w.configs[i].suffix != s.w.configs[j].suffix)
                  && (s.objs[i].suffix != "" ==> s.objs[i].suffix != s.objs[j].suffix))
            && (s.w.disk.Stored? ==> UniqueSuffixes(s.w.disk.configs))
  {
    Reachable(acts);
    var s := Exec(INIT, acts);
    assert i in s.objs ==> ObjectOk(s, i);
    assert j in s.objs ==> ObjectOk(s, j);
  }

  /** A tailnet that is registered and owns a suffix, and both are there to stay. */
  predicate Owns(s: Sys, id: int, suffix: string) {
    id in s.w.configs && id in s.objs && s.objs[id].suffix == suffix
  }

  lemma OpKeepsSuffix(op: Op, t: Tailnet, w: World, ipn: IPNState, io: ReactIO)
    requires t.suffix != ""
    ensures Apply(op, t, w, ipn, io).t.suffix == t.suffix
  {
  }

  lemma {:induction false} OpsKeepSuffix(ops: seq<Op>, t: Tailnet, w: World, ipn: IPNState, io: ReactIO)
    requires t.suffix != ""
    ensures Always(ops, t, w, ipn, io).t.suffix == t.suffix
    ensures OneOf(ops, t, w, ipn, io).t.suffix == t.suffix
    decreases |ops|
  {
    if ops != [] {
      var init, last := ops[..|ops| - 1], ops[|ops| - 1];
      var a := Always(init, t, w, ipn, io);
      OpsKeepSuffix(init, t, w, ipn, io);
      OpKeepsSuffix(last, a.t, a.w, ipn, io);
      var b := Apply(ops[0], t, w, ipn, io);
      OpKeepsSuffix(ops[0], t, w, ipn, io);
      OpsKeepSuffix(ops[1..], b.t, b.w, ipn, io);
    }
  }

  /** Only its own deletion or a restart takes a config out of the registry. */
  lemma StaysRegistered(s: Sys, a: Action, id: int)
    requires Inv(s) && id in s.w.configs && !a.Restart? && !(a.DoDelete? && a.id == id)
    ensures id in Step(s, a).w.configs && id in Step(s, a).objs
  {
    if Enabled(s, a) {
      match a
      case AddCheck =>
      case AddCommit(wanted, io) => AddWorld(s.w, wanted, io);
      case DoStart(j, io) => assert ObjectOk(s, j); StartKeeps(s.objs[j], s.w, io);
      case DoStop(j, io) => assert ObjectOk(s, j); StopKeeps(s.objs[j], s.w, io);
      case DoLogoutBegin(j, o) => assert ObjectOk(s, j); LogoutBeginKeeps(s.objs[j], s.w, o);
      case DoLogoutEnd(j) =>
      case DoCallback(j, ipn, io) => assert ObjectOk(s, j); ReactKeeps(s.objs[j], s.w, ipn, io);
      case DoFinish(k, io) =>
      case DoDelete(j, o) =>
    }
  }

  /** No step of the process changes a non-empty suffix of a tailnet object, registered or not. */
  lemma ObjectKeepsSuffix(s: Sys, a: Action, id: int)
    requires Inv(s) && id in s.objs && s.objs[id].suffix != "" && !a.Restart?
    ensures id in Step(s, a).objs && Step(s, a).objs[id].suffix == s.objs[id].suffix
  {
    assert ObjectOk(s, id);
    if Enabled(s, a) {
      if a.DoCallback? && a.id == id {
        var t := s.objs[id];
        var b := Always(AlwaysOps(t.state), t, s.w, a.ipn, a.reactIO);
        OpsKeepSuffix(AlwaysOps(t.state), t, s.w, a.ipn, a.reactIO);
        OpsKeepSuffix(OneOfOps(t.state), b.t, b.w, a.ipn, a.reactIO);
      } else if a.AddCommit? {
        AddWorld(s.w, a.wanted, a.addIO);
      }
    }
  }

  lemma StepKeepsSuffix(s: Sys, a: Action, id: int, suffix: string)
    requires Inv(s) && Owns(s, id, suffix) && suffix != "" && !(a.DoDelete? && a.id == id)
    ensures Owns(Step(s, a), id, suffix)
  {
    assert ObjectOk(s, id);
    if !a.Restart? {
      StaysRegistered(s, a, id);
      ObjectKeepsSuffix(s, a, id);
    } else if Enabled(s, a) {
      assert Step(s, a).objs[id] == NewTailnet(s.w.disk.configs[id]);
    }
  }

  /** Once a registered tailnet has its suffix, nothing but its own deletion ends that: no command, no callback
      (whatever suffix it carries), no failing save, no crash and restart. */
  lemma {:induction false} SuffixIsPermanent(s: Sys, acts: seq<Action>, id: int, suffix: string)
    requires Inv(s) && Owns(s, id, suffix) && suffix != ""
    requires forall k :: 0 <= k < |acts| ==> !(acts[k].DoDelete? && acts[k].id == id)
    ensures Owns(Exec(s, acts), id, suffix)
    decreases |acts|
  {
    if acts != [] {
      StepKeeps(s, acts[0]);
      StepKeepsSuffix(s, acts[0], id, suffix);
      SuffixIsPermanent(Step(s, acts[0]), acts[1..], id, suffix);
    }
  }

  // ----- Handles -----------------------------------------------------------------------------------

  /** A running tailnet holds an open server, watcher and proxy, so a dial in the connected state finds a server;
      a tailnet in its terminal state holds nothing; and no handle is closed twice. */
  lemma HandleSafety(acts: seq<Action>, id: int, x: Handle)
    requires id in Exec(INIT, acts).objs
    ensures var s := Exec(INIT, acts);
            var t := s.objs[id];
            && (t.state in {ConnectedState, StartedState, NeedsLoginState, NeedsMachineAuthState} ==>
                  && t.server.Some? && t.server.value !in s.w.host.closes
                  && t.watcher.Some? && t.watcher.value !in s.w.host.closes
                  && t.socks.Some? && t.socks.value !in s.w.host.closes)
            && (t.state == HasTerminalErrorState ==> t.server.None? && t.watcher.None? && t.socks.None?)
            && s.w.host.closes[x] <= 1
  {
    Reachable(acts);
    var s := Exec(INIT, acts);
    assert ObjectOk(s, id);
    assert Sound(s.w.host, x);
  }

  /** A start that reports success has started the tailnet, except in one case: when there is no local client and the
      server then closes, the outcome of that close is returned in place of the failure. */
  lemma SuccessMeansStarted(t: Tailnet, w: World, io: StartIO)
    requires t.state == StoppedState
    ensures var r := Start(t, w, io);
            && (r.t.state == StartedState ==> !r.failed)
            && ((r.failed || r.t.state == StartedState) <==>
                  !(io.listen && io.serverStart && !io.localClient && io.serverClose))
            && (r.t.state == StartedState || r.t.state == StoppedState)
  {
  }

  // ----- Logout in two halves ----------------------------------------------------------------------

  /** A tailnet is logging out exactly while one Logout call is between its halves; the second half therefore
      always finds that state and always ends in the stopped state. */
  lemma LogoutIsExclusive(acts: seq<Action>, id: int)
    requires id in Exec(INIT, acts).objs
    ensures var s := Exec(INIT, acts);
            && s.logouts[id] == (if s.objs[id].state == LoggingOutState then 1 else 0)
            && (Enabled(s, DoLogoutEnd(id)) ==>
                  s.objs[id].state == LoggingOutState && s.objs[id].user == UserDisabled
                  && Step(s, DoLogoutEnd(id)).objs[id].state == StoppedState)
  {
    Reachable(acts);
    var s := Exec(INIT, acts);
    assert ObjectOk(s, id) && LogoutsOk(s, id);
  }

  /** Within a process, only the second half of its Logout moves a tailnet out of the logging-out state. */
  lemma OnlyLogoutEndLeaves(s: Sys, a: Action, id: int)
    requires Inv(s) && id in s.objs && s.objs[id].state == LoggingOutState
    requires a != DoLogoutEnd(id) && !a.Restart?
    ensures id in Step(s, a).objs && Step(s, a).objs[id].state == LoggingOutState
    ensures Step(s, a).objs[id] == s.objs[id]
  {
    assert ObjectOk(s, id);
    if Enabled(s, a) {
      if a.DoCallback? && a.id == id {
        IdleCallback(s.objs[id], s.w, a.ipn, a.reactIO);
      } else if a.AddCommit? {
        AddWorld(s.w, a.wanted, a.addIO);
      }
    }
  }

  // ----- The terminal state ------------------------------------------------------------------------

  /** Which states, intents and recorded errors go together. */
  lemma TerminalMeansDisabled(acts: seq<Action>, id: int)
    requires id in Exec(INIT, acts).objs
    ensures var t := Exec(INIT, acts).objs[id];
            && (t.state == HasTerminalErrorState ==> t.terminalError != "" && t.user == UserDisabled)
            && (t.state in {ConnectedState, StartedState, NeedsLoginState, NeedsMachineAuthState} ==>
                  t.user == UserDisabled ==> t.terminalError != "")
  {
    Reachable(acts);
    assert ObjectOk(Exec(INIT, acts), id);
  }

  lemma TerminalStep(s: Sys, a: Action, id: int)
    requires Inv(s) && id in s.objs && s.objs[id].state == HasTerminalErrorState && !a.Restart?
    ensures id in Step(s, a).objs && Step(s, a).objs[id] == s.objs[id]
  {
    assert ObjectOk(s, id) && LogoutsOk(s, id);
    if Enabled(s, a) {
      if a.DoCallback? && a.id == id {
        IdleCallback(s.objs[id], s.w, a.ipn, a.reactIO);
      } else if a.AddCommit? {
        AddWorld(s.w, a.wanted, a.addIO);
      }
    }
  }

  /** The terminal state is absorbing: without a restart nothing about such a tailnet ever changes again. */
  lemma {:induction false} TerminalIsAbsorbing(s: Sys, acts: seq<Action>, id: int)
    requires Inv(s) && id in s.objs && s.objs[id].state == HasTerminalErrorState
    requires forall k :: 0 <= k < |acts| ==> !acts[k].Restart?
    ensures id in Exec(s, acts).objs && Exec(s, acts).objs[id] == s.objs[id]
    decreases |acts|
  {
    if acts != [] {
      StepKeeps(s, acts[0]);
      TerminalStep(s, acts[0], id);
      TerminalIsAbsorbing(Step(s, acts[0]), acts[1..], id);
    }
  }

  /** Registered, in the terminal state, and so in every readable version of the file. */
  predicate Condemned(s: Sys, id: int, error: string) {
    && id in s.w.configs && id in s.objs
    && s.objs[id].state == HasTerminalErrorState && s.objs[id].terminalError == error
    && match s.w.disk
       case Absent => false
       case Unreadable => true
       case Stored(m) => id in m && m[id].terminalError == error
  }

  lemma CondemnedStep(s: Sys, a: Action, id: int, error: string)
    requires Inv(s) && Condemned(s, id, error) && !(a.DoDelete? && a.id == id)
    ensures Condemned(Step(s, a), id, error)
  {
    assert ObjectOk(s, id);
    if Enabled(s, a) {
      if a.Restart? {
        assert Step(s, a).objs[id] == NewTailnet(s.w.disk.configs[id]);
      } else {
        TerminalStep(s, a, id);
        OtherSectionKeepsConfig(s, a, id);
      }
    }
  }

  /** What a step may do to the config of a tailnet in its terminal state and to what is written of it. */
  ghost predicate Recorded(w: World, v: World, id: int)
    requires id in w.configs
  {
    && id in v.configs && v.configs[id] == w.configs[id]
    && (v.disk == w.disk || v.disk == Unreadable ||
        (v.disk.Stored? && id in v.disk.configs && v.disk.configs[id] == w.configs[id]))
  }

  /** No step changes the recorded error of a tailnet in its terminal state, in memory or in what it writes. */
  lemma OtherSectionKeepsConfig(s: Sys, a: Action, id: int)
    requires Inv(s) && id in s.w.configs && s.objs[id].state == HasTerminalErrorState
    requires Enabled(s, a) && !a.Restart? && !(a.DoDelete? && a.id == id)
    ensures Recorded(s.w, Step(s, a).w, id)
  {
    match a
    case AddCheck =>
    case AddCommit(wanted, io) => AddWorld(s.w, wanted, io);
    case DoCallback(j, ipn, io) => CallbackRecorded(s, j, ipn, io, id);
    case DoLogoutEnd(j) =>
    case DoFinish(k, io) =>
    case DoDelete(j, o) =>
    case _ => CommandRecorded(s, a, id);
  }

  lemma CommandRecorded(s: Sys, a: Action, id: int)
    requires Inv(s) && id in s.w.configs && s.objs[id].state == HasTerminalErrorState
    requires Enabled(s, a) && (a.DoStart? || a.DoStop? || a.DoLogoutBegin?)
    ensures Recorded(s.w, Step(s, a).w, id)
  {
    assert ObjectOk(s, a.id);
    var t := s.objs[a.id];
    if a.DoStart? {
      StartKeeps(t, s.w, a.startIO);
    } else if a.DoStop? {
      StopKeeps(t, s.w, a.stopIO);
    } else {
      LogoutBeginKeeps(t, s.w, a.save);
    }
  }

  lemma CallbackRecorded(s: Sys, j: int, ipn: IPNState, io: ReactIO, id: int)
    requires Inv(s) && id in s.w.configs && s.objs[id].state == HasTerminalErrorState && j in s.objs
    ensures Recorded(s.w, React(s.objs[j], s.w, ipn, io).w, id)
  {
    assert ObjectOk(s, j);
    if j == id {
      IdleCallback(s.objs[j], s.w, ipn, io);
    } else {
      ReactKeeps(s.objs[j], s.w, ipn, io);
    }
  }

  /** No run takes the tailnet out of its terminal state, or changes its error, except by deleting it. */
  ghost predicate TerminalForEver(s: Sys, id: int, error: string) {
    forall acts :: SparesFromDeletion(acts, id) ==> InTerminal(Exec(s, acts), id, error)
  }

  predicate SparesFromDeletion(acts: seq<Action>, id: int) {
    forall k :: 0 <= k < |acts| ==> !(acts[k].DoDelete? && acts[k].id == id)
  }

  predicate InTerminal(s: Sys, id: int, error: string) {
    && id in s.w.configs && id in s.objs
    && s.objs[id].state == HasTerminalErrorState && s.objs[id].terminalError == error
  }

  /** The terminal state of a registered tailnet survives every run, restarts and failing saves included, if and only
      if the file as it is now holds its error or cannot be read. */
  lemma TerminalIsDurable(s: Sys, id: int, error: string)
    requires Inv(s) && InTerminal(s, id, error)
    ensures TerminalForEver(s, id, error) <==> Condemned(s, id, error)
  {
    if Condemned(s, id, error) {
      forall acts | SparesFromDeletion(acts, id) ensures InTerminal(Exec(s, acts), id, error) {
        CondemnedRun(s, acts, id, error);
      }
    } else {
      assert SparesFromDeletion([Restart], id);
      RestartForgets(s, id, error);
    }
  }

  lemma RestartForgets(s: Sys, id: int, error: string)
    requires InTerminal(s, id, error) && !Condemned(s, id, error)
    ensures !InTerminal(Exec(s, [Restart]), id, error)
  {
    ExecCons(s, Restart, []);
    assert [Restart] + [] == [Restart];
    var b := Boot(s);
    assert id in b.objs ==> b.objs[id] == NewTailnet(s.w.disk.configs[id]);
  }

  /** The file holds the error whenever the last save succeeded. */
  lemma SyncedIsDurable(s: Sys, id: int, error: string)
    requires Inv(s) && InTerminal(s, id, error) && s.w.synced
    ensures TerminalForEver(s, id, error)
  {
    assert ObjectOk(s, id);
    TerminalIsDurable(s, id, error);
  }

  lemma {:induction false} CondemnedRun(s: Sys, acts: seq<Action>, id: int, error: string)
    requires Inv(s) && Condemned(s, id, error)
    requires SparesFromDeletion(acts, id)
    ensures Condemned(Exec(s, acts), id, error)
    decreases |acts|
  {
    if acts != [] {
      StepKeeps(s, acts[0]);
      CondemnedStep(s, acts[0], id, error);
      assert SparesFromDeletion(acts[1..], id);
      CondemnedRun(Step(s, acts[0]), acts[1..], id, error);
    }
  }
}
