/** Who owns the listeners. The host lets one listener use a port at a time; this module studies the runs in which
    it does, every Close succeeds and every watcher can be created. */
module Ports {
  import opened Wrappers
  import opened Ipn
  import opened Model
  import opened System
  import opened Invariants
  import opened Callbacks
  import opened Runs
  import Convergence
  import Safety

  predicate Free(h: Host, port: nat) {
    forall x :: x in h.listeners ==> h.listeners[x] != port
  }

  /** What the host and the other side grant in this step. */
  predicate Smooth(s: Sys, a: Action) {
    match a
    case DoStart(id, io) =>
      && (id in s.objs && !Free(s.w.host, s.objs[id].port) ==> !io.listen)
      && io.socksClose && io.serverClose && io.watcher
    case DoStop(_, io) => io.socksClose && io.serverClose
    case DoFinish(_, io) => io.socksClose && io.serverClose
    case _ => true
  }

  ghost predicate SmoothRun(s: Sys, acts: seq<Action>)
    decreases |acts|
  {
    acts != [] ==> Smooth(s, acts[0]) && SmoothRun(Step(s, acts[0]), acts[1..])
  }

  /** A callback is about to close listener `x`. */
  predicate Leaving(s: Sys, x: Handle) {
    exists k :: 0 <= k < |s.pending| && s.pending[k].cleanup.socks == Some(x)
  }

  predicate Owned(s: Sys, x: Handle) {
    x in s.w.host.listeners ==>
      && x.owner in s.objs && s.w.host.listeners[x] == s.objs[x.owner].port
      && (s.objs[x.owner].socks == Some(x) || Leaving(s, x))
  }

  predicate FieldOpen(s: Sys, id: int) {
    id in s.objs && s.objs[id].socks.Some? ==> s.objs[id].socks.value in s.w.host.listeners
  }

  predicate LeavingOpen(s: Sys, p: Pending) {
    p.cleanup.socks.Some? ==> p.cleanup.socks.value in s.w.host.listeners
  }

  ghost predicate PortInv(s: Sys) {
    && (forall x :: Owned(s, x))
    && (forall id :: FieldOpen(s, id))
    && (forall k :: 0 <= k < |s.pending| ==> LeavingOpen(s, s.pending[k]))
  }

  /** The net effect of a start on the listeners when everything that must close does. */
  lemma StartListeners(h: Host, id: int, port: nat, io: StartIO)
    requires HostInv(h) && io.socksClose && io.serverClose
    ensures var x := Opened(id, SocksProxy, h);
            && x !in h.listeners
            && StartHost(h, id, port, io).listeners ==
                 if io.listen && io.serverStart && io.localClient then h.listeners[x := port] else h.listeners
  {
    var x, y := Opened(id, SocksProxy, h), Opened(id, TsnetServer, h);
    assert Sound(h, x) && Sound(h, y);
    assert h.listeners[x := port] - {x} == h.listeners;
    assert h.listeners - {y} == h.listeners;
  }

  lemma StopListeners(h: Host, t: Tailnet, io: StopIO)
    requires HostInv(h) && HandlesOk(t, h) && IsRunning(t.state) && io.socksClose && io.serverClose
    ensures StopHost(h, t, io).listeners == h.listeners - {t.socks.value}
  {
    CloseListeners(h, t.watcher, t.server, t.socks.value, true, io.serverClose);
  }

  /** Closing a proxy, a watcher and a server takes just the proxy out of the listeners. */
  lemma CloseListeners(h: Host, watcher: Option<Handle>, server: Option<Handle>, socks: Handle, b: bool, c: bool)
    requires HostInv(h)
    requires watcher.Some? ==> watcher.value.kind == WatcherLoop
    requires server.Some? ==> server.value.kind == TsnetServer
    ensures CloseIfAny(CloseIfAny(h, watcher, b), server, c).listeners == h.listeners
    ensures var g := CloseIfAny(CloseHandle(h, socks, true), watcher, b);
            CloseIfAny(g, server, c).listeners == h.listeners - {socks}
  {
    assert watcher.Some? ==> Sound(h, watcher.value);
    assert server.Some? ==> Sound(h, server.value);
    var ls, ms := h.listeners, h.listeners - {socks};
    assert watcher.Some? ==> ls - {watcher.value} == ls && ms - {watcher.value} == ms;
    assert server.Some? ==> ls - {server.value} == ls && ms - {server.value} == ms;
  }

  lemma StartPorts(s: Sys, a: Action)
    requires Inv(s) && PortInv(s) && Enabled(s, a) && a.DoStart? && Smooth(s, a)
    ensures PortInv(Step(s, a))
  {
    var id, io := a.id, a.startIO;
    var t := s.objs[id];
    var s' := Step(s, a);
    var x := Opened(id, SocksProxy, s.w.host);
    assert ObjectOk(s, id);
    assert FieldOpen(s, id) && (t.socks.Some? ==> Owned(s, t.socks.value));
    if t.state == StoppedState {
      StartListeners(s.w.host, id, t.port, io);
    }
    forall j | j in s.objs && j != id && s.objs[j].socks.Some? ensures s.objs[j].socks.value != x {
      assert ObjectOk(s, j);
    }
    forall k | 0 <= k < |s.pending| ensures s.pending[k].cleanup.socks != Some(x) {
      assert PendingOk(s, s.pending[k]);
    }
    ProxyMoved(s, s', id, x);
  }

  /** The common argument: only tailnet `id`'s proxy field and only its listener `x` changed, consistently. */
  lemma ProxyMoved(s: Sys, s': Sys, id: int, x: Handle)
    requires PortInv(s) && id in s.objs && s'.objs.Keys == s.objs.Keys && s'.pending == s.pending && x.owner == id
    requires s'.objs[id].port == s.objs[id].port && forall j :: j in s.objs && j != id ==> s'.objs[j] == s.objs[j]
    requires forall j :: j in s.objs && j != id && s.objs[j].socks.Some? ==> s.objs[j].socks.value != x
    requires forall k :: 0 <= k < |s.pending| ==> s.pending[k].cleanup.socks != Some(x)
    requires
      || (s'.w.host.listeners == s.w.host.listeners && s'.objs[id].socks == s.objs[id].socks)
      || (x !in s.w.host.listeners && s.objs[id].socks == None && s'.objs[id].socks == Some(x)
          && s'.w.host.listeners == s.w.host.listeners[x := s.objs[id].port])
      || (s.objs[id].socks == Some(x) && s'.objs[id].socks == None
          && s'.w.host.listeners == s.w.host.listeners - {x})
    ensures PortInv(s')
  {
    forall y ensures Owned(s', y) {
      assert Owned(s, y);
      assert Leaving(s, y) ==> Leaving(s', y);
    }
    forall j ensures FieldOpen(s', j) {
      assert FieldOpen(s, j);
    }
    forall k | 0 <= k < |s'.pending| ensures LeavingOpen(s', s'.pending[k]) {
      assert LeavingOpen(s, s.pending[k]);
    }
  }

  lemma StopPorts(s: Sys, a: Action)
    requires Inv(s) && PortInv(s) && Enabled(s, a) && a.DoStop? && Smooth(s, a)
    ensures PortInv(Step(s, a))
  {
    var id := a.id;
    var t := s.objs[id];
    var s' := Step(s, a);
    assert ObjectOk(s, id);
    if IsRunning(t.state) {
      StopListeners(s.w.host, t, a.stopIO);
      forall j | j in s.objs && j != id && s.objs[j].socks.Some? ensures s.objs[j].socks.value != t.socks.value {
        assert ObjectOk(s, j);
      }
      forall k | 0 <= k < |s.pending| ensures s.pending[k].cleanup.socks != Some(t.socks.value) {
        assert PendingOk(s, s.pending[k]);
      }
      ProxyMoved(s, s', id, t.socks.value);
    } else {
      assert s' == s;
    }
  }

  lemma CallbackPorts(s: Sys, a: Action)
    requires Inv(s) && PortInv(s) && Enabled(s, a) && a.DoCallback?
    ensures PortInv(Step(s, a))
  {
    var id := a.id;
    var t := s.objs[id];
    var s' := Step(s, a);
    var r := React(t, s.w, a.ipn, a.reactIO);
    assert ObjectOk(s, id) && FieldOpen(s, id);
    ReactKeeps(t, s.w, a.ipn, a.reactIO);
    CallbackMovesProxy(t, s.w, a.ipn, a.reactIO);
    var p := Pending(id, r.changed, r.cleanup);
    assert s'.pending == s.pending + [p] && s'.pending[|s.pending|] == p;
    forall y ensures Owned(s', y) {
      assert Owned(s, y);
      if Leaving(s, y) {
        var k :| 0 <= k < |s.pending| && s.pending[k].cleanup.socks == Some(y);
        assert s'.pending[k] == s.pending[k];
      }
    }
    forall j ensures FieldOpen(s', j) {
      assert FieldOpen(s, j);
    }
    forall k | 0 <= k < |s'.pending| ensures LeavingOpen(s', s'.pending[k]) {
      assert k < |s.pending| ==> LeavingOpen(s, s.pending[k]);
    }
  }

  /** A callback leaves the proxy where it is or moves it to its cleanup. */
  lemma CallbackMovesProxy(t: Tailnet, w: World, ipn: IPNState, io: ReactIO)
    requires WorldInv(w) && TailnetInv(t, w)
    ensures var r := React(t, w, ipn, io);
            && r.t.port == t.port
            && ((r.t.socks == t.socks && r.cleanup.socks.None?) || (r.t.socks.None? && r.cleanup.socks == t.socks))
  {
    if IsRunning(t.state) {
      ProcessMoves(t, w, ipn, io);
      Convergence.AlwaysIsClaim(t, w, ipn, io);
      var a := Always(AlwaysOps(t.state), t, w, ipn, io);
      Convergence.OneOfIsTarget(t.state, a.t, a.w, ipn, io);
    } else {
      IdleCallback(t, w, ipn, io);
    }
  }

  lemma FinishListeners(w: World, id: int, changed: bool, c: Cleanup, io: CleanupIO)
    requires HostInv(w.host) && CleanupOk(c, id, w.host) && io.socksClose
    ensures FinishReact(w, id, changed, c, io).host.listeners ==
            if c.socks.Some? then w.host.listeners - {c.socks.value} else w.host.listeners
  {
    CloseListeners(w.host, c.watcher, c.server, if c.socks.Some? then c.socks.value else Handle(id, SocksProxy, 0),
                   true, io.serverClose);
  }

  lemma FinishPorts(s: Sys, a: Action)
    requires Inv(s) && PortInv(s) && Enabled(s, a) && a.DoFinish? && Smooth(s, a)
    ensures PortInv(Step(s, a))
  {
    var k, p := a.index, s.pending[a.index];
    assert PendingOk(s, p);
    FinishListeners(s.w, p.id, p.changed, p.cleanup, a.cleanupIO);
    LeaverGone(s, Step(s, a), k);
  }

  /** The common argument for a callback that ends: its proxy leaves the listeners, and it leaves the list. */
  lemma LeaverGone(s: Sys, s': Sys, k: nat)
    requires Inv(s) && PortInv(s) && k < |s.pending| && s'.objs == s.objs
    requires s'.pending == s.pending[..k] + s.pending[k + 1..]
    requires var x := s.pending[k].cleanup.socks;
             s'.w.host.listeners == if x.Some? then s.w.host.listeners - {x.value} else s.w.host.listeners
    ensures PortInv(s')
  {
    forall y ensures Owned(s', y) {
      assert Owned(s, y);
      if y in s'.w.host.listeners && Leaving(s, y) {
        OthersStillLeave(s, s', k, y);
      }
    }
    forall id ensures FieldOpen(s', id) {
      assert FieldOpen(s, id);
      FieldStays(s, k, id);
    }
    forall i | 0 <= i < |s'.pending| ensures LeavingOpen(s', s'.pending[i]) {
      var j := if i < k then i else i + 1;
      assert s'.pending[i] == s.pending[j] && LeavingOpen(s, s.pending[j]);
      LeaversDiffer(s, j, k);
    }
  }

  lemma OthersStillLeave(s: Sys, s': Sys, k: nat, y: Handle)
    requires k < |s.pending| && s'.pending == s.pending[..k] + s.pending[k + 1..]
    requires Leaving(s, y) && s.pending[k].cleanup.socks != Some(y)
    ensures Leaving(s', y)
  {
    var j :| 0 <= j < |s.pending| && s.pending[j].cleanup.socks == Some(y);
    assert s'.pending[if j < k then j else j - 1] == s.pending[j];
  }

  lemma FieldStays(s: Sys, k: nat, id: int)
    requires Inv(s) && k < |s.pending|
    ensures id in s.objs && s.objs[id].socks.Some? ==> s.objs[id].socks != s.pending[k].cleanup.socks
  {
    assert PendingOk(s, s.pending[k]);
    assert id in s.objs ==> ObjectOk(s, id);
  }

  lemma LeaversDiffer(s: Sys, j: nat, k: nat)
    requires Inv(s) && j < |s.pending| && k < |s.pending| && j != k
    ensures s.pending[j].cleanup.socks.Some? ==> s.pending[j].cleanup.socks != s.pending[k].cleanup.socks
  {
    assert PendingOk(s, s.pending[j]) && PendingOk(s, s.pending[k]);
  }

  lemma OtherPorts(s: Sys, a: Action)
    requires Inv(s) && PortInv(s) && Enabled(s, a)
    requires a.AddCheck? || a.AddCommit? || a.DoLogoutBegin? || a.DoLogoutEnd? || a.DoDelete?
    ensures PortInv(Step(s, a))
  {
    if a.AddCommit? {
      AddWorld(s.w, a.wanted, a.addIO);
    }
    ListenersUntouched(s, Step(s, a));
  }

  /** The common argument for steps that leave listeners and proxies alone, and may add a tailnet without one. */
  lemma ListenersUntouched(s: Sys, s': Sys)
    requires Inv(s) && PortInv(s)
    requires s'.pending == s.pending && s'.w.host.listeners == s.w.host.listeners && s.objs.Keys <= s'.objs.Keys
    requires forall id :: id in s'.objs ==>
               if id in s.objs then s'.objs[id].socks == s.objs[id].socks && s'.objs[id].port == s.objs[id].port
               else s'.objs[id].socks.None?
    ensures PortInv(s')
  {
    forall y ensures Owned(s', y) {
      assert Owned(s, y);
      assert Leaving(s, y) ==> Leaving(s', y);
    }
    forall id ensures FieldOpen(s', id) {
      assert FieldOpen(s, id);
    }
    forall k | 0 <= k < |s'.pending| ensures LeavingOpen(s', s'.pending[k]) {
      assert LeavingOpen(s, s.pending[k]);
    }
  }

  lemma RestartPorts(s: Sys)
    requires Enabled(s, Restart)
    ensures PortInv(Step(s, Restart))
  {
  }

  lemma PortStep(s: Sys, a: Action)
    requires Inv(s) && PortInv(s) && Smooth(s, a)
    ensures PortInv(Step(s, a))
  {
    if Enabled(s, a) {
      match a
      case DoStart(_, _) => StartPorts(s, a);
      case DoStop(_, _) => StopPorts(s, a);
      case DoCallback(_, _, _) => CallbackPorts(s, a);
      case DoFinish(_, _) => FinishPorts(s, a);
      case Restart => RestartPorts(s);
      case _ => OtherPorts(s, a);
    }
  }

  lemma {:induction false} PortRun(s: Sys, acts: seq<Action>)
    requires Inv(s) && PortInv(s) && SmoothRun(s, acts)
    ensures PortInv(Exec(s, acts)) && Inv(Exec(s, acts))
    decreases |acts|
  {
    if acts != [] {
      StepKeeps(s, acts[0]);
      PortStep(s, acts[0]);
      PortRun(Step(s, acts[0]), acts[1..]);
    }
  }

  lemma LeavingMeansTerminal(s: Sys, x: Handle)
    requires Inv(s) && PortInv(s) && Leaving(s, x)
    ensures x in s.w.host.listeners && x.owner in s.objs && s.objs[x.owner].socks.None?
  {
    var k :| 0 <= k < |s.pending| && s.pending[k].cleanup.socks == Some(x);
    assert PendingOk(s, s.pending[k]) && LeavingOpen(s, s.pending[k]) && ObjectOk(s, s.pending[k].id);
  }

  lemma OneLeaving(s: Sys, x: Handle, y: Handle)
    requires Inv(s) && Leaving(s, x) && Leaving(s, y) && x.owner == y.owner
    ensures x == y
  {
    var i :| 0 <= i < |s.pending| && s.pending[i].cleanup.socks == Some(x);
    var j :| 0 <= j < |s.pending| && s.pending[j].cleanup.socks == Some(y);
    assert PendingOk(s, s.pending[i]) && PendingOk(s, s.pending[j]);
  }

  lemma OwnedExactly(s: Sys, x: Handle, y: Handle)
    requires Inv(s) && PortInv(s)
    ensures x in s.w.host.listeners <==> x.owner in s.objs && (s.objs[x.owner].socks == Some(x) || Leaving(s, x))
    ensures x in s.w.host.listeners ==> s.w.host.listeners[x] == s.objs[x.owner].port
    ensures x in s.w.host.listeners && y in s.w.host.listeners && x.owner == y.owner ==> x == y
  {
    assert Owned(s, x) && Owned(s, y) && FieldOpen(s, x.owner);
    if Leaving(s, x) { LeavingMeansTerminal(s, x); }
    if Leaving(s, y) { LeavingMeansTerminal(s, y); }
    if Leaving(s, x) && Leaving(s, y) && x.owner == y.owner { OneLeaving(s, x, y); }
  }

  /** A listener is open exactly when it sits in its tailnet's proxy field or a callback is about to close it;
      it uses its tailnet's port; and no tailnet has two. */
  lemma ListenersOwned(acts: seq<Action>, x: Handle, y: Handle)
    requires SmoothRun(INIT, acts)
    ensures var s := Exec(INIT, acts);
            && (x in s.w.host.listeners <==>
                  x.owner in s.objs && (s.objs[x.owner].socks == Some(x) || Leaving(s, x)))
            && (x in s.w.host.listeners ==> s.w.host.listeners[x] == s.objs[x.owner].port)
            && (x in s.w.host.listeners && y in s.w.host.listeners && x.owner == y.owner ==> x == y)
  {
    Reachable([]);
    PortRun(INIT, acts);
    OwnedExactly(Exec(INIT, acts), x, y);
  }

  /** After logging out a running tailnet its old listener is still open, so starting it again fails and loses
      no handle: a stopped tailnet that still has a proxy cannot be started. */
  lemma StartAfterLogoutFails(acts: seq<Action>, id: int, io: StartIO)
    requires SmoothRun(INIT, acts) && Smooth(Exec(INIT, acts), DoStart(id, io))
    requires var s := Exec(INIT, acts); id in s.objs && s.objs[id].state == StoppedState && s.objs[id].socks.Some?
    ensures var s := Exec(INIT, acts);
            var r := Start(s.objs[id], s.w, io);
            r.failed && r.t == s.objs[id].(user := UserEnabled) && r.w.host == s.w.host
  {
    Reachable([]);
    PortRun(INIT, acts);
    var s := Exec(INIT, acts);
    assert ObjectOk(s, id);
    assert FieldOpen(s, id) && Owned(s, s.objs[id].socks.value);
    assert !Free(s.w.host, s.objs[id].port);
  }

  /** Between the halves of its logout, nothing touches the tailnet. */
  lemma {:induction false} LogoutFreezes(s: Sys, acts: seq<Action>, id: int)
    requires Inv(s) && id in s.objs && s.objs[id].state == LoggingOutState
    requires forall k :: 0 <= k < |acts| ==> !acts[k].Restart? && acts[k] != DoLogoutEnd(id)
    ensures Inv(Exec(s, acts)) && id in Exec(s, acts).objs && Exec(s, acts).objs[id] == s.objs[id]
    decreases |acts|
  {
    if acts != [] {
      StepKeeps(s, acts[0]);
      Safety.OnlyLogoutEndLeaves(s, acts[0], id);
      LogoutFreezes(Step(s, acts[0]), acts[1..], id);
    }
  }

  /** What the two halves of a logout make of a running tailnet: stopped, with its proxy still in its field. */
  lemma LogoutKeepsProxy(s: Sys, id: int, o: Save, others: seq<Action>)
    requires Inv(s) && id in s.objs && s.objs[id].state in {ConnectedState, StartedState, NeedsMachineAuthState}
    requires forall k :: 0 <= k < |others| ==> !others[k].Restart? && others[k] != DoLogoutEnd(id)
    ensures var s' := Exec(s, [DoLogoutBegin(id, o)] + others + [DoLogoutEnd(id)]);
            id in s'.objs && s'.objs[id].state == StoppedState && s'.objs[id].socks == s.objs[id].socks
            && s'.objs[id].socks.Some?
  {
    var begin, end := DoLogoutBegin(id, o), DoLogoutEnd(id);
    var s1 := Step(s, begin);
    StepKeeps(s, begin);
    assert ObjectOk(s, id);
    LogoutFreezes(s1, others, id);
    var s2 := Exec(s1, others);
    assert LogoutsOk(s2, id);
    ExecCons(s, begin, others);
    ExecAppend(s, [begin] + others, [end]);
    ExecCons(s2, end, []);
    assert [end] + [] == [end];
  }

  /** The run: a running tailnet is logged out, with any steps of anybody between the two halves, and started again.
      The start fails, opens nothing and closes nothing, and the old proxy is still held. */
  lemma LoggedOutCannotStart(before: seq<Action>, id: int, o: Save, others: seq<Action>, io: StartIO)
    requires var s := Exec(INIT, before);
             id in s.objs && s.objs[id].state in {ConnectedState, StartedState, NeedsMachineAuthState}
    requires forall k :: 0 <= k < |others| ==> !others[k].Restart? && others[k] != DoLogoutEnd(id)
    requires SmoothRun(INIT, before + ([DoLogoutBegin(id, o)] + others + [DoLogoutEnd(id)]))
    requires Smooth(Exec(INIT, before + ([DoLogoutBegin(id, o)] + others + [DoLogoutEnd(id)])), DoStart(id, io))
    ensures var s := Exec(INIT, before + ([DoLogoutBegin(id, o)] + others + [DoLogoutEnd(id)]));
            && id in s.objs && s.objs[id].state == StoppedState
            && s.objs[id].socks == Exec(INIT, before).objs[id].socks && s.objs[id].socks.Some?
            && Start(s.objs[id], s.w, io).failed && Start(s.objs[id], s.w, io).w.host == s.w.host
            && Start(s.objs[id], s.w, io).t == s.objs[id].(user := UserEnabled)
  {
    var logout := [DoLogoutBegin(id, o)] + others + [DoLogoutEnd(id)];
    Reachable(before);
    LogoutKeepsProxy(Exec(INIT, before), id, o, others);
    ExecAppend(INIT, before, logout);
    StartAfterLogoutFails(before + logout, id, io);
  }
}
