/** The invariant of whole runs: any interleaving of adds, starts, stops, both halves of logouts, callbacks,
    deletes and crashes, with every I/O outcome. */
module Runs {
  import opened Model
  import opened System
  import opened Invariants
  import opened Callbacks

  ghost predicate PendingOk(s: Sys, p: Pending) {
    && p.id in s.objs
    && CleanupOk(p.cleanup, p.id, s.w.host)
    && (!Empty(p.cleanup) ==> s.objs[p.id].state == HasTerminalErrorState)
  }

  /** Tailnet `id` and the number of its logouts in flight. */
  ghost predicate ObjectOk(s: Sys, id: int)
    requires id in s.objs
  {
    && s.objs[id].id == id && 1 <= id < s.w.nextID
    && TailnetInv(s.objs[id], s.w)
  }

  ghost predicate LogoutsOk(s: Sys, id: int) {
    s.logouts[id] == if id in s.objs && s.objs[id].state == LoggingOutState then 1 else 0
  }

  ghost predicate Inv(s: Sys) {
    && WorldInv(s.w)
    && s.w.configs.Keys <= s.objs.Keys
    && (forall id :: id in s.objs ==> ObjectOk(s, id))
    && (forall id :: LogoutsOk(s, id))
    && (forall k :: 0 <= k < |s.pending| ==> PendingOk(s, s.pending[k]))
    && (forall i, j :: 0 <= i < j < |s.pending| && s.pending[i].id == s.pending[j].id ==>
          Empty(s.pending[i].cleanup) || Empty(s.pending[j].cleanup))
  }

  // ----- One step ----------------------------------------------------------------------------------

  /** The part shared by all commands and callbacks. */
  lemma SectionKeeps(s: Sys, id: int, t: Tailnet, w: World, logouts: multiset<int>)
    requires Inv(s) && id in s.objs
    requires Kept(s.objs[id], s.w, t, w)
    requires s.objs[id].state == HasTerminalErrorState ==> t.state == HasTerminalErrorState && w.host == s.w.host
    requires forall j :: logouts[j] ==
                         if j == id then (if t.state == LoggingOutState then 1 else 0) else s.logouts[j]
    ensures Inv(s.(objs := s.objs[id := t], w := w, logouts := logouts))
  {
    var s' := s.(objs := s.objs[id := t], w := w, logouts := logouts);
    forall j | j in s'.objs ensures ObjectOk(s', j) {
      assert ObjectOk(s, j);
      if j != id {
        OthersUnaffected(s.objs[j], s.w, w, id);
      }
    }
    forall j ensures LogoutsOk(s', j) {
      assert LogoutsOk(s, j);
    }
    forall k | 0 <= k < |s'.pending| ensures PendingOk(s', s'.pending[k]) {
      assert PendingOk(s, s.pending[k]);
      PendingUnaffected(s, s.pending[k], id, t, w);
    }
  }

  lemma PendingUnaffected(s: Sys, p: Pending, id: int, t: Tailnet, w: World)
    requires PendingOk(s, p) && id in s.objs && Change(s.w, w, id) && t.id == id
    requires s.objs[id].state == HasTerminalErrorState ==> t.state == HasTerminalErrorState && w.host == s.w.host
    ensures PendingOk(s.(objs := s.objs[id := t], w := w), p)
  {
    if p.id != id {
      var c := p.cleanup;
      assert c.server.Some? ==> SameFor(s.w.host, w.host, c.server.value);
      assert c.watcher.Some? ==> SameFor(s.w.host, w.host, c.watcher.value);
      assert c.socks.Some? ==> SameFor(s.w.host, w.host, c.socks.value);
    }
  }

  lemma CommandKeeps(s: Sys, a: Action)
    requires Inv(s) && Enabled(s, a) && (a.DoStart? || a.DoStop?)
    ensures Inv(Step(s, a))
  {
    assert ObjectOk(s, a.id) && LogoutsOk(s, a.id);
    var r := if a.DoStart? then Start(s.objs[a.id], s.w, a.startIO) else Stop(s.objs[a.id], s.w, a.stopIO);
    if a.DoStart? {
      StartKeeps(s.objs[a.id], s.w, a.startIO);
    } else {
      StopKeeps(s.objs[a.id], s.w, a.stopIO);
    }
    SectionKeeps(s, a.id, r.t, r.w, s.logouts);
  }

  lemma LogoutKeeps(s: Sys, a: Action)
    requires Inv(s) && Enabled(s, a) && (a.DoLogoutBegin? || a.DoLogoutEnd?)
    ensures Inv(Step(s, a))
  {
    assert ObjectOk(s, a.id) && LogoutsOk(s, a.id);
    var t := s.objs[a.id];
    if a.DoLogoutBegin? {
      LogoutBeginKeeps(t, s.w, a.save);
      var (t', w', begun) := LogoutBegin(t, s.w, a.save);
      SectionKeeps(s, a.id, t', w', if begun.InFlight? then s.logouts + multiset{a.id} else s.logouts);
    } else {
      LogoutEndKeeps(t, s.w);
      SectionKeeps(s, a.id, LogoutEnd(t, s.w).0, LogoutEnd(t, s.w).1, s.logouts - multiset{a.id});
    }
  }

  lemma CallbackKeeps(s: Sys, a: Action)
    requires Inv(s) && Enabled(s, a) && a.DoCallback?
    ensures Inv(Step(s, a))
  {
    assert ObjectOk(s, a.id) && LogoutsOk(s, a.id);
    var t := s.objs[a.id];
    ReactKeeps(t, s.w, a.ipn, a.reactIO);
    if !IsRunning(t.state) {
      IdleCallback(t, s.w, a.ipn, a.reactIO);
    }
    var r := React(t, s.w, a.ipn, a.reactIO);
    SectionKeeps(s, a.id, r.t, r.w, s.logouts);
    var s1 := s.(objs := s.objs[a.id := r.t], w := r.w);
    var p := Pending(a.id, r.changed, r.cleanup);
    assert PendingOk(s1, p);
    forall i | 0 <= i < |s.pending| && s.pending[i].id == a.id
      ensures Empty(s.pending[i].cleanup) || Empty(p.cleanup)
    {
      assert PendingOk(s, s.pending[i]);
    }
    PendingGrows(s1, p);
  }

  lemma PendingGrows(s: Sys, p: Pending)
    requires Inv(s) && PendingOk(s, p)
    requires forall i :: 0 <= i < |s.pending| && s.pending[i].id == p.id ==>
                           Empty(s.pending[i].cleanup) || Empty(p.cleanup)
    ensures Inv(s.(pending := s.pending + [p]))
  {
    var s' := s.(pending := s.pending + [p]);
    forall id | id in s'.objs ensures ObjectOk(s', id) {
      assert ObjectOk(s, id);
    }
    forall id ensures LogoutsOk(s', id) {
      assert LogoutsOk(s, id);
    }
    forall k | 0 <= k < |s'.pending| ensures PendingOk(s', s'.pending[k]) {
      assert k < |s.pending| ==> PendingOk(s, s.pending[k]);
    }
  }

  /** Closing what callback `k` moved out affects no other callback's handles. */
  lemma OtherPendingKept(s: Sys, k: nat, j: nat, w: World)
    requires Inv(s) && k < |s.pending| && j < |s.pending| && j != k
    requires Change(s.w, w, s.pending[k].id)
    requires Empty(s.pending[k].cleanup) ==> w.host == s.w.host
    ensures PendingOk(s.(w := w), s.pending[j])
  {
    var p, q := s.pending[k], s.pending[j];
    assert PendingOk(s, q) && PendingOk(s, p);
    if q.id == p.id {
      assert Empty(q.cleanup) || Empty(p.cleanup);
    } else {
      var c := q.cleanup;
      assert c.server.Some? ==> SameFor(s.w.host, w.host, c.server.value);
      assert c.watcher.Some? ==> SameFor(s.w.host, w.host, c.watcher.value);
      assert c.socks.Some? ==> SameFor(s.w.host, w.host, c.socks.value);
    }
  }

  /** A tailnet whose handles were moved out holds none, so closing them leaves it as it is. */
  lemma ObjectKeptByFinish(s: Sys, k: nat, id: int, w: World)
    requires Inv(s) && k < |s.pending| && id in s.objs
    requires Change(s.w, w, s.pending[k].id) && w.configs == s.w.configs && w.disk == s.w.disk
    requires Empty(s.pending[k].cleanup) ==> w.host == s.w.host
    ensures ObjectOk(s.(w := w), id)
  {
    assert ObjectOk(s, id) && PendingOk(s, s.pending[k]);
    if id != s.pending[k].id {
      OthersUnaffected(s.objs[id], s.w, w, s.pending[k].id);
    }
  }

  lemma FinishStepKeeps(s: Sys, a: Action)
    requires Inv(s) && Enabled(s, a) && a.DoFinish?
    ensures Inv(Step(s, a))
  {
    var k, p := a.index, s.pending[a.index];
    assert PendingOk(s, p);
    FinishKeeps(s.w, p.id, p.changed, p.cleanup, a.cleanupIO);
    var w := FinishReact(s.w, p.id, p.changed, p.cleanup, a.cleanupIO);
    var s1 := s.(w := w);
    assert Empty(p.cleanup) ==> w.host == s.w.host;
    forall id | id in s.objs ensures ObjectOk(s1, id) {
      ObjectKeptByFinish(s, k, id, w);
    }
    forall j: nat | j < |s.pending| && j != k ensures PendingOk(s1, s.pending[j]) {
      OtherPendingKept(s, k, j, w);
    }
    forall id ensures LogoutsOk(s1, id) {
      assert LogoutsOk(s, id);
    }
    PendingShrinks(s1, k);
  }

  lemma PendingShrinks(s: Sys, k: nat)
    requires WorldInv(s.w) && s.w.configs.Keys <= s.objs.Keys && k < |s.pending|
    requires forall id :: id in s.objs ==> ObjectOk(s, id)
    requires forall id :: LogoutsOk(s, id)
    requires forall j: nat :: j < |s.pending| && j != k ==> PendingOk(s, s.pending[j])
    requires forall i, j :: 0 <= i < j < |s.pending| && s.pending[i].id == s.pending[j].id ==>
                              Empty(s.pending[i].cleanup) || Empty(s.pending[j].cleanup)
    ensures Inv(s.(pending := s.pending[..k] + s.pending[k + 1..]))
  {
    var s' := s.(pending := s.pending[..k] + s.pending[k + 1..]);
    forall id | id in s'.objs ensures ObjectOk(s', id) {
      assert ObjectOk(s, id);
    }
    forall id ensures LogoutsOk(s', id) {
      assert LogoutsOk(s, id);
    }
    forall i: nat | i < |s'.pending| ensures PendingOk(s', s'.pending[i]) {
      var j := if i < k then i else i + 1;
      assert s'.pending[i] == s.pending[j] && PendingOk(s, s.pending[j]);
    }
  }

  /** What an add does to the registry: a new config that was also written, or none at all. */
  lemma AddWorld(w: World, wanted: string, io: AddIO)
    requires WorldInv(w)
    ensures var (v, id) := Add(w, wanted, io);
            && WorldInv(v) && v.host == w.host && v.nextID == w.nextID + 1 && w.events <= v.events
            && (id.Some? ==> id.value == w.nextID && w.nextID !in w.configs && v.disk == Stored(v.configs)
                             && exists hostname, port ::
                                  v.configs == w.configs[w.nextID := FreshConfig(w.nextID, hostname, port)])
            && (id.None? ==> v.configs == w.configs && (v.disk == w.disk || v.disk == Unreadable))
  {
    var (v, id) := Add(w, wanted, io);
    if io.port.Some? {
      var c := FreshConfig(w.nextID, Hostname(wanted, io.machine), io.port.value);
      var m := w.configs[w.nextID := c];
      assert m - {w.nextID} == w.configs;
      if id.Some? {
        assert v.configs == m;
      }
    }
  }

  /** An object that was there before is as it was, and the registry changed around it. */
  lemma ObjectStays(s: Sys, s': Sys, id: int)
    requires id in s.objs && ObjectOk(s, id) && id in s'.objs && s'.objs[id] == s.objs[id]
    requires s'.w.host == s.w.host && s.w.nextID <= s'.w.nextID
    requires id in s'.w.configs ==> id in s.w.configs && s'.w.configs[id] == s.w.configs[id]
    requires SuffixOnDisk(s.objs[id], s'.w)
    ensures ObjectOk(s', id)
  {
  }

  lemma ObjectAfterAdd(s: Sys, a: Action, id: int)
    requires Inv(s) && Enabled(s, a) && a.AddCommit? && id in Step(s, a).objs
    ensures ObjectOk(Step(s, a), id)
    ensures id !in s.objs ==> Step(s, a).objs[id].state == StoppedState
  {
    AddWorld(s.w, a.wanted, a.addIO);
    if id in s.objs {
      assert ObjectOk(s, id);
      ObjectStays(s, Step(s, a), id);
    }
  }

  lemma AddKeeps(s: Sys, a: Action)
    requires Inv(s) && Enabled(s, a) && (a.AddCheck? || a.AddCommit?)
    ensures Inv(Step(s, a))
  {
    var s' := Step(s, a);
    if a.AddCommit? {
      AddWorld(s.w, a.wanted, a.addIO);
      forall id | id in s'.objs ensures ObjectOk(s', id) {
        ObjectAfterAdd(s, a, id);
      }
      forall id ensures LogoutsOk(s', id) {
        assert LogoutsOk(s, id);
        if id in s'.objs { ObjectAfterAdd(s, a, id); }
      }
      forall k | 0 <= k < |s'.pending| ensures PendingOk(s', s'.pending[k]) {
        PendingAfterAdd(s, a, k);
      }
    } else {
      CounterOnly(s, s');
    }
  }

  lemma PendingAfterAdd(s: Sys, a: Action, k: nat)
    requires Inv(s) && Enabled(s, a) && a.AddCommit? && k < |s.pending|
    ensures PendingOk(Step(s, a), s.pending[k])
  {
    AddWorld(s.w, a.wanted, a.addIO);
    assert PendingOk(s, s.pending[k]);
    assert ObjectOk(s, s.pending[k].id);
  }

  /** The number of add requests under way is nobody's concern. */
  lemma CounterOnly(s: Sys, s': Sys)
    requires Inv(s) && s' == s.(adders := s'.adders)
    ensures Inv(s')
  {
    forall id | id in s'.objs ensures ObjectOk(s', id) {
      assert ObjectOk(s, id);
    }
    forall id ensures LogoutsOk(s', id) {
      assert LogoutsOk(s, id);
    }
    forall k | 0 <= k < |s'.pending| ensures PendingOk(s', s'.pending[k]) {
      assert PendingOk(s, s.pending[k]);
    }
  }

  lemma DeletedWorld(w: World, id: int, o: Save)
    requires WorldInv(w)
    ensures var v := Delete(w, id, o).0;
            && WorldInv(v) && v.host == w.host && v.nextID == w.nextID
            && (v.disk == w.disk || v.disk == Unreadable || v.disk == Stored(v.configs))
            && v.configs == w.configs - {id}
  {
  }

  lemma DeleteKeeps(s: Sys, a: Action)
    requires Inv(s) && a.DoDelete?
    ensures Inv(Step(s, a))
  {
    var s' := Step(s, a);
    DeletedWorld(s.w, a.id, a.save);
    forall id | id in s'.objs ensures ObjectOk(s', id) {
      assert ObjectOk(s, id);
      ObjectStays(s, s', id);
    }
    forall id ensures LogoutsOk(s', id) {
      assert LogoutsOk(s, id);
    }
    forall k | 0 <= k < |s'.pending| ensures PendingOk(s', s'.pending[k]) {
      assert PendingOk(s, s.pending[k]);
    }
  }

  lemma BootedWorld(s: Sys)
    requires WorldInv(s.w) && !s.w.disk.Unreadable?
    ensures var w := Boot(s).w;
            && WorldInv(w) && w.nextID <= s.w.nextID && (w.nextID == 1 || w.nextID - 1 in w.configs)
            && forall id :: id in w.configs ==> id < w.nextID
  {
    assert forall x: Handle :: Sound(NEWHOST, x);
  }

  lemma BootedObject(s: Sys, id: int)
    requires WorldInv(s.w) && s.w.disk.Stored? && id in s.w.disk.configs
    ensures ObjectOk(Boot(s), id) && Boot(s).objs[id].state != LoggingOutState
  {
    assert Boot(s).objs[id] == NewTailnet(s.w.disk.configs[id]);
  }

  lemma RestartKeeps(s: Sys)
    requires Inv(s) && Enabled(s, Restart)
    ensures Inv(Step(s, Restart))
  {
    var b := Boot(s);
    BootedWorld(s);
    forall id | id in b.objs ensures ObjectOk(b, id) && b.objs[id].state != LoggingOutState {
      BootedObject(s, id);
    }
    forall id ensures LogoutsOk(b, id) {
    }
  }

  lemma StepKeeps(s: Sys, a: Action)
    requires Inv(s)
    ensures Inv(Step(s, a))
  {
    if Enabled(s, a) {
      match a
      case AddCheck => AddKeeps(s, a);
      case AddCommit(_, _) => AddKeeps(s, a);
      case DoStart(_, _) => CommandKeeps(s, a);
      case DoStop(_, _) => CommandKeeps(s, a);
      case DoLogoutBegin(_, _) => LogoutKeeps(s, a);
      case DoLogoutEnd(_) => LogoutKeeps(s, a);
      case DoCallback(_, _, _) => CallbackKeeps(s, a);
      case DoFinish(_, _) => FinishStepKeeps(s, a);
      case DoDelete(_, _) => DeleteKeeps(s, a);
      case Restart => RestartKeeps(s);
    }
  }

  lemma {:induction false} RunKeeps(s: Sys, acts: seq<Action>)
    requires Inv(s)
    ensures Inv(Exec(s, acts))
    decreases |acts|
  {
    if acts != [] {
      StepKeeps(s, acts[0]);
      RunKeeps(Step(s, acts[0]), acts[1..]);
    }
  }

  /** Every reachable state satisfies the invariant. */
  lemma Reachable(acts: seq<Action>)
    ensures Inv(Exec(INIT, acts))
  {
    assert forall x: Handle :: Sound(INIT.w.host, x);
    RunKeeps(INIT, acts);
  }
}
