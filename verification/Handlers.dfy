/** Starting up, and the two request handlers of internal/web/handlers.go that take several steps. */
module Handlers {
  import opened Ids
  import opened Model
  import opened System
  import opened Storage
  import opened Sse
  import opened Service
  import Restarts

  /** NewRegistry: an unreadable file ends the program, a missing one means an empty registry. */
  method NewRegistry(bus: SSEBroadcaster, os: OperatingSystem, file: File) returns (reg: Registry?)
    requires bus.Valid()
    ensures (reg == null) == file.Broken?
    ensures reg != null ==> fresh(reg) && reg.bus == bus && reg.os == os && reg.Valid() && fresh(reg.Registered())
    ensures reg != null ==> reg.Whole() == BootFrom(Contents(file), os.View(), bus.history)
  {
    var r := new Registry(bus, os, file);
    assert r.Objects() == map[];
    var result := r.Load();
    if result == Malformed {
      return null;
    }
    LoadedIsBooted(r, BootFrom(Contents(file), os.View(), bus.history));
    reg := r;
  }

  lemma LoadedIsBooted(r: Registry, s: Sys)
    requires r.Valid() && r.World() == s.w
    requires s.objs == map id | id in s.w.configs :: NewTailnet(s.w.configs[id])
    requires s.logouts == multiset{} && s.pending == [] && s.adders == 0
    requires forall id :: id in r.tailnets ==> r.tailnets[id].tailnet.View() == NewTailnet(s.w.configs[id])
    ensures r.Whole() == s
  {
    forall id | id in r.Objects() ensures r.Objects()[id].View() == NewTailnet(s.w.configs[id]) {
      assert r.Objects()[id] == r.tailnets[id].tailnet;
    }
    assert r.Objects().Keys == r.Configs().Keys == s.w.configs.Keys;
    assert r.Views() == s.objs;
  }

  /** A new process comes with a new broadcaster and a host on which nothing is open. */
  method OpenRegistry(file: File) returns (reg: Registry?, ghost made: set<object>)
    ensures (reg == null) == file.Broken?
    ensures fresh(made)
    ensures reg != null ==> reg in made && reg.bus in made && reg.os in made && reg.Registered() <= made
    ensures reg != null ==> reg.Valid() && reg.Whole() == BootFrom(Contents(file), NEWHOST, [])
  {
    var bus := new SSEBroadcaster();
    var os := new OperatingSystem();
    reg := NewRegistry(bus, os, file);
    made := {};
    if reg != null {
      made := reg.Registered();
      made := made + {reg, bus, os};
    }
  }

  /** What main does before it serves requests, in a new process with a new broadcaster. `acts` is the history of the
      installation up to a crash that left `file`. If its last save succeeded, exactly the tailnets that the user
      wanted at the crash are attempted. */
  method StartUp(file: File, ios: int -> StartIO, ghost acts: seq<Action>)
    returns (reg: Registry?, ghost attempted: seq<int>)
    requires Contents(file) == Exec(INIT, acts).w.disk
    ensures (reg == null) == file.Broken?
    ensures reg != null ==> fresh(reg) && fresh(reg.bus) && fresh(reg.os) && reg.Valid() && Ascending(attempted)
    ensures reg != null ==> reg.Whole() == Exec(INIT, acts + [Restart] + Starts(attempted, ios))
    ensures var s := Exec(INIT, acts);
            reg != null && s.w.synced ==> forall id :: id in attempted <==> id in Restarts.Wanted(s)
  {
    attempted := [];
    ghost var made;
    reg, made := OpenRegistry(file);
    if reg != null {
      reg.AttemptsMatch();
      attempted := reg.RestoreEnabledTailnets(ios);
      RestartAppends(acts, Starts(attempted, ios));
      if Exec(INIT, acts).w.synced {
        Restarts.RestartPreservesIntent(acts);
      }
    }
  }

  lemma RestartAppends(acts: seq<Action>, more: seq<Action>)
    requires !Exec(INIT, acts).w.disk.Unreadable?
    ensures Exec(INIT, acts + [Restart] + more) == Exec(Boot(Exec(INIT, acts)), more)
  {
    ExecAppend(INIT, acts, [Restart]);
    ExecAppend(INIT, acts + [Restart], more);
    ExecCons(Exec(INIT, acts), Restart, []);
    assert [Restart] + [] == [Restart];
  }

  datatype AddReply = Conflict | BadRequest | Created

  /** POST /tailnet/add: refuse while a tailnet is unconfigured, else add one and start it. */
  method AddTailnet(reg: Registry, addIO: AddIO, startIO: StartIO) returns (reply: AddReply)
    requires reg.Valid()
    modifies reg, reg.bus, reg.os
    ensures reg.Valid()
    ensures (reply == Conflict) == HasUnconfigured(old(reg.Configs()))
    ensures (reply == Created) ==
            (!HasUnconfigured(old(reg.Configs())) && addIO.port.Some? && addIO.save.Saved?)
    ensures reply == Conflict ==> reg.World() == old(reg.World()) && reg.Objects() == old(reg.Objects())
    ensures reply == BadRequest ==>
              reg.World() == Add(old(reg.World()), "", addIO).0 && reg.Objects() == old(reg.Objects())
    ensures reply == Created ==>
              var w := Add(old(reg.World()), "", addIO).0;
              var id := old(reg.nextID);
              var r := Start(NewTailnet(w.configs[id]), w, startIO);
              && id in reg.Objects() && reg.Objects()[id].View() == r.t && reg.World() == AnnounceAll(r.w)
              && reg.Objects().Keys == old(reg.Objects()).Keys + {id}
              && forall j :: j in old(reg.Objects()) ==> reg.Objects()[j] == old(reg.Objects())[j]
  {
    var waiting := reg.HasUnconfiguredTailnets();
    if waiting {
      return Conflict;
    }
    var created := AddAndStart(reg, addIO, startIO);
    reply := if created then Created else BadRequest;
  }

  /** The part of the request after the check. */
  method AddAndStart(reg: Registry, addIO: AddIO, startIO: StartIO) returns (created: bool)
    requires reg.Valid()
    modifies reg, reg.bus, reg.os
    ensures reg.Valid() && created == (addIO.port.Some? && addIO.save.Saved?)
    ensures !created ==> reg.World() == Add(old(reg.World()), "", addIO).0 && reg.Objects() == old(reg.Objects())
    ensures created ==>
              var w := Add(old(reg.World()), "", addIO).0;
              var id := old(reg.nextID);
              var r := Start(NewTailnet(w.configs[id]), w, startIO);
              && id in reg.Objects() && reg.Objects()[id].View() == r.t && reg.World() == AnnounceAll(r.w)
              && reg.Objects().Keys == old(reg.Objects()).Keys + {id}
              && forall j :: j in old(reg.Objects()) ==> reg.Objects()[j] == old(reg.Objects())[j]
  {
    var t := reg.Add("", addIO);
    created := t != null;
    if created {
      StartNew(reg, t, startIO);
    }
  }

  method StartNew(reg: Registry, t: TailnetObject, io: StartIO)
    requires reg.Valid() && t.reg == reg
    modifies reg, reg.bus, reg.os, t
    ensures reg.Valid() && reg.Objects() == old(reg.Objects())
    ensures var r := Start(old(t.View()), old(reg.World()), io); t.View() == r.t && reg.World() == AnnounceAll(r.w)
  {
    var _ := t.Start(io);
    reg.bus.Broadcast(GlobalChange);
  }

  datatype DeleteReply = UnknownID | DeleteFailed | Toast(success: bool)

  /** The world after the logout that a delete attempts first; terminal tailnets skip it. */
  function AfterLogout(t: Tailnet, w: World, o: Save): World {
    if t.state == HasTerminalErrorState then w
    else
      var (t', w', begun) := LogoutBegin(t, w, o);
      if begun.Ended? then w' else LogoutEnd(t', w').1
  }

  method LogoutFirst(reg: Registry, t: TailnetObject, o: Save, accepted: bool) returns (failed: bool)
    requires reg.Valid() && t.reg == reg
    modifies reg, reg.bus, reg.os, t
    ensures reg.Valid() && reg.Objects() == old(reg.Objects())
    ensures reg.World() == AfterLogout(old(t.View()), old(reg.World()), o)
    ensures !failed <==>
            var before := old(t.state);
            || before in {HasTerminalErrorState, NeedsLoginState}
            || (accepted && before in {ConnectedState, StoppedState, StartedState, NeedsMachineAuthState})
  {
    var s := t.Snapshot();
    failed := false;
    if s.state != HasTerminalErrorState {
      failed := t.Logout(o, accepted);
    }
  }

  /** DELETE /tailnet/{id}: the tailnet goes in any case; the toast is a success exactly when there was nothing to
      log out or the network accepted the logout. */
  method DeleteTailnet(reg: Registry, id: int, logoutSave: Save, accepted: bool, deleteSave: Save)
    returns (reply: DeleteReply)
    requires reg.Valid()
    modifies reg, reg.bus, reg.os, reg.Registered()
    ensures reg.Valid()
    ensures id !in old(reg.Objects()) ==> reply == UnknownID && reg.World() == old(reg.World())
    ensures id in old(reg.Objects()) ==>
              var t := old(reg.Views())[id];
              && reply == Toast(
                   || t.state in {HasTerminalErrorState, NeedsLoginState}
                   || (accepted && t.state in {ConnectedState, StoppedState, StartedState, NeedsMachineAuthState}))
              && reg.World() == AnnounceAll(Delete(AfterLogout(t, old(reg.World()), logoutSave), id, deleteSave).0)
    ensures reg.Objects() == old(reg.Objects()) - {id}
  {
    var t := reg.Get(id);
    if t == null {
      assert reg.Objects() == reg.Objects() - {id};
      return UnknownID;
    }
    assert t == reg.Objects()[id] && t in reg.Registered();
    var failed := LogoutFirst(reg, t, logoutSave, accepted);
    var found := reg.Delete(id, deleteSave);
    if !found {
      return DeleteFailed;
    }
    reg.bus.Broadcast(GlobalChange);
    reply := Toast(!failed);
  }
}
