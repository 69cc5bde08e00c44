/** The mutable classes of internal/ts/tailnet.go, internal/ts/processor.go and internal/registry/registry.go.
    Every method is tied to the function of module Model that the run theorems are about. */
module Service {
  import opened Wrappers
  import opened Ipn
  import opened Ids
  import opened Model
  import opened Storage
  import opened Sse
  import opened System
  import Invariants
  import Restarts

  /** Listeners, and the record of every Close. */
  class OperatingSystem {
    var serial: nat
    var listeners: map<Handle, nat>
    var closes: multiset<Handle>

    constructor ()
      ensures View() == Host(0, map[], multiset{})
    {
      serial, listeners, closes := 0, map[], multiset{};
    }

    function View(): Host
      reads this
    {
      Host(serial, listeners, closes)
    }

    /** A new proxy listening on `port`, or nothing when the port cannot be had. */
    method NewProxy(owner: int, port: nat, granted: bool) returns (proxy: Option<Handle>)
      modifies this
      ensures proxy == if granted then Some(Opened(owner, SocksProxy, old(View()))) else None
      ensures View() == if granted then Listen(old(View()), proxy.value, port) else old(View())
    {
      proxy := None;
      if granted {
        proxy := Some(Handle(owner, SocksProxy, serial));
        listeners := listeners[proxy.value := port];
        serial := serial + 1;
      }
    }

    /** A server that has not been started yet. */
    method NewServer(owner: int) returns (server: Handle)
      modifies this`serial
      ensures server == Handle(owner, TsnetServer, old(serial)) && serial == old(serial) + 1
    {
      server := Handle(owner, TsnetServer, serial);
      serial := serial + 1;
    }

    method Close(x: Handle, succeeds: bool) returns (failed: bool)
      modifies this`listeners, this`closes
      ensures failed == !succeeds && View() == CloseHandle(old(View()), x, succeeds)
    {
      closes := closes + multiset{x};
      if succeeds {
        listeners := listeners - {x};
      }
      failed := !succeeds;
    }
  }

  datatype RegisteredTailnet = RegisteredTailnet(tailnet: TailnetObject, config: Config)

  // ----- Registry ----------------------------------------------------------------------------------

  class Registry {
    const bus: SSEBroadcaster
    const os: OperatingSystem
    var nextID: int
    var tailnets: map<int, RegisteredTailnet>
    var file: File
    ghost var synced: bool

    ghost function Configs(): map<int, Config>
      reads this
    {
      map id | id in tailnets :: tailnets[id].config
    }

    ghost function World(): World
      reads this, bus, os
    {
      Model.World(nextID, Configs(), Contents(file), synced, os.View(), bus.history)
    }

    ghost predicate Valid()
      reads this, bus
    {
      && bus.Valid()
      && OwnKeys(Configs())
      && forall id :: id in Objects() ==> Objects()[id].id == id < nextID && Objects()[id].reg == this
    }

    ghost function Objects(): map<int, TailnetObject>
      reads this
    {
      map id | id in tailnets :: tailnets[id].tailnet
    }

    function AllObjects(): (m: map<int, TailnetObject>)
      reads this
      ensures m == Objects()
    {
      map id | id in tailnets :: tailnets[id].tailnet
    }

    /** An empty registry over the file that the path names; NewRegistry goes on to load it. */
    constructor (bus: SSEBroadcaster, os: OperatingSystem, file: File)
      requires bus.Valid()
      ensures this.bus == bus && this.os == os && this.file == file
      ensures Valid() && tailnets == map[] && nextID == 1 && synced == file.NoFile?
    {
      this.bus, this.os, this.file := bus, os, file;
      nextID, tailnets, synced := 1, map[], file.NoFile?;
    }

    /** Writes the configs in the order in which the map happens to be walked. */
    method SaveLocked(o: Save) returns (saved: bool)
      requires OwnKeys(Configs())
      modifies this`file, this`synced
      ensures saved == o.Saved? && Configs() == old(Configs()) && Objects() == old(Objects())
      ensures World() == SaveConfigs(old(World()), o)
    {
      ghost var m := Configs();
      saved := o.Saved?;
      if o == Truncated {
        file := Broken;
      }
      if o == Saved {
        var list: seq<Config> := [];
        var todo := tailnets.Keys;
        while todo != {}
          invariant todo <= tailnets.Keys
          invariant forall c :: c in list ==> c.id in tailnets && tailnets[c.id].config == c
          invariant forall id :: id in tailnets && id !in todo ==> tailnets[id].config in list
        {
          var id := PickOne(todo);
          assert m[id].id == id;
          list := list + [tailnets[id].config];
          todo := todo - {id};
        }
        assert Lists(list, m);
        SaveLoadRoundTrip(list, m);
        file := Records(list);
      }
      synced := saved;
      assert Configs() == m;
    }

    method Put(id: int, c: Config)
      requires id in tailnets && Valid() && c.id == id
      modifies this`tailnets
      ensures Valid() && Objects() == old(Objects()) && World() == old(World()).(configs := old(Configs())[id := c])
    {
      tailnets := tailnets[id := tailnets[id].(config := c)];
      assert Configs() == old(Configs())[id := c];
      assert Objects() == old(Objects());
    }

    method Claim(id: int, suffix: string, o: Save) returns (result: ClaimResult)
      requires Valid()
      modifies this, bus
      ensures Valid() && Objects() == old(Objects())
      ensures var r := Model.Claim(old(World()), id, suffix, o); World() == r.0 && result == r.1
    {
      var taken := AnyClaimed(suffix);
      if taken {
        return AlreadyClaimed;
      }
      if id !in tailnets {
        return NotFound;
      }
      assert Configs()[id].id == id;
      Put(id, tailnets[id].config.(suffix := suffix));
      var saved := SaveLocked(o);
      if !saved {
        return SaveFailed;
      }
      bus.Broadcast(GlobalChange);
      result := Claimed;
    }

    /** The loop over the configs, shared by Claim and HasUnconfiguredTailnets. */
    method AnyClaimed(suffix: string) returns (found: bool)
      ensures found == Taken(Configs(), suffix)
    {
      found := false;
      var todo := tailnets.Keys;
      while todo != {}
        invariant todo <= tailnets.Keys && !found
        invariant forall id :: id in tailnets && id !in todo ==> tailnets[id].config.suffix != suffix
      {
        var id := PickOne(todo);
        if tailnets[id].config.suffix == suffix {
          assert Configs()[id].suffix == suffix;
          return true;
        }
        todo := todo - {id};
      }
    }

    method HasUnconfiguredTailnets() returns (found: bool)
      ensures found == HasUnconfigured(Configs())
    {
      found := AnyClaimed("");
    }

    /** The callback that mirrors the user's intent; the save's outcome is ignored. */
    method OnUserStateChange(id: int, s: UserState, o: Save)
      requires Valid()
      modifies this, bus
      ensures Valid() && Objects() == old(Objects()) && World() == PersistUser(old(World()), id, s == UserEnabled, o)
    {
      if id in tailnets {
        assert Configs()[id].id == id;
        Put(id, tailnets[id].config.(userEnabled := s == UserEnabled));
        var _ := SaveLocked(o);
      }
    }

    method OnTerminalErrorChange(id: int, message: string, o: Save)
      requires Valid()
      modifies this, bus
      ensures Valid() && Objects() == old(Objects()) && World() == PersistError(old(World()), id, message, o)
    {
      if id in tailnets {
        assert Configs()[id].id == id;
        Put(id, tailnets[id].config.(terminalError := message));
        var _ := SaveLocked(o);
      }
    }

    // ----- Loading and listing -------------------------------------------------------------------

    ghost function Registered(): set<TailnetObject>
      reads this
    {
      set id | id in tailnets :: tailnets[id].tailnet
    }

    /** The values of all registered tailnets. */
    ghost function Views(): map<int, Tailnet>
      reads this, Registered()
    {
      map id | id in Objects() :: Objects()[id].View()
    }

    /** The whole process as the run theorems see it, when no call is in flight and nothing was deleted. */
    ghost function Whole(): Sys
      reads this, bus, os, Registered()
    {
      Sys(Views(), World(), multiset{}, [], 0)
    }

    /** Rebuilds the registry from the file; without a readable file it leaves everything as it is. */
    method Load() returns (result: LoadResult)
      requires Valid()
      modifies this`nextID, this`tailnets, this`synced
      ensures Valid()
      ensures result == match old(file) case NoFile => NotExist case Broken => Malformed case Records(_) => Loaded
      ensures result != Loaded ==> World() == old(World()) && Objects() == old(Objects())
      ensures result == Loaded ==>
                var m := Decoded(old(file).list);
                && World() == old(World()).(nextID := NextIDAfter(m.Keys), configs := m, synced := true)
                && tailnets.Keys == m.Keys
                && forall id :: id in tailnets ==>
                     fresh(tailnets[id].tailnet) && tailnets[id].tailnet.View() == NewTailnet(m[id])
    {
      if file.NoFile? {
        return NotExist;
      }
      if file.Broken? {
        return Malformed;
      }
      LoadRecords(file.list);
      result := Loaded;
    }

    method LoadRecords(list: seq<Config>)
      requires Valid() && file == Records(list)
      modifies this`nextID, this`tailnets, this`synced
      ensures Valid()
      ensures var m := Decoded(list);
              && World() == old(World()).(nextID := NextIDAfter(m.Keys), configs := m, synced := true)
              && tailnets.Keys == m.Keys
              && forall id :: id in tailnets ==>
                   fresh(tailnets[id].tailnet) && tailnets[id].tailnet.View() == NewTailnet(m[id])
    {
      Rebuild(list);
      synced := true;
      assert Configs() == Decoded(list);
    }

    /** The loop over the records: a new object and an entry for each, and the counter past every id. */
    method Rebuild(list: seq<Config>)
      modifies this`nextID, this`tailnets
      ensures nextID == NextIDAfter(tailnets.Keys) && tailnets.Keys == Decoded(list).Keys
      ensures forall id :: id in tailnets ==> Rebuilt(id, Decoded(list)[id]) && fresh(tailnets[id].tailnet)
    {
      tailnets := map[];
      nextID := 1;
      var i := 0;
      while i < |list|
        invariant 0 <= i <= |list|
        invariant nextID == CountedPast(list[..i]) && tailnets.Keys == Decoded(list[..i]).Keys
        invariant forall id :: id in tailnets ==> Rebuilt(id, Decoded(list[..i])[id]) && fresh(tailnets[id].tailnet)
      {
        var c := list[i];
        assert list[..i + 1][..i] == list[..i];
        var t := new TailnetObject(this, c);
        assert t.id == t.View().id;
        tailnets := tailnets[c.id := RegisteredTailnet(t, c)];
        if c.id >= nextID {
          nextID := c.id + 1;
        }
        i := i + 1;
      }
      assert list[..|list|] == list;
      CounterIsNextID(list);
    }

    ghost predicate Rebuilt(id: int, c: Config)
      requires id in tailnets
      reads this, tailnets[id].tailnet
    {
      var t := tailnets[id].tailnet;
      tailnets[id].config == c && c.id == id && t.id == id && t.reg == this && t.View() == NewTailnet(c)
    }

    /** A new tailnet, registered once it is on disk; null when no port was found or the save failed. */
    method Add(wanted: string, io: AddIO) returns (t: TailnetObject?)
      requires Valid()
      modifies this, bus
      ensures Valid()
      ensures World() == Model.Add(old(World()), wanted, io).0
      ensures (t == null) == Model.Add(old(World()), wanted, io).1.None?
      ensures t == null ==> Objects() == old(Objects())
      ensures t != null ==>
                && fresh(t) && t.reg == this && t.id == old(nextID) && Objects() == old(Objects())[t.id := t]
                && t.id in Configs() && t.View() == NewTailnet(Configs()[t.id])
    {
      var id := nextID;
      nextID := nextID + 1;
      assert Objects() == old(Objects()) && Configs() == old(Configs());
      var hostname := wanted;
      if hostname == "" {
        hostname := if io.machine.Some? then io.machine.value + "-tailhopper" else "tailhopper";
      }
      if io.port.None? {
        return null;
      }
      var c := FreshConfig(id, hostname, io.port.value);
      t := Enroll(c, io.save);
      assert old(Objects()) - {id} == old(Objects());
    }

    /** Registers a new tailnet and saves; rolled back when the save fails. */
    method Enroll(c: Config, o: Save) returns (t: TailnetObject?)
      requires Valid() && c.id < nextID
      modifies this, bus
      ensures Valid()
      ensures World() == Model.Enroll(old(World()), c, o).0 && (t != null) == Model.Enroll(old(World()), c, o).1
      ensures t == null ==> Objects() == old(Objects()) - {c.id}
      ensures t != null ==>
                && fresh(t) && t.reg == this && t.id == c.id && t.View() == NewTailnet(c)
                && Objects() == old(Objects())[c.id := t]
    {
      t := Register(c);
      var saved := SaveLocked(o);
      if !saved {
        Unregister(c.id);
        assert Objects() == old(Objects()) - {c.id};
        return null;
      }
      bus.Broadcast(GlobalChange);
    }

    /** A new object and its config enter the map. */
    method Register(c: Config) returns (t: TailnetObject)
      requires Valid() && c.id < nextID
      modifies this`tailnets
      ensures Valid() && fresh(t) && t.reg == this && t.id == c.id && t.View() == NewTailnet(c)
      ensures Objects() == old(Objects())[c.id := t]
      ensures World() == old(World()).(configs := old(Configs())[c.id := c])
    {
      t := new TailnetObject(this, c);
      assert t.id == t.View().id;
      tailnets := tailnets[c.id := RegisteredTailnet(t, c)];
      assert Configs() == old(Configs())[c.id := c];
      assert Objects() == old(Objects())[c.id := t];
    }

    method Unregister(id: int)
      requires Valid()
      modifies this`tailnets
      ensures Valid() && Objects() == old(Objects()) - {id}
      ensures World() == old(World()).(configs := old(Configs()) - {id})
    {
      tailnets := tailnets - {id};
      assert Configs() == old(Configs()) - {id};
      assert Objects() == old(Objects()) - {id};
    }

    method Delete(id: int, o: Save) returns (found: bool)
      requires Valid()
      modifies this, bus
      ensures Valid()
      ensures World() == Model.Delete(old(World()), id, o).0 && found == Model.Delete(old(World()), id, o).1
      ensures Objects() == old(Objects()) - {id}
    {
      if id !in tailnets {
        assert Objects() - {id} == Objects();
        return false;
      }
      Unregister(id);
      var _ := SaveLocked(o);
      bus.Broadcast(GlobalChange);
      found := true;
    }

    method Get(id: int) returns (t: TailnetObject?)
      ensures t == if id in tailnets then tailnets[id].tailnet else null
    {
      if id !in tailnets {
        return null;
      }
      t := tailnets[id].tailnet;
    }

    /** All registered tailnets by ascending id, whatever the order in which the map was walked. */
    method List() returns (ts: seq<TailnetObject>)
      requires Valid()
      ensures |ts| == |SortedIDs()|
      ensures forall k :: 0 <= k < |ts| ==> SortedIDs()[k] in tailnets && ts[k] == tailnets[SortedIDs()[k]].tailnet
    {
      var ids := IDs();
      ts := [];
      while |ts| < |ids|
        invariant |ts| <= |ids|
        invariant forall j :: 0 <= j < |ts| ==> ids[j] in tailnets && ts[j] == tailnets[ids[j]].tailnet
      {
        assert ids[|ts|] in ids;
        ts := ts + [tailnets[ids[|ts|]].tailnet];
      }
    }

    /** The keys of the map, walked in any order and then sorted. */
    method IDs() returns (ids: seq<int>)
      ensures ids == SortedIDs()
    {
      var unsorted: seq<int> := [];
      var todo := tailnets.Keys;
      while todo != {}
        invariant todo <= tailnets.Keys
        invariant forall id :: id in unsorted <==> id in tailnets && id !in todo
        invariant Distinct(unsorted)
      {
        var id := PickOne(todo);
        ghost var before := unsorted;
        unsorted := unsorted + [id];
        assert unsorted[..|unsorted| - 1] == before;
        todo := todo - {id};
      }
      ids := Sorted(unsorted);
      SortedIsAscending(unsorted);
      AscendingUnique(ids, SortedIDs());
    }

    // ----- Restoring -------------------------------------------------------------------------------

    /** Starts one registered tailnet: a DoStart step of the whole, which changes no other tailnet. */
    method StartRegistered(t: TailnetObject, io: StartIO)
      requires Valid() && t.id in Objects() && Objects()[t.id] == t
      modifies this, bus, os, t
      ensures Valid() && Objects() == old(Objects())
      ensures Views() == old(Views())[t.id := t.View()]
      ensures Whole() == Step(old(Whole()), DoStart(t.id, io))
    {
      ghost var before, views := Whole(), Views();
      StartIsStep(before, t.id, io);
      var _ := t.Start(io);
      OthersDiffer(t);
      forall id | id in Objects() ensures Objects()[id].View() == views[t.id := t.View()][id] {
        assert id != t.id ==> Objects()[id] != t && old(Views())[id] == old(Objects()[id].View());
      }
      assert Views() == views[t.id := t.View()];
    }

    /** Registered tailnets with different ids are different objects. */
    lemma OthersDiffer(t: TailnetObject)
      requires Valid() && t.id in Objects() && Objects()[t.id] == t
      ensures forall id :: id in Objects() && id != t.id ==> Objects()[id] != t
    {
    }

    /** Reading changes nothing. */
    twostate lemma Undisturbed()
      requires old(Valid()) && unchanged(this) && unchanged(bus) && unchanged(os)
      requires unchanged(old(Registered()))
      ensures Views() == old(Views()) && Whole() == old(Whole())
    {
      forall id | id in Objects() ensures Objects()[id].View() == old(Objects()[id].View()) {
        assert Objects()[id] in old(Registered());
      }
    }

    /** One turn of the restore loop. */
    method RestoreOne(t: TailnetObject, io: StartIO) returns (started: bool)
      requires Valid() && t.id in Objects() && Objects()[t.id] == t
      modifies this, bus, os, t
      ensures Valid() && Objects() == old(Objects())
      ensures started == Restarts.Restorable(old(Views())[t.id])
      ensures Whole() == if started then Step(old(Whole()), DoStart(t.id, io)) else old(Whole())
      ensures Views().Keys == old(Views()).Keys
      ensures forall id :: id in Views() && id != t.id ==> Views()[id] == old(Views())[id]
    {
      var s := t.Snapshot();
      started := s.user == UserEnabled && s.state == StoppedState;
      Undisturbed();
      if started {
        StartRegistered(t, io);
      }
    }

    /** Starts, in ascending order, exactly the stopped tailnets that the user wants; the outcome is that of
        these starts as steps of the whole. */
    method RestoreEnabledTailnets(ios: int -> StartIO) returns (ghost attempted: seq<int>)
      requires Valid()
      modifies this, bus, os, Registered()
      ensures Valid() && Objects() == old(Objects())
      ensures attempted == Attempts(old(SortedIDs()), old(Views()))
      ensures Whole() == Exec(old(Whole()), Starts(attempted, ios))
    {
      var ts := List();
      Undisturbed();
      attempted := RestoreEach(ts, SortedIDs(), ios);
    }

    method RestoreEach(ts: seq<TailnetObject>, ghost ids: seq<int>, ios: int -> StartIO)
      returns (ghost attempted: seq<int>)
      requires Valid() && Ascending(ids) && |ts| == |ids|
      requires forall j :: 0 <= j < |ts| ==> ids[j] in Objects() && ts[j] == Objects()[ids[j]]
      modifies this, bus, os, Registered()
      ensures Valid() && Objects() == old(Objects())
      ensures attempted == Attempts(ids, old(Views()))
      ensures Whole() == Exec(old(Whole()), Starts(attempted, ios))
    {
      ghost var views, first := Views(), Whole();
      attempted := [];
      var k := 0;
      while k < |ts|
        invariant 0 <= k <= |ts|
        invariant Valid() && Objects() == old(Objects()) && Views().Keys == views.Keys
        invariant forall j :: k <= j < |ts| ==> Views()[ids[j]] == views[ids[j]]
        invariant attempted == Attempts(ids[..k], views)
        invariant Whole() == Exec(first, Starts(attempted, ios))
      {
        AttemptsNext(ids, k, views);
        LaterDiffer(ids, k);
        StartMore(first, attempted, ids[k], ios);
        assert ts[k].id == ids[k] && ts[k] in Registered();
        var started := RestoreOne(ts[k], ios(ts[k].id));
        if started {
          attempted := attempted + [ids[k]];
        }
        k := k + 1;
      }
      assert ids[..|ids|] == ids;
    }

    /** The loop attempts exactly the tailnets that the restart theorems call restored. */
    lemma AttemptsMatch()
      requires Valid()
      ensures Ascending(Attempts(SortedIDs(), Views()))
      ensures forall id :: id in Attempts(SortedIDs(), Views()) <==> id in Restarts.Restored(Whole())
    {
      AttemptsAreRestored(SortedIDs(), Views());
      assert Configs().Keys == Views().Keys == tailnets.Keys;
    }

    /** The registered ids in ascending order. */
    ghost function SortedIDs(): seq<int>
      reads this
    {
      Listing(tailnets.Keys)
    }
  }

  /** The starts of `ids`, one after the other, as actions. */
  ghost function Starts(ids: seq<int>, ios: int -> StartIO): seq<Action> {
    if ids == [] then []
    else Starts(ids[..|ids| - 1], ios) + [DoStart(ids[|ids| - 1], ios(ids[|ids| - 1]))]
  }

  lemma StartMore(s: Sys, ids: seq<int>, id: int, ios: int -> StartIO)
    ensures Exec(s, Starts(ids + [id], ios)) == Step(Exec(s, Starts(ids, ios)), DoStart(id, ios(id)))
  {
    assert (ids + [id])[..|ids|] == ids;
    ExecAppend(s, Starts(ids, ios), [DoStart(id, ios(id))]);
    ExecCons(Exec(s, Starts(ids, ios)), DoStart(id, ios(id)), []);
  }

  lemma LaterDiffer(ids: seq<int>, k: nat)
    requires Ascending(ids) && k < |ids|
    ensures forall j :: k < j < |ids| ==> ids[j] != ids[k]
  {
    forall j | k < j < |ids| ensures ids[j] != ids[k] {
      AscendingAt(ids, k, j);
    }
  }

  /** The ids of those that can be restored, in the order given. */
  function Attempts(ids: seq<int>, views: map<int, Tailnet>): seq<int> {
    if ids == [] then []
    else
      var id := ids[|ids| - 1];
      Attempts(ids[..|ids| - 1], views) + if id in views && Restarts.Restorable(views[id]) then [id] else []
  }

  lemma AttemptsNext(ids: seq<int>, k: nat, views: map<int, Tailnet>)
    requires k < |ids|
    ensures Attempts(ids[..k + 1], views) ==
            Attempts(ids[..k], views) + if ids[k] in views && Restarts.Restorable(views[ids[k]]) then [ids[k]] else []
  {
    assert ids[..k + 1][..k] == ids[..k];
  }

  /** The restore loop attempts exactly the tailnets that the restart theorems call restored. */
  lemma {:induction false} AttemptsAreRestored(ids: seq<int>, views: map<int, Tailnet>)
    requires Ascending(ids)
    ensures Ascending(Attempts(ids, views))
    ensures forall id :: id in Attempts(ids, views) <==>
              id in ids && id in views && views[id].user == UserEnabled && views[id].state == StoppedState
  {
    if ids != [] {
      var before, id := ids[..|ids| - 1], ids[|ids| - 1];
      AttemptsAreRestored(before, views);
      var r := Attempts(before, views);
      assert ids == before + [id];
      assert (r + [id])[..|r|] == r && r + [] == r;
    }
  }

  datatype LoadResult = Loaded | NotExist | Malformed

  // ----- Tailnet -----------------------------------------------------------------------------------

  class TailnetObject {
    const id: int
    const port: nat
    const hostname: string
    const reg: Registry

    var server: Option<Handle>
    var watcher: Option<Handle>
    var socks: Option<Handle>
    var suffix: string
    var terminalError: string
    var peers: seq<Node>
    var loginURL: string
    var state: State
    var selfHostname: string
    var user: UserState

    function View(): Tailnet
      reads this
    {
      Tailnet(id, port, hostname, server, watcher, socks, suffix, terminalError, peers, loginURL,
              state, selfHostname, user)
    }

    constructor (reg: Registry, c: Config)
      ensures this.reg == reg && View() == NewTailnet(c)
    {
      this.reg, id, port, hostname := reg, c.id, c.port, c.hostname;
      server, watcher, socks := None, None, None;
      suffix, terminalError, peers, loginURL, selfHostname := c.suffix, c.terminalError, [], "", "";
      if c.terminalError != "" {
        state, user := HasTerminalErrorState, UserDisabled;
      } else {
        state := StoppedState;
        if c.userEnabled {
          user := UserEnabled;
        } else {
          user := UserDisabled;
        }
      }
    }

    /** Closes one of this tailnet's handles. */
    method CloseHandleOf(x: Handle, succeeds: bool) returns (failed: bool)
      requires reg.Valid()
      modifies reg.os
      ensures reg.Valid() && reg.Objects() == old(reg.Objects())
      ensures failed == !succeeds
      ensures reg.World() == old(reg.World()).(host := CloseHandle(old(reg.World()).host, x, succeeds))
    {
      failed := reg.os.Close(x, succeeds);
    }

    method SetState(s: State)
      requires reg.Valid()
      modifies this`state, reg.bus
      ensures reg.Valid() && reg.Objects() == old(reg.Objects())
      ensures View() == old(View()).(state := s) && reg.World() == Announce(old(reg.World()), id)
    {
      state := s;
      reg.bus.Broadcast(TailnetChange(id));
    }

    method Start(io: StartIO) returns (failed: bool)
      requires reg.Valid()
      modifies this, reg, reg.bus, reg.os
      ensures reg.Valid() && reg.Objects() == old(reg.Objects())
      ensures Ran(View(), reg.World(), failed) == Model.Start(old(View()), old(reg.World()), io)
    {
      if state != StoppedState {
        return true;
      }
      user := UserEnabled;
      reg.OnUserStateChange(id, user, io.user);
      failed := BringUp(io);
    }

    /** Proxy, server, local client, watcher; each failure undoes what it can. */
    method BringUp(io: StartIO) returns (failed: bool)
      requires reg.Valid() && state == StoppedState
      modifies this, reg.bus, reg.os
      ensures reg.Valid() && reg.Objects() == old(reg.Objects())
      ensures Ran(View(), reg.World(), failed) == Model.BringUp(old(View()), old(reg.World()), io)
    {
      var proxy := reg.os.NewProxy(id, port, io.listen);
      if proxy.None? {
        SetState(StoppedState);
        return true;
      }
      var newServer := Handle(id, TsnetServer, proxy.value.serial);
      if !io.serverStart {
        var _ := CloseHandleOf(proxy.value, io.socksClose);
        SetState(StoppedState);
        return true;
      }
      if !io.localClient {
        var _ := CloseHandleOf(proxy.value, io.socksClose);
        failed := CloseHandleOf(newServer, io.serverClose);
        SetState(StoppedState);
        return;
      }
      if !io.watcher {
        return true;
      }
      server := Some(newServer);
      watcher := Some(Handle(id, WatcherLoop, proxy.value.serial));
      socks := proxy;
      SetState(StartedState);
      failed := false;
    }

    method Stop(io: StopIO) returns (failed: bool)
      requires reg.Valid()
      modifies this, reg, reg.bus, reg.os
      ensures reg.Valid() && reg.Objects() == old(reg.Objects())
      ensures Ran(View(), reg.World(), failed) == Model.Stop(old(View()), old(reg.World()), io)
    {
      if !IsRunning(state) {
        return true;
      }
      user := UserDisabled;
      reg.OnUserStateChange(id, user, io.user);
      failed := TakeDown(io);
    }

    method TakeDown(io: StopIO) returns (failed: bool)
      requires reg.Valid()
      modifies this, reg.bus, reg.os
      ensures reg.Valid() && reg.Objects() == old(reg.Objects())
      ensures Ran(View(), reg.World(), failed) == Model.TakeDown(old(View()), old(reg.World()), io)
    {
      failed := CloseAll(io);
      if !failed {
        server, watcher, socks := None, None, None;
      }
      SetState(StoppedState);
    }

    /** Closes what is held, and gives up at the first proxy or server that does not close. */
    method CloseAll(io: StopIO) returns (failed: bool)
      requires reg.Valid()
      modifies reg.os
      ensures reg.Valid() && reg.Objects() == old(reg.Objects())
      ensures reg.World() == old(reg.World()).(host := StopHost(old(reg.World()).host, View(), io))
      ensures failed == ((socks.Some? && !io.socksClose) || (server.Some? && !io.serverClose))
    {
      if socks.Some? {
        failed := CloseHandleOf(socks.value, io.socksClose);
        if failed {
          return;
        }
      }
      if watcher.Some? {
        var _ := CloseHandleOf(watcher.value, true);
      }
      failed := false;
      if server.Some? {
        failed := CloseHandleOf(server.value, io.serverClose);
      }
    }

    /** Logout up to the point where it releases the lock. */
    method LogoutBegin(o: Save) returns (begun: LogoutBegun)
      requires reg.Valid()
      modifies this, reg, reg.bus, reg.os
      ensures reg.Valid() && reg.Objects() == old(reg.Objects())
      ensures var r := Model.LogoutBegin(old(View()), old(reg.World()), o);
              View() == r.0 && reg.World() == r.1 && begun == r.2
    {
      if state == NeedsLoginState {
        return Ended(false);
      }
      if !MayLogout(state) {
        return Ended(true);
      }
      ShowLoggingOut(o);
      EnsureServer();
      begun := InFlight(server.value);
    }

    method ShowLoggingOut(o: Save)
      requires reg.Valid()
      modifies this`user, this`state, reg, reg.bus
      ensures reg.Valid() && reg.Objects() == old(reg.Objects())
      ensures View() == old(View()).(user := UserDisabled, state := LoggingOutState)
      ensures reg.World() == Announce(PersistUser(old(reg.World()), id, false, o), id)
    {
      user := UserDisabled;
      reg.OnUserStateChange(id, user, o);
      SetState(LoggingOutState);
    }

    method EnsureServer()
      requires reg.Valid()
      modifies this`server, reg.os
      ensures reg.Valid() && reg.Objects() == old(reg.Objects())
      ensures var h := old(reg.World()).host;
              if old(server).Some? then server == old(server) && reg.World() == old(reg.World())
              else server == Some(Handle(id, TsnetServer, h.serial))
                   && reg.World() == old(reg.World()).(host := h.(serial := h.serial + 1))
    {
      if server.None? {
        var created := reg.os.NewServer(id);
        server := Some(created);
      }
    }

    /** The deferred end of a Logout. */
    method LogoutEnd()
      requires reg.Valid()
      modifies this`state, reg.bus
      ensures reg.Valid() && reg.Objects() == old(reg.Objects())
      ensures var r := Model.LogoutEnd(old(View()), old(reg.World())); View() == r.0 && reg.World() == r.1
    {
      SetState(StoppedState);
    }

    /** A Logout that nothing interleaves with; `accepted` is what the network calls returned. */
    method Logout(o: Save, accepted: bool) returns (failed: bool)
      requires reg.Valid()
      modifies this, reg, reg.bus, reg.os
      ensures reg.Valid() && reg.Objects() == old(reg.Objects())
      ensures var (t, w, begun) := Model.LogoutBegin(old(View()), old(reg.World()), o);
              if begun.Ended? then View() == t && reg.World() == w && failed == begun.failed
              else View() == Model.LogoutEnd(t, w).0 && reg.World() == Model.LogoutEnd(t, w).1 && failed == !accepted
    {
      var begun := LogoutBegin(o);
      if begun.Ended? {
        return begun.failed;
      }
      LogoutEnd();
      failed := !accepted;
    }

    /** The server that the call goes to, or the refusal. That a connected tailnet has a server is what HandleSafety
        proves of every reachable state. */
    method Dial() returns (via: Option<Handle>)
      requires Invariants.HandlesOk(View(), reg.os.View())
      ensures via.Some? <==> state == ConnectedState
      ensures via.Some? ==> via == server && via.value !in reg.os.closes
    {
      if state != ConnectedState {
        return None;
      }
      via := server;
    }

    method Snapshot() returns (s: Model.Snapshot)
      ensures s == Snap(View())
    {
      var name := hostname;
      if selfHostname != "" {
        name := selfHostname;
      }
      s := Model.Snapshot(id, state, user, suffix, name, loginURL, peers, terminalError);
    }

    // ----- IPN callbacks ---------------------------------------------------------------------------

    method SetTerminalErrorLocked(message: string, io: ReactIO) returns (changed: bool)
      requires reg.Valid()
      modifies this, reg, reg.bus
      ensures reg.Valid() && reg.Objects() == old(reg.Objects())
      ensures Applied(View(), reg.World(), changed) == SetTerminalError(old(View()), old(reg.World()), message, io)
    {
      changed := false;
      if terminalError != message {
        terminalError := message;
        reg.OnTerminalErrorChange(id, message, io.error);
        changed := true;
      }
      if user != UserDisabled {
        user := UserDisabled;
        reg.OnUserStateChange(id, user, io.user);
        changed := true;
      }
      if state != HasTerminalErrorState {
        state := HasTerminalErrorState;
        changed := true;
      }
    }

    method MaybeClaimMagicDNSSuffixLocked(ipn: IPNState, io: ReactIO) returns (changed: bool)
      requires reg.Valid()
      modifies this, reg, reg.bus
      ensures reg.Valid() && reg.Objects() == old(reg.Objects())
      ensures Applied(View(), reg.World(), changed) == ClaimMagicDNSSuffix(old(View()), old(reg.World()), ipn, io)
    {
      if ipn.magicDNSSuffix != "" && suffix != "" && ipn.magicDNSSuffix != suffix {
        return false;
      }
      if ipn.magicDNSSuffix == "" || suffix != "" {
        return false;
      }
      var result := reg.Claim(id, ipn.magicDNSSuffix, io.claim);
      if result == AlreadyClaimed {
        changed := SetTerminalErrorLocked(AlreadyClaimedMessage(ipn.magicDNSSuffix), io);
        return;
      }
      if result != Claimed {
        return false;
      }
      suffix := ipn.magicDNSSuffix;
      changed := true;
    }

    method MaybeUpdateSelfNodeHostnameLocked(ipn: IPNState, ghost w: World, ghost io: ReactIO) returns (changed: bool)
      modifies this`selfHostname
      ensures Applied(View(), w, changed) == Apply(UpdateSelfHostname, old(View()), w, ipn, io)
    {
      if ipn.selfNode.None? {
        return false;
      }
      var name := ipn.selfNode.value.computedName;
      if name == "" || name == selfHostname {
        return false;
      }
      selfHostname := name;
      changed := true;
    }

    method MaybeTransitionToNeedsLoginLocked(ipn: IPNState, ghost w: World, ghost io: ReactIO) returns (changed: bool)
      modifies this`loginURL, this`state
      ensures Applied(View(), w, changed) == Apply(ToNeedsLogin, old(View()), w, ipn, io)
    {
      if ipn.state.None? || ipn.state.value != NeedsLogin {
        return false;
      }
      if ipn.browseToURL.None? || ipn.browseToURL.value == "" {
        return false;
      }
      loginURL := ipn.browseToURL.value;
      state := NeedsLoginState;
      changed := true;
    }

    method MaybeTransitionLocked(ipn: IPNState, reported: BackendState, next: State, ghost w: World, ghost io: ReactIO)
      returns (changed: bool)
      requires (reported == NeedsMachineAuth && next == NeedsMachineAuthState)
               || (reported == BackendState.Running && next == ConnectedState)
      modifies this`state
      ensures Applied(View(), w, changed) ==
                Apply(if next == ConnectedState then ToConnected else ToNeedsMachineAuth, old(View()), w, ipn, io)
    {
      if ipn.state.None? || ipn.state.value != reported {
        return false;
      }
      state := next;
      changed := true;
    }

    /** Calls the operation that a processor was given. */
    method Run(op: Op, ipn: IPNState, io: ReactIO) returns (changed: bool)
      requires reg.Valid()
      modifies this, reg, reg.bus
      ensures reg.Valid() && reg.Objects() == old(reg.Objects())
      ensures Applied(View(), reg.World(), changed) == Apply(op, old(View()), old(reg.World()), ipn, io)
    {
      ghost var w := reg.World();
      match op
      case ClaimSuffix => changed := MaybeClaimMagicDNSSuffixLocked(ipn, io);
      case UpdatePeers => peers := ipn.peers; changed := true;
      case UpdateSelfHostname => changed := MaybeUpdateSelfNodeHostnameLocked(ipn, w, io);
      case ToNeedsLogin => changed := MaybeTransitionToNeedsLoginLocked(ipn, w, io);
      case ToNeedsMachineAuth =>
        changed := MaybeTransitionLocked(ipn, NeedsMachineAuth, NeedsMachineAuthState, w, io);
      case ToConnected =>
        changed := MaybeTransitionLocked(ipn, BackendState.Running, ConnectedState, w, io);
    }

    /** The locked part of a callback. */
    method ReactLocked(ipn: IPNState, io: ReactIO) returns (changed: bool, cleanup: Cleanup)
      requires reg.Valid()
      modifies this, reg, reg.bus
      ensures reg.Valid() && reg.Objects() == old(reg.Objects())
      ensures Reaction(View(), reg.World(), changed, cleanup) == React(old(View()), old(reg.World()), ipn, io)
    {
      changed := ProcessIPN(ipn, io);
      cleanup := Cleanup(None, None, None);
      if state == HasTerminalErrorState {
        cleanup := PrepareTerminalErrorCleanupLocked();
      }
    }

    /** The operations that the state asks for, on the notification's state. */
    method ProcessIPN(ipn: IPNState, io: ReactIO) returns (changed: bool)
      requires reg.Valid()
      modifies this, reg, reg.bus
      ensures reg.Valid() && reg.Objects() == old(reg.Objects())
      ensures Applied(View(), reg.World(), changed) ==
              if IsRunning(old(state)) then
                Model.Process(AlwaysOps(old(state)), OneOfOps(old(state)), old(View()), old(reg.World()), ipn, io)
              else Applied(old(View()), old(reg.World()), false)
    {
      var p := new IpnProcessor(ipn);
      var running := Plan(p);
      if running {
        changed := p.Process(this, io);
      } else {
        changed := false;
      }
    }

    /** The operations of each state; the other states ignore the backend. */
    method Plan(p: IpnProcessor) returns (running: bool)
      requires p.always == [] && p.oneOf == []
      modifies p
      ensures running == IsRunning(state)
      ensures running ==> p.always == AlwaysOps(state) && p.oneOf == OneOfOps(state)
    {
      running := true;
      match state {
        case ConnectedState =>
          p.AddAlways([ClaimSuffix, UpdatePeers, UpdateSelfHostname]);
          p.AddOneOf([ToNeedsLogin, ToNeedsMachineAuth]);
        case StartedState =>
          p.AddAlways([UpdateSelfHostname]);
          p.AddOneOf([ToNeedsLogin, ToNeedsMachineAuth, ToConnected]);
        case NeedsLoginState =>
          p.AddAlways([UpdateSelfHostname]);
          p.AddOneOf([ToNeedsMachineAuth, ToConnected]);
        case NeedsMachineAuthState =>
          p.AddAlways([ClaimSuffix, UpdateSelfHostname]);
          p.AddOneOf([ToNeedsLogin, ToConnected]);
        case _ =>
          running := false;
      }
    }

    /** Moves the handles out, to be closed after the lock is released. */
    method PrepareTerminalErrorCleanupLocked() returns (cleanup: Cleanup)
      modifies this`server, this`watcher, this`socks
      ensures cleanup == Cleanup(old(server), old(watcher), old(socks))
      ensures View() == old(View()).(server := None, watcher := None, socks := None)
    {
      cleanup := Cleanup(server, watcher, socks);
      server, watcher, socks := None, None, None;
    }

    /** What runs after the lock is released: the cleanup, then the announcement. */
    method Finish(changed: bool, c: Cleanup, io: CleanupIO)
      requires reg.Valid()
      modifies reg.bus, reg.os
      ensures reg.Valid() && reg.Objects() == old(reg.Objects())
      ensures reg.World() == FinishReact(old(reg.World()), id, changed, c, io)
    {
      CloseCleanup(c, io);
      if changed {
        reg.bus.Broadcast(TailnetChange(id));
      }
    }

    method CloseCleanup(c: Cleanup, io: CleanupIO)
      requires reg.Valid()
      modifies reg.os
      ensures reg.Valid() && reg.Objects() == old(reg.Objects())
      ensures var h1 := CloseIfAny(old(reg.World()).host, c.socks, io.socksClose);
              reg.World() == old(reg.World()).(host :=
                CloseIfAny(CloseIfAny(h1, c.watcher, true), c.server, io.serverClose))
    {
      if c.socks.Some? {
        var _ := CloseHandleOf(c.socks.value, io.socksClose);
      }
      if c.watcher.Some? {
        var _ := CloseHandleOf(c.watcher.value, true);
      }
      if c.server.Some? {
        var _ := CloseHandleOf(c.server.value, io.serverClose);
      }
    }

    /** A callback that nothing interleaves with. */
    method ReactToIPNStateChange(ipn: IPNState, io: ReactIO, cio: CleanupIO)
      requires reg.Valid()
      modifies this, reg, reg.bus, reg.os
      ensures reg.Valid() && reg.Objects() == old(reg.Objects())
      ensures var r := React(old(View()), old(reg.World()), ipn, io);
              View() == r.t && reg.World() == FinishReact(r.w, id, r.changed, r.cleanup, cio)
    {
      var changed, cleanup := ReactLocked(ipn, io);
      Finish(changed, cleanup, cio);
    }
  }

  // ----- Processor ---------------------------------------------------------------------------------

  /** internal/ts/processor.go. The operations are named by Op instead of being function values. */
  class IpnProcessor {
    const ipn: IPNState
    var always: seq<Op>
    var oneOf: seq<Op>

    constructor (ipn: IPNState)
      ensures this.ipn == ipn && always == [] && oneOf == []
    {
      this.ipn, always, oneOf := ipn, [], [];
    }

    method AddAlways(ops: seq<Op>)
      modifies this`always
      ensures always == old(always) + ops
    {
      always := always + ops;
    }

    method AddOneOf(ops: seq<Op>)
      modifies this`oneOf
      ensures oneOf == old(oneOf) + ops
    {
      oneOf := oneOf + ops;
    }

    /** All Always operations run; then OneOf operations run up to the first that reports a change. */
    method Process(t: TailnetObject, io: ReactIO) returns (changed: bool)
      requires t.reg.Valid()
      modifies t, t.reg, t.reg.bus
      ensures t.reg.Valid() && t.reg.Objects() == old(t.reg.Objects())
      ensures Applied(t.View(), t.reg.World(), changed) ==
              Model.Process(always, oneOf, old(t.View()), old(t.reg.World()), ipn, io)
    {
      changed := RunAlways(t, io);
      var b := RunOneOf(t, io);
      changed := changed || b;
    }

    method RunAlways(t: TailnetObject, io: ReactIO) returns (changed: bool)
      requires t.reg.Valid()
      modifies t, t.reg, t.reg.bus
      ensures t.reg.Valid() && t.reg.Objects() == old(t.reg.Objects())
      ensures Applied(t.View(), t.reg.World(), changed) == Always(always, old(t.View()), old(t.reg.World()), ipn, io)
    {
      ghost var t0, w0 := t.View(), t.reg.World();
      changed := false;
      var i := 0;
      while i < |always|
        invariant 0 <= i <= |always|
        invariant t.reg.Valid() && t.reg.Objects() == old(t.reg.Objects())
        invariant Applied(t.View(), t.reg.World(), changed) == Always(always[..i], t0, w0, ipn, io)
      {
        assert always[..i + 1][..i] == always[..i];
        var b := t.Run(always[i], ipn, io);
        changed := b || changed;
        i := i + 1;
      }
      assert always[..|always|] == always;
    }

    method RunOneOf(t: TailnetObject, io: ReactIO) returns (changed: bool)
      requires t.reg.Valid()
      modifies t, t.reg, t.reg.bus
      ensures t.reg.Valid() && t.reg.Objects() == old(t.reg.Objects())
      ensures Applied(t.View(), t.reg.World(), changed) == OneOf(oneOf, old(t.View()), old(t.reg.World()), ipn, io)
    {
      ghost var t0, w0 := t.View(), t.reg.World();
      changed := false;
      var i := 0;
      while i < |oneOf|
        invariant 0 <= i <= |oneOf|
        invariant !changed
        invariant t.reg.Valid() && t.reg.Objects() == old(t.reg.Objects())
        invariant OneOf(oneOf, t0, w0, ipn, io) == OneOf(oneOf[i..], t.View(), t.reg.World(), ipn, io)
      {
        var b := t.Run(oneOf[i], ipn, io);
        assert oneOf[i..][0] == oneOf[i] && oneOf[i..][1..] == oneOf[i + 1..];
        if b {
          changed := true;
          break;
        }
        i := i + 1;
      }
    }
  }
}
