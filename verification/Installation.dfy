/** The run model carried out on the classes: every step of every run is one call of a method of the program, and
    leaves the objects as the model says. */
module Installation {
  import opened Model
  import opened System
  import opened Storage
  import Ipn
  import opened Sse
  import opened Service
  import Handlers

  /** A process: its registry, all tailnet objects it has made (deleted ones included), and the calls in flight. */
  class Process {
    var reg: Registry
    var objs: map<int, TailnetObject>
    var logouts: multiset<int>
    var pending: seq<Pending>
    var adders: nat
    ghost var repr: set<object>

    ghost predicate Valid()
      reads `reg, `objs, `pending, `repr, reg, reg.bus
    {
      && this in repr && reg in repr && reg.bus in repr && reg.os in repr
      && reg.Valid()
      && (forall id :: id in objs ==> objs[id].id == id && objs[id].reg == reg && objs[id] in repr)
      && (forall id :: id in reg.Objects() ==> id in objs && objs[id] == reg.Objects()[id])
      && Known(pending, objs.Keys)
    }

    ghost function Tailnets(): set<TailnetObject>
      reads `objs
    {
      set id | id in objs :: objs[id]
    }

    ghost function Views(): map<int, Tailnet>
      reads `objs, Tailnets()
    {
      map id | id in objs :: objs[id].View()
    }

    /** The process as the run model sees it. */
    ghost function Whole(): Sys
      reads this, reg, reg.bus, reg.os, Tailnets()
    {
      Sys(Views(), reg.World(), logouts, pending, adders)
    }

    /** A process that has just opened its registry. */
    constructor (r: Registry, ghost s: Sys, ghost made: set<object>)
      requires r.Valid() && r.Whole() == s
      requires r in made && r.bus in made && r.os in made && r.Registered() <= made
      ensures Valid() && Whole() == s && repr == {this} + made
    {
      reg, objs := r, r.AllObjects();
      logouts, pending, adders := multiset{}, [], 0;
      repr := {this} + made;
      new;
      SameViews(r);
    }

    lemma SameViews(r: Registry)
      requires objs == r.Objects()
      ensures Views() == r.Views() && Tailnets() == r.Registered()
    {
      forall id | id in objs ensures objs[id] in r.Registered() {
        assert r.tailnets[id].tailnet == objs[id];
      }
      forall t | t in r.Registered() ensures t in Tailnets() {
        var id :| id in r.tailnets && r.tailnets[id].tailnet == t;
        assert objs[id] == t;
      }
    }

    /** A section on one tailnet changes the value of no other. */
    twostate lemma OneChanged(t: TailnetObject)
      requires old(Valid()) && t.id in old(objs) && old(objs)[t.id] == t
      requires objs == old(objs)
      requires forall id :: id in objs && id != t.id ==> unchanged(objs[id])
      ensures Views() == old(Views())[t.id := t.View()]
    {
      forall id | id in objs && id != t.id ensures objs[id].View() == old(objs[id].View()) {
      }
    }

    /** A section on the registry or the host changes the value of none. */
    twostate lemma NoneChanged()
      requires old(Valid()) && objs == old(objs)
      requires forall id :: id in objs ==> unchanged(objs[id])
      ensures Views() == old(Views())
    {
      forall id | id in objs ensures objs[id].View() == old(objs[id].View()) {
      }
    }

    /** Which calls are in flight. */
    method InFlight(logouts: multiset<int>, pending: seq<Pending>, adders: nat)
      requires Valid() && Known(pending, objs.Keys)
      modifies `logouts, `pending, `adders
      ensures Valid()
      ensures Whole() == old(Whole()).(logouts := logouts, pending := pending, adders := adders)
    {
      this.logouts, this.pending, this.adders := logouts, pending, adders;
    }

    /** The check of an add request. */
    method CheckAdd()
      requires Valid()
      modifies this`adders
      ensures Valid() && Whole() == Step(old(Whole()), AddCheck)
    {
      var waiting := reg.HasUnconfiguredTailnets();
      if !waiting {
        adders := adders + 1;
      }
    }

    /** The rest of one. */
    method CommitAdd(wanted: string, io: AddIO)
      requires Valid() && adders > 0
      modifies repr
      ensures Valid() && fresh(repr - old(repr))
      ensures Whole() == AfterCommit(old(Whole()), wanted, io)
    {
      RunAdd(wanted, io);
      InFlight(logouts, pending, adders - 1);
    }

    method RunAdd(wanted: string, io: AddIO)
      requires Valid()
      modifies `objs, `repr, reg, reg.bus
      ensures Valid() && fresh(repr - old(repr))
      ensures var (w, id) := Add(old(reg.World()), wanted, io);
              && reg.World() == w
              && Views() == if id.Some? then old(Views())[id.value := NewTailnet(w.configs[id.value])] else old(Views())
    {
      var t := reg.Add(wanted, io);
      NoneChanged();
      if t != null {
        Adopt(t);
      }
    }

    /** A tailnet object that the registry has just made. */
    method Adopt(t: TailnetObject)
      requires reg.Valid() && t.reg == reg && t.id in reg.Objects() && reg.Objects()[t.id] == t
      requires this in repr && reg in repr && reg.bus in repr && reg.os in repr
      requires forall id :: id in objs ==> objs[id].id == id && objs[id].reg == reg && objs[id] in repr
      requires forall id :: id in reg.Objects() && id != t.id ==> id in objs && objs[id] == reg.Objects()[id]
      requires Known(pending, objs.Keys)
      modifies `objs, `repr
      ensures Valid() && repr == old(repr) + {t} && Views() == old(Views())[t.id := t.View()]
    {
      objs, repr := objs[t.id := t], repr + {t};
      assert Views() == old(Views())[t.id := t.View()];
    }

    method Start(id: int, io: StartIO)
      requires Valid() && id in objs
      modifies repr
      ensures Valid() && repr == old(repr)
      ensures Whole() == AfterSection(old(Whole()), id, Model.Start(old(Whole()).objs[id], old(Whole()).w, io))
    {
      var _ := objs[id].Start(io);
      OneChanged(objs[id]);
    }

    method Stop(id: int, io: StopIO)
      requires Valid() && id in objs
      modifies repr
      ensures Valid() && repr == old(repr)
      ensures Whole() == AfterSection(old(Whole()), id, Model.Stop(old(Whole()).objs[id], old(Whole()).w, io))
    {
      var _ := objs[id].Stop(io);
      OneChanged(objs[id]);
    }

    method BeginLogout(id: int, o: Save)
      requires Valid() && id in objs
      modifies repr
      ensures Valid() && repr == old(repr)
      ensures Whole() == AfterLogoutBegin(old(Whole()), id, o)
    {
      var begun := RunLogoutBegin(id, o);
      InFlight(if begun.InFlight? then logouts + multiset{id} else logouts, pending, adders);
    }

    method RunLogoutBegin(id: int, o: Save) returns (begun: LogoutBegun)
      requires Valid() && id in objs
      modifies objs[id], reg, reg.bus, reg.os
      ensures Valid()
      ensures var r := LogoutBegin(old(Views())[id], old(reg.World()), o);
              Views() == old(Views())[id := r.0] && reg.World() == r.1 && begun == r.2
    {
      begun := objs[id].LogoutBegin(o);
      OneChanged(objs[id]);
    }

    method EndLogout(id: int)
      requires Valid() && id in objs && logouts[id] > 0
      modifies repr
      ensures Valid() && repr == old(repr)
      ensures Whole() == AfterLogoutEnd(old(Whole()), id)
    {
      RunLogoutEnd(id);
      InFlight(logouts - multiset{id}, pending, adders);
    }

    method RunLogoutEnd(id: int)
      requires Valid() && id in objs
      modifies objs[id], reg, reg.bus, reg.os
      ensures Valid()
      ensures var r := LogoutEnd(old(Views())[id], old(reg.World()));
              Views() == old(Views())[id := r.0] && reg.World() == r.1
    {
      objs[id].LogoutEnd();
      OneChanged(objs[id]);
    }

    /** The locked part of a callback; its rest is pending. */
    method React(id: int, ipn: Ipn.IPNState, io: ReactIO)
      requires Valid() && id in objs
      modifies repr
      ensures Valid() && repr == old(repr)
      ensures Whole() == AfterCallback(old(Whole()), id, ipn, io)
    {
      var changed, cleanup := RunReact(id, ipn, io);
      InFlight(logouts, pending + [Pending(id, changed, cleanup)], adders);
    }

    method RunReact(id: int, ipn: Ipn.IPNState, io: ReactIO) returns (changed: bool, cleanup: Cleanup)
      requires Valid() && id in objs
      modifies objs[id], reg, reg.bus, reg.os
      ensures Valid()
      ensures var r := Model.React(old(Views())[id], old(reg.World()), ipn, io);
              && Views() == old(Views())[id := r.t] && reg.World() == r.w
              && changed == r.changed && cleanup == r.cleanup
    {
      changed, cleanup := objs[id].ReactLocked(ipn, io);
      OneChanged(objs[id]);
    }

    /** The rest of a callback: cleanup and broadcast. */
    method Finish(k: nat, io: CleanupIO)
      requires Valid() && k < |pending|
      modifies repr
      ensures Valid() && repr == old(repr)
      ensures Whole() == AfterFinish(old(Whole()), k, io)
    {
      KnownWithout(pending, objs.Keys, k);
      RunFinish(pending[k], io);
      InFlight(logouts, pending[..k] + pending[k + 1..], adders);
    }

    method RunFinish(p: Pending, io: CleanupIO)
      requires Valid() && p.id in objs
      modifies reg, reg.bus, reg.os
      ensures Valid() && Views() == old(Views())
      ensures reg.World() == FinishReact(old(reg.World()), p.id, p.changed, p.cleanup, io)
    {
      objs[p.id].Finish(p.changed, p.cleanup, io);
      NoneChanged();
    }

    /** The object stays with the calls that hold it. */
    method Delete(id: int, o: Save)
      requires Valid()
      modifies repr
      ensures Valid() && repr == old(repr)
      ensures Whole() == old(Whole()).(w := Model.Delete(old(Whole()).w, id, o).0)
    {
      var _ := reg.Delete(id, o);
      NoneChanged();
    }

    /** One step of the run model: the call it stands for, or nothing when there is no such call to make. */
    method Perform(a: Action)
      requires Valid() && !a.Restart?
      modifies repr
      ensures Valid() && fresh(repr - old(repr))
      ensures Whole() == Step(old(Whole()), a)
    {
      match a {
        case AddCheck => CheckAdd();
        case AddCommit(wanted, io) => if adders > 0 { CommitAdd(wanted, io); }
        case DoFinish(k, io) => if k < |pending| { Finish(k, io); }
        case DoDelete(id, o) => Delete(id, o);
        case DoStart(_, _) => PerformOn(a);
        case DoStop(_, _) => PerformOn(a);
        case DoLogoutBegin(_, _) => PerformOn(a);
        case DoLogoutEnd(_) => PerformOn(a);
        case DoCallback(_, _, _) => PerformOn(a);
      }
    }

    /** The steps of one tailnet. */
    method PerformOn(a: Action)
      requires Valid() && (a.DoStart? || a.DoStop? || a.DoLogoutBegin? || a.DoLogoutEnd? || a.DoCallback?)
      modifies repr
      ensures Valid() && repr == old(repr)
      ensures Whole() == Step(old(Whole()), a)
    {
      if a.id in objs {
        match a {
          case DoStart(id, io) => Start(id, io);
          case DoStop(id, io) => Stop(id, io);
          case DoLogoutBegin(id, o) => BeginLogout(id, o);
          case DoLogoutEnd(id) => if logouts[id] > 0 { EndLogout(id); }
          case DoCallback(id, ipn, io) => React(id, ipn, io);
        }
      }
    }
  }

  /** Every run of the run model is a run of the program: from a new installation on, crashes and restarts included,
      calling the methods in the order of the run leaves the objects, the file, the host and the broadcasts exactly as
      the model says. So what is proved of all runs holds of these objects. */
  method Play(acts: seq<Action>) returns (p: Process)
    ensures p.Valid() && fresh(p.repr) && p.Whole() == Exec(INIT, acts)
  {
    if acts == [] {
      p := NewProcess(NoFile);
    } else {
      var before, last := acts[..|acts| - 1], acts[|acts| - 1];
      p := Play(before);
      p := Next(p, last);
      ExecLast(before, last);
      assert acts == before + [last];
    }
  }

  /** One more step: a call in the same process, or a new process from the file that this one leaves. */
  method Next(p: Process, a: Action) returns (q: Process)
    requires p.Valid()
    modifies p.repr
    ensures q.Valid() && fresh(q.repr - old(p.repr))
    ensures q.Whole() == Step(old(p.Whole()), a)
  {
    q := p;
    if !a.Restart? {
      p.Perform(a);
    } else if !p.reg.file.Broken? {
      q := NewProcess(p.reg.file);
    }
  }

  /** A process starts from the file that the one before it has left. */
  method NewProcess(file: File) returns (p: Process)
    requires !file.Broken?
    ensures p.Valid() && fresh(p.repr) && p.Whole() == BootFrom(Contents(file), NEWHOST, [])
  {
    ghost var made;
    var r;
    r, made := Handlers.OpenRegistry(file);
    p := new Process(r, r.Whole(), made);
  }

  lemma ExecLast(before: seq<Action>, last: Action)
    ensures Exec(INIT, before + [last]) == Step(Exec(INIT, before), last)
  {
    ExecAppend(INIT, before, [last]);
    ExecCons(Exec(INIT, before), last, []);
    assert [last] + [] == [last];
  }

  /** The callbacks in flight are of tailnets that exist. */
  predicate Known(ps: seq<Pending>, ids: set<int>) {
    forall k :: 0 <= k < |ps| ==> ps[k].id in ids
  }

  lemma KnownWithout(ps: seq<Pending>, ids: set<int>, k: nat)
    requires Known(ps, ids) && k < |ps|
    ensures ps[k].id in ids && Known(ps[..k] + ps[k + 1..], ids)
  {
  }
}
