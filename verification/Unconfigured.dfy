/** Adding tailnets: at most one of them is waiting for its suffix. */
module Unconfigured {
  import opened Wrappers
  import opened Ipn
  import opened Model
  import opened System
  import opened Runs
  import opened Convergence

  ghost predicate AtMostOne(m: map<int, Config>) {
    forall i, j :: i in m && j in m && m[i].suffix == "" && m[j].suffix == "" ==> i == j
  }

  /** No add request starts while another one is between its check and its add. */
  ghost predicate AddsApart(s: Sys, acts: seq<Action>)
    decreases |acts|
  {
    acts != [] ==>
      && (acts[0].AddCheck? ==> s.adders == 0)
      && AddsApart(Step(s, acts[0]), acts[1..])
  }

  ghost predicate AddInv(s: Sys) {
    && s.adders <= 1
    && AtMostOne(s.w.configs)
    && (s.adders == 1 ==> !HasUnconfigured(s.w.configs))
    && (s.w.disk.Stored? ==> AtMostOne(s.w.disk.configs))
  }

  /** No config in `n` is unconfigured unless it was in `m`. */
  ghost predicate NoneLost(m: map<int, Config>, n: map<int, Config>) {
    forall id :: id in n && n[id].suffix == "" ==> id in m && m[id].suffix == ""
  }

  /** The registry and every version of the file it may have written. */
  ghost predicate Settles(w: World, v: World) {
    && NoneLost(w.configs, v.configs)
    && (v.disk.Stored? ==> v.disk == w.disk || NoneLost(w.configs, v.disk.configs))
  }

  lemma PersistSettles(w: World, id: int, enabled: bool, message: string, o: Save)
    ensures Settles(w, PersistUser(w, id, enabled, o)) && Settles(w, PersistError(w, id, message, o))
  {
  }

  lemma ClaimSettles(w: World, id: int, suffix: string, o: Save)
    requires suffix != ""
    ensures Settles(w, Claim(w, id, suffix, o).0)
  {
  }

  lemma SettlesChains(w: World, u: World, v: World)
    requires Settles(w, u) && Settles(u, v)
    ensures Settles(w, v)
  {
  }

  lemma OpSettles(op: Op, t: Tailnet, w: World, ipn: IPNState, io: ReactIO)
    ensures Settles(w, Apply(op, t, w, ipn, io).w)
  {
    if op == ClaimSuffix && ipn.magicDNSSuffix != "" && t.suffix == "" {
      ClaimSettles(w, t.id, ipn.magicDNSSuffix, io.claim);
      if Claim(w, t.id, ipn.magicDNSSuffix, io.claim).1 == AlreadyClaimed {
        var message := AlreadyClaimedMessage(ipn.magicDNSSuffix);
        var u := if t.terminalError != message then PersistError(w, t.id, message, io.error) else w;
        PersistSettles(w, t.id, false, message, io.error);
        PersistSettles(u, t.id, false, message, io.user);
        SettlesChains(w, u, PersistUser(u, t.id, false, io.user));
      }
    }
  }

  lemma {:induction false} OpsSettle(ops: seq<Op>, t: Tailnet, w: World, ipn: IPNState, io: ReactIO)
    ensures Settles(w, Always(ops, t, w, ipn, io).w) && Settles(w, OneOf(ops, t, w, ipn, io).w)
    decreases |ops|
  {
    if ops != [] {
      var a := Always(ops[..|ops| - 1], t, w, ipn, io);
      OpsSettle(ops[..|ops| - 1], t, w, ipn, io);
      OpSettles(ops[|ops| - 1], a.t, a.w, ipn, io);
      SettlesChains(w, a.w, Apply(ops[|ops| - 1], a.t, a.w, ipn, io).w);
      var b := Apply(ops[0], t, w, ipn, io);
      OpSettles(ops[0], t, w, ipn, io);
      OpsSettle(ops[1..], b.t, b.w, ipn, io);
      SettlesChains(w, b.w, OneOf(ops[1..], b.t, b.w, ipn, io).w);
    }
  }

  lemma CallbackSettles(t: Tailnet, w: World, ipn: IPNState, io: ReactIO)
    ensures Settles(w, React(t, w, ipn, io).w)
  {
    var a := Always(AlwaysOps(t.state), t, w, ipn, io);
    OpsSettle(AlwaysOps(t.state), t, w, ipn, io);
    OpsSettle(OneOfOps(t.state), a.t, a.w, ipn, io);
    SettlesChains(w, a.w, OneOf(OneOfOps(t.state), a.t, a.w, ipn, io).w);
  }

  lemma StartSettles(t: Tailnet, w: World, io: StartIO)
    ensures Settles(w, Start(t, w, io).w)
  {
    PersistSettles(w, t.id, true, "", io.user);
  }

  lemma StopSettles(t: Tailnet, w: World, io: StopIO)
    ensures Settles(w, Stop(t, w, io).w)
  {
    PersistSettles(w, t.id, false, "", io.user);
  }

  lemma LogoutSettles(t: Tailnet, w: World, o: Save)
    ensures Settles(w, LogoutBegin(t, w, o).1)
  {
    PersistSettles(w, t.id, false, "", o);
  }

  lemma StepSettles(s: Sys, a: Action)
    requires Inv(s) && Enabled(s, a) && !a.AddCommit? && !a.Restart?
    ensures Settles(s.w, Step(s, a).w)
  {
    match a
    case AddCheck =>
    case DoStart(id, io) => StartSettles(s.objs[id], s.w, io);
    case DoStop(id, io) => StopSettles(s.objs[id], s.w, io);
    case DoLogoutBegin(id, o) => LogoutSettles(s.objs[id], s.w, o);
    case DoLogoutEnd(id) =>
    case DoCallback(id, ipn, io) => CallbackSettles(s.objs[id], s.w, ipn, io);
    case DoFinish(k, io) =>
    case DoDelete(id, o) =>
  }

  lemma CommitStep(s: Sys, a: Action)
    requires Inv(s) && AddInv(s) && a.AddCommit? && Enabled(s, a)
    ensures AddInv(Step(s, a))
  {
    AddWorld(s.w, a.wanted, a.addIO);
  }

  lemma AddStep(s: Sys, a: Action)
    requires Inv(s) && AddInv(s) && (a.AddCheck? ==> s.adders == 0)
    ensures AddInv(Step(s, a))
  {
    if Enabled(s, a) {
      if a.AddCommit? {
        CommitStep(s, a);
      } else if !a.Restart? {
        StepSettles(s, a);
      }
    }
  }

  lemma {:induction false} AddRun(s: Sys, acts: seq<Action>)
    requires Inv(s) && AddInv(s) && AddsApart(s, acts)
    ensures AddInv(Exec(s, acts))
    decreases |acts|
  {
    if acts != [] {
      StepKeeps(s, acts[0]);
      AddStep(s, acts[0]);
      AddRun(Step(s, acts[0]), acts[1..]);
    }
  }

  /** As long as add requests do not overlap, at most one registered tailnet waits for its suffix, across failing
      saves and restarts; so none is left when a waiting one claims its suffix, as the registry announces then. */
  lemma OneUnconfigured(acts: seq<Action>, id: int, suffix: string, o: Save)
    requires AddsApart(INIT, acts)
    ensures var w := Exec(INIT, acts).w;
            && AtMostOne(w.configs)
            && (suffix != "" && id in w.configs && w.configs[id].suffix == ""
                && Claim(w, id, suffix, o).1 == Claimed ==>
                  !HasUnconfigured(Claim(w, id, suffix, o).0.configs))
  {
    Reachable([]);
    AddRun(INIT, acts);
  }

  /** When a successful claim leaves no tailnet waiting, whatever the requests before it did. */
  lemma ClaimLeavesNone(w: World, id: int, suffix: string, o: Save)
    requires suffix != "" && Claim(w, id, suffix, o).1 == Claimed
    ensures !HasUnconfigured(Claim(w, id, suffix, o).0.configs) <==>
            forall j :: j in w.configs && j != id ==> w.configs[j].suffix != ""
  {
    var m := Claim(w, id, suffix, o).0.configs;
    assert m == w.configs[id := w.configs[id].(suffix := suffix)];
    forall j | j in w.configs && j != id && w.configs[j].suffix == "" ensures HasUnconfigured(m) {
      assert j in m && m[j].suffix == "";
    }
  }

  /** The registry announces after every successful claim that no tailnet waits for its suffix. As long as add requests
      do not overlap, that is so if and only if the claimant waited itself, or none did before. */
  lemma ClaimLeavesNoneExactly(acts: seq<Action>, id: int, suffix: string, o: Save)
    requires AddsApart(INIT, acts) && suffix != "" && Claim(Exec(INIT, acts).w, id, suffix, o).1 == Claimed
    ensures var w := Exec(INIT, acts).w;
            && id in w.configs
            && (!HasUnconfigured(Claim(w, id, suffix, o).0.configs) <==>
                  w.configs[id].suffix == "" || !HasUnconfigured(w.configs))
  {
    Reachable([]);
    AddRun(INIT, acts);
    var w := Exec(INIT, acts).w;
    ClaimLeavesNone(w, id, suffix, o);
    if w.configs[id].suffix != "" && HasUnconfigured(w.configs) {
      var j :| j in w.configs && w.configs[j].suffix == "";
      assert j != id;
    }
  }

  /** What an add does to the promise, exactly: it keeps it if and only if the add fails or nothing was waiting at the
      moment of the add. The handler's check says so only about an earlier moment. */
  lemma AddKeepsItExactly(s: Sys, wanted: string, io: AddIO)
    requires Inv(s) && Enabled(s, AddCommit(wanted, io)) && AtMostOne(s.w.configs)
    ensures AtMostOne(Step(s, AddCommit(wanted, io)).w.configs) <==>
            Add(s.w, wanted, io).1.None? || !HasUnconfigured(s.w.configs)
  {
    AddWorld(s.w, wanted, io);
    var m, id := Step(s, AddCommit(wanted, io)).w.configs, s.w.nextID;
    if Add(s.w, wanted, io).1.Some? {
      assert id in m && m[id].suffix == "" && id !in s.w.configs;
      forall j | j in s.w.configs && s.w.configs[j].suffix == "" ensures j in m && m[j].suffix == "" && j != id {
      }
      assert HasUnconfigured(s.w.configs) ==> exists j :: j in s.w.configs && s.w.configs[j].suffix == "";
    }
  }

  /** Two overlapping add requests both pass the check, and two tailnets wait for their suffix. */
  lemma OverlappingAddsBreakIt(p: nat, q: nat)
    ensures var add1, add2 := AddCommit("", AddIO(None, Some(p), Saved)), AddCommit("", AddIO(None, Some(q), Saved));
            !AtMostOne(Exec(INIT, [AddCheck, AddCheck, add1, add2]).w.configs)
  {
    var add1, add2 := AddCommit("", AddIO(None, Some(p), Saved)), AddCommit("", AddIO(None, Some(q), Saved));
    var s1 := Step(INIT, AddCheck);
    var s2 := Step(s1, AddCheck);
    var s3 := Step(s2, add1);
    var s4 := Step(s3, add2);
    ExecCons(INIT, AddCheck, [AddCheck, add1, add2]);
    ExecCons(s1, AddCheck, [add1, add2]);
    ExecCons(s2, add1, [add2]);
    ExecCons(s3, add2, []);
    assert [AddCheck, AddCheck, add1, add2] == [AddCheck] + ([AddCheck] + ([add1] + ([add2] + [])));
    assert s4.w.configs == map[1 := FreshConfig(1, Hostname("", None), p), 2 := FreshConfig(2, Hostname("", None), q)];
    assert 1 in s4.w.configs && 2 in s4.w.configs && s4.w.configs[1].suffix == "" == s4.w.configs[2].suffix;
  }

  // ----- A claim that leaves a tailnet waiting ------------------------------------------------------

  lemma ApartAppend(s: Sys, xs: seq<Action>, ys: seq<Action>)
    requires AddsApart(s, xs) && AddsApart(Exec(s, xs), ys)
    ensures AddsApart(s, xs + ys)
    decreases |xs|
  {
    if xs == [] {
      assert xs + ys == ys;
    } else {
      assert (xs + ys)[1..] == xs[1..] + ys;
      ApartAppend(Step(s, xs[0]), xs[1..], ys);
    }
  }

  function SecondAdd(port: nat): Action {
    AddCommit("", AddIO(None, Some(port), Saved))
  }

  /** Two callbacks of the only tailnet: it connects, and then fails to save its claim. */
  lemma FailsToSave(s: Sys, ipn1: IPNState, io1: ReactIO, ipn2: IPNState, io2: ReactIO)
    requires Waits(s, StartedState, "") && CarriesRunning(ipn1) && CarriesRunning(ipn2) && io2.claim == Untouched
    ensures var s1 := Step(s, DoCallback(1, ipn1, io1));
            Waits(Step(s1, DoCallback(1, ipn2, io2)), ConnectedState, ipn2.magicDNSSuffix)
  {
    var s1 := Step(s, DoCallback(1, ipn1, io1));
    CallbackTable(s.objs[1], s.w, ipn1, io1);
    assert Waits(s1, ConnectedState, "");
    CallbackTable(s1.objs[1], s1.w, ipn2, io2);
  }

  /** Tailnet 1 is connected without a suffix of its own and tailnet 2 is new. */
  predicate WaitsBesideNew(s: Sys, claimed: string) {
    && s.w.configs.Keys == {1, 2} && 1 in s.objs && s.objs[1].id == 1 && s.objs[1].state == ConnectedState
    && s.objs[1].suffix == "" && s.w.configs[1].suffix == claimed && s.w.configs[2].suffix == ""
  }

  lemma AddsSecond(s: Sys, claimed: string, port: nat)
    requires Waits(s, ConnectedState, claimed) && claimed != ""
    ensures WaitsBesideNew(Step(Step(s, AddCheck), SecondAdd(port)), claimed)
  {
    var s1 := Step(s, AddCheck);
    assert !HasUnconfigured(s.w.configs);
    assert s1.adders == 1 && s1.w == s.w;
    assert Step(s1, SecondAdd(port)).w.configs == s.w.configs[2 := FreshConfig(2, Hostname("", None), port)];
  }

  /** A successful claim of tailnet 1 under another suffix, beside a new tailnet that still waits. */
  lemma ClaimsAnother(s: Sys, claimed: string, ipn: IPNState, io: ReactIO)
    requires WaitsBesideNew(s, claimed) && CarriesRunning(ipn) && ipn.magicDNSSuffix != claimed && io.claim == Saved
    ensures Claim(s.w, 1, ipn.magicDNSSuffix, Saved).1 == Claimed
    ensures var s' := Step(s, DoCallback(1, ipn, io));
            && 1 in s'.objs && s'.objs[1].suffix == ipn.magicDNSSuffix
            && s'.w == Claim(s.w, 1, ipn.magicDNSSuffix, Saved).0
            && s'.w.events == s.w.events + [GlobalChange] && HasUnconfigured(s'.w.configs)
  {
    CallbackTable(s.objs[1], s.w, ipn, io);
    assert !Taken(s.w.configs, ipn.magicDNSSuffix);
    var m := Claim(s.w, 1, ipn.magicDNSSuffix, Saved).0.configs;
    assert 2 in m && m[2].suffix == "";
  }

  /** The run of ClaimStillLeavesOne: the only tailnet connects and fails to save a claim, and a second is added. */
  function LeavingRun(p: nat, q: nat, ipn1: IPNState, io1: ReactIO, ipn2: IPNState, io2: ReactIO): seq<Action> {
    [AddCheck, FirstAdd(p), FirstStart()]
    + ([DoCallback(1, ipn1, io1), DoCallback(1, ipn2, io2)] + [AddCheck, SecondAdd(q)])
  }

  lemma LeavingRunLeads(p: nat, q: nat, ipn1: IPNState, io1: ReactIO, ipn2: IPNState, io2: ReactIO)
    requires CarriesRunning(ipn1) && CarriesRunning(ipn2) && io2.claim == Untouched
    ensures AddsApart(INIT, LeavingRun(p, q, ipn1, io1, ipn2, io2))
    ensures WaitsBesideNew(Exec(INIT, LeavingRun(p, q, ipn1, io1, ipn2, io2)), ipn2.magicDNSSuffix)
  {
    var start := [AddCheck, FirstAdd(p), FirstStart()];
    var c1, c2 := DoCallback(1, ipn1, io1), DoCallback(1, ipn2, io2);
    var s := Exec(INIT, start);
    FreshRunStarts(p);
    FailsToSave(s, ipn1, io1, ipn2, io2);
    TwoSteps(s, c1, c2);
    var s2 := Exec(s, [c1, c2]);
    AddsSecond(s2, ipn2.magicDNSSuffix, q);
    TwoSteps(s2, AddCheck, SecondAdd(q));
    ExecAppend(s, [c1, c2], [AddCheck, SecondAdd(q)]);
    ExecAppend(INIT, start, [c1, c2] + [AddCheck, SecondAdd(q)]);
    ApartAppend(s, [c1, c2], [AddCheck, SecondAdd(q)]);
    StartsApart(p);
    ApartAppend(INIT, start, [c1, c2] + [AddCheck, SecondAdd(q)]);
  }

  lemma TwoSteps(s: Sys, a: Action, b: Action)
    ensures Exec(s, [a, b]) == Step(Step(s, a), b)
    ensures (a.AddCheck? ==> s.adders == 0) && !b.AddCheck? ==> AddsApart(s, [a, b])
  {
    assert [a, b][1..] == [b] && [b][1..] == [];
    assert Exec(Step(s, a), [b]) == Exec(Step(Step(s, a), b), []);
  }

  lemma StartsApart(p: nat)
    ensures AddsApart(INIT, [AddCheck, FirstAdd(p), FirstStart()])
  {
    var s1 := Step(INIT, AddCheck);
    TwoSteps(s1, FirstAdd(p), FirstStart());
    assert [AddCheck, FirstAdd(p), FirstStart()][1..] == [FirstAdd(p), FirstStart()];
  }

  /** Add requests that do not overlap are not enough. After a failed save the config of tailnet 1 holds a suffix that
      the tailnet does not have, so a second tailnet may be added; when tailnet 1 then reports another suffix, its
      claim succeeds and is announced although the second one is waiting. */
  lemma ClaimStillLeavesOne(
    p: nat, q: nat, ipn1: IPNState, io1: ReactIO, ipn2: IPNState, io2: ReactIO, ipn3: IPNState, io3: ReactIO)
    requires CarriesRunning(ipn1) && CarriesRunning(ipn2) && CarriesRunning(ipn3)
    requires io2.claim == Untouched && io3.claim == Saved && ipn3.magicDNSSuffix != ipn2.magicDNSSuffix
    ensures var acts := LeavingRun(p, q, ipn1, io1, ipn2, io2);
            var s := Exec(INIT, acts);
            && AddsApart(INIT, acts) && Claim(s.w, 1, ipn3.magicDNSSuffix, Saved).1 == Claimed
            && Step(s, DoCallback(1, ipn3, io3)).w == Claim(s.w, 1, ipn3.magicDNSSuffix, Saved).0
            && Step(s, DoCallback(1, ipn3, io3)).w.events == s.w.events + [GlobalChange]
            && HasUnconfigured(Step(s, DoCallback(1, ipn3, io3)).w.configs)
  {
    LeavingRunLeads(p, q, ipn1, io1, ipn2, io2);
    ClaimsAnother(Exec(INIT, LeavingRun(p, q, ipn1, io1, ipn2, io2)), ipn2.magicDNSSuffix, ipn3, io3);
  }
}
