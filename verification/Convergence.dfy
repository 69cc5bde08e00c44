/** What callbacks achieve: claims, collisions, and how soon a running tailnet settles. */
module Convergence {
  import opened Wrappers
  import opened Ipn
  import opened Model
  import opened System
  import opened Callbacks
  import opened Runs
  import opened Safety

  // ----- The transition table ----------------------------------------------------------------------

  predicate AsksForLogin(ipn: IPNState) {
    ipn.state == Some(NeedsLogin) && ipn.browseToURL.Some? && ipn.browseToURL.value != ""
  }

  /** Where the reported backend state takes a tailnet, if anywhere. */
  function Target(s: State, ipn: IPNState): Option<State> {
    if !IsRunning(s) then None
    else if AsksForLogin(ipn) && s != NeedsLoginState then Some(NeedsLoginState)
    else if ipn.state == Some(NeedsMachineAuth) && s != NeedsMachineAuthState then Some(NeedsMachineAuthState)
    else if ipn.state == Some(BackendState.Running) && s != ConnectedState then Some(ConnectedState)
    else None
  }

  /** In these states a callback first tries to claim the reported suffix. */
  predicate Claims(s: State) {
    s == ConnectedState || s == NeedsMachineAuthState
  }

  lemma AlwaysExtends(ops: seq<Op>, op: Op, t: Tailnet, w: World, ipn: IPNState, io: ReactIO)
    ensures var a := Always(ops, t, w, ipn, io);
            var b := Apply(op, a.t, a.w, ipn, io);
            Always(ops + [op], t, w, ipn, io) == Applied(b.t, b.w, b.changed || a.changed)
  {
    assert (ops + [op])[..|ops|] == ops;
  }

  /** All that the operations that always run do beyond the claim is to update peers and hostname. */
  lemma AlwaysIsClaim(t: Tailnet, w: World, ipn: IPNState, io: ReactIO)
    requires IsRunning(t.state)
    ensures var a := Always(AlwaysOps(t.state), t, w, ipn, io);
            var c := if Claims(t.state) then ClaimMagicDNSSuffix(t, w, ipn, io) else Applied(t, w, false);
            && a.w == c.w
            && a.t == c.t.(peers := a.t.peers, selfHostname := a.t.selfHostname)
  {
    AlwaysExtends([], ClaimSuffix, t, w, ipn, io);
    AlwaysExtends([], UpdateSelfHostname, t, w, ipn, io);
    AlwaysExtends([ClaimSuffix], UpdateSelfHostname, t, w, ipn, io);
    AlwaysExtends([ClaimSuffix], UpdatePeers, t, w, ipn, io);
    AlwaysExtends([ClaimSuffix, UpdatePeers], UpdateSelfHostname, t, w, ipn, io);
    assert [] + [ClaimSuffix] == [ClaimSuffix] && [] + [UpdateSelfHostname] == [UpdateSelfHostname];
    assert [ClaimSuffix] + [UpdateSelfHostname] == AlwaysOps(NeedsMachineAuthState);
    assert [ClaimSuffix] + [UpdatePeers] == [ClaimSuffix, UpdatePeers];
    assert [ClaimSuffix, UpdatePeers] + [UpdateSelfHostname] == AlwaysOps(ConnectedState);
  }

  lemma OneOfTries(op: Op, rest: seq<Op>, t: Tailnet, w: World, ipn: IPNState, io: ReactIO)
    ensures var a := Apply(op, t, w, ipn, io);
            OneOf([op] + rest, t, w, ipn, io) == if a.changed then a else OneOf(rest, a.t, a.w, ipn, io)
  {
    assert ([op] + rest)[1..] == rest;
  }

  /** The transitions tried in state `s` amount to the table. */
  lemma OneOfIsTarget(s: State, t: Tailnet, w: World, ipn: IPNState, io: ReactIO)
    ensures var b := OneOf(OneOfOps(s), t, w, ipn, io);
            && b.w == w
            && b.t == t.(loginURL := b.t.loginURL,
                         state := if Target(s, ipn).Some? then Target(s, ipn).value else t.state)
  {
    OneOfTries(ToConnected, [], t, w, ipn, io);
    OneOfTries(ToNeedsMachineAuth, [], t, w, ipn, io);
    OneOfTries(ToNeedsMachineAuth, [ToConnected], t, w, ipn, io);
    OneOfTries(ToNeedsLogin, [ToNeedsMachineAuth], t, w, ipn, io);
    OneOfTries(ToNeedsLogin, [ToConnected], t, w, ipn, io);
    OneOfTries(ToNeedsLogin, [ToNeedsMachineAuth, ToConnected], t, w, ipn, io);
    assert [ToConnected] + [] == [ToConnected] && [ToNeedsMachineAuth] + [] == [ToNeedsMachineAuth];
    assert [ToNeedsMachineAuth] + [ToConnected] == OneOfOps(NeedsLoginState);
    assert [ToNeedsLogin] + [ToNeedsMachineAuth] == OneOfOps(ConnectedState);
    assert [ToNeedsLogin] + [ToConnected] == OneOfOps(NeedsMachineAuthState);
    assert [ToNeedsLogin] + [ToNeedsMachineAuth, ToConnected] == OneOfOps(StartedState);
  }

  /** The next state of every running tailnet on every callback: the table's entry if there is one, else the
      terminal state on a collision, else no change. */
  lemma CallbackTable(t: Tailnet, w: World, ipn: IPNState, io: ReactIO)
    requires IsRunning(t.state)
    ensures React(t, w, ipn, io).t.state ==
            if Target(t.state, ipn).Some? then Target(t.state, ipn).value
            else if Collides(t, w, ipn) then HasTerminalErrorState
            else t.state
    ensures Collides(t, w, ipn) ==>
              var u := React(t, w, ipn, io).t;
              u.terminalError == AlreadyClaimedMessage(ipn.magicDNSSuffix) && u.user == UserDisabled && u.suffix == ""
    ensures !Collides(t, w, ipn) ==>
              var u := React(t, w, ipn, io).t;
              && u.terminalError == t.terminalError && u.user == t.user
              && u.suffix == if Gains(t, w, ipn, io) then ipn.magicDNSSuffix else t.suffix
    ensures React(t, w, ipn, io).w == if Claims(t.state) then ClaimMagicDNSSuffix(t, w, ipn, io).w else w
    ensures React(t, w, ipn, io).t.id == t.id
  {
    var a := Always(AlwaysOps(t.state), t, w, ipn, io);
    AlwaysIsClaim(t, w, ipn, io);
    OneOfIsTarget(t.state, a.t, a.w, ipn, io);
  }

  /** The callback asks for a suffix that some registered config holds already. */
  predicate Collides(t: Tailnet, w: World, ipn: IPNState) {
    Claims(t.state) && t.suffix == "" && ipn.magicDNSSuffix != "" && Taken(w.configs, ipn.magicDNSSuffix)
  }

  /** The callback obtains its suffix: it is free, the tailnet is registered and the save succeeds. */
  predicate Gains(t: Tailnet, w: World, ipn: IPNState, io: ReactIO) {
    && Claims(t.state) && t.suffix == "" && ipn.magicDNSSuffix != ""
    && !Taken(w.configs, ipn.magicDNSSuffix) && t.id in w.configs && io.claim.Saved?
  }

  // ----- Collisions --------------------------------------------------------------------------------

  /** The code says that a duplicate claim is fatal. Its error is recorded and the user's intent is switched off
      in every case, but the callback ends in the terminal state if and only if the table has no entry for the
      reported backend state: the transition is still taken after the collision. */
  lemma CollisionIsFatalUnlessOverridden(t: Tailnet, w: World, ipn: IPNState, io: ReactIO)
    requires IsRunning(t.state) && Collides(t, w, ipn)
    ensures var r := React(t, w, ipn, io);
            && r.t.terminalError == AlreadyClaimedMessage(ipn.magicDNSSuffix) && r.t.user == UserDisabled
            && (r.t.state == HasTerminalErrorState <==> Target(t.state, ipn).None?)
            && (Target(t.state, ipn).Some? ==> Empty(r.cleanup) && IsRunning(r.t.state))
  {
    CallbackTable(t, w, ipn, io);
  }

  /** Once registered claims are unique, "already claimed by another tailnet" is true if and only if the
      tailnet's own config does not hold the suffix; after a failed save it may. */
  lemma ClaimedByAnother(acts: seq<Action>, id: int, suffix: string, o: Save)
    requires suffix != "" && id in Exec(INIT, acts).w.configs
    requires Claim(Exec(INIT, acts).w, id, suffix, o).1 == AlreadyClaimed
    ensures var m := Exec(INIT, acts).w.configs;
            (exists j :: j in m && j != id && m[j].suffix == suffix) <==> m[id].suffix != suffix
  {
    Reachable(acts);
  }

  /** A tailnet collides with itself: when the save of its claim fails, its next callback with the same suffix
      ends in the terminal state, although no other tailnet holds that suffix. */
  lemma FailedClaimCollides(s: Sys, id: int, ipn: IPNState, io1: ReactIO, io2: ReactIO)
    requires Inv(s) && id in s.w.configs && s.objs[id].state == ConnectedState && s.objs[id].suffix == ""
    requires CarriesRunning(ipn) && !Taken(s.w.configs, ipn.magicDNSSuffix) && !io1.claim.Saved?
    ensures var s' := Step(Step(s, DoCallback(id, ipn, io1)), DoCallback(id, ipn, io2));
            && id in s'.objs && s'.objs[id].state == HasTerminalErrorState
            && s'.objs[id].terminalError == AlreadyClaimedMessage(ipn.magicDNSSuffix)
            && forall j :: j in s'.w.configs && j != id ==> s'.w.configs[j].suffix != ipn.magicDNSSuffix
  {
    var c1, c2 := DoCallback(id, ipn, io1), DoCallback(id, ipn, io2);
    var s1 := Step(s, c1);
    var s2 := Step(s1, c2);
    assert ObjectOk(s, id);
    CallbackTable(s.objs[id], s.w, ipn, io1);
    StepKeeps(s, c1);
    StaysRegistered(s, c1, id);
    assert ObjectOk(s1, id);
    assert s1.w == Claim(s.w, id, ipn.magicDNSSuffix, io1.claim).0;
    assert s1.w.configs[id].suffix == ipn.magicDNSSuffix && Taken(s1.w.configs, ipn.magicDNSSuffix);
    CallbackTable(s1.objs[id], s1.w, ipn, io2);
    StepKeeps(s1, c2);
    StaysRegistered(s1, c2, id);
    ReactKeeps(s1.objs[id], s1.w, ipn, io2);
  }

  /** It also does after every callback that ends in the terminal state and whose save of the error succeeded, however
      the save of the intent ended. */
  lemma SavedErrorIsDurable(s: Sys, id: int, ipn: IPNState, io: ReactIO)
    requires Inv(s) && id in s.w.configs && id in s.objs && s.objs[id].state != HasTerminalErrorState
    requires var u := Step(s, DoCallback(id, ipn, io)).objs[id];
             u.state == HasTerminalErrorState && u.terminalError != s.objs[id].terminalError && io.error == Saved
    ensures var s' := Step(s, DoCallback(id, ipn, io)); TerminalForEver(s', id, s'.objs[id].terminalError)
  {
    var c := DoCallback(id, ipn, io);
    var s' := Step(s, c);
    var t, u := s.objs[id], s'.objs[id];
    StepKeeps(s, c);
    StaysRegistered(s, c, id);
    assert ObjectOk(s, id) && ObjectOk(s', id);
    if !IsRunning(t.state) {
      IdleCallback(t, s.w, ipn, io);
    }
    ErrorOnDisk(t, s.w, ipn, io);
    TerminalIsDurable(s', id, u.terminalError);
  }

  /** What a callback with a new error leaves in the file, when the save of the error succeeded. */
  lemma ErrorOnDisk(t: Tailnet, w: World, ipn: IPNState, io: ReactIO)
    requires IsRunning(t.state) && t.id in w.configs && io.error == Saved
    requires React(t, w, ipn, io).t.terminalError != t.terminalError
    ensures var r := React(t, w, ipn, io);
            r.w.disk.Unreadable? ||
            (r.w.disk.Stored? && t.id in r.w.disk.configs && r.w.disk.configs[t.id].terminalError == r.t.terminalError)
  {
    CallbackTable(t, w, ipn, io);
    var message := AlreadyClaimedMessage(ipn.magicDNSSuffix);
    var w1 := PersistError(w, t.id, message, io.error);
    assert w1.configs[t.id].terminalError == message && w1.disk == Stored(w1.configs);
  }

  function FirstAdd(port: nat): Action {
    AddCommit("", AddIO(None, Some(port), Saved))
  }

  function FirstStart(): Action {
    DoStart(1, StartIO(Saved, true, true, true, true, true, true))
  }

  /** The first add and start of a fresh installation. */
  lemma FreshRunStarts(port: nat)
    ensures var s := Exec(INIT, [AddCheck, FirstAdd(port), FirstStart()]);
            && s.w.configs.Keys == {1} && 1 in s.objs && s.objs[1].id == 1 && s.objs[1].state == StartedState
            && s.objs[1].suffix == "" && s.w.configs[1].suffix == "" && s.w.nextID == 2 && s.adders == 0
  {
    var s1 := Step(INIT, AddCheck);
    var s2 := Step(s1, FirstAdd(port));
    assert s2.objs == map[1 := NewTailnet(FreshConfig(1, "tailhopper", port))] && s2.w.configs.Keys == {1};
    assert [AddCheck, FirstAdd(port), FirstStart()] == [AddCheck] + ([FirstAdd(port)] + ([FirstStart()] + []));
    ExecCons(INIT, AddCheck, [FirstAdd(port)] + ([FirstStart()] + []));
    ExecCons(s1, FirstAdd(port), [FirstStart()] + []);
    ExecCons(s2, FirstStart(), []);
  }

  /** A fresh installation reaches the state that FailedClaimCollides starts from: add, start, connect. */
  lemma FreshRunConnects(port: nat, ipn: IPNState, io: ReactIO)
    requires CarriesRunning(ipn)
    ensures var s := Exec(INIT, [AddCheck, FirstAdd(port), FirstStart(), DoCallback(1, ipn, io)]);
            && 1 in s.w.configs && 1 in s.objs && s.objs[1].state == ConnectedState && s.objs[1].suffix == ""
            && !Taken(s.w.configs, ipn.magicDNSSuffix)
  {
    var acts := [AddCheck, FirstAdd(port), FirstStart()];
    var s := Exec(INIT, acts);
    FreshRunStarts(port);
    ExecAppend(INIT, acts, [DoCallback(1, ipn, io)]);
    assert acts + [DoCallback(1, ipn, io)] == [AddCheck, FirstAdd(port), FirstStart(), DoCallback(1, ipn, io)];
    CallbackTable(s.objs[1], s.w, ipn, io);
  }

  /** The only registered tailnet of a fresh installation, with a suffix in its config and none of its own. */
  predicate Waits(s: Sys, state: State, claimed: string) {
    && s.w.configs.Keys == {1} && 1 in s.objs && s.objs[1].id == 1 && s.objs[1].state == state
    && s.objs[1].suffix == "" && s.w.configs[1].suffix == claimed && s.w.nextID == 2 && s.adders == 0
  }

  lemma WaitsForAuth(s: Sys, ipn: IPNState, io: ReactIO)
    requires Waits(s, StartedState, "") && ipn.state == Some(NeedsMachineAuth)
    ensures Waits(Step(s, DoCallback(1, ipn, io)), NeedsMachineAuthState, "")
  {
    CallbackTable(s.objs[1], s.w, ipn, io);
  }

  lemma WaitsWithClaim(s: Sys, ipn: IPNState, io: ReactIO)
    requires Waits(s, NeedsMachineAuthState, "") && ipn.state == Some(NeedsMachineAuth) && ipn.magicDNSSuffix != ""
    requires io.claim == Untouched
    ensures Waits(Step(s, DoCallback(1, ipn, io)), NeedsMachineAuthState, ipn.magicDNSSuffix)
  {
    CallbackTable(s.objs[1], s.w, ipn, io);
  }

  lemma CollidesAndConnects(s: Sys, ipn: IPNState, io: ReactIO)
    requires CarriesRunning(ipn) && Waits(s, NeedsMachineAuthState, ipn.magicDNSSuffix)
    ensures Collides(s.objs[1], s.w, ipn) && ConnectedWithError(Step(s, DoCallback(1, ipn, io)), ipn)
  {
    CallbackTable(s.objs[1], s.w, ipn, io);
    assert s.w.configs[1].suffix == ipn.magicDNSSuffix;
  }

  predicate ConnectedWithError(s: Sys, ipn: IPNState) {
    && 1 in s.objs && s.objs[1].state == ConnectedState && s.objs[1].suffix == "" && s.objs[1].user == UserDisabled
    && s.objs[1].terminalError == AlreadyClaimedMessage(ipn.magicDNSSuffix)
  }

  /** A collision that is not fatal, from a fresh installation: a tailnet waits for its machine to be authorized,
      fails to save its claim, and is authorized in the same notification in which it collides with that claim. It
      ends connected, without a suffix, with the error recorded and the user's intent off. */
  lemma CollisionOverridden(
    port: nat, ipn1: IPNState, ipn2: IPNState, ipn3: IPNState, io1: ReactIO, io2: ReactIO, io3: ReactIO)
    requires ipn1.state == ipn2.state == Some(NeedsMachineAuth) && CarriesRunning(ipn3)
    requires ipn2.magicDNSSuffix == ipn3.magicDNSSuffix && io2.claim == Untouched
    ensures var c1, c2 := DoCallback(1, ipn1, io1), DoCallback(1, ipn2, io2);
            var s := Exec(INIT, [AddCheck, FirstAdd(port), FirstStart()] + [c1, c2]);
            && 1 in s.objs && Collides(s.objs[1], s.w, ipn3)
            && ConnectedWithError(Step(s, DoCallback(1, ipn3, io3)), ipn3)
  {
    var acts := [AddCheck, FirstAdd(port), FirstStart()];
    var c1, c2 := DoCallback(1, ipn1, io1), DoCallback(1, ipn2, io2);
    var s := Exec(INIT, acts);
    FreshRunStarts(port);
    ExecAppend(INIT, acts, [c1, c2]);
    ExecCons(s, c1, [c2]);
    ExecCons(Step(s, c1), c2, []);
    assert [c1, c2] == [c1] + [c2] && [c2] == [c2] + [];
    WaitsForAuth(s, ipn1, io1);
    WaitsWithClaim(Step(s, c1), ipn2, io2);
    CollidesAndConnects(Step(Step(s, c1), c2), ipn3, io3);
  }

  // ----- Convergence -------------------------------------------------------------------------------

  predicate CarriesRunning(ipn: IPNState) {
    ipn.state == Some(BackendState.Running) && ipn.magicDNSSuffix != ""
  }

  /** Neither a command or callback of tailnet `id`, nor its deletion, nor a restart. */
  predicate Elsewhere(a: Action, id: int) {
    && !a.Restart?
    && ((a.DoStart? || a.DoStop? || a.DoLogoutBegin? || a.DoLogoutEnd? || a.DoCallback? || a.DoDelete?) ==> a.id != id)
  }

  lemma {:induction false} ElsewhereKeeps(s: Sys, acts: seq<Action>, id: int)
    requires Inv(s) && id in s.w.configs
    requires forall k :: 0 <= k < |acts| ==> Elsewhere(acts[k], id)
    ensures var s' := Exec(s, acts); Inv(s') && id in s'.w.configs && id in s'.objs && s'.objs[id] == s.objs[id]
    decreases |acts|
  {
    if acts != [] {
      StepKeeps(s, acts[0]);
      ElsewhereStep(s, acts[0], id);
      ElsewhereKeeps(Step(s, acts[0]), acts[1..], id);
    }
  }

  lemma ElsewhereStep(s: Sys, a: Action, id: int)
    requires Inv(s) && id in s.w.configs && Elsewhere(a, id)
    ensures id in Step(s, a).w.configs && id in Step(s, a).objs && Step(s, a).objs[id] == s.objs[id]
  {
    StaysRegistered(s, a, id);
    if a.AddCommit? && Enabled(s, a) {
      AddWorld(s.w, a.wanted, a.addIO);
      assert ObjectOk(s, id);
    }
  }

  /** The outcome that the two callbacks lead to. */
  predicate Settled(s: Sys, id: int) {
    && id in s.objs && id in s.w.configs
    && (s.objs[id].state == HasTerminalErrorState
        || (s.objs[id].state == ConnectedState
            && s.objs[id].suffix != "" && s.w.configs[id].suffix == s.objs[id].suffix))
  }

  lemma SecondCallbackSettles(s: Sys, id: int, ipn: IPNState, io: ReactIO)
    requires Inv(s) && id in s.w.configs && s.objs[id].state in {ConnectedState, HasTerminalErrorState}
    requires CarriesRunning(ipn) && io.claim.Saved?
    ensures Settled(Step(s, DoCallback(id, ipn, io)), id)
  {
    var c := DoCallback(id, ipn, io);
    StaysRegistered(s, c, id);
    assert ObjectOk(s, id);
    if s.objs[id].state == ConnectedState {
      ClaimRecorded(s, id, ipn, io);
    } else {
      IdleCallback(s.objs[id], s.w, ipn, io);
    }
  }

  lemma ClaimRecorded(s: Sys, id: int, ipn: IPNState, io: ReactIO)
    requires Inv(s) && id in s.w.configs && s.objs[id].state == ConnectedState
    requires CarriesRunning(ipn) && io.claim.Saved?
    ensures Settled(Step(s, DoCallback(id, ipn, io)), id)
  {
    var c := DoCallback(id, ipn, io);
    StepKeeps(s, c);
    StaysRegistered(s, c, id);
    assert ObjectOk(s, id);
    ClaimMirrored(s.objs[id], s.w, ipn, io, Step(s, c));
  }

  lemma ClaimMirrored(t: Tailnet, w: World, ipn: IPNState, io: ReactIO, s: Sys)
    requires t.state == ConnectedState && t.id in w.configs && CarriesRunning(ipn) && io.claim.Saved?
    requires Inv(s) && t.id in s.w.configs && s.objs[t.id] == React(t, w, ipn, io).t
    ensures Settled(s, t.id)
  {
    CallbackTable(t, w, ipn, io);
    assert ObjectOk(s, t.id);
  }

  lemma FirstCallbackConnects(s: Sys, id: int, ipn: IPNState, io: ReactIO)
    requires Inv(s) && id in s.w.configs && IsRunning(s.objs[id].state) && CarriesRunning(ipn)
    ensures var s' := Step(s, DoCallback(id, ipn, io));
            && Inv(s') && id in s'.w.configs && s'.objs[id].state in {ConnectedState, HasTerminalErrorState}
  {
    var c := DoCallback(id, ipn, io);
    StepKeeps(s, c);
    StaysRegistered(s, c, id);
    RunningConnects(s.objs[id], s.w, ipn, io);
  }

  lemma RunningConnects(t: Tailnet, w: World, ipn: IPNState, io: ReactIO)
    requires IsRunning(t.state) && CarriesRunning(ipn)
    ensures React(t, w, ipn, io).t.state in {ConnectedState, HasTerminalErrorState}
  {
    CallbackTable(t, w, ipn, io);
  }

  lemma ThreeParts(s: Sys, a: Action, others: seq<Action>, b: Action)
    ensures Exec(s, [a] + others + [b]) == Step(Exec(Step(s, a), others), b)
  {
    ExecCons(s, a, others);
    ExecAppend(s, [a] + others, [b]);
    ExecCons(Exec(Step(s, a), others), b, []);
    assert [b] + [] == [b];
  }

  /** Two callbacks that report a running backend and a suffix settle a registered running tailnet, whatever the
      others do in between: it is connected with a suffix that is its own, or in the terminal state. Only the
      second callback's claim has to be saved. */
  lemma TwoCallbacksSettle(
    s: Sys, id: int, ipn1: IPNState, io1: ReactIO, others: seq<Action>, ipn2: IPNState, io2: ReactIO)
    requires Inv(s) && id in s.w.configs && IsRunning(s.objs[id].state)
    requires CarriesRunning(ipn1) && CarriesRunning(ipn2) && io2.claim.Saved?
    requires forall k :: 0 <= k < |others| ==> Elsewhere(others[k], id)
    ensures Settled(Exec(s, [DoCallback(id, ipn1, io1)] + others + [DoCallback(id, ipn2, io2)]), id)
  {
    var c1, c2 := DoCallback(id, ipn1, io1), DoCallback(id, ipn2, io2);
    var s1 := Step(s, c1);
    FirstCallbackConnects(s, id, ipn1, io1);
    ElsewhereKeeps(s1, others, id);
    SecondCallbackSettles(Exec(s1, others), id, ipn2, io2);
    ThreeParts(s, c1, others, c2);
  }
}
