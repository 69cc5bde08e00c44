/** What each operation does, outcome by outcome and field by field, in the states of whole runs; and what of it is
    still there after a restart. */
module Effects {
  import opened Wrappers
  import opened Ipn
  import opened Text
  import opened Model
  import opened System
  import opened Invariants
  import opened Callbacks
  import opened Runs
  import opened Restarts
  import opened Convergence

  /** How a save with outcome `o` leaves the file that was `before`. */
  predicate Wrote(before: Disk, v: World, o: Save) {
    match o
    case Saved => v.disk == Stored(v.configs) && v.synced
    case Untouched => v.disk == before && !v.synced
    case Truncated => v.disk == Unreadable && !v.synced
  }

  /** The intent of tailnet `id` is in its config, if it is registered, and a save of outcome `o` followed. */
  predicate IntentRecorded(w: World, v: World, id: int, enabled: bool, o: Save) {
    if id in w.configs then v.configs == w.configs[id := w.configs[id].(userEnabled := enabled)] && Wrote(w.disk, v, o)
    else v.configs == w.configs && v.disk == w.disk && v.synced == w.synced
  }

  // ----- Start -------------------------------------------------------------------------------------

  /** A start is refused, without any effect, if and only if the tailnet is not stopped. Otherwise the user's intent is
      on and mirrored in the config, whatever happens next. */
  lemma StartRecordsIntent(s: Sys, id: int, io: StartIO)
    requires Inv(s) && id in s.objs
    ensures var s' := Step(s, DoStart(id, io));
            if s.objs[id].state != StoppedState then s' == s && Start(s.objs[id], s.w, io).failed
            else s'.objs[id].user == UserEnabled && IntentRecorded(s.w, s'.w, id, true, io.user)
  {
    assert ObjectOk(s, id);
    if s.objs[id].state != StoppedState {
      assert s.objs[id := s.objs[id]] == s.objs;
    }
  }

  /** How far a start gets: the handles that it opens, closes again, or keeps, and who is told. */
  lemma StartStages(s: Sys, id: int, io: StartIO)
    requires Inv(s) && id in s.objs && s.objs[id].state == StoppedState
    ensures var t, t' := s.objs[id], Step(s, DoStart(id, io)).objs[id];
            var h, h' := s.w.host, Step(s, DoStart(id, io)).w.host;
            var es, es' := s.w.events, Step(s, DoStart(id, io)).w.events;
            var proxy, server := Handle(id, SocksProxy, h.serial), Handle(id, TsnetServer, h.serial);
            var listening := h.listeners[proxy := t.port];
            if !io.listen then
              h' == h && t' == t.(user := UserEnabled) && es' == es + [TailnetChange(id)]
            else if !io.serverStart then
              && h'.closes == h.closes + multiset{proxy} && t' == t.(user := UserEnabled)
              && h'.listeners == (if io.socksClose then h.listeners else listening) && es' == es + [TailnetChange(id)]
            else if !io.localClient then
              && h'.closes == h.closes + multiset{proxy, server} && t' == t.(user := UserEnabled)
              && h'.listeners == (if io.socksClose then h.listeners else listening) && es' == es + [TailnetChange(id)]
            else if !io.watcher then
              h'.closes == h.closes && h'.listeners == listening && t' == t.(user := UserEnabled) && es' == es
            else
              && h'.closes == h.closes && h'.listeners == listening && es' == es + [TailnetChange(id)]
              && t' == t.(user := UserEnabled, state := StartedState, socks := Some(proxy), server := Some(server),
                          watcher := Some(Handle(id, WatcherLoop, h.serial)))
  {
    assert ObjectOk(s, id);
    var h := s.w.host;
    var proxy, server := Handle(id, SocksProxy, h.serial), Handle(id, TsnetServer, h.serial);
    assert Sound(h, proxy) && Sound(h, server);
    assert h.listeners[proxy := s.objs[id].port] - {proxy} == h.listeners;
    assert h.listeners - {server} == h.listeners;
    assert h.listeners[proxy := s.objs[id].port] - {server} == h.listeners[proxy := s.objs[id].port];
  }

  // ----- Stop --------------------------------------------------------------------------------------

  predicate Stoppable(s: State) {
    s in {ConnectedState, StartedState, NeedsLoginState, NeedsMachineAuthState}
  }

  lemma StopRecordsIntent(s: Sys, id: int, io: StopIO)
    requires Inv(s) && id in s.objs
    ensures var s' := Step(s, DoStop(id, io));
            if !Stoppable(s.objs[id].state) then s' == s && Stop(s.objs[id], s.w, io).failed
            else
              && s'.objs[id].user == UserDisabled && s'.objs[id].state == StoppedState
              && IntentRecorded(s.w, s'.w, id, false, io.user) && s'.w.events == s.w.events + [TailnetChange(id)]
  {
    assert ObjectOk(s, id);
    if !Stoppable(s.objs[id].state) {
      assert s.objs[id := s.objs[id]] == s.objs;
    }
  }

  /** A stop closes the proxy, and nothing else if that fails. Otherwise it closes watcher and server as well, each
      once. It reports success and gives the handles up if and only if proxy and server have closed. */
  lemma StopCloses(s: Sys, id: int, io: StopIO)
    requires Inv(s) && id in s.objs && Stoppable(s.objs[id].state)
    ensures var t, t' := s.objs[id], Step(s, DoStop(id, io)).objs[id];
            var h, h' := s.w.host, Step(s, DoStop(id, io)).w.host;
            && t.socks.Some? && t.watcher.Some? && t.server.Some?
            && h'.closes == h.closes + (if io.socksClose then multiset{t.socks.value, t.watcher.value, t.server.value}
                                        else multiset{t.socks.value})
            && h'.listeners == (if io.socksClose then h.listeners - {t.socks.value} else h.listeners)
            && Stop(t, s.w, io).failed == !(io.socksClose && io.serverClose)
            && t' == (if io.socksClose && io.serverClose
                      then t.(user := UserDisabled, state := StoppedState,
                              server := None, watcher := None, socks := None)
                      else t.(user := UserDisabled, state := StoppedState))
  {
    assert ObjectOk(s, id);
    OnlyProxiesListen(s.w.host, s.objs[id].watcher);
    OnlyProxiesListen(s.w.host, s.objs[id].server);
  }

  /** Closing a handle that is not a proxy frees no port. */
  lemma OnlyProxiesListen(h: Host, x: Option<Handle>)
    requires HostInv(h) && x.Some? && x.value.kind != SocksProxy
    ensures x.value !in h.listeners
  {
    assert Sound(h, x.value);
  }

  // ----- Logout ------------------------------------------------------------------------------------

  /** Which states log out: four of them go in flight, one has nothing to do, two are refused. */
  lemma LogoutByState(t: Tailnet, w: World, o: Save)
    ensures var r := LogoutBegin(t, w, o);
            && (r.2.InFlight? <==> t.state in {ConnectedState, StoppedState, StartedState, NeedsMachineAuthState})
            && (r.2 == Ended(false) <==> t.state == NeedsLoginState)
            && (r.2 == Ended(true) <==> t.state in {LoggingOutState, HasTerminalErrorState})
            && (r.2.Ended? ==> r.0 == t && r.1 == w)
  {
  }

  /** A logout in flight: the state is shown, the intent is off and mirrored, and there is a server to talk to, the one
      held if there is one. Nothing is closed. */
  lemma LogoutInFlight(s: Sys, id: int, o: Save)
    requires Inv(s) && id in s.objs
    requires s.objs[id].state in {ConnectedState, StoppedState, StartedState, NeedsMachineAuthState}
    ensures var s' := Step(s, DoLogoutBegin(id, o));
            var t, t' := s.objs[id], s'.objs[id];
            && t' == t.(user := UserDisabled, state := LoggingOutState, server := t'.server) && t'.server.Some?
            && (t.server.Some? ==> t'.server == t.server)
            && (t.server.None? ==> t'.server.value == Handle(id, TsnetServer, s.w.host.serial))
            && IntentRecorded(s.w, s'.w, id, false, o) && s'.w.events == s.w.events + [TailnetChange(id)]
            && s'.w.host.closes == s.w.host.closes && s'.w.host.listeners == s.w.host.listeners
            && s'.logouts == s.logouts + multiset{id}
  {
    assert ObjectOk(s, id);
  }

  /** Its end changes the state and nothing else. */
  lemma LogoutReturns(s: Sys, id: int)
    requires Inv(s) && Enabled(s, DoLogoutEnd(id))
    ensures var s' := Step(s, DoLogoutEnd(id));
            && s'.objs[id] == s.objs[id].(state := StoppedState)
            && s'.w == s.w.(events := s.w.events + [TailnetChange(id)])
  {
    assert ObjectOk(s, id);
  }

  // ----- Registry ----------------------------------------------------------------------------------

  /** A claim is refused if some config holds the suffix, then if the tailnet is not registered. Otherwise its config
      holds the suffix, also when the save fails; it succeeds, with a global broadcast, exactly if the save does. */
  lemma ClaimOutcomes(w: World, id: int, suffix: string, o: Save)
    ensures var (v, r) := Claim(w, id, suffix, o);
            && (r == AlreadyClaimed <==> exists j :: j in w.configs && w.configs[j].suffix == suffix)
            && (r in {AlreadyClaimed, NotFound} ==> v == w)
            && (r == NotFound ==> id !in w.configs)
            && (r in {Claimed, SaveFailed} ==>
                  && id in w.configs && v.configs == w.configs[id := w.configs[id].(suffix := suffix)]
                  && Wrote(w.disk, v, o) && (r == Claimed <==> o == Saved)
                  && v.events == w.events + (if o == Saved then [GlobalChange] else []))
  {
  }

  /** The hostname of a new tailnet: the one asked for, else the machine's name or the program's. */
  predicate NamedAfter(hostname: string, wanted: string, machine: Option<string>) {
    && (wanted != "" ==> hostname == wanted)
    && (wanted == "" && machine.Some? ==> hostname == machine.value + "-tailhopper")
    && (wanted == "" && machine.None? ==> hostname == "tailhopper")
  }

  /** An add registers a tailnet exactly if a port is found and the save succeeds. Its config is new in every field, its
      object is stopped with the intent off, and everybody is told. Otherwise the registry is as it was. */
  lemma AddOutcomes(s: Sys, wanted: string, io: AddIO)
    requires Inv(s) && s.adders > 0
    ensures var s' := Step(s, AddCommit(wanted, io));
            var id := s.w.nextID;
            if io.port.None? then s' == s.(adders := s.adders - 1, w := s.w.(nextID := id + 1))
            else if io.save != Saved then
              && s'.objs == s.objs && s'.w.configs == s.w.configs && s'.w.events == s.w.events
              && !s'.w.synced && s'.w.disk == (if io.save == Untouched then s.w.disk else Unreadable)
            else
              && s'.w.disk == Stored(s'.w.configs) && s'.w.synced && s'.w.events == s.w.events + [GlobalChange]
              && id !in s.w.configs && id in s'.w.configs && s'.w.configs - {id} == s.w.configs
              && id in s'.objs && s'.objs - {id} == s.objs - {id}
              && NewlyAdded(s'.w.configs[id], s'.objs[id], id, io.port.value, wanted, io.machine)
  {
    AddWorld(s.w, wanted, io);
  }

  predicate NewlyAdded(c: Config, t: Tailnet, id: int, port: nat, wanted: string, machine: Option<string>) {
    && c.id == t.id == id && c.port == t.port == port
    && c.hostname == t.hostname && NamedAfter(c.hostname, wanted, machine)
    && !c.userEnabled && c.suffix == "" && c.terminalError == ""
    && t.state == StoppedState && t.user == UserDisabled && t.suffix == "" && t.terminalError == ""
    && t.server.None? && t.watcher.None? && t.socks.None?
  }

  /** A delete takes exactly one config out, saves and tells everybody; an unknown id changes nothing. */
  lemma DeleteOutcomes(s: Sys, id: int, o: Save)
    ensures var s' := Step(s, DoDelete(id, o));
            && s'.objs == s.objs
            && (id !in s.w.configs ==> s'.w == s.w)
            && (id in s.w.configs ==>
                  && s'.w.configs == s.w.configs - {id} && Wrote(s.w.disk, s'.w, o)
                  && s'.w.events == s.w.events + [GlobalChange] && s'.w.host == s.w.host && s'.w.nextID == s.w.nextID)
  {
  }

  // ----- Callbacks ---------------------------------------------------------------------------------

  /** The computed name that a notification reports for the machine, or "". */
  function ReportedName(ipn: IPNState): string {
    if ipn.selfNode.Some? then ipn.selfNode.value.computedName else ""
  }

  /** A claim leaves what the other operations store alone; it reports whether it gained the suffix or collided. */
  lemma ClaimLeavesFields(t: Tailnet, w: World, ipn: IPNState, io: ReactIO)
    requires t.state in {ConnectedState, NeedsMachineAuthState}
    ensures var c := ClaimMagicDNSSuffix(t, w, ipn, io);
            && c.t == t.(suffix := c.t.suffix, terminalError := c.t.terminalError, user := c.t.user, state := c.t.state)
            && (c.changed <==> Gains(t, w, ipn, io) || Collides(t, w, ipn))
  {
  }

  /** The reported name is stored unless it is missing, and counts as a change if it is new. */
  lemma NameIsStored(t: Tailnet, w: World, ipn: IPNState, io: ReactIO)
    ensures var a := Apply(UpdateSelfHostname, t, w, ipn, io);
            && a.t == t.(selfHostname := if ReportedName(ipn) != "" then ReportedName(ipn) else t.selfHostname)
            && (a.changed <==> ReportedName(ipn) !in {"", t.selfHostname}) && a.w == w
  {
  }

  /** A tailnet whose fields but those of a claim are as in `t`, with peers and reported name brought up to date. */
  predicate UpToDate(u: Tailnet, t: Tailnet, ipn: IPNState) {
    && u.peers == (if t.state == ConnectedState then ipn.peers else t.peers)
    && u.selfHostname == (if ReportedName(ipn) != "" then ReportedName(ipn) else t.selfHostname)
    && u.loginURL == t.loginURL && u.hostname == t.hostname && u.port == t.port && u.id == t.id
    && u.server == t.server && u.watcher == t.watcher && u.socks == t.socks
  }

  /** What the operations that always run store: the peers of a connected tailnet and the reported name of a running
      one. Their result says whether they did anything; peers count as new each time. */
  lemma AlwaysStores(t: Tailnet, w: World, ipn: IPNState, io: ReactIO)
    requires Stoppable(t.state)
    ensures var a := Always(AlwaysOps(t.state), t, w, ipn, io);
            && UpToDate(a.t, t, ipn)
            && (a.changed <==>
                  || t.state == ConnectedState || ReportedName(ipn) !in {"", t.selfHostname}
                  || Gains(t, w, ipn, io) || Collides(t, w, ipn))
  {
    if t.state == ConnectedState {
      ConnectedStores(t, w, ipn, io);
    } else if t.state == NeedsMachineAuthState {
      AuthStores(t, w, ipn, io);
    } else {
      NameOnlyStores(t, w, ipn, io);
    }
  }

  lemma AuthStores(t: Tailnet, w: World, ipn: IPNState, io: ReactIO)
    requires t.state == NeedsMachineAuthState
    ensures var a := Always(AlwaysOps(NeedsMachineAuthState), t, w, ipn, io);
            && UpToDate(a.t, t, ipn)
            && (a.changed <==>
                  ReportedName(ipn) !in {"", t.selfHostname} || Gains(t, w, ipn, io) || Collides(t, w, ipn))
  {
    AlwaysExtends([], ClaimSuffix, t, w, ipn, io);
    AlwaysExtends([ClaimSuffix], UpdateSelfHostname, t, w, ipn, io);
    assert [] + [ClaimSuffix] == [ClaimSuffix];
    assert [ClaimSuffix] + [UpdateSelfHostname] == AlwaysOps(NeedsMachineAuthState);
    ClaimLeavesFields(t, w, ipn, io);
    var c := ClaimMagicDNSSuffix(t, w, ipn, io);
    NameIsStored(c.t, c.w, ipn, io);
  }

  lemma NameOnlyStores(t: Tailnet, w: World, ipn: IPNState, io: ReactIO)
    requires t.state in {StartedState, NeedsLoginState}
    ensures var a := Always(AlwaysOps(t.state), t, w, ipn, io);
            UpToDate(a.t, t, ipn) && (a.changed <==> ReportedName(ipn) !in {"", t.selfHostname})
  {
    AlwaysExtends([], UpdateSelfHostname, t, w, ipn, io);
    assert [] + [UpdateSelfHostname] == AlwaysOps(t.state);
    NameIsStored(t, w, ipn, io);
  }

  lemma ConnectedStores(t: Tailnet, w: World, ipn: IPNState, io: ReactIO)
    requires t.state == ConnectedState
    ensures var a := Always(AlwaysOps(ConnectedState), t, w, ipn, io); UpToDate(a.t, t, ipn) && a.changed
  {
    AlwaysExtends([], ClaimSuffix, t, w, ipn, io);
    AlwaysExtends([ClaimSuffix], UpdatePeers, t, w, ipn, io);
    AlwaysExtends([ClaimSuffix, UpdatePeers], UpdateSelfHostname, t, w, ipn, io);
    assert [] + [ClaimSuffix] == [ClaimSuffix] && [ClaimSuffix] + [UpdatePeers] == [ClaimSuffix, UpdatePeers];
    assert [ClaimSuffix, UpdatePeers] + [UpdateSelfHostname] == AlwaysOps(ConnectedState);
    ClaimLeavesFields(t, w, ipn, io);
    var c := ClaimMagicDNSSuffix(t, w, ipn, io);
    NameIsStored(c.t.(peers := ipn.peers), c.w, ipn, io);
  }

  /** What the transitions store: the address to log in at, and the next state. */
  lemma OneOfStores(s: State, t: Tailnet, w: World, ipn: IPNState, io: ReactIO)
    ensures var b := OneOf(OneOfOps(s), t, w, ipn, io);
            && b.t == t.(loginURL := b.t.loginURL, state := b.t.state)
            && (Target(s, ipn) == Some(NeedsLoginState) ==> ipn.browseToURL == Some(b.t.loginURL))
            && (Target(s, ipn) != Some(NeedsLoginState) ==> b.t.loginURL == t.loginURL)
            && (b.changed <==> Target(s, ipn).Some?)
  {
    OneOfTries(ToConnected, [], t, w, ipn, io);
    OneOfTries(ToNeedsMachineAuth, [], t, w, ipn, io);
    OneOfTries(ToNeedsMachineAuth, [ToConnected], t, w, ipn, io);
    OneOfTries(ToNeedsLogin, [ToNeedsMachineAuth], t, w, ipn, io);
    OneOfTries(ToNeedsLogin, [ToConnected], t, w, ipn, io);
    OneOfTries(ToNeedsLogin, [ToNeedsMachineAuth, ToConnected], t, w, ipn, io);
    assert [ToConnected] + [] == [ToConnected] && [ToNeedsMachineAuth] + [] == [ToNeedsMachineAuth];
    assert [ToNeedsMachineAuth] + [ToConnected] == OneOfOps(NeedsLoginState);
    assert [ToNeedsLogin] + [ToNeedsMachineAuth] == OneOfOps(ConnectedState);
    assert [ToNeedsLogin] + [ToConnected] == OneOfOps(NeedsMachineAuthState);
    assert [ToNeedsLogin] + [ToNeedsMachineAuth, ToConnected] == OneOfOps(StartedState);
  }

  /** The fields that a callback stores, for every running tailnet and every notification: the peers of a connected
      tailnet, the reported name, the login address when a login is needed now; the rest of what CallbackTable leaves
      open stays. It announces if and only if there was something to store, to claim or to enter. */
  lemma CallbackStores(t: Tailnet, w: World, ipn: IPNState, io: ReactIO)
    requires Stoppable(t.state)
    ensures var r := React(t, w, ipn, io);
            && r.t.peers == (if t.state == ConnectedState then ipn.peers else t.peers)
            && r.t.selfHostname == (if ReportedName(ipn) != "" then ReportedName(ipn) else t.selfHostname)
            && (Target(t.state, ipn) == Some(NeedsLoginState) ==> ipn.browseToURL == Some(r.t.loginURL))
            && (Target(t.state, ipn) != Some(NeedsLoginState) ==> r.t.loginURL == t.loginURL)
            && r.t.hostname == t.hostname && r.t.port == t.port
            && (r.changed <==>
                  || t.state == ConnectedState || ReportedName(ipn) !in {"", t.selfHostname}
                  || Gains(t, w, ipn, io) || Collides(t, w, ipn) || Target(t.state, ipn).Some?)
  {
    AlwaysStores(t, w, ipn, io);
    var a := Always(AlwaysOps(t.state), t, w, ipn, io);
    OneOfStores(t.state, a.t, a.w, ipn, io);
  }

  /** A callback that ends in the terminal state hands over exactly the handles that the tailnet held; any other keeps
      them. In the three states without a watcher it does nothing at all. */
  lemma CallbackHandsOver(t: Tailnet, w: World, ipn: IPNState, io: ReactIO)
    ensures var r := React(t, w, ipn, io);
            if t.state in {StoppedState, LoggingOutState} then
              r.t == t && r.w == w && !r.changed && r.cleanup == Cleanup(None, None, None)
            else if r.t.state == HasTerminalErrorState then
              r.cleanup == Cleanup(t.server, t.watcher, t.socks)
              && r.t.server.None? && r.t.watcher.None? && r.t.socks.None?
            else
              r.cleanup == Cleanup(None, None, None)
              && r.t.server == t.server && r.t.watcher == t.watcher && r.t.socks == t.socks
  {
    if Stoppable(t.state) {
      AlwaysStores(t, w, ipn, io);
      var a := Always(AlwaysOps(t.state), t, w, ipn, io);
      OneOfStores(t.state, a.t, a.w, ipn, io);
    }
  }

  /** The end of a callback closes each handle that was handed over once, and announces if there was a change. */
  lemma FinishCloses(s: Sys, k: nat, io: CleanupIO)
    requires Inv(s) && k < |s.pending|
    ensures var p, s' := s.pending[k], Step(s, DoFinish(k, io));
            && s'.w.host.closes ==
               s.w.host.closes + Once(p.cleanup.server) + Once(p.cleanup.watcher) + Once(p.cleanup.socks)
            && s'.w.host.listeners ==
               (if p.cleanup.socks.Some? && io.socksClose then s.w.host.listeners - {p.cleanup.socks.value}
                else s.w.host.listeners)
            && s'.w == s.w.(host := s'.w.host,
                            events := s.w.events + if p.changed then [TailnetChange(p.id)] else [])
            && s'.objs == s.objs && s'.pending == s.pending[..k] + s.pending[k + 1..]
  {
    assert PendingOk(s, s.pending[k]);
    var c := s.pending[k].cleanup;
    if c.server.Some? {
      OnlyProxiesListen(s.w.host, c.server);
    }
    if c.watcher.Some? {
      OnlyProxiesListen(s.w.host, c.watcher);
    }
    CleanupCloses(s.w.host, c, io);
    assert s.w.events + [] == s.w.events;
  }

  lemma CleanupCloses(h: Host, c: Cleanup, io: CleanupIO)
    requires c.server.Some? ==> c.server.value !in h.listeners
    requires c.watcher.Some? ==> c.watcher.value !in h.listeners
    ensures var h1 := CloseIfAny(h, c.socks, io.socksClose);
            var g := CloseIfAny(CloseIfAny(h1, c.watcher, true), c.server, io.serverClose);
            && g.closes == h.closes + Once(c.server) + Once(c.watcher) + Once(c.socks)
            && g.listeners == if c.socks.Some? && io.socksClose then h.listeners - {c.socks.value} else h.listeners
  {
    var h1 := CloseIfAny(h, c.socks, io.socksClose);
    var h2 := CloseIfAny(h1, c.watcher, true);
    ClosesOne(h, c.socks, io.socksClose);
    ClosesOne(h1, c.watcher, true);
    ClosesOne(h2, c.server, io.serverClose);
  }

  lemma ClosesOne(h: Host, x: Option<Handle>, ok: bool)
    ensures var g := CloseIfAny(h, x, ok);
            && g.closes == h.closes + Once(x)
            && (x.Some? && ok ==> g.listeners == h.listeners - {x.value})
            && (x.None? || !ok || x.value !in h.listeners ==> g.listeners == h.listeners)
  {
    assert h.closes + multiset{} == h.closes;
  }

  function Once(x: Option<Handle>): multiset<Handle> {
    if x.Some? then multiset{x.value} else multiset{}
  }

  /** A terminal error is recorded in the config of a registered tailnet, and so is the intent; each is saved if it is
      new, the error first. */
  lemma ErrorRecords(t: Tailnet, w: World, message: string, io: ReactIO)
    requires t.id in w.configs
    requires t.user == UserEnabled <==> w.configs[t.id].userEnabled
    requires w.configs[t.id].terminalError == t.terminalError
    ensures CollisionRecorded(t, w, SetTerminalError(t, w, message, io).w, message, io)
  {
    var c := w.configs[t.id];
    assert c.(terminalError := t.terminalError) == c;
    assert !c.userEnabled ==> c.(userEnabled := false) == c;
    assert w.configs[t.id := c] == w.configs;
  }

  predicate CollisionRecorded(t: Tailnet, w: World, v: World, message: string, io: ReactIO)
    requires t.id in w.configs
  {
    && v.configs == w.configs[t.id := w.configs[t.id].(terminalError := message, userEnabled := false)]
    && v.events == w.events && v.host == w.host && v.nextID == w.nextID
    && (t.user == UserEnabled && io.user == Saved ==> v.disk == Stored(v.configs) && v.synced)
    && (t.user == UserDisabled && t.terminalError != message && io.error == Saved ==>
          v.disk == Stored(v.configs) && v.synced)
    && (t.user == UserEnabled && io.user == Truncated ==> v.disk == Unreadable && !v.synced)
    && (t.terminalError != message && io.error == Truncated && (t.user == UserEnabled ==> io.user == Untouched) ==>
          v.disk == Unreadable && !v.synced)
    && (t.user == UserDisabled && t.terminalError == message ==> v.disk == w.disk && v.synced == w.synced)
  }

  /** A collision in a callback is recorded so. */
  lemma CollisionRecords(t: Tailnet, w: World, ipn: IPNState, io: ReactIO)
    requires Stoppable(t.state) && Collides(t, w, ipn) && t.id in w.configs
    requires t.user == UserEnabled <==> w.configs[t.id].userEnabled
    requires w.configs[t.id].terminalError == t.terminalError
    ensures CollisionRecorded(t, w, React(t, w, ipn, io).w, AlreadyClaimedMessage(ipn.magicDNSSuffix), io)
  {
    CallbackTable(t, w, ipn, io);
    ErrorRecords(t, w, AlreadyClaimedMessage(ipn.magicDNSSuffix), io);
  }

  /** A callback that does not collide touches the registry by a claim only. */
  lemma CallbackClaims(t: Tailnet, w: World, ipn: IPNState, io: ReactIO)
    requires Stoppable(t.state) && !Collides(t, w, ipn)
    ensures var v := React(t, w, ipn, io).w;
            if t.state in {ConnectedState, NeedsMachineAuthState} && t.suffix == "" && ipn.magicDNSSuffix != ""
               && t.id in w.configs
            then
              && v.configs == w.configs[t.id := w.configs[t.id].(suffix := ipn.magicDNSSuffix)]
              && Wrote(w.disk, v, io.claim)
              && v.events == w.events + (if io.claim == Saved then [GlobalChange] else [])
              && v.host == w.host && v.nextID == w.nextID
            else v == w
  {
    CallbackTable(t, w, ipn, io);
    ClaimOutcomes(w, t.id, ipn.magicDNSSuffix, io.claim);
  }

  // ----- What readers see --------------------------------------------------------------------------

  /** A snapshot shows the reported name whenever there is one, else the configured one; and the rest as it is. */
  lemma SnapshotShows(t: Tailnet)
    ensures Snap(t).hostname == t.selfHostname || t.selfHostname == ""
    ensures t.selfHostname == "" ==> Snap(t).hostname == t.hostname
    ensures Snap(t).id == t.id && Snap(t).state == t.state && Snap(t).user == t.user && Snap(t).suffix == t.suffix
    ensures Snap(t).loginURL == t.loginURL && Snap(t).peers == t.peers && Snap(t).terminalError == t.terminalError
  {
  }

  /** From the bus to the dashboard: after a stream of notifications has been merged and delivered, a connected tailnet
      shows the peers of the last net map, and any running one the name in it, if it has one; a tailnet that enters
      NeedsLogin shows the last address that was sent. */
  lemma DashboardShows(
    t: Tailnet, w: World, ns: seq<Notify>, io: ReactIO, nm: nat, url: int, st: int, err: int, suf: int)
    requires Stoppable(t.state)
    requires LastAt(ns, st, CarriesState) && LastAt(ns, err, CarriesError) && LastAt(ns, url, CarriesURL)
    requires LastAt(ns, nm, CarriesNetMap) && LastAt(ns, suf, CarriesSuffix)
    ensures var last, shown := ns[nm].netMap.value, Snap(React(t, w, Fold(EMPTY, ns), io).t);
            && (t.state == ConnectedState ==> shown.peers == last.peers)
            && (last.selfNode.Some? && last.selfNode.value.computedName != "" ==>
                  shown.hostname == last.selfNode.value.computedName)
            && (t.state != NeedsLoginState && shown.state == NeedsLoginState ==>
                  url >= 0 && ns[url].browseToURL == Some(shown.loginURL) && shown.loginURL != "")
  {
    var ipn := Fold(EMPTY, ns);
    LastNotificationWins(EMPTY, ns, st, err, url, nm, suf);
    CallbackStores(t, w, ipn, io);
    CallbackTable(t, w, ipn, io);
    SnapshotShows(React(t, w, ipn, io).t);
  }

  // ----- After a restart ---------------------------------------------------------------------------

  /** All saves of an action succeed. */
  predicate SavesSucceed(a: Action) {
    match a
    case AddCommit(_, io) => io.save == Saved
    case DoStart(_, io) => io.user == Saved
    case DoStop(_, io) => io.user == Saved
    case DoLogoutBegin(_, o) => o == Saved
    case DoCallback(_, _, io) => io.claim == Saved && io.error == Saved && io.user == Saved
    case DoDelete(_, o) => o == Saved
    case _ => true
  }

  lemma StepStaysSynced(s: Sys, a: Action)
    requires s.w.synced && SavesSucceed(a)
    ensures Step(s, a).w.synced
  {
    if a.DoCallback? && Enabled(s, a) {
      CallbackStaysSynced(s.objs[a.id], s.w, a.ipn, a.reactIO);
    }
  }

  lemma OpStaysSynced(op: Op, t: Tailnet, w: World, ipn: IPNState, io: ReactIO)
    requires w.synced && io.claim == Saved && io.error == Saved && io.user == Saved
    ensures Apply(op, t, w, ipn, io).w.synced
  {
  }

  lemma {:induction false} OpsStaySynced(ops: seq<Op>, t: Tailnet, w: World, ipn: IPNState, io: ReactIO)
    requires w.synced && io.claim == Saved && io.error == Saved && io.user == Saved
    ensures Always(ops, t, w, ipn, io).w.synced && OneOf(ops, t, w, ipn, io).w.synced
    decreases |ops|
  {
    if ops != [] {
      var init, last := ops[..|ops| - 1], ops[|ops| - 1];
      var a := Always(init, t, w, ipn, io);
      OpsStaySynced(init, t, w, ipn, io);
      OpStaysSynced(last, a.t, a.w, ipn, io);
      var b := Apply(ops[0], t, w, ipn, io);
      OpStaysSynced(ops[0], t, w, ipn, io);
      OpsStaySynced(ops[1..], b.t, b.w, ipn, io);
    }
  }

  lemma CallbackStaysSynced(t: Tailnet, w: World, ipn: IPNState, io: ReactIO)
    requires w.synced && io.claim == Saved && io.error == Saved && io.user == Saved
    ensures React(t, w, ipn, io).w.synced
  {
    OpsStaySynced(AlwaysOps(t.state), t, w, ipn, io);
    var a := Always(AlwaysOps(t.state), t, w, ipn, io);
    OpsStaySynced(OneOfOps(t.state), a.t, a.w, ipn, io);
  }

  /** When every save succeeds, the file always holds exactly the registry. */
  lemma {:induction false} SavedRunIsSynced(s: Sys, acts: seq<Action>)
    requires Inv(s) && s.w.synced && forall k :: 0 <= k < |acts| ==> SavesSucceed(acts[k])
    ensures Exec(s, acts).w.synced && InSync(Exec(s, acts).w)
    decreases |acts|
  {
    if acts != [] {
      StepKeeps(s, acts[0]);
      StepStaysSynced(s, acts[0]);
      SavedRunIsSynced(Step(s, acts[0]), acts[1..]);
    }
  }

  /** So every restart after such a run brings back exactly the registered tailnets, and attempts exactly the wanted. */
  lemma SavedRunRestores(acts: seq<Action>)
    requires forall k :: 0 <= k < |acts| ==> SavesSucceed(acts[k])
    ensures var s := Exec(INIT, acts);
            && !s.w.disk.Unreadable? && Boot(s).w.configs == s.w.configs && Restored(Boot(s)) == Wanted(s)
  {
    Reachable([]);
    SavedRunIsSynced(INIT, acts);
    RestartPreservesIntent(acts);
  }

  /** A tailnet that was switched on, with that intent saved, is started again after a crash, if and only if it has no
      recorded error. How far the start itself got does not matter. */
  lemma StartIsRemembered(s: Sys, id: int, io: StartIO)
    requires Inv(s) && id in s.w.configs && s.objs[id].state == StoppedState && io.user == Saved
    ensures var s' := Step(s, DoStart(id, io));
            !s'.w.disk.Unreadable? && (id in Restored(Boot(s')) <==> s.objs[id].terminalError == "")
  {
    var s' := Step(s, DoStart(id, io));
    assert ObjectOk(s, id);
    StartRecordsIntent(s, id, io);
    assert Boot(s').objs[id] == NewTailnet(s'.w.configs[id]);
  }

  /** One that was switched off, with that saved, is not. */
  lemma StopIsRemembered(s: Sys, id: int, io: StopIO)
    requires Inv(s) && id in s.w.configs && Stoppable(s.objs[id].state) && io.user == Saved
    ensures var s' := Step(s, DoStop(id, io));
            !s'.w.disk.Unreadable? && id !in Restored(Boot(s')) && id in Boot(s').objs
  {
    var s' := Step(s, DoStop(id, io));
    assert ObjectOk(s, id);
    StopRecordsIntent(s, id, io);
    assert Boot(s').objs[id] == NewTailnet(s'.w.configs[id]);
  }

  lemma LogoutIsRemembered(s: Sys, id: int, o: Save)
    requires Inv(s) && id in s.w.configs && o == Saved
    requires s.objs[id].state in {ConnectedState, StoppedState, StartedState, NeedsMachineAuthState}
    ensures var s' := Step(s, DoLogoutBegin(id, o));
            !s'.w.disk.Unreadable? && id !in Restored(Boot(s')) && id in Boot(s').objs
  {
    var s' := Step(s, DoLogoutBegin(id, o));
    assert ObjectOk(s, id);
    LogoutInFlight(s, id, o);
    assert Boot(s').objs[id] == NewTailnet(s'.w.configs[id]);
  }

  /** A deletion that was saved is final: the next process does not know the tailnet, and knows every other one. */
  lemma DeleteIsRemembered(s: Sys, id: int)
    requires Inv(s) && id in s.w.configs
    ensures var s' := Step(s, DoDelete(id, Saved));
            && s'.w.disk == Stored(s.w.configs - {id}) && id !in Boot(s').objs
            && Boot(s').objs.Keys == s.w.configs.Keys - {id}
            && forall j :: j in s.w.configs && j != id ==> Boot(s').objs[j] == NewTailnet(s.w.configs[j])
  {
    DeleteOutcomes(s, id, Saved);
    var s' := Step(s, DoDelete(id, Saved));
    assert Boot(s').w.configs == s.w.configs - {id};
  }
}
