/** What every section keeps: about the registry and its file, and about one tailnet and its config. */
module Invariants {
  import opened Wrappers
  import opened Model

  ghost predicate UniqueSuffixes(m: map<int, Config>) {
    forall i, j :: i in m && j in m && m[i].suffix != "" && m[i].suffix == m[j].suffix ==> i == j
  }

  /** A config's state directory is the one named after its id. */
  predicate OwnDirectory(c: Config) {
    c.stateDir == StateDir(c.id)
  }

  ghost predicate GoodConfigs(m: map<int, Config>, nextID: int) {
    && (forall id :: id in m ==> m[id].id == id && 1 <= id < nextID && OwnDirectory(m[id]))
    && UniqueSuffixes(m)
  }

  /** The file holds exactly the registry's configs. */
  ghost predicate InSync(w: World) {
    w.disk == Stored(w.configs) || (w.disk == Absent && w.configs == map[])
  }

  /** Handles are numbered below the serial counter and none is closed twice. */
  ghost predicate HostInv(h: Host) {
    forall x :: Sound(h, x)
  }

  predicate Sound(h: Host, x: Handle) {
    && h.closes[x] <= 1
    && (x in h.closes ==> x.serial < h.serial)
    && (x in h.listeners ==> x.serial < h.serial && x.kind == SocksProxy)
  }

  ghost predicate WorldInv(w: World) {
    && w.nextID >= 1
    && GoodConfigs(w.configs, w.nextID)
    && (w.disk.Stored? ==> GoodConfigs(w.disk.configs, w.nextID))
    && (w.synced ==> InSync(w))
    && HostInv(w.host)
  }

  /** Which combinations of state, intent and recorded error occur. */
  predicate Local(t: Tailnet) {
    && (t.state == HasTerminalErrorState ==> t.terminalError != "" && t.user == UserDisabled)
    && (IsRunning(t.state) && t.user == UserDisabled ==> t.terminalError != "")
    && (t.state == LoggingOutState ==> t.user == UserDisabled)
  }

  ghost predicate Holds(x: Option<Handle>, id: int, kind: Kind, h: Host) {
    x.Some? ==> x.value.owner == id && x.value.kind == kind && x.value.serial < h.serial
  }

  ghost predicate HandlesOk(t: Tailnet, h: Host) {
    && Holds(t.server, t.id, TsnetServer, h)
    && Holds(t.watcher, t.id, WatcherLoop, h)
    && Holds(t.socks, t.id, SocksProxy, h)
    && (IsRunning(t.state) ==>
          && t.server.Some? && t.server.value !in h.closes
          && t.watcher.Some? && t.watcher.value !in h.closes
          && t.socks.Some? && t.socks.value !in h.closes)
    && (t.state == HasTerminalErrorState ==> t.server.None? && t.watcher.None? && t.socks.None?)
  }

  /** How a registered tailnet's fields are mirrored by its config. */
  predicate Mirrors(t: Tailnet, c: Config) {
    && c.id == t.id && c.port == t.port && c.hostname == t.hostname
    && c.terminalError == t.terminalError
    && (t.suffix != "" ==> c.suffix == t.suffix)
    && (t.state != HasTerminalErrorState ==> (c.userEnabled <==> t.user == UserEnabled))
  }

  /** A registered tailnet's own suffix is in every readable version of the file. */
  predicate SuffixOnDisk(t: Tailnet, w: World) {
    t.suffix != "" && t.id in w.configs ==>
      match w.disk
      case Absent => false
      case Unreadable => true
      case Stored(m) => t.id in m && m[t.id].suffix == t.suffix
  }

  ghost predicate TailnetInv(t: Tailnet, w: World) {
    && Local(t)
    && HandlesOk(t, w.host)
    && OnRecord(t, w)
  }

  predicate OnRecord(t: Tailnet, w: World) {
    && (t.id in w.configs ==> Mirrors(t, w.configs[t.id]))
    && SuffixOnDisk(t, w)
  }

  /** Same configs except for the one of `id`. */
  ghost predicate SameButFor(m: map<int, Config>, n: map<int, Config>, id: int) {
    n.Keys == m.Keys && forall j :: j in m && j != id ==> n[j] == m[j]
  }

  /** All that a section on tailnet `id` may do to the rest. */
  ghost predicate Change(w: World, v: World, id: int) {
    && v.nextID == w.nextID
    && SameButFor(w.configs, v.configs, id)
    && (v.disk == w.disk || v.disk == Unreadable || (v.disk.Stored? && SameButFor(w.configs, v.disk.configs, id)))
    && w.events <= v.events
    && HostChange(w.host, v.host, id)
  }

  ghost predicate HostChange(g: Host, h: Host, id: int) {
    && g.serial <= h.serial
    && (forall x: Handle :: x.owner != id ==> SameFor(g, h, x))
  }

  predicate SameFor(g: Host, h: Host, x: Handle) {
    && h.closes[x] == g.closes[x]
    && (x in h.listeners <==> x in g.listeners)
    && (x in g.listeners ==> h.listeners[x] == g.listeners[x])
  }

  /** A tailnet does not notice what sections on other tailnets do. */
  lemma OthersUnaffected(t: Tailnet, w: World, v: World, id: int)
    requires TailnetInv(t, w) && Change(w, v, id) && t.id != id
    ensures TailnetInv(t, v)
  {
    if IsRunning(t.state) {
      assert SameFor(w.host, v.host, t.server.value);
      assert SameFor(w.host, v.host, t.watcher.value);
      assert SameFor(w.host, v.host, t.socks.value);
    }
  }

  // ----- Registry sections -------------------------------------------------------------------------

  lemma SaveKeeps(w: World, o: Save)
    requires w.nextID >= 1 && GoodConfigs(w.configs, w.nextID) && HostInv(w.host)
    requires w.disk.Stored? ==> GoodConfigs(w.disk.configs, w.nextID)
    ensures WorldInv(SaveConfigs(w, o))
  {
  }

  lemma PersistUserKeeps(w: World, id: int, enabled: bool, o: Save)
    requires WorldInv(w)
    ensures WorldInv(PersistUser(w, id, enabled, o)) && Change(w, PersistUser(w, id, enabled, o), id)
  {
    if id in w.configs {
      SaveKeeps(w.(configs := w.configs[id := w.configs[id].(userEnabled := enabled)]), o);
    }
  }

  lemma PersistErrorKeeps(w: World, id: int, message: string, o: Save)
    requires WorldInv(w)
    ensures WorldInv(PersistError(w, id, message, o)) && Change(w, PersistError(w, id, message, o), id)
  {
    if id in w.configs {
      SaveKeeps(w.(configs := w.configs[id := w.configs[id].(terminalError := message)]), o);
    }
  }

  lemma ClaimKeeps(w: World, id: int, suffix: string, o: Save)
    requires WorldInv(w)
    ensures WorldInv(Claim(w, id, suffix, o).0) && Change(w, Claim(w, id, suffix, o).0, id)
  {
    if !Taken(w.configs, suffix) && id in w.configs {
      var m := w.configs[id := w.configs[id].(suffix := suffix)];
      assert forall j :: j in w.configs ==> w.configs[j].suffix != suffix;
      SaveKeeps(w.(configs := m), o);
    }
  }

  /** Switching the user's intent keeps the config in step, unless the tailnet is in its terminal state. */
  lemma PersistUserMirrors(t: Tailnet, w: World, t': Tailnet, o: Save)
    requires OnRecord(t, w)
    requires t'.id == t.id && t'.port == t.port && t'.hostname == t.hostname
    requires t'.terminalError == t.terminalError && t'.suffix == t.suffix
    ensures OnRecord(t', PersistUser(w, t.id, t'.user == UserEnabled, o))
  {
  }

  // ----- Host sections -----------------------------------------------------------------------------

  lemma ListenKeeps(h: Host, id: int, port: nat)
    requires HostInv(h)
    ensures var g := Listen(h, Handle(id, SocksProxy, h.serial), port); HostInv(g) && HostChange(h, g, id)
  {
    var g := Listen(h, Handle(id, SocksProxy, h.serial), port);
    forall x: Handle ensures Sound(g, x) && (x.owner != id ==> SameFor(h, g, x)) {
      assert Sound(h, x);
    }
  }

  lemma CloseKeeps(h: Host, x: Option<Handle>, ok: bool, id: int)
    requires HostInv(h)
    requires x.Some? ==> x.value.owner == id && x.value.serial < h.serial && x.value !in h.closes
    ensures var g := CloseIfAny(h, x, ok); HostInv(g) && HostChange(h, g, id)
  {
    var g := CloseIfAny(h, x, ok);
    forall y: Handle ensures Sound(g, y) && (y.owner != id ==> SameFor(h, g, y)) {
      assert Sound(h, y);
    }
  }

  lemma HostChangeChains(f: Host, g: Host, h: Host, id: int)
    requires HostChange(f, g, id) && HostChange(g, h, id)
    ensures HostChange(f, h, id)
  {
    forall x: Handle | x.owner != id ensures SameFor(f, h, x) {
      assert SameFor(f, g, x) && SameFor(g, h, x);
    }
  }

  /** Host and announcements can be exchanged under a registry section. */
  lemma Rehost(w: World, v: World, h: Host, es: seq<Event>, id: int)
    requires WorldInv(v) && Change(w, v, id) && v.host == w.host
    requires HostInv(h) && HostChange(w.host, h, id) && v.events <= es
    ensures WorldInv(v.(host := h, events := es)) && Change(w, v.(host := h, events := es), id)
  {
  }

  // ----- Commands ----------------------------------------------------------------------------------

  /** The common end of every section: it kept the rest, and this tailnet is as it should be. */
  ghost predicate Kept(t: Tailnet, w: World, t': Tailnet, w': World) {
    WorldInv(w') && TailnetInv(t', w') && Change(w, w', t.id) && t'.id == t.id
  }

  lemma StartHostKeeps(h: Host, id: int, port: nat, io: StartIO)
    requires HostInv(h)
    ensures HostInv(StartHost(h, id, port, io)) && HostChange(h, StartHost(h, id, port, io), id)
    ensures io.listen ==> StartHost(h, id, port, io).serial == h.serial + 1
    ensures io.serverStart && io.localClient ==> StartHost(h, id, port, io).closes == h.closes
  {
    var socks, server := Opened(id, SocksProxy, h), Opened(id, TsnetServer, h);
    assert Sound(h, socks) && Sound(h, server);
    ListenKeeps(h, id, port);
    var h1 := Listen(h, socks, port);
    CloseKeeps(h1, Some(socks), io.socksClose, id);
    var h2 := CloseHandle(h1, socks, io.socksClose);
    CloseKeeps(h2, Some(server), io.serverClose, id);
    HostChangeChains(h, h1, h2, id);
    HostChangeChains(h, h2, CloseHandle(h2, server, io.serverClose), id);
  }

  lemma StartKeeps(t: Tailnet, w: World, io: StartIO)
    requires WorldInv(w) && TailnetInv(t, w)
    ensures Kept(t, w, Start(t, w, io).t, Start(t, w, io).w)
    ensures Start(t, w, io).t.state == LoggingOutState <==> t.state == LoggingOutState
  {
    if t.state == StoppedState {
      var r := Start(t, w, io);
      var v := PersistUser(w, t.id, true, io.user);
      PersistUserKeeps(w, t.id, true, io.user);
      PersistUserMirrors(t, w, r.t, io.user);
      StartHostKeeps(w.host, t.id, t.port, io);
      Rehost(w, v, r.w.host, r.w.events, t.id);
      StartHandles(t, w, io);
    }
  }

  lemma StartHandles(t: Tailnet, w: World, io: StartIO)
    requires HostInv(w.host) && HandlesOk(t, w.host) && t.state == StoppedState
    ensures HandlesOk(Start(t, w, io).t, Start(t, w, io).w.host)
  {
    StartHostKeeps(w.host, t.id, t.port, io);
    assert Sound(w.host, Opened(t.id, SocksProxy, w.host));
    assert Sound(w.host, Opened(t.id, TsnetServer, w.host));
    assert Sound(w.host, Opened(t.id, WatcherLoop, w.host));
  }

  lemma StopHostKeeps(t: Tailnet, h: Host, io: StopIO)
    requires HostInv(h) && HandlesOk(t, h) && IsRunning(t.state)
    ensures HostInv(StopHost(h, t, io)) && HostChange(h, StopHost(h, t, io), t.id)
    ensures StopHost(h, t, io).serial == h.serial
  {
    var h1 := CloseIfAny(h, t.socks, io.socksClose);
    var h2 := CloseIfAny(h1, t.watcher, true);
    CloseKeeps(h, t.socks, io.socksClose, t.id);
    CloseKeeps(h1, t.watcher, true, t.id);
    CloseKeeps(h2, t.server, io.serverClose, t.id);
    HostChangeChains(h, h1, h2, t.id);
    HostChangeChains(h, h2, CloseIfAny(h2, t.server, io.serverClose), t.id);
  }

  lemma StopKeeps(t: Tailnet, w: World, io: StopIO)
    requires WorldInv(w) && TailnetInv(t, w)
    ensures Kept(t, w, Stop(t, w, io).t, Stop(t, w, io).w)
    ensures Stop(t, w, io).t.state == LoggingOutState <==> t.state == LoggingOutState
  {
    if IsRunning(t.state) {
      var r := Stop(t, w, io);
      var v := PersistUser(w, t.id, false, io.user);
      PersistUserKeeps(w, t.id, false, io.user);
      PersistUserMirrors(t, w, r.t, io.user);
      StopHostKeeps(t, w.host, io);
      Rehost(w, v, r.w.host, r.w.events, t.id);
    }
  }

  lemma LogoutBeginKeeps(t: Tailnet, w: World, o: Save)
    requires WorldInv(w) && TailnetInv(t, w)
    ensures var (t', w', begun) := LogoutBegin(t, w, o);
            && Kept(t, w, t', w')
            && (begun.InFlight? ==> t.state != LoggingOutState)
            && (t'.state == LoggingOutState <==> t.state == LoggingOutState || begun.InFlight?)
  {
    if t.state != NeedsLoginState && MayLogout(t.state) {
      var (t', w', begun) := LogoutBegin(t, w, o);
      var v := PersistUser(w, t.id, false, o);
      PersistUserKeeps(w, t.id, false, o);
      PersistUserMirrors(t, w, t', o);
      forall x: Handle ensures Sound(w'.host, x) && SameFor(w.host, w'.host, x) {
        assert Sound(w.host, x);
      }
      Rehost(w, v, w'.host, w'.events, t.id);
    }
  }

  lemma LogoutEndKeeps(t: Tailnet, w: World)
    requires WorldInv(w) && TailnetInv(t, w) && t.state == LoggingOutState
    ensures var (t', w') := LogoutEnd(t, w); Kept(t, w, t', w') && t'.state == StoppedState
  {
    HostSame(w.host, t.id);
    Rehost(w, w, w.host, LogoutEnd(t, w).1.events, t.id);
  }

  lemma HostSame(h: Host, id: int)
    ensures HostChange(h, h, id)
  {
  }
}
