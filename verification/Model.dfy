/** What each locked section of internal/ts/tailnet.go and internal/registry/registry.go does, as functions
    on values. Every I/O outcome is an argument. Module Service refines these functions with the mutable
    classes; module System interleaves them. */
module Model {
  import opened Wrappers
  import opened Text
  import opened Ipn

  // ----- Tailnet objects ---------------------------------------------------------------------------

  datatype State =
    | ConnectedState | HasTerminalErrorState | LoggingOutState | NeedsLoginState
    | NeedsMachineAuthState | StartedState | StoppedState

  datatype UserState = UserEnabled | UserDisabled

  datatype Kind = SocksProxy | WatcherLoop | TsnetServer

  /** One resource opened by a tailnet. The serial number makes every opening distinct. */
  datatype Handle = Handle(owner: int, kind: Kind, serial: nat)

  datatype Tailnet = Tailnet(
    id: int, port: nat, hostname: string,
    server: Option<Handle>, watcher: Option<Handle>, socks: Option<Handle>,
    suffix: string, terminalError: string, peers: seq<Node>, loginURL: string,
    state: State, selfHostname: string, user: UserState)

  datatype Snapshot = Snapshot(
    id: int, state: State, user: UserState, suffix: string, hostname: string,
    loginURL: string, peers: seq<Node>, terminalError: string)

  function Snap(t: Tailnet): Snapshot {
    Snapshot(t.id, t.state, t.user, t.suffix, if t.selfHostname != "" then t.selfHostname else t.hostname,
             t.loginURL, t.peers, t.terminalError)
  }

  /** The four states in which a tailnet holds its server, its watcher and its proxy. */
  predicate IsRunning(s: State) {
    s == ConnectedState || s == StartedState || s == NeedsLoginState || s == NeedsMachineAuthState
  }

  // ----- Persisted configuration -------------------------------------------------------------------

  datatype Config = Config(
    id: int, stateDir: string, port: nat, hostname: string,
    userEnabled: bool, suffix: string, terminalError: string)

  /** The config file. Its records are kept as a map here; module Storage relates this to record lists. */
  datatype Disk = Absent | Unreadable | Stored(configs: map<int, Config>)

  /** How a save ends: written, failed before the file was touched, or failed after it was truncated. */
  datatype Save = Saved | Untouched | Truncated

  // ----- Everything the tailnets share -------------------------------------------------------------

  /** The operating system's side: open listeners with their ports, and every Close call so far. */
  datatype Host = Host(serial: nat, listeners: map<Handle, nat>, closes: multiset<Handle>)

  datatype Event = TailnetChange(id: int) | GlobalChange

  /** `synced` records that the last save succeeded, or that nothing was saved since loading. */
  datatype World = World(
    nextID: int, configs: map<int, Config>, disk: Disk, synced: bool, host: Host, events: seq<Event>)

  function Announce(w: World, id: int): World {
    w.(events := w.events + [TailnetChange(id)])
  }

  function AnnounceAll(w: World): World {
    w.(events := w.events + [GlobalChange])
  }

  function Listen(h: Host, socks: Handle, port: nat): Host {
    h.(serial := h.serial + 1, listeners := h.listeners[socks := port])
  }

  function CloseHandle(h: Host, x: Handle, ok: bool): Host {
    h.(closes := h.closes + multiset{x}, listeners := if ok then h.listeners - {x} else h.listeners)
  }

  function CloseIfAny(h: Host, x: Option<Handle>, ok: bool): Host {
    if x.Some? then CloseHandle(h, x.value, ok) else h
  }

  // ----- Registry sections, each under the registry lock -------------------------------------------

  function SaveConfigs(w: World, o: Save): (v: World)
    ensures v.host == w.host && v.events == w.events && v.nextID == w.nextID
  {
    match o
    case Saved => w.(disk := Stored(w.configs), synced := true)
    case Untouched => w.(synced := false)
    case Truncated => w.(disk := Unreadable, synced := false)
  }

  function PersistUser(w: World, id: int, enabled: bool, o: Save): (v: World)
    ensures v.host == w.host && v.events == w.events && v.nextID == w.nextID
  {
    if id !in w.configs then w
    else SaveConfigs(w.(configs := w.configs[id := w.configs[id].(userEnabled := enabled)]), o)
  }

  function PersistError(w: World, id: int, message: string, o: Save): (v: World)
    ensures v.host == w.host && v.events == w.events && v.nextID == w.nextID
  {
    if id !in w.configs then w
    else SaveConfigs(w.(configs := w.configs[id := w.configs[id].(terminalError := message)]), o)
  }

  datatype ClaimResult = Claimed | AlreadyClaimed | NotFound | SaveFailed

  predicate Taken(configs: map<int, Config>, suffix: string) {
    exists id :: id in configs && configs[id].suffix == suffix
  }

  function Claim(w: World, id: int, suffix: string, o: Save): (r: (World, ClaimResult))
    ensures r.0.host == w.host && r.0.nextID == w.nextID && w.events <= r.0.events
  {
    if Taken(w.configs, suffix) then (w, AlreadyClaimed)
    else if id !in w.configs then (w, NotFound)
    else
      var w1 := SaveConfigs(w.(configs := w.configs[id := w.configs[id].(suffix := suffix)]), o);
      if o.Saved? then (AnnounceAll(w1), Claimed) else (w1, SaveFailed)
  }

  function StateDir(id: int): string {
    if id >= 0 then "tailnets/" + Decimal(id) else "tailnets/-" + Decimal(-id)
  }

  /** The default hostname: the sanitized name of the machine if it is known, plus the program's name. */
  function Hostname(wanted: string, machine: Option<string>): string {
    if wanted != "" then wanted
    else match machine
      case Some(name) => name + "-tailhopper"
      case None => "tailhopper"
  }

  datatype AddIO = AddIO(machine: Option<string>, port: Option<nat>, save: Save)

  function FreshConfig(id: int, hostname: string, port: nat): Config {
    Config(id, StateDir(id), port, hostname, false, "", "")
  }

  /** Adds a config and saves; rolled back when the save fails. */
  function Enroll(w: World, c: Config, o: Save): (World, bool) {
    var v := SaveConfigs(w.(configs := w.configs[c.id := c]), o);
    if !o.Saved? then (v.(configs := v.configs - {c.id}), false) else (AnnounceAll(v), true)
  }

  /** The new tailnet's id, or None when no port was found or the first save failed. The id is used up anyway. */
  function Add(w: World, wanted: string, io: AddIO): (World, Option<int>) {
    var id := w.nextID;
    var v := w.(nextID := id + 1);
    if io.port.None? then (v, None)
    else
      var (u, kept) := Enroll(v, FreshConfig(id, Hostname(wanted, io.machine), io.port.value), io.save);
      (u, if kept then Some(id) else None)
  }

  /** False when the id is not registered. */
  function Delete(w: World, id: int, o: Save): (World, bool) {
    if id !in w.configs then (w, false)
    else (AnnounceAll(SaveConfigs(w.(configs := w.configs - {id}), o)), true)
  }

  predicate HasUnconfigured(configs: map<int, Config>) {
    Taken(configs, "")
  }

  function NewTailnet(c: Config): Tailnet {
    Tailnet(c.id, c.port, c.hostname, None, None, None, c.suffix, c.terminalError, [], "",
            if c.terminalError != "" then HasTerminalErrorState else StoppedState,
            "",
            if c.terminalError == "" && c.userEnabled then UserEnabled else UserDisabled)
  }

  // ----- Commands, each under the tailnet's lock ---------------------------------------------------

  /** A finished section: the tailnet, the rest, and whether an error is returned. */
  datatype Ran = Ran(t: Tailnet, w: World, failed: bool)

  datatype StartIO = StartIO(
    user: Save, listen: bool, serverStart: bool, localClient: bool, watcher: bool,
    socksClose: bool, serverClose: bool)

  /** The three handles a start opens share one serial number. */
  function Opened(id: int, kind: Kind, h: Host): Handle {
    Handle(id, kind, h.serial)
  }

  /** What a start does to the host: open the listener, and close things again when a later stage fails. */
  function StartHost(h: Host, id: int, port: nat, io: StartIO): Host {
    if !io.listen then h
    else
      var socks, server := Opened(id, SocksProxy, h), Opened(id, TsnetServer, h);
      var h1 := Listen(h, socks, port);
      if !io.serverStart then CloseHandle(h1, socks, io.socksClose)
      else if !io.localClient then CloseHandle(CloseHandle(h1, socks, io.socksClose), server, io.serverClose)
      else h1
  }

  /** The stages of a start after the user's intent is recorded. */
  function BringUp(t: Tailnet, w: World, io: StartIO): Ran {
    var v := w.(host := StartHost(w.host, t.id, t.port, io));
    if !io.listen || !io.serverStart then Ran(t, Announce(v, t.id), true)
    else if !io.localClient then Ran(t, Announce(v, t.id), !io.serverClose)
    else if !io.watcher then Ran(t, v, true)
    else
      Ran(t.(server := Some(Opened(t.id, TsnetServer, w.host)), watcher := Some(Opened(t.id, WatcherLoop, w.host)),
             socks := Some(Opened(t.id, SocksProxy, w.host)), state := StartedState),
          Announce(v, t.id), false)
  }

  function Start(t: Tailnet, w: World, io: StartIO): Ran {
    if t.state != StoppedState then Ran(t, w, true)
    else BringUp(t.(user := UserEnabled), PersistUser(w, t.id, true, io.user), io)
  }

  datatype StopIO = StopIO(user: Save, socksClose: bool, serverClose: bool)

  /** A stop closes proxy, watcher and server in this order, and gives up when the proxy does not close. */
  function StopHost(h: Host, t: Tailnet, io: StopIO): Host {
    var h1 := CloseIfAny(h, t.socks, io.socksClose);
    if t.socks.Some? && !io.socksClose then h1
    else CloseIfAny(CloseIfAny(h1, t.watcher, true), t.server, io.serverClose)
  }

  /** The stages of a stop after the user's intent is recorded; it ends in the stopped state in any case. */
  function TakeDown(t: Tailnet, w: World, io: StopIO): Ran {
    var u, v := t.(state := StoppedState), Announce(w.(host := StopHost(w.host, t, io)), t.id);
    if (t.socks.Some? && !io.socksClose) || (t.server.Some? && !io.serverClose) then Ran(u, v, true)
    else Ran(u.(server := None, watcher := None, socks := None), v, false)
  }

  function Stop(t: Tailnet, w: World, io: StopIO): Ran {
    if !IsRunning(t.state) then Ran(t, w, true)
    else TakeDown(t.(user := UserDisabled), PersistUser(w, t.id, false, io.user), io)
  }

  /** The first half of Logout either ends the call or leaves it in flight with the lock released. */
  datatype LogoutBegun = Ended(failed: bool) | InFlight(server: Handle)

  predicate MayLogout(s: State) {
    s == ConnectedState || s == StoppedState || s == StartedState || s == NeedsMachineAuthState
  }

  function LogoutBegin(t: Tailnet, w: World, o: Save): (Tailnet, World, LogoutBegun) {
    if t.state == NeedsLoginState then (t, w, Ended(false))
    else if !MayLogout(t.state) then (t, w, Ended(true))
    else
      var w1 := Announce(PersistUser(w, t.id, false, o), t.id);
      var created := Handle(t.id, TsnetServer, w1.host.serial);
      var server := if t.server.Some? then t.server.value else created;
      var w2 := if t.server.Some? then w1 else w1.(host := w1.host.(serial := w1.host.serial + 1));
      (t.(user := UserDisabled, state := LoggingOutState, server := Some(server)), w2, InFlight(server))
  }

  /** The deferred second half of Logout, whatever the network calls returned. */
  function LogoutEnd(t: Tailnet, w: World): (Tailnet, World) {
    (t.(state := StoppedState), Announce(w, t.id))
  }

  // ----- IPN callbacks -----------------------------------------------------------------------------

  datatype Op = ClaimSuffix | UpdatePeers | UpdateSelfHostname | ToNeedsLogin | ToNeedsMachineAuth | ToConnected

  datatype ReactIO = ReactIO(claim: Save, error: Save, user: Save)

  /** One operation's outcome: the tailnet, the rest, and the boolean it returns. */
  datatype Applied = Applied(t: Tailnet, w: World, changed: bool)

  function AlreadyClaimedMessage(suffix: string): string {
    "magic DNS suffix '" + suffix + "' is already claimed by another tailnet"
  }

  function SetTerminalError(t: Tailnet, w: World, message: string, io: ReactIO): Applied {
    var isNew := t.terminalError != message;
    var w1 := if isNew then PersistError(w, t.id, message, io.error) else w;
    var enabled := t.user != UserDisabled;
    var w2 := if enabled then PersistUser(w1, t.id, false, io.user) else w1;
    Applied(t.(terminalError := message, user := UserDisabled, state := HasTerminalErrorState), w2,
            isNew || enabled || t.state != HasTerminalErrorState)
  }

  function ClaimMagicDNSSuffix(t: Tailnet, w: World, ipn: IPNState, io: ReactIO): Applied {
    if ipn.magicDNSSuffix == "" || t.suffix != "" then Applied(t, w, false)
    else
      var (w1, r) := Claim(w, t.id, ipn.magicDNSSuffix, io.claim);
      match r
      case Claimed => Applied(t.(suffix := ipn.magicDNSSuffix), w1, true)
      case AlreadyClaimed => SetTerminalError(t, w1, AlreadyClaimedMessage(ipn.magicDNSSuffix), io)
      case NotFound => Applied(t, w1, false)
      case SaveFailed => Applied(t, w1, false)
  }

  function Apply(op: Op, t: Tailnet, w: World, ipn: IPNState, io: ReactIO): Applied {
    match op
    case ClaimSuffix => ClaimMagicDNSSuffix(t, w, ipn, io)
    case UpdatePeers => Applied(t.(peers := ipn.peers), w, true)
    case UpdateSelfHostname =>
      if ipn.selfNode.None? || ipn.selfNode.value.computedName == ""
         || ipn.selfNode.value.computedName == t.selfHostname
      then Applied(t, w, false)
      else Applied(t.(selfHostname := ipn.selfNode.value.computedName), w, true)
    case ToNeedsLogin =>
      if ipn.state != Some(NeedsLogin) || ipn.browseToURL.None? || ipn.browseToURL.value == ""
      then Applied(t, w, false)
      else Applied(t.(loginURL := ipn.browseToURL.value, state := NeedsLoginState), w, true)
    case ToNeedsMachineAuth =>
      if ipn.state != Some(NeedsMachineAuth) then Applied(t, w, false)
      else Applied(t.(state := NeedsMachineAuthState), w, true)
    case ToConnected =>
      if ipn.state != Some(BackendState.Running) then Applied(t, w, false)
      else Applied(t.(state := ConnectedState), w, true)
  }

  /** Runs every operation, in order. */
  function Always(ops: seq<Op>, t: Tailnet, w: World, ipn: IPNState, io: ReactIO): Applied {
    if ops == [] then Applied(t, w, false)
    else
      var a := Always(ops[..|ops| - 1], t, w, ipn, io);
      var b := Apply(ops[|ops| - 1], a.t, a.w, ipn, io);
      Applied(b.t, b.w, b.changed || a.changed)
  }

  /** Runs operations until one of them returns true. */
  function OneOf(ops: seq<Op>, t: Tailnet, w: World, ipn: IPNState, io: ReactIO): Applied {
    if ops == [] then Applied(t, w, false)
    else
      var a := Apply(ops[0], t, w, ipn, io);
      if a.changed then a else OneOf(ops[1..], a.t, a.w, ipn, io)
  }

  function Process(always: seq<Op>, oneOf: seq<Op>, t: Tailnet, w: World, ipn: IPNState, io: ReactIO): Applied {
    var a := Always(always, t, w, ipn, io);
    var b := OneOf(oneOf, a.t, a.w, ipn, io);
    Applied(b.t, b.w, a.changed || b.changed)
  }

  function AlwaysOps(s: State): seq<Op> {
    match s
    case ConnectedState => [ClaimSuffix, UpdatePeers, UpdateSelfHostname]
    case StartedState => [UpdateSelfHostname]
    case NeedsLoginState => [UpdateSelfHostname]
    case NeedsMachineAuthState => [ClaimSuffix, UpdateSelfHostname]
    case _ => []
  }

  function OneOfOps(s: State): seq<Op> {
    match s
    case ConnectedState => [ToNeedsLogin, ToNeedsMachineAuth]
    case StartedState => [ToNeedsLogin, ToNeedsMachineAuth, ToConnected]
    case NeedsLoginState => [ToNeedsMachineAuth, ToConnected]
    case NeedsMachineAuthState => [ToNeedsLogin, ToConnected]
    case _ => []
  }

  /** The handles a terminal error moves out of the tailnet, to be closed after the lock is released. */
  datatype Cleanup = Cleanup(server: Option<Handle>, watcher: Option<Handle>, socks: Option<Handle>)

  datatype Reaction = Reaction(t: Tailnet, w: World, changed: bool, cleanup: Cleanup)

  /** The locked part of a callback. */
  function React(t: Tailnet, w: World, ipn: IPNState, io: ReactIO): Reaction {
    var a := Process(AlwaysOps(t.state), OneOfOps(t.state), t, w, ipn, io);
    if a.t.state == HasTerminalErrorState then
      Reaction(a.t.(server := None, watcher := None, socks := None), a.w, a.changed,
               Cleanup(a.t.server, a.t.watcher, a.t.socks))
    else Reaction(a.t, a.w, a.changed, Cleanup(None, None, None))
  }

  datatype CleanupIO = CleanupIO(socksClose: bool, serverClose: bool)

  /** The unlocked rest of a callback: close what was moved out, then announce. */
  function FinishReact(w: World, id: int, changed: bool, c: Cleanup, io: CleanupIO): World {
    var h1 := CloseIfAny(w.host, c.socks, io.socksClose);
    var h := CloseIfAny(CloseIfAny(h1, c.watcher, true), c.server, io.serverClose);
    var w1 := w.(host := h);
    if changed then Announce(w1, id) else w1
  }
}
