/** What an IPN callback keeps, operation by operation. Between two operations a tailnet may already be in its
    terminal state while it still holds its handles, so the invariant of the middle differs from TailnetInv. */
module Callbacks {
  import opened Wrappers
  import opened Ipn
  import opened Model
  import opened Invariants

  ghost predicate Held(x: Option<Handle>, id: int, kind: Kind, h: Host) {
    x.Some? && Holds(x, id, kind, h) && x.value !in h.closes
  }

  /** Inside a callback that found the tailnet running. */
  ghost predicate Amid(t: Tailnet, w: World) {
    && (IsRunning(t.state) || t.state == HasTerminalErrorState)
    && (t.user == UserDisabled ==> t.terminalError != "")
    && (t.state == HasTerminalErrorState ==> t.user == UserDisabled)
    && Held(t.server, t.id, TsnetServer, w.host)
    && Held(t.watcher, t.id, WatcherLoop, w.host)
    && Held(t.socks, t.id, SocksProxy, w.host)
    && OnRecord(t, w)
    && (t.id in w.configs ==> (w.configs[t.id].userEnabled <==> t.user == UserEnabled))
  }

  /** One operation took (t, w) to (u, v). */
  ghost predicate Moved(t: Tailnet, w: World, u: Tailnet, v: World) {
    && WorldInv(v) && Amid(u, v) && Change(w, v, t.id) && u.id == t.id && v.host == w.host
    && u.server == t.server && u.watcher == t.watcher && u.socks == t.socks
  }

  lemma ChangeChains(w: World, u: World, v: World, id: int)
    requires Change(w, u, id) && Change(u, v, id)
    ensures Change(w, v, id)
  {
    HostChangeChains(w.host, u.host, v.host, id);
  }

  lemma ErrorMoves(t: Tailnet, w: World, message: string, io: ReactIO)
    requires WorldInv(w) && Amid(t, w) && message != ""
    ensures var a := SetTerminalError(t, w, message, io);
            Moved(t, w, a.t, a.w) && a.t.state == HasTerminalErrorState
  {
    var w1 := if t.terminalError != message then PersistError(w, t.id, message, io.error) else w;
    HostSame(w.host, t.id);
    PersistErrorKeeps(w, t.id, message, io.error);
    PersistUserKeeps(w1, t.id, false, io.user);
    ChangeChains(w, w1, PersistUser(w1, t.id, false, io.user), t.id);
    ErrorAmid(t, w, message, io);
  }

  lemma ErrorAmid(t: Tailnet, w: World, message: string, io: ReactIO)
    requires Amid(t, w) && message != ""
    ensures var a := SetTerminalError(t, w, message, io); Amid(a.t, a.w)
  {
    var w1 := if t.terminalError != message then PersistError(w, t.id, message, io.error) else w;
    var t1 := t.(terminalError := message);
    assert OnRecord(t1, w1);
  }

  lemma FreeClaimMoves(t: Tailnet, w: World, ipn: IPNState, io: ReactIO)
    requires WorldInv(w) && Amid(t, w) && ipn.magicDNSSuffix != "" && t.suffix == ""
    requires !Taken(w.configs, ipn.magicDNSSuffix)
    ensures var a := ClaimMagicDNSSuffix(t, w, ipn, io); Amid(a.t, a.w)
  {
  }

  lemma ClaimMoves(t: Tailnet, w: World, ipn: IPNState, io: ReactIO)
    requires WorldInv(w) && Amid(t, w)
    ensures var a := ClaimMagicDNSSuffix(t, w, ipn, io); Moved(t, w, a.t, a.w)
  {
    HostSame(w.host, t.id);
    if ipn.magicDNSSuffix != "" && t.suffix == "" {
      ClaimKeeps(w, t.id, ipn.magicDNSSuffix, io.claim);
      if Taken(w.configs, ipn.magicDNSSuffix) {
        ErrorMoves(t, w, AlreadyClaimedMessage(ipn.magicDNSSuffix), io);
      } else {
        FreeClaimMoves(t, w, ipn, io);
      }
    }
  }

  lemma OpMoves(op: Op, t: Tailnet, w: World, ipn: IPNState, io: ReactIO)
    requires WorldInv(w) && Amid(t, w)
    ensures var a := Apply(op, t, w, ipn, io); Moved(t, w, a.t, a.w)
  {
    HostSame(w.host, t.id);
    if op == ClaimSuffix {
      ClaimMoves(t, w, ipn, io);
    }
  }

  lemma {:induction false} AlwaysMoves(ops: seq<Op>, t: Tailnet, w: World, ipn: IPNState, io: ReactIO)
    requires WorldInv(w) && Amid(t, w)
    ensures var a := Always(ops, t, w, ipn, io); Moved(t, w, a.t, a.w)
  {
    HostSame(w.host, t.id);
    if ops != [] {
      AlwaysMoves(ops[..|ops| - 1], t, w, ipn, io);
      var a := Always(ops[..|ops| - 1], t, w, ipn, io);
      OpMoves(ops[|ops| - 1], a.t, a.w, ipn, io);
      ChangeChains(w, a.w, Apply(ops[|ops| - 1], a.t, a.w, ipn, io).w, t.id);
    }
  }

  lemma {:induction false} OneOfMoves(ops: seq<Op>, t: Tailnet, w: World, ipn: IPNState, io: ReactIO)
    requires WorldInv(w) && Amid(t, w)
    ensures var a := OneOf(ops, t, w, ipn, io); Moved(t, w, a.t, a.w)
    decreases |ops|
  {
    HostSame(w.host, t.id);
    if ops != [] {
      var a := Apply(ops[0], t, w, ipn, io);
      OpMoves(ops[0], t, w, ipn, io);
      if !a.changed {
        OneOfMoves(ops[1..], a.t, a.w, ipn, io);
        ChangeChains(w, a.w, OneOf(ops[1..], a.t, a.w, ipn, io).w, t.id);
      }
    }
  }

  predicate Empty(c: Cleanup) {
    c.server.None? && c.watcher.None? && c.socks.None?
  }

  /** Handles waiting to be closed: owned, still unclosed. */
  ghost predicate CleanupOk(c: Cleanup, id: int, h: Host) {
    && Holds(c.server, id, TsnetServer, h) && Holds(c.watcher, id, WatcherLoop, h) && Holds(c.socks, id, SocksProxy, h)
    && (c.server.Some? ==> c.server.value !in h.closes)
    && (c.watcher.Some? ==> c.watcher.value !in h.closes)
    && (c.socks.Some? ==> c.socks.value !in h.closes)
  }

  lemma ProcessMoves(t: Tailnet, w: World, ipn: IPNState, io: ReactIO)
    requires WorldInv(w) && Amid(t, w)
    ensures var a := Process(AlwaysOps(t.state), OneOfOps(t.state), t, w, ipn, io); Moved(t, w, a.t, a.w)
  {
    var a := Always(AlwaysOps(t.state), t, w, ipn, io);
    AlwaysMoves(AlwaysOps(t.state), t, w, ipn, io);
    OneOfMoves(OneOfOps(t.state), a.t, a.w, ipn, io);
    ChangeChains(w, a.w, OneOf(OneOfOps(t.state), a.t, a.w, ipn, io).w, t.id);
  }

  lemma ReactKeeps(t: Tailnet, w: World, ipn: IPNState, io: ReactIO)
    requires WorldInv(w) && TailnetInv(t, w)
    ensures var r := React(t, w, ipn, io);
            && Kept(t, w, r.t, r.w) && r.w.host == w.host
            && CleanupOk(r.cleanup, t.id, r.w.host)
            && (!Empty(r.cleanup) ==> t.state != HasTerminalErrorState && r.t.state == HasTerminalErrorState)
            && (r.t.state == LoggingOutState <==> t.state == LoggingOutState)
  {
    if IsRunning(t.state) {
      ProcessMoves(t, w, ipn, io);
    } else {
      IdleCallback(t, w, ipn, io);
      HostSame(w.host, t.id);
    }
  }

  /** Callbacks are ignored in the three states without a watcher. */
  lemma IdleCallback(t: Tailnet, w: World, ipn: IPNState, io: ReactIO)
    requires HandlesOk(t, w.host) && !IsRunning(t.state)
    ensures React(t, w, ipn, io) == Reaction(t, w, false, Cleanup(None, None, None))
  {
  }

  lemma CleanupKeeps(h: Host, id: int, c: Cleanup, io: CleanupIO)
    requires HostInv(h) && CleanupOk(c, id, h)
    ensures var h1 := CloseIfAny(h, c.socks, io.socksClose);
            var g := CloseIfAny(CloseIfAny(h1, c.watcher, true), c.server, io.serverClose);
            HostInv(g) && HostChange(h, g, id)
  {
    var h1 := CloseIfAny(h, c.socks, io.socksClose);
    var h2 := CloseIfAny(h1, c.watcher, true);
    CloseKeeps(h, c.socks, io.socksClose, id);
    CloseKeeps(h1, c.watcher, true, id);
    CloseKeeps(h2, c.server, io.serverClose, id);
    HostChangeChains(h, h1, h2, id);
    HostChangeChains(h, h2, CloseIfAny(h2, c.server, io.serverClose), id);
  }

  lemma FinishKeeps(w: World, id: int, changed: bool, c: Cleanup, io: CleanupIO)
    requires WorldInv(w) && CleanupOk(c, id, w.host)
    ensures var v := FinishReact(w, id, changed, c, io);
            WorldInv(v) && Change(w, v, id) && v.configs == w.configs && v.disk == w.disk
  {
    var v := FinishReact(w, id, changed, c, io);
    CleanupKeeps(w.host, id, c, io);
    HostSame(w.host, id);
    Rehost(w, w, v.host, v.events, id);
  }
}
