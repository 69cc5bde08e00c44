/** Where the operations of the process take which locks, and that all of them follow the lock order. */
module LockUse {
  import opened Locks

  /** The lock structure of a piece of code. Locks are released where their block ends. */
  datatype Code =
    | Skip
    | Do(i: Instr)
    | Then(first: Code, second: Code)
    | Either(left: Code, right: Code)
    | Loop(body: Code)
    | With(l: LockId, write: bool, body: Code)

  /** The instruction sequences that the code can execute: either branch, any number of rounds. */
  ghost predicate Trace(c: Code, p: seq<Instr>)
    decreases c, 0
  {
    match c
    case Skip => p == []
    case Do(i) => p == [i]
    case Then(a, b) => exists k :: 0 <= k <= |p| && Trace(a, p[..k]) && Trace(b, p[k..])
    case Either(a, b) => Trace(a, p) || Trace(b, p)
    case Loop(body) => exists n: nat :: Rounds(body, n, p)
    case With(l, write, body) =>
      |p| >= 2 && p[0] == Acquire(l, write) && p[|p| - 1] == Release(l) && Trace(body, p[1..|p| - 1])
  }

  ghost predicate Rounds(body: Code, n: nat, p: seq<Instr>)
    decreases body, 1, n
  {
    if n == 0 then p == []
    else exists k :: 0 <= k <= |p| && Trace(body, p[..k]) && Rounds(body, n - 1, p[k..])
  }

  /** Inside a block only locks of a higher rank than that of the block are taken, and by blocks only. */
  predicate Nested(rank: nat, c: Code)
    decreases c
  {
    match c
    case Do(i) => !i.Acquire? && !i.Release?
    case Then(a, b) => Nested(rank, a) && Nested(rank, b)
    case Either(a, b) => Nested(rank, a) && Nested(rank, b)
    case Loop(body) => Nested(rank, body)
    case With(l, _, body) => rank <= Rank(l) && Nested(Rank(l) + 1, body)
    case Skip => true
  }

  /** The only goroutine that the code joins is `w`. */
  predicate JoinsOnly(c: Code, w: nat)
    decreases c
  {
    match c
    case Skip => true
    case Do(i) => i.Join? ==> i.thread == w
    case Then(a, b) => JoinsOnly(a, w) && JoinsOnly(b, w)
    case Either(a, b) => JoinsOnly(a, w) && JoinsOnly(b, w)
    case Loop(body) => JoinsOnly(body, w)
    case With(_, _, body) => JoinsOnly(body, w)
  }

  predicate AllJoins(p: seq<Instr>, w: nat) {
    forall k :: 0 <= k < |p| && p[k].Join? ==> p[k].thread == w
  }

  lemma {:induction false} TraceJoins(c: Code, p: seq<Instr>, w: nat)
    requires JoinsOnly(c, w) && Trace(c, p)
    ensures AllJoins(p, w)
    decreases c, 0
  {
    match c
    case Skip =>
    case Do(_) =>
    case Then(a, b) =>
      var k :| 0 <= k <= |p| && Trace(a, p[..k]) && Trace(b, p[k..]);
      TraceJoins(a, p[..k], w);
      TraceJoins(b, p[k..], w);
      JoinsAppend(p[..k], p[k..], w);
      assert p == p[..k] + p[k..];
    case Either(a, b) =>
      if Trace(a, p) {
        TraceJoins(a, p, w);
      } else {
        TraceJoins(b, p, w);
      }
    case Loop(body) =>
      var n: nat :| Rounds(body, n, p);
      RoundsJoin(body, n, p, w);
    case With(l, write, body) =>
      var inner := p[1..|p| - 1];
      TraceJoins(body, inner, w);
      assert p == [Acquire(l, write)] + inner + [Release(l)];
      JoinsAppend([Acquire(l, write)], inner, w);
      JoinsAppend([Acquire(l, write)] + inner, [Release(l)], w);
  }

  lemma {:induction false} RoundsJoin(body: Code, n: nat, p: seq<Instr>, w: nat)
    requires JoinsOnly(body, w) && Rounds(body, n, p)
    ensures AllJoins(p, w)
    decreases body, 1, n
  {
    if n != 0 {
      var k := FirstRound(body, n, p);
      TraceJoins(body, p[..k], w);
      RoundsJoin(body, n - 1, p[k..], w);
      JoinsAppend(p[..k], p[k..], w);
      assert p == p[..k] + p[k..];
    }
  }

  lemma JoinsAppend(p: seq<Instr>, q: seq<Instr>, w: nat)
    requires AllJoins(p, w) && AllJoins(q, w)
    ensures AllJoins(p + q, w)
  {
    forall k | 0 <= k < |p + q| && (p + q)[k].Join? ensures (p + q)[k].thread == w {
      assert k >= |p| ==> (p + q)[k] == q[k - |p|];
    }
  }

  lemma ReleaseIsOrdered(l: LockId, held: set<LockId>, rest: seq<Instr>)
    requires Ordered(held, rest) && Below(held, Rank(l))
    ensures Ordered(held + {l}, [Release(l)] + rest) && Below(held + {l}, Rank(l) + 1)
  {
    assert held + {l} - {l} == held by {
      assert forall x :: x in held ==> x != l;
    }
    assert ([Release(l)] + rest)[1..] == rest;
  }

  lemma BlockIsOrdered(l: LockId, write: bool, inner: seq<Instr>, held: set<LockId>, rest: seq<Instr>)
    requires Below(held, Rank(l)) && Ordered(held + {l}, inner + ([Release(l)] + rest))
    ensures Ordered(held, [Acquire(l, write)] + inner + [Release(l)] + rest)
  {
    assert ([Acquire(l, write)] + inner + [Release(l)] + rest)[1..] == inner + ([Release(l)] + rest);
  }

  /** Whatever a nested piece of code executes keeps the lock order of what runs around it. */
  lemma {:induction false} NestedIsOrdered(rank: nat, c: Code, p: seq<Instr>, held: set<LockId>, rest: seq<Instr>)
    requires Nested(rank, c) && Trace(c, p) && Below(held, rank) && Ordered(held, rest)
    ensures Ordered(held, p + rest)
    decreases c, 1
  {
    match c
    case Skip =>
      assert p + rest == rest;
    case Do(i) =>
      assert (p + rest)[1..] == rest;
    case Then(_, _) =>
      ThenIsOrdered(rank, c, p, held, rest);
    case Either(a, b) =>
      if Trace(a, p) {
        NestedIsOrdered(rank, a, p, held, rest);
      } else {
        NestedIsOrdered(rank, b, p, held, rest);
      }
    case Loop(body) =>
      var n: nat :| Rounds(body, n, p);
      RoundsAreOrdered(rank, body, n, p, held, rest);
    case With(_, _, _) =>
      WithIsOrdered(rank, c, p, held, rest);
  }

  lemma {:induction false} ThenIsOrdered(rank: nat, c: Code, p: seq<Instr>, held: set<LockId>, rest: seq<Instr>)
    requires c.Then? && Nested(rank, c) && Trace(c, p) && Below(held, rank) && Ordered(held, rest)
    ensures Ordered(held, p + rest)
    decreases c, 0
  {
    var k :| 0 <= k <= |p| && Trace(c.first, p[..k]) && Trace(c.second, p[k..]);
    NestedIsOrdered(rank, c.second, p[k..], held, rest);
    NestedIsOrdered(rank, c.first, p[..k], held, p[k..] + rest);
    assert p + rest == p[..k] + (p[k..] + rest);
  }

  lemma {:induction false} WithIsOrdered(rank: nat, c: Code, p: seq<Instr>, held: set<LockId>, rest: seq<Instr>)
    requires c.With? && Nested(rank, c) && Trace(c, p) && Below(held, rank) && Ordered(held, rest)
    ensures Ordered(held, p + rest)
    decreases c, 0
  {
    var l, inner := c.l, p[1..|p| - 1];
    assert p == [Acquire(l, c.write)] + inner + [Release(l)];
    ReleaseIsOrdered(l, held, rest);
    NestedIsOrdered(Rank(l) + 1, c.body, inner, held + {l}, [Release(l)] + rest);
    BlockIsOrdered(l, c.write, inner, held, rest);
  }

  lemma {:induction false} RoundsAreOrdered(
    rank: nat, body: Code, n: nat, p: seq<Instr>, held: set<LockId>, rest: seq<Instr>)
    requires Nested(rank, body) && Rounds(body, n, p) && Below(held, rank) && Ordered(held, rest)
    ensures Ordered(held, p + rest)
    decreases body, 2, n
  {
    if n == 0 {
      assert p + rest == rest;
    } else {
      var k := FirstRound(body, n, p);
      RoundsAreOrdered(rank, body, n - 1, p[k..], held, rest);
      NestedIsOrdered(rank, body, p[..k], held, p[k..] + rest);
      assert p + rest == p[..k] + (p[k..] + rest);
    }
  }

  /** Where the first of several rounds ends. */
  lemma FirstRound(body: Code, n: nat, p: seq<Instr>) returns (k: nat)
    requires n > 0 && Rounds(body, n, p)
    ensures k <= |p| && Trace(body, p[..k]) && Rounds(body, n - 1, p[k..])
  {
    k :| 0 <= k <= |p| && Trace(body, p[..k]) && Rounds(body, n - 1, p[k..]);
  }

  // ----- The operations ----------------------------------------------------------------------------

  function Maybe(c: Code): (m: Code)
    ensures forall r: nat :: Nested(r, c) ==> Nested(r, m)
    ensures forall w: nat :: JoinsOnly(c, w) ==> JoinsOnly(m, w)
  {
    Either(c, Skip)
  }

  function Or(a: Code, b: Code): (c: Code)
    ensures forall r: nat :: Nested(r, a) && Nested(r, b) ==> Nested(r, c)
    ensures forall w: nat :: JoinsOnly(a, w) && JoinsOnly(b, w) ==> JoinsOnly(c, w)
  {
    Either(a, b)
  }

  function Under(l: LockId, write: bool, body: Code): (c: Code)
    ensures forall r: nat :: r <= Rank(l) && Nested(Rank(l) + 1, body) ==> Nested(r, c)
    ensures forall w: nat :: JoinsOnly(body, w) ==> JoinsOnly(c, w)
  {
    With(l, write, body)
  }

  function Seq(cs: seq<Code>): (c: Code)
    ensures forall r: nat :: (forall i :: 0 <= i < |cs| ==> Nested(r, cs[i])) ==> Nested(r, c)
    ensures forall w: nat :: (forall i :: 0 <= i < |cs| ==> JoinsOnly(cs[i], w)) ==> JoinsOnly(c, w)
  {
    if cs == [] then Skip else Then(cs[0], Seq(cs[1..]))
  }

  function Repeatedly(body: Code): (c: Code)
    ensures forall r: nat :: Nested(r, body) ==> Nested(r, c)
    ensures forall w: nat :: JoinsOnly(body, w) ==> JoinsOnly(c, w)
  {
    Loop(body)
  }

  /** t.log(). */
  function Log(t: int): (c: Code)
    ensures forall r: nat :: r <= 3 ==> Nested(r, c)
    ensures forall w: nat :: JoinsOnly(c, w)
  {
    Under(LogMu(t), false, Skip)
  }

  /** Broadcast copies the channels under the read lock and sends after releasing it; no send blocks. */
  function Notify(): (c: Code)
    ensures forall r: nat :: r <= 2 ==> Nested(r, c)
    ensures forall w: nat :: JoinsOnly(c, w)
  {
    Seq([Under(BusMu, false, Skip), Do(Io)])
  }

  function SetState(t: int): (c: Code)
    ensures forall r: nat :: r <= 2 ==> Nested(r, c)
  {
    Seq([Log(t), Notify()])
  }

  /** Both registry callbacks: mirror the value into the config and save. */
  function Mirror(): (c: Code)
    ensures forall r: nat :: r <= 1 ==> Nested(r, c)
    ensures forall w: nat :: JoinsOnly(c, w)
  {
    Under(RegistryMu, true, Maybe(Do(Io)))
  }

  function Claim(): (c: Code)
    ensures forall r: nat :: r <= 1 ==> Nested(r, c)
    ensures forall w: nat :: JoinsOnly(c, w)
  {
    Under(RegistryMu, true, Maybe(Seq([Do(Io), Maybe(Notify())])))
  }

  /** Closing a watcher: cancel, then wait for its goroutine for at most five seconds. */
  function CloseWatcher(w: nat): (c: Code)
    ensures forall r: nat :: r <= 3 ==> Nested(r, c)
    ensures JoinsOnly(c, w)
  {
    Seq([Under(WatcherMu(w), true, Skip), Do(Io), Do(Join(w))])
  }

  function Start(t: int, w: nat): (c: Code)
    ensures Nested(0, c)
  {
    Under(TailnetMu(t), true, Maybe(Seq([Mirror(), Log(t), Log(t), Do(Io), StartListening(t, w)])))
  }

  /** From the outcome of listening on: failures log, close what was opened and set Stopped. */
  function StartListening(t: int, w: nat): (c: Code)
    ensures forall r: nat :: r <= 1 ==> Nested(r, c)
  {
    Or(
      Seq([Log(t), SetState(t)]),
      Seq([Do(Io), Log(t), Do(Io), Or(
          Seq([Log(t), Do(Io), Maybe(Log(t)), SetState(t)]),
          Seq([Do(Io), Or(
            Seq([Log(t), Do(Io), Maybe(Log(t)), Do(Io), Maybe(Log(t)), SetState(t)]),
            Seq([Log(t), Maybe(Seq([Under(WatcherMu(w), true, Skip), Do(Spawn(w)), SetState(t)]))]))]))]))
  }

  function Stop(t: int, w: nat): (c: Code)
    ensures Nested(0, c)
  {
    Under(TailnetMu(t), true, Maybe(Seq([Mirror(), Log(t), StopHandles(t, w), SetState(t)])))
  }

  /** Closing the proxy, the watcher and the server; a proxy or a server that fails to close ends it early. */
  function StopHandles(t: int, w: nat): (c: Code)
    ensures forall r: nat :: r <= 1 ==> Nested(r, c)
  {
    Or(
      Seq([Log(t), Do(Io), Log(t)]),
      Seq([Maybe(Seq([Log(t), Do(Io), Log(t)])), Maybe(Seq([Log(t), CloseWatcher(w), Log(t)])),
           Maybe(Seq([Log(t), Do(Io), Log(t)])), Maybe(Log(t))]))
  }

  /** The lock is released while the network call is in flight and taken again for the last transition. */
  function Logout(t: int): (c: Code)
    ensures Nested(0, c)
  {
    Or(
      Under(TailnetMu(t), true, Skip),
      Seq([Under(TailnetMu(t), true, Seq([Mirror(), SetState(t)])),
           Do(Io), Maybe(Log(t)), Maybe(Do(Io)), Maybe(Log(t)),
           Under(TailnetMu(t), true, SetState(t))]))
  }

  function Snapshot(t: int): (c: Code)
    ensures Nested(0, c)
  {
    Under(TailnetMu(t), false, Skip)
  }

  /** The connection is made under the read lock. */
  function Dial(t: int): (c: Code)
    ensures Nested(0, c)
  {
    Under(TailnetMu(t), false, Maybe(Do(Io)))
  }

  /** maybeClaimMagicDNSSuffixLocked: a mismatch, a failed claim, a fatal one, or a claim and the new logger. */
  function ClaimSuffix(t: int): (c: Code)
    ensures forall r: nat :: r <= 1 ==> Nested(r, c)
    ensures forall w: nat :: JoinsOnly(c, w)
  {
    Or(
      Log(t),
      Seq([Claim(), Or(
        Seq([Log(t), Maybe(Mirror()), Maybe(Mirror())]),
        Seq([Maybe(Log(t)), Maybe(Under(LogMu(t), true, Skip))]))]))
  }

  function Callback(t: int, w: nat): (c: Code)
    ensures Nested(0, c)
    ensures JoinsOnly(c, w)
  {
    Seq([Log(t), Under(TailnetMu(t), true, Maybe(ClaimSuffix(t))), Maybe(Cleanup(t, w)), Maybe(Notify())])
  }

  /** terminalCleanup.run, on the watcher that the tailnet held. */
  function Cleanup(t: int, w: nat): (c: Code)
    ensures forall r: nat :: r <= 2 ==> Nested(r, c)
    ensures JoinsOnly(c, w)
  {
    Seq([Maybe(Seq([Do(Io), Maybe(Log(t))])), Maybe(CloseWatcher(w)), Maybe(Seq([Do(Io), Maybe(Log(t))]))])
  }

  /** The goroutine of watcher `own`: subscribe, then one callback per notification. `held` is the watcher that the
      tailnet holds when a callback of this goroutine cleans up: `own` itself, or a later one when a stop has given up
      waiting for `own` and a new start has gone by. */
  function WatcherLoop(t: int, own: nat, held: nat): (c: Code)
    ensures Nested(0, c) && JoinsOnly(c, held)
  {
    Seq([Do(Io), Repeatedly(Seq([Do(Io), Under(WatcherMu(own), true, Skip), Callback(t, held)]))])
  }

  function Reading(): (c: Code)
    ensures forall r: nat :: r <= 1 ==> Nested(r, c)
  {
    Under(RegistryMu, false, Skip)
  }

  /** Add, Delete and Load: work on the map and the file, then possibly a global broadcast. */
  function Changing(): (c: Code)
    ensures forall r: nat :: r <= 1 ==> Nested(r, c)
  {
    Under(RegistryMu, true, Seq([Maybe(Do(Io)), Maybe(Notify())]))
  }

  function Snapshots(ts: seq<int>): (c: Code)
    ensures Nested(0, c)
  {
    if ts == [] then Skip else Seq([Snapshot(ts[0]), Snapshots(ts[1..])])
  }

  function Restoring(ts: seq<(int, nat)>): (c: Code)
    ensures Nested(0, c)
  {
    if ts == [] then Skip
    else Seq([Snapshot(ts[0].0), Maybe(Start(ts[0].0, ts[0].1)), Restoring(ts[1..])])
  }

  function DeleteRequest(t: int): (c: Code)
    ensures Nested(0, c)
  {
    Seq([Reading(), Maybe(Seq([Snapshot(t), Maybe(Logout(t)), Changing(), Maybe(Notify())]))])
  }

  function AddRequest(t: int, w: nat): (c: Code)
    ensures Nested(0, c)
  {
    Seq([Reading(), Maybe(Seq([Changing(), Maybe(Seq([Start(t, w), Notify()]))]))])
  }

  function Subscription(cleaner: nat): (c: Code)
    ensures Nested(0, c)
  {
    Seq([Under(BusMu, true, Skip), Do(Spawn(cleaner)), Do(Io), Repeatedly(Do(Io)), Under(BusMu, true, Skip)])
  }

  // ----- Goroutines --------------------------------------------------------------------------------

  /** The goroutines of the process; the dashboard reads like the PAC handler, and a backend logs from goroutines of
      its own. `w` is the goroutine of a watcher that a start spawns or a stop joins. */
  datatype Role =
    | Boot(restored: seq<(int, nat)>)
    | ServePac(ts: seq<int>)
    | StartHandler(t: int, w: nat)
    | StopHandler(t: int, w: nat)
    | DeleteHandler(t: int)
    | AddHandler(t: int, w: nat)
    | Connection(t: int)
    | Watching(t: int, own: nat, held: nat)
    | BackendLog(t: int)
    | Subscriber(cleaner: nat)
    | Cleaner

  function CodeOf(r: Role): (c: Code)
    ensures Nested(0, c)
  {
    match r
    case Boot(ts) => Seq([Changing(), Reading(), Restoring(ts)])
    case ServePac(ts) => Seq([Reading(), Snapshots(ts)])
    case StartHandler(t, w) => Seq([Reading(), Maybe(Start(t, w))])
    case StopHandler(t, w) => Seq([Reading(), Maybe(Stop(t, w))])
    case DeleteHandler(t) => DeleteRequest(t)
    case AddHandler(t, w) => AddRequest(t, w)
    case Connection(t) => Repeatedly(Dial(t))
    case Watching(t, own, held) => WatcherLoop(t, own, held)
    case BackendLog(t) => Repeatedly(Log(t))
    case Subscriber(cleaner) => Subscription(cleaner)
    case Cleaner => Seq([Do(Io), Under(BusMu, true, Skip)])
  }

  /** A process: one goroutine per role, of which those in `running` are started and the others are still to be
      spawned. */
  ghost predicate Process(roles: seq<Role>, s: seq<Thread>) {
    |s| == |roles| && forall i :: 0 <= i < |s| ==>
      Trace(CodeOf(roles[i]), s[i].prog) && s[i].Held() == {} && !s[i].waiting
  }

  lemma ProcessStartsInOrder(roles: seq<Role>, s: seq<Thread>)
    requires Process(roles, s)
    ensures Inv(s)
  {
    forall i | 0 <= i < |s| ensures Disciplined(s[i]) {
      NestedIsOrdered(0, CodeOf(roles[i]), s[i].prog, {}, []);
      assert s[i].prog + [] == s[i].prog;
    }
  }

  /** No process deadlocks: any number of handlers, callbacks, connections and subscribers, under any interleaving,
      does at most the work there is, and stops only when every started goroutine has finished and no lock is held. */
  lemma NoProcessDeadlocks(roles: seq<Role>, s: seq<Thread>, schedule: seq<nat>)
    requires Process(roles, s) && CanRun(s, true, schedule)
    ensures Inv(s) && |schedule| <= Remaining(s)
    ensures var end := Run(s, true, schedule);
            (forall i :: !Enabled(end, true, i)) ==> Quiet(end) && forall l :: !Occupied(end, l)
  {
    ProcessStartsInOrder(roles, s);
    NoDeadlock(s, schedule);
  }
}
