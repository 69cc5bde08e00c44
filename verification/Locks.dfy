/** The locks of the process, threads that use them, and why no set of such threads can get stuck.

    Locks are Go's sync.RWMutex: a waiting writer announces itself and from then on keeps new readers out. */
module Locks {
  /** t.mu of a tailnet, m.mu of the registry, b.mu of the broadcaster, w.mu of a watcher, logMu of a tailnet. */
  datatype LockId = TailnetMu(tailnet: int) | RegistryMu | BusMu | WatcherMu(watcher: nat) | LogMu(tailnet: int)

  /** The lock order; the last two are leaves. */
  function Rank(l: LockId): nat {
    match l
    case TailnetMu(_) => 0
    case RegistryMu => 1
    case BusMu => 2
    case WatcherMu(_) => 3
    case LogMu(_) => 3
  }

  /** What a thread does as far as other threads can be held up by it. `Io` is work that ends by itself, and `Join`
      is the bounded wait for the exit of another thread. */
  datatype Instr = Acquire(l: LockId, write: bool) | Release(l: LockId) | Io | Spawn(thread: nat) | Join(thread: nat)

  /** A goroutine: what it has still to do, the locks it holds, whether it has announced itself as the next writer
      of the lock it is about to acquire, and whether it has been started. */
  datatype Thread = Thread(prog: seq<Instr>, reading: set<LockId>, writing: set<LockId>, waiting: bool, started: bool) {
    function Held(): set<LockId> {
      reading + writing
    }

    predicate WaitsFor(l: LockId) {
      waiting && prog != [] && prog[0] == Acquire(l, true)
    }

    predicate Unfinished() {
      started && prog != []
    }
  }

  // ----- Steps -------------------------------------------------------------------------------------

  /** Some thread holds the lock for writing or waits to do so. */
  predicate Claimed(s: seq<Thread>, l: LockId) {
    exists j :: 0 <= j < |s| && (l in s[j].writing || s[j].WaitsFor(l))
  }

  predicate Occupied(s: seq<Thread>, l: LockId) {
    exists j :: 0 <= j < |s| && l in s[j].Held()
  }

  predicate Finished(s: seq<Thread>, j: nat) {
    j < |s| ==> s[j].prog == []
  }

  /** Thread `i` can take its next step. With `timer` a join also ends when its time is up. */
  predicate Enabled(s: seq<Thread>, timer: bool, i: nat) {
    && i < |s| && s[i].Unfinished()
    && match s[i].prog[0]
       case Acquire(l, write) => if write && s[i].waiting then !Occupied(s, l) else !Claimed(s, l)
       case Join(j) => timer || Finished(s, j)
       case _ => true
  }

  function Advance(t: Thread): Thread
    requires t.prog != []
  {
    var rest := t.(prog := t.prog[1..], waiting := false);
    match t.prog[0]
    case Acquire(l, true) =>
      if t.waiting then rest.(writing := t.writing + {l}) else t.(waiting := true)
    case Acquire(l, false) => rest.(reading := t.reading + {l})
    case Release(l) => rest.(reading := t.reading - {l}, writing := t.writing - {l})
    case _ => rest
  }

  function Step(s: seq<Thread>, i: nat): (r: seq<Thread>)
    requires i < |s| && s[i].prog != []
    ensures |r| == |s|
  {
    var moved := s[i := Advance(s[i])];
    match s[i].prog[0]
    case Spawn(j) => if j < |s| then moved[j := moved[j].(started := true)] else moved
    case _ => moved
  }

  predicate CanRun(s: seq<Thread>, timer: bool, schedule: seq<nat>)
    decreases |schedule|
  {
    schedule == [] || (Enabled(s, timer, schedule[0]) && CanRun(Step(s, schedule[0]), timer, schedule[1..]))
  }

  function Run(s: seq<Thread>, timer: bool, schedule: seq<nat>): (r: seq<Thread>)
    requires CanRun(s, timer, schedule)
    ensures |r| == |s|
    decreases |schedule|
  {
    if schedule == [] then s else Run(Step(s, schedule[0]), timer, schedule[1..])
  }

  // ----- Lock order --------------------------------------------------------------------------------

  predicate Below(held: set<LockId>, rank: nat) {
    forall l :: l in held ==> Rank(l) < rank
  }

  /** With `held` locks in hand the program takes every further lock above all it holds, releases what it holds, and
      ends holding nothing. */
  predicate Ordered(held: set<LockId>, prog: seq<Instr>)
    decreases |prog|
  {
    if prog == [] then held == {}
    else match prog[0]
      case Acquire(l, _) => Below(held, Rank(l)) && Ordered(held + {l}, prog[1..])
      case Release(l) => l in held && Ordered(held - {l}, prog[1..])
      case _ => Ordered(held, prog[1..])
  }

  predicate Disciplined(t: Thread) {
    && Ordered(t.Held(), t.prog)
    && (!t.started ==> t.Held() == {} && !t.waiting)
    && (t.waiting ==> t.prog != [] && t.prog[0].Acquire? && t.prog[0].write)
  }

  /** No lock has two writers, or a writer and a reader; and no two threads wait as the next writer. */
  ghost predicate Apart(a: Thread, b: Thread) {
    && a.writing !! b.Held() && b.writing !! a.Held()
    && forall l :: a.WaitsFor(l) ==> !b.WaitsFor(l) && l !in b.writing
  }

  ghost predicate Inv(s: seq<Thread>) {
    && (forall i :: 0 <= i < |s| ==> Disciplined(s[i]))
    && (forall i, j :: 0 <= i < |s| && 0 <= j < |s| && i != j ==> Apart(s[i], s[j]))
  }

  lemma AdvanceKeepsDiscipline(t: Thread)
    requires Disciplined(t) && t.Unfinished()
    ensures Disciplined(Advance(t)) && Advance(t).started
  {
    match t.prog[0]
    case Acquire(l, _) =>
      var rest := Advance(t);
      assert rest.prog != t.prog ==> rest.Held() == t.Held() + {l};
    case Release(l) =>
      assert Advance(t).Held() == t.Held() - {l};
    case _ =>
  }

  lemma AdvanceKeepsApart(s: seq<Thread>, timer: bool, i: nat, j: nat)
    requires Inv(s) && Enabled(s, timer, i) && j < |s| && i != j
    ensures Apart(Advance(s[i]), s[j]) && Apart(s[j], Advance(s[i]))
  {
    assert Apart(s[i], s[j]) && Apart(s[j], s[i]);
    var a, b := Advance(s[i]), s[j];
    if s[i].prog[0].Acquire? {
      var l := s[i].prog[0].l;
      if s[i].prog[0].write && s[i].waiting {
        assert l !in b.Held();
        assert s[i].WaitsFor(l);
      } else {
        assert l !in b.writing && !b.WaitsFor(l);
      }
    }
  }

  lemma StepKeepsInv(s: seq<Thread>, timer: bool, i: nat)
    requires Inv(s) && Enabled(s, timer, i)
    ensures Inv(Step(s, i))
  {
    var moved := s[i := Advance(s[i])];
    AdvanceKeepsDiscipline(s[i]);
    forall j | 0 <= j < |s| && j != i
      ensures Apart(moved[i], moved[j]) && Apart(moved[j], moved[i])
    {
      AdvanceKeepsApart(s, timer, i, j);
    }
    assert Inv(moved);
    if s[i].prog[0].Spawn? && s[i].prog[0].thread < |s| {
      SpawnKeepsInv(moved, s[i].prog[0].thread);
    }
  }

  lemma SpawnKeepsInv(s: seq<Thread>, j: nat)
    requires Inv(s) && j < |s|
    ensures Inv(s[j := s[j].(started := true)])
  {
    var t := s[j].(started := true);
    assert t.Held() == s[j].Held();
    assert forall l :: t.WaitsFor(l) <==> s[j].WaitsFor(l);
    forall k | 0 <= k < |s| && k != j
      ensures Apart(t, s[k]) && Apart(s[k], t)
    {
      assert Apart(s[j], s[k]) && Apart(s[k], s[j]);
    }
  }

  /** Every run keeps the lock order and the exclusion of readers and writers. */
  lemma {:induction false} RunKeepsInv(s: seq<Thread>, timer: bool, schedule: seq<nat>)
    requires Inv(s) && CanRun(s, timer, schedule)
    ensures Inv(Run(s, timer, schedule))
    decreases |schedule|
  {
    if schedule != [] {
      StepKeepsInv(s, timer, schedule[0]);
      RunKeepsInv(Step(s, schedule[0]), timer, schedule[1..]);
    }
  }

  // ----- Progress ----------------------------------------------------------------------------------

  /** The height of what a thread is about to do: the rank of the lock it wants, or above all locks. */
  function Height(t: Thread): nat {
    if t.prog != [] && t.prog[0].Acquire? then Rank(t.prog[0].l) else 4
  }

  /** A holder of a lock has something to do, and it is not to take a lock of that rank or below. */
  lemma HolderIsAbove(t: Thread, l: LockId)
    requires Disciplined(t) && l in t.Held()
    ensures t.Unfinished() && Height(t) > Rank(l)
  {
  }

  /** A thread that waits for an occupied lock waits for a thread that is further up. */
  lemma Blocker(s: seq<Thread>, l: LockId) returns (k: nat)
    requires Inv(s) && Occupied(s, l)
    ensures k < |s| && s[k].Unfinished() && Height(s[k]) > Rank(l)
  {
    k :| 0 <= k < |s| && l in s[k].Held();
    HolderIsAbove(s[k], l);
  }

  /** Following the holders of the wanted locks upwards ends at a thread that can move. */
  lemma {:induction false} SomebodyMoves(s: seq<Thread>, i: nat) returns (k: nat)
    requires Inv(s) && i < |s| && s[i].Unfinished()
    ensures Enabled(s, true, k)
    decreases 4 - Height(s[i])
  {
    if Enabled(s, true, i) {
      k := i;
    } else {
      var l := s[i].prog[0].l;
      var holder: nat;
      if Occupied(s, l) {
        holder := Blocker(s, l);
        k := SomebodyMoves(s, holder);
      } else {
        k :| 0 <= k < |s| && (l in s[k].writing || s[k].WaitsFor(l));
        assert l !in s[k].Held();
        assert Disciplined(s[k]);
      }
    }
  }

  // ----- Every run ends ----------------------------------------------------------------------------

  function Work(t: Thread): nat
    requires Disciplined(t)
  {
    2 * |t.prog| - if t.waiting then 1 else 0
  }

  /** Steps left in all threads together. */
  function Remaining(s: seq<Thread>): nat
    requires forall i :: 0 <= i < |s| ==> Disciplined(s[i])
  {
    if s == [] then 0
    else
      var last := s[|s| - 1];
      assert Disciplined(last);
      Remaining(s[..|s| - 1]) + Work(last)
  }

  lemma {:induction false} ReplaceOne(s: seq<Thread>, i: nat, t: Thread)
    requires i < |s| && Disciplined(t)
    requires forall k :: 0 <= k < |s| ==> Disciplined(s[k])
    ensures Remaining(s[i := t]) == Remaining(s) - Work(s[i]) + Work(t)
  {
    var n := |s| - 1;
    if i == n {
      assert s[i := t][..n] == s[..n];
    } else {
      ReplaceOne(s[..n], i, t);
      assert s[i := t][..n] == s[..n][i := t];
    }
  }

  lemma StepUsesUp(s: seq<Thread>, timer: bool, i: nat)
    requires Inv(s) && Enabled(s, timer, i)
    ensures Inv(Step(s, i)) && Remaining(Step(s, i)) < Remaining(s)
  {
    StepKeepsInv(s, timer, i);
    AdvanceKeepsDiscipline(s[i]);
    var moved := s[i := Advance(s[i])];
    ReplaceOne(s, i, Advance(s[i]));
    if s[i].prog[0].Spawn? && s[i].prog[0].thread < |s| {
      var j := s[i].prog[0].thread;
      ReplaceOne(moved, j, moved[j].(started := true));
    }
  }

  /** All started threads are done. */
  predicate Quiet(s: seq<Thread>) {
    forall i :: 0 <= i < |s| ==> !s[i].Unfinished()
  }

  /** Deadlock freedom: however the threads are interleaved, a run is never longer than the work there is; and where
      nobody can move, every started thread has finished and no lock is held. */
  lemma {:induction false} NoDeadlock(s: seq<Thread>, schedule: seq<nat>)
    requires Inv(s) && CanRun(s, true, schedule)
    ensures |schedule| <= Remaining(s)
    ensures var end := Run(s, true, schedule);
            (forall i :: !Enabled(end, true, i)) ==> Quiet(end) && forall l :: !Occupied(end, l)
    decreases |schedule|
  {
    if schedule == [] {
      forall i | 0 <= i < |s| && s[i].Unfinished() ensures exists k :: Enabled(s, true, k) {
        var k := SomebodyMoves(s, i);
      }
      forall l, i | 0 <= i < |s| && l in s[i].Held() ensures s[i].Unfinished() {
        HolderIsAbove(s[i], l);
      }
    } else {
      StepUsesUp(s, true, schedule[0]);
      NoDeadlock(Step(s, schedule[0]), schedule[1..]);
    }
  }

  // ----- Why the joins need their timer ------------------------------------------------------------

  /** `a` waits for the exit of `b`; and `b` wants a lock that `a` holds, or is `a` itself. */
  predicate Knot(s: seq<Thread>, a: nat, b: nat) {
    && a < |s| && b < |s|
    && s[a].Unfinished() && s[a].prog[0] == Join(b)
    && (a == b || (s[b].Unfinished() && s[b].prog[0].Acquire? && s[b].prog[0].l in s[a].writing))
  }

  lemma KnotHolds(s: seq<Thread>, a: nat, b: nat, i: nat)
    requires Inv(s) && Knot(s, a, b) && Enabled(s, false, i)
    ensures i != a && Knot(Step(s, i), a, b)
  {
    var wanted := s[b].prog[0];
    assert wanted.Acquire? && wanted.l in s[a].writing ==> wanted.l in s[a].Held();
    assert wanted.Acquire? && wanted.l in s[a].writing ==> Occupied(s, wanted.l) && Claimed(s, wanted.l);
  }

  /** Without the timer such a join never returns, whatever the other threads do. */
  lemma {:induction false} WithoutTimerForever(s: seq<Thread>, a: nat, b: nat, schedule: seq<nat>)
    requires Inv(s) && Knot(s, a, b) && CanRun(s, false, schedule)
    ensures Knot(Run(s, false, schedule), a, b) && !Enabled(Run(s, false, schedule), false, a)
    ensures a !in schedule
    decreases |schedule|
  {
    if schedule != [] {
      KnotHolds(s, a, b, schedule[0]);
      StepKeepsInv(s, false, schedule[0]);
      WithoutTimerForever(Step(s, schedule[0]), a, b, schedule[1..]);
    }
  }
}
