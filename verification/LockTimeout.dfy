/** The bounded wait in a watcher's Close is needed: without its timer, stopping a tailnet whose watcher has a
    notification in hand gets stuck. */
module LockTimeout {
  import opened Locks
  import opened LockUse

  /** No thread but `i` holds a lock or waits for one. */
  predicate Alone(s: seq<Thread>, i: nat) {
    && i < |s| && s[i].started && !s[i].waiting
    && forall j :: 0 <= j < |s| && j != i ==> s[j].Held() == {} && !s[j].waiting
  }

  ghost predicate Reaches(s: seq<Thread>, r: seq<Thread>) {
    exists schedule :: CanRun(s, false, schedule) && Run(s, false, schedule) == r
  }

  lemma {:induction false} RunAppend(s: seq<Thread>, timer: bool, a: seq<nat>, b: seq<nat>)
    requires CanRun(s, timer, a) && CanRun(Run(s, timer, a), timer, b)
    ensures CanRun(s, timer, a + b) && Run(s, timer, a + b) == Run(Run(s, timer, a), timer, b)
    decreases |a|
  {
    if a == [] {
      assert a + b == b;
    } else {
      assert (a + b)[1..] == a[1..] + b;
      RunAppend(Step(s, a[0]), timer, a[1..], b);
    }
  }

  lemma ReachesFurther(s: seq<Thread>, r: seq<Thread>, q: seq<Thread>)
    requires Reaches(s, r) && Reaches(r, q)
    ensures Reaches(s, q)
  {
    var a :| CanRun(s, false, a) && Run(s, false, a) == r;
    var b :| CanRun(r, false, b) && Run(r, false, b) == q;
    RunAppend(s, false, a, b);
  }

  lemma ReachesByStep(s: seq<Thread>, i: nat)
    requires Inv(s) && Enabled(s, false, i)
    ensures Reaches(s, Step(s, i)) && Inv(Step(s, i))
  {
    StepKeepsInv(s, false, i);
    var next := Step(s, i);
    assert [i][1..] == [];
    assert CanRun(next, false, []) && Run(next, false, []) == next;
    assert CanRun(s, false, [i]) && Run(s, false, [i]) == next;
  }

  /** A thread that is alone gets a lock for writing in two steps: it announces itself and enters. */
  lemma Enter(s: seq<Thread>, i: nat, l: LockId, rest: seq<Instr>)
    requires Inv(s) && Alone(s, i) && s[i].prog == [Acquire(l, true)] + rest
    ensures var r := s[i := s[i].(prog := rest, writing := s[i].writing + {l})];
            Reaches(s, r) && Inv(r) && Alone(r, i)
  {
    assert Disciplined(s[i]) && s[i].prog[1..] == rest;
    assert Enabled(s, false, i);
    ReachesByStep(s, i);
    var s1 := Step(s, i);
    assert s1 == s[i := s[i].(waiting := true)];
    assert Enabled(s1, false, i);
    ReachesByStep(s1, i);
    ReachesFurther(s, s1, Step(s1, i));
    assert Step(s1, i) == s[i := s[i].(prog := rest, writing := s[i].writing + {l})];
  }

  lemma EnterToRead(s: seq<Thread>, i: nat, l: LockId, rest: seq<Instr>)
    requires Inv(s) && Alone(s, i) && s[i].prog == [Acquire(l, false)] + rest
    ensures var r := s[i := s[i].(prog := rest, reading := s[i].reading + {l})];
            Reaches(s, r) && Inv(r) && Alone(r, i)
  {
    assert Disciplined(s[i]) && s[i].prog[1..] == rest;
    assert Enabled(s, false, i);
    ReachesByStep(s, i);
    assert Step(s, i) == s[i := s[i].(prog := rest, reading := s[i].reading + {l})];
  }

  lemma DoIo(s: seq<Thread>, i: nat, rest: seq<Instr>)
    requires Inv(s) && Alone(s, i) && s[i].prog == [Io] + rest
    ensures var r := s[i := s[i].(prog := rest)]; Reaches(s, r) && Inv(r) && Alone(r, i)
  {
    assert Disciplined(s[i]) && s[i].prog[1..] == rest;
    assert Enabled(s, false, i);
    ReachesByStep(s, i);
    assert Step(s, i) == s[i := s[i].(prog := rest)];
  }

  lemma Leave(s: seq<Thread>, i: nat, l: LockId, rest: seq<Instr>)
    requires Inv(s) && Alone(s, i) && s[i].prog == [Release(l)] + rest
    ensures var r := s[i := s[i].(prog := rest, reading := s[i].reading - {l}, writing := s[i].writing - {l})];
            Reaches(s, r) && Inv(r) && Alone(r, i)
  {
    assert Disciplined(s[i]) && s[i].prog[1..] == rest;
    assert Enabled(s, false, i);
    ReachesByStep(s, i);
    assert Step(s, i) == s[i := s[i].(prog := rest, reading := s[i].reading - {l}, writing := s[i].writing - {l})];
  }

  function Block(l: LockId, write: bool, inner: seq<Instr>): seq<Instr> {
    [Acquire(l, write)] + inner + [Release(l)]
  }

  /** An empty block leaves nothing behind. */
  lemma Pass(s: seq<Thread>, i: nat, l: LockId, write: bool, rest: seq<Instr>)
    requires Inv(s) && Alone(s, i) && s[i].prog == Block(l, write, []) + rest
    ensures var r := s[i := s[i].(prog := rest)]; Reaches(s, r) && Inv(r) && Alone(r, i)
  {
    var after := [Release(l)] + rest;
    assert s[i].prog == [Acquire(l, write)] + after;
    NotHeldYet(s, i, l, write, after);
    if write {
      Enter(s, i, l, after);
    } else {
      EnterToRead(s, i, l, after);
    }
    var s1 := s[i := Inside(s[i], l, write, after)];
    Leave(s1, i, l, rest);
    ReachesFurther(s, s1, s[i := s[i].(prog := rest)]);
  }

  function Inside(t: Thread, l: LockId, write: bool, after: seq<Instr>): Thread {
    if write then t.(prog := after, writing := t.writing + {l}) else t.(prog := after, reading := t.reading + {l})
  }

  lemma NotHeldYet(s: seq<Thread>, i: nat, l: LockId, write: bool, after: seq<Instr>)
    requires Inv(s) && i < |s| && s[i].prog == [Acquire(l, write)] + after
    ensures forall rest: seq<Instr> ::
              var inside := Inside(s[i], l, write, after);
              var left := inside.(prog := rest, reading := inside.reading - {l}, writing := inside.writing - {l});
              left == s[i].(prog := rest) && s[i := inside][i := left] == s[i := s[i].(prog := rest)]
  {
    var t := s[i];
    assert Disciplined(t) && Below(t.Held(), Rank(l));
    assert l !in t.Held();
    assert t.writing + {l} - {l} == t.writing && t.reading + {l} - {l} == t.reading;
    assert t.writing - {l} == t.writing && t.reading - {l} == t.reading;
  }

  // ----- A stop and a callback that meet -----------------------------------------------------------

  lemma TraceFirst(a: Code, cs: seq<Code>, p: seq<Instr>, q: seq<Instr>)
    requires Trace(a, p) && Trace(Seq(cs), q)
    ensures Trace(Seq([a] + cs), p + q)
  {
    assert ([a] + cs)[1..] == cs;
    assert (p + q)[..|p|] == p && (p + q)[|p|..] == q;
  }

  function Flat(ps: seq<seq<Instr>>): seq<Instr> {
    if ps == [] then [] else ps[0] + Flat(ps[1..])
  }

  /** Traces of the parts, one after the other, are a trace of the sequence. */
  lemma {:induction false} TraceSeq(cs: seq<Code>, ps: seq<seq<Instr>>)
    requires |cs| == |ps| && forall i :: 0 <= i < |cs| ==> Trace(cs[i], ps[i])
    ensures Trace(Seq(cs), Flat(ps))
  {
    if cs != [] {
      TraceSeq(cs[1..], ps[1..]);
      TraceFirst(cs[0], cs[1..], ps[0], Flat(ps[1..]));
      assert cs == [cs[0]] + cs[1..];
    }
  }

  lemma TraceUnder(l: LockId, write: bool, body: Code, inner: seq<Instr>)
    requires Trace(body, inner)
    ensures Trace(Under(l, write, body), Block(l, write, inner))
  {
    var p := Block(l, write, inner);
    assert p[1..|p| - 1] == inner;
  }

  function ToLog(t: int): seq<Instr> {
    Block(LogMu(t), false, [])
  }

  function ToNotify(): seq<Instr> {
    Flat([Block(BusMu, false, []), [Io]])
  }

  function ToSetState(t: int): seq<Instr> {
    Flat([ToLog(t), ToNotify()])
  }

  function ToClose(w: nat): seq<Instr> {
    Flat([Block(WatcherMu(w), true, []), [Io], [Join(w)]])
  }

  lemma LogTrace(t: int)
    ensures Trace(Log(t), ToLog(t))
  {
    TraceUnder(LogMu(t), false, Skip, []);
  }

  lemma NotifyTrace()
    ensures Trace(Notify(), ToNotify())
  {
    TraceUnder(BusMu, false, Skip, []);
    TraceSeq([Under(BusMu, false, Skip), Do(Io)], [Block(BusMu, false, []), [Io]]);
  }

  lemma SetStateTrace(t: int)
    ensures Trace(SetState(t), ToSetState(t))
  {
    LogTrace(t);
    NotifyTrace();
    TraceSeq([Log(t), Notify()], [ToLog(t), ToNotify()]);
  }

  lemma MirrorTrace()
    ensures Trace(Mirror(), Block(RegistryMu, true, []))
  {
    TraceUnder(RegistryMu, true, Maybe(Do(Io)), []);
  }

  lemma CloseTrace(w: nat)
    ensures Trace(CloseWatcher(w), ToClose(w))
  {
    TraceUnder(WatcherMu(w), true, Skip, []);
    TraceSeq([Under(WatcherMu(w), true, Skip), Do(Io), Do(Join(w))], [Block(WatcherMu(w), true, []), [Io], [Join(w)]]);
  }

  /** A stop that has no proxy and no server to close. */
  function ToStop(t: int, w: nat): seq<Instr> {
    Block(TailnetMu(t), true,
          Flat([Block(RegistryMu, true, []), ToLog(t),
                Flat([[], Flat([ToLog(t), ToClose(w), ToLog(t)]), [], []]), ToSetState(t)]))
  }

  lemma StopTrace(t: int, w: nat)
    ensures Trace(Stop(t, w), ToStop(t, w))
  {
    LogTrace(t);
    SetStateTrace(t);
    MirrorTrace();
    CloseTrace(w);
    var close := Seq([Log(t), CloseWatcher(w), Log(t)]);
    var toClose := Flat([ToLog(t), ToClose(w), ToLog(t)]);
    TraceSeq([Log(t), CloseWatcher(w), Log(t)], [ToLog(t), ToClose(w), ToLog(t)]);
    var proxy := Maybe(Seq([Log(t), Do(Io), Log(t)]));
    TraceSeq([proxy, Maybe(close), proxy, Maybe(Log(t))], [[], toClose, [], []]);
    var all := [Block(RegistryMu, true, []), ToLog(t), Flat([[], toClose, [], []]), ToSetState(t)];
    TraceSeq([Mirror(), Log(t), StopHandles(t, w), SetState(t)], all);
    TraceUnder(TailnetMu(t), true, Maybe(Seq([Mirror(), Log(t), StopHandles(t, w), SetState(t)])), Flat(all));
  }

  /** One notification whose callback does nothing under the lock. */
  function ToWatch(t: int, w: nat): seq<Instr> {
    Flat([[Io], ToRound(t, w)])
  }

  function ToRound(t: int, w: nat): seq<Instr> {
    Flat([[Io], Block(WatcherMu(w), true, []), Flat([ToLog(t), Block(TailnetMu(t), true, []), [], []])])
  }

  lemma WatchTrace(t: int, w: nat)
    ensures Trace(WatcherLoop(t, w, w), ToWatch(t, w))
  {
    LogTrace(t);
    var section := Under(TailnetMu(t), true, Maybe(ClaimSuffix(t)));
    TraceUnder(TailnetMu(t), true, Maybe(ClaimSuffix(t)), []);
    TraceUnder(WatcherMu(w), true, Skip, []);
    var back := Flat([ToLog(t), Block(TailnetMu(t), true, []), [], []]);
    TraceSeq([Log(t), section, Maybe(Cleanup(t, w)), Maybe(Notify())],
             [ToLog(t), Block(TailnetMu(t), true, []), [], []]);
    var round := Seq([Do(Io), Under(WatcherMu(w), true, Skip), Callback(t, w)]);
    TraceSeq([Do(Io), Under(WatcherMu(w), true, Skip), Callback(t, w)], [[Io], Block(WatcherMu(w), true, []), back]);
    OneRound(round, ToRound(t, w));
    TraceSeq([Do(Io), Repeatedly(round)], [[Io], ToRound(t, w)]);
  }

  lemma OneRound(body: Code, p: seq<Instr>)
    requires Trace(body, p)
    ensures Trace(Loop(body), p)
  {
    assert p[..|p|] == p && p[|p|..] == [];
    assert Rounds(body, 0, p[|p|..]);
    assert Rounds(body, 1, p);
  }

  /** A stop handler for tailnet `t` beside the watcher of that tailnet, which is goroutine 1. */
  function Meeting(t: int): seq<Thread> {
    [Thread(Flat([Block(RegistryMu, false, []), ToStop(t, 1)]), {}, {}, false, true),
     Thread(ToWatch(t, 1), {}, {}, false, true)]
  }

  lemma StopHandlerTrace(t: int, w: nat)
    ensures Trace(CodeOf(StopHandler(t, w)), Flat([Block(RegistryMu, false, []), ToStop(t, w)]))
  {
    StopTrace(t, w);
    TraceUnder(RegistryMu, false, Skip, []);
    TraceSeq([Reading(), Maybe(Stop(t, w))], [Block(RegistryMu, false, []), ToStop(t, w)]);
  }

  lemma MeetingIsProcess(t: int)
    ensures Process([StopHandler(t, 1), Watching(t, 1, 1)], Meeting(t))
  {
    StopHandlerTrace(t, 1);
    WatchingTrace(t, 1);
    var stop := Flat([Block(RegistryMu, false, []), ToStop(t, 1)]);
    TwoGoroutines(StopHandler(t, 1), Watching(t, 1, 1), stop, ToWatch(t, 1));
  }

  lemma WatchingTrace(t: int, w: nat)
    ensures Trace(CodeOf(Watching(t, w, w)), ToWatch(t, w))
  {
    WatchTrace(t, w);
  }

  lemma TwoGoroutines(a: Role, b: Role, p: seq<Instr>, q: seq<Instr>)
    requires Trace(CodeOf(a), p) && Trace(CodeOf(b), q)
    ensures Process([a, b], [Thread(p, {}, {}, false, true), Thread(q, {}, {}, false, true)])
  {
  }

  /** The rest of the stop after the watcher has been joined. */
  function AfterJoin(t: int): seq<Instr> {
    ToLog(t) + (ToSetState(t) + [Release(TailnetMu(t))])
  }

  lemma StopShape(t: int)
    ensures Flat([Block(RegistryMu, false, []), ToStop(t, 1)]) ==
            Block(RegistryMu, false, []) + ([Acquire(TailnetMu(t), true)] + (Block(RegistryMu, true, []) + (ToLog(t)
            + (ToLog(t) + (Block(WatcherMu(1), true, []) + ([Io] + ([Join(1)] + AfterJoin(t))))))))
  {
    var c := ToClose(1);
    Flat3(Block(WatcherMu(1), true, []), [Io], [Join(1)]);
    Flat3(ToLog(t), c, ToLog(t));
    var d := Flat([ToLog(t), c, ToLog(t)]);
    Flat4([], d, [], []);
    Flat4(Block(RegistryMu, true, []), ToLog(t), Flat([[], d, [], []]), ToSetState(t));
    Flat2(Block(RegistryMu, false, []), ToStop(t, 1));
    Regroup(Block(RegistryMu, false, []), [Acquire(TailnetMu(t), true)], Block(RegistryMu, true, []), ToLog(t),
            Block(WatcherMu(1), true, []), [Io], [Join(1)], ToSetState(t), [Release(TailnetMu(t))]);
  }

  lemma Flat2(a: seq<Instr>, b: seq<Instr>)
    ensures Flat([a, b]) == a + b
  {
    assert [a, b][1..] == [b] && [b][1..] == [];
    assert Flat([b]) == b + [] == b;
  }

  lemma Flat3(a: seq<Instr>, b: seq<Instr>, c: seq<Instr>)
    ensures Flat([a, b, c]) == a + (b + c)
  {
    assert [a, b, c][1..] == [b, c];
    Flat2(b, c);
  }

  lemma Flat4(a: seq<Instr>, b: seq<Instr>, c: seq<Instr>, d: seq<Instr>)
    ensures Flat([a, b, c, d]) == a + (b + (c + d))
  {
    assert [a, b, c, d][1..] == [b, c, d];
    Flat3(b, c, d);
  }

  lemma Regroup<T>(a: seq<T>, b: seq<T>, c: seq<T>, l: seq<T>, w: seq<T>, io: seq<T>, j: seq<T>, s: seq<T>, r: seq<T>)
    ensures a + (b + (c + (l + ((l + ((w + (io + j)) + l)) + s))) + r) ==
            a + (b + (c + (l + (l + (w + (io + (j + (l + (s + r)))))))))
  {
    var x := l + (s + r);
    assert (w + (io + j)) + x == w + (io + (j + x));
    assert (l + ((w + (io + j)) + l)) + s + r == l + ((w + (io + j)) + x);
    assert l + ((l + ((w + (io + j)) + l)) + s) + r == l + ((l + ((w + (io + j)) + l)) + s + r);
    assert b + (c + (l + ((l + ((w + (io + j)) + l)) + s))) + r == b + (c + (l + ((l + ((w + (io + j)) + l)) + s) + r));
  }

  lemma WatchShape(t: int)
    ensures ToWatch(t, 1) ==
            [Io] + ([Io] + (Block(WatcherMu(1), true, []) + (ToLog(t)
            + ([Acquire(TailnetMu(t), true)] + [Release(TailnetMu(t))]))))
  {
    var section := Block(TailnetMu(t), true, []);
    Flat4(ToLog(t), section, [], []);
    Flat3([Io], Block(WatcherMu(1), true, []), Flat([ToLog(t), section, [], []]));
    Flat2([Io], ToRound(t, 1));
    assert section + ([] + []) == [Acquire(TailnetMu(t), true)] + [Release(TailnetMu(t))];
  }

  /** From `s`, thread `i` alone can bring itself to `t`. */
  ghost predicate Brought(s: seq<Thread>, i: nat, t: Thread) {
    i < |s| && Reaches(s, s[i := t]) && Inv(s[i := t]) && Alone(s[i := t], i)
  }

  lemma NextIo(s: seq<Thread>, i: nat, t: Thread, rest: seq<Instr>)
    requires Brought(s, i, t) && t.prog == [Io] + rest
    ensures Brought(s, i, t.(prog := rest))
  {
    var u := t.(prog := rest);
    DoIo(s[i := t], i, rest);
    assert s[i := t][i := u] == s[i := u];
    ReachesFurther(s, s[i := t], s[i := u]);
  }

  lemma NextPass(s: seq<Thread>, i: nat, t: Thread, l: LockId, write: bool, rest: seq<Instr>)
    requires Brought(s, i, t) && t.prog == Block(l, write, []) + rest
    ensures Brought(s, i, t.(prog := rest))
  {
    var u := t.(prog := rest);
    Pass(s[i := t], i, l, write, rest);
    assert s[i := t][i := u] == s[i := u];
    ReachesFurther(s, s[i := t], s[i := u]);
  }

  lemma NextEnter(s: seq<Thread>, i: nat, t: Thread, l: LockId, rest: seq<Instr>)
    requires Brought(s, i, t) && t.prog == [Acquire(l, true)] + rest
    ensures Brought(s, i, t.(prog := rest, writing := t.writing + {l}))
  {
    var u := t.(prog := rest, writing := t.writing + {l});
    Enter(s[i := t], i, l, rest);
    assert s[i := t][i := u] == s[i := u];
    ReachesFurther(s, s[i := t], s[i := u]);
  }

  lemma Here(s: seq<Thread>, i: nat)
    requires Inv(s) && Alone(s, i)
    ensures Brought(s, i, s[i])
  {
    assert s[i := s[i]] == s;
    assert CanRun(s, false, []) && Run(s, false, []) == s;
  }

  /** The watcher's goroutine comes to the lock of its tailnet. */
  lemma WatcherArrives(s: seq<Thread>, i: nat, t: int, w: nat, rest: seq<Instr>)
    requires Inv(s) && Alone(s, i)
    requires s[i].prog == [Io] + ([Io] + (Block(WatcherMu(w), true, []) + (ToLog(t) + rest)))
    ensures Brought(s, i, s[i].(prog := rest))
  {
    Here(s, i);
    var p3 := ToLog(t) + rest;
    var p2 := Block(WatcherMu(w), true, []) + p3;
    NextIo(s, i, s[i], [Io] + p2);
    NextIo(s, i, s[i].(prog := [Io] + p2), p2);
    NextPass(s, i, s[i].(prog := p2), WatcherMu(w), true, p3);
    NextPass(s, i, s[i].(prog := p3), LogMu(t), false, rest);
  }

  /** The stop comes to the join, with the lock of its tailnet in hand. */
  lemma StopArrives(s: seq<Thread>, i: nat, t: int, w: nat, rest: seq<Instr>)
    requires Inv(s) && Alone(s, i)
    requires s[i].prog == Block(RegistryMu, false, []) + ([Acquire(TailnetMu(t), true)] + (Block(RegistryMu, true, [])
                          + (ToLog(t) + (ToLog(t) + (Block(WatcherMu(w), true, []) + ([Io] + rest))))))
    ensures Brought(s, i, s[i].(prog := rest, writing := s[i].writing + {TailnetMu(t)}))
  {
    Here(s, i);
    var p5 := [Io] + rest;
    var p4 := Block(WatcherMu(w), true, []) + p5;
    var p3 := ToLog(t) + p4;
    var p2 := ToLog(t) + p3;
    var p1 := Block(RegistryMu, true, []) + p2;
    var p0 := [Acquire(TailnetMu(t), true)] + p1;
    NextPass(s, i, s[i], RegistryMu, false, p0);
    NextEnter(s, i, s[i].(prog := p0), TailnetMu(t), p1);
    var u := s[i].(prog := p1, writing := s[i].writing + {TailnetMu(t)});
    NextPass(s, i, u, RegistryMu, true, p2);
    NextPass(s, i, u.(prog := p2), LogMu(t), false, p3);
    NextPass(s, i, u.(prog := p3), LogMu(t), false, p4);
    NextPass(s, i, u.(prog := p4), WatcherMu(w), true, p5);
    NextIo(s, i, u.(prog := p5), rest);
  }

  /** Two goroutines of the process suffice: without the timer there is a run after which the stop waits for the
      watcher and the watcher for the stop. By WithoutTimerForever they then wait for ever. */
  lemma StopNeedsItsTimer(t: int)
    ensures Process([StopHandler(t, 1), Watching(t, 1, 1)], Meeting(t))
    ensures exists stuck :: Reaches(Meeting(t), stuck) && Inv(stuck) && Knot(stuck, 0, 1)
  {
    var s := Meeting(t);
    MeetingIsProcess(t);
    ProcessStartsInOrder([StopHandler(t, 1), Watching(t, 1, 1)], s);
    WatchShape(t);
    StopShape(t);
    var atLock := [Acquire(TailnetMu(t), true)] + [Release(TailnetMu(t))];
    WatcherArrives(s, 1, t, 1, atLock);
    var s1 := s[1 := s[1].(prog := atLock)];
    var atJoin := [Join(1)] + AfterJoin(t);
    StopArrives(s1, 0, t, 1, atJoin);
    var stuck := s1[0 := s1[0].(prog := atJoin, writing := s1[0].writing + {TailnetMu(t)})];
    ReachesFurther(s, s1, stuck);
    assert Knot(stuck, 0, 1);
  }

  // ----- A cleanup that joins its own goroutine -----------------------------------------------------

  lemma NextLeave(s: seq<Thread>, i: nat, t: Thread, l: LockId, rest: seq<Instr>)
    requires Brought(s, i, t) && t.prog == [Release(l)] + rest
    ensures Brought(s, i, t.(prog := rest, reading := t.reading - {l}, writing := t.writing - {l}))
  {
    var u := t.(prog := rest, reading := t.reading - {l}, writing := t.writing - {l});
    Leave(s[i := t], i, l, rest);
    assert s[i := t][i := u] == s[i := u];
    ReachesFurther(s, s[i := t], s[i := u]);
  }

  /** A claim that collides, under the tailnet's lock: the claim, the log line, and both mirrored fields. */
  function ToFatal(t: int): seq<Instr> {
    Flat([Block(RegistryMu, true, []), Flat([ToLog(t), Block(RegistryMu, true, []), Block(RegistryMu, true, [])])])
  }

  lemma FatalTrace(t: int)
    ensures Trace(ClaimSuffix(t), ToFatal(t))
  {
    LogTrace(t);
    MirrorTrace();
    TraceUnder(RegistryMu, true, Maybe(Seq([Do(Io), Maybe(Notify())])), []);
    var reg := Block(RegistryMu, true, []);
    var mirrored := Flat([ToLog(t), reg, reg]);
    TraceSeq([Log(t), Maybe(Mirror()), Maybe(Mirror())], [ToLog(t), reg, reg]);
    var saved := Seq([Maybe(Log(t)), Maybe(Under(LogMu(t), true, Skip))]);
    TraceSeq([Claim(), Or(Seq([Log(t), Maybe(Mirror()), Maybe(Mirror())]), saved)], [reg, mirrored]);
  }

  /** The callback of a fatal collision, up to the end of its cleanup; the proxy and the server are gone already. */
  function ToEnd(t: int, held: nat): seq<Instr> {
    Flat([ToLog(t), Block(TailnetMu(t), true, ToFatal(t)), Flat([[], ToClose(held), []]), []])
  }

  lemma EndTrace(t: int, held: nat)
    ensures Trace(Callback(t, held), ToEnd(t, held))
  {
    LogTrace(t);
    FatalTrace(t);
    CloseTrace(held);
    TraceUnder(TailnetMu(t), true, Maybe(ClaimSuffix(t)), ToFatal(t));
    var other := Maybe(Seq([Do(Io), Maybe(Log(t))]));
    TraceSeq([other, Maybe(CloseWatcher(held)), other], [[], ToClose(held), []]);
    TraceSeq([Log(t), Under(TailnetMu(t), true, Maybe(ClaimSuffix(t))), Maybe(Cleanup(t, held)), Maybe(Notify())],
             [ToLog(t), Block(TailnetMu(t), true, ToFatal(t)), Flat([[], ToClose(held), []]), []]);
  }

  /** A watcher's goroutine with one notification, whose callback ends in such a collision. */
  function ToCollide(t: int, own: nat, held: nat): seq<Instr> {
    Flat([[Io], Flat([[Io], Block(WatcherMu(own), true, []), ToEnd(t, held)])])
  }

  lemma CollideTrace(t: int, own: nat, held: nat)
    ensures Trace(CodeOf(Watching(t, own, held)), ToCollide(t, own, held))
  {
    EndTrace(t, held);
    TraceUnder(WatcherMu(own), true, Skip, []);
    var round := Seq([Do(Io), Under(WatcherMu(own), true, Skip), Callback(t, held)]);
    var toRound := Flat([[Io], Block(WatcherMu(own), true, []), ToEnd(t, held)]);
    TraceSeq([Do(Io), Under(WatcherMu(own), true, Skip), Callback(t, held)],
             [[Io], Block(WatcherMu(own), true, []), ToEnd(t, held)]);
    OneRound(round, toRound);
    TraceSeq([Do(Io), Repeatedly(round)], [[Io], toRound]);
  }

  /** What the locked section and the cleanup execute, after the goroutine has come to the lock of its tailnet. */
  function FromLock(t: int, held: nat): seq<Instr> {
    [Acquire(TailnetMu(t), true)] + (Block(RegistryMu, true, []) + (ToLog(t) + (Block(RegistryMu, true, [])
    + (Block(RegistryMu, true, []) + ([Release(TailnetMu(t))] + (Block(WatcherMu(held), true, [])
    + ([Io] + [Join(held)])))))))
  }

  lemma CollideShape(t: int, own: nat, held: nat)
    ensures ToCollide(t, own, held) ==
            [Io] + ([Io] + (Block(WatcherMu(own), true, []) + (ToLog(t) + FromLock(t, held))))
  {
    var reg := Block(RegistryMu, true, []);
    Flat3(ToLog(t), reg, reg);
    Flat2(reg, Flat([ToLog(t), reg, reg]));
    Flat3(Block(WatcherMu(held), true, []), [Io], [Join(held)]);
    Flat3([], ToClose(held), []);
    Flat4(ToLog(t), Block(TailnetMu(t), true, ToFatal(t)), Flat([[], ToClose(held), []]), []);
    Flat3([Io], Block(WatcherMu(own), true, []), ToEnd(t, held));
    Flat2([Io], Flat([[Io], Block(WatcherMu(own), true, []), ToEnd(t, held)]));
    SectionRegrouped([Acquire(TailnetMu(t), true)], reg, ToLog(t), [Release(TailnetMu(t))],
                     Block(WatcherMu(held), true, []), [Io], [Join(held)]);
  }

  lemma SectionRegrouped<T>(a: seq<T>, g: seq<T>, l: seq<T>, r: seq<T>, w: seq<T>, io: seq<T>, j: seq<T>)
    ensures (a + (g + (l + (g + g))) + r) + (([] + ((w + (io + j)) + [])) + []) ==
            a + (g + (l + (g + (g + (r + (w + (io + j)))))))
  {
    var x := w + (io + j);
    assert ([] + (x + [])) + [] == x;
    assert a + (g + (l + (g + g))) + r == a + (g + (l + (g + (g + r))));
    assert (a + (g + (l + (g + (g + r))))) + x == a + (g + (l + (g + (g + (r + x)))));
  }

  /** Through the locked section to the join. */
  lemma CleanupArrives(s: seq<Thread>, i: nat, u: Thread, t: int, held: nat)
    requires Brought(s, i, u) && u.prog == FromLock(t, held) && TailnetMu(t) !in u.Held()
    ensures Brought(s, i, u.(prog := [Join(held)]))
  {
    var reg := Block(RegistryMu, true, []);
    var p6 := [Io] + [Join(held)];
    var p5 := Block(WatcherMu(held), true, []) + p6;
    var p4 := [Release(TailnetMu(t))] + p5;
    var p3 := reg + p4;
    var p2 := reg + p3;
    var p1 := ToLog(t) + p2;
    NextEnter(s, i, u, TailnetMu(t), reg + p1);
    var v := u.(prog := reg + p1, writing := u.writing + {TailnetMu(t)});
    NextPass(s, i, v, RegistryMu, true, p1);
    NextPass(s, i, v.(prog := p1), LogMu(t), false, p2);
    NextPass(s, i, v.(prog := p2), RegistryMu, true, p3);
    NextPass(s, i, v.(prog := p3), RegistryMu, true, p4);
    NextLeave(s, i, v.(prog := p4), TailnetMu(t), p5);
    var out := v.(prog := p5, reading := v.reading - {TailnetMu(t)}, writing := v.writing - {TailnetMu(t)});
    assert out == u.(prog := p5);
    NextPass(s, i, u.(prog := p5), WatcherMu(held), true, p6);
    NextIo(s, i, u.(prog := p6), [Join(held)]);
  }

  /** The goroutine of watcher 1 of tailnet `t`, beside one that only waits. */
  function Collision(t: int, held: nat): seq<Thread> {
    [Thread(Flat([[Io], Block(BusMu, true, [])]), {}, {}, false, true),
     Thread(ToCollide(t, 1, held), {}, {}, false, true)]
  }

  lemma CleanerTrace()
    ensures Trace(CodeOf(Cleaner), Flat([[Io], Block(BusMu, true, [])]))
  {
    IoThenBlockTrace();
  }

  lemma IoThenBlockTrace()
    ensures Trace(Seq([Do(Io), Under(BusMu, true, Skip)]), Flat([[Io], Block(BusMu, true, [])]))
  {
    TraceUnder(BusMu, true, Skip, []);
    TraceSeq([Do(Io), Under(BusMu, true, Skip)], [[Io], Block(BusMu, true, [])]);
  }

  lemma CollisionIsProcess(t: int, held: nat)
    ensures Process([Cleaner, Watching(t, 1, held)], Collision(t, held))
  {
    CleanerTrace();
    CollideTrace(t, 1, held);
    TwoGoroutines(Cleaner, Watching(t, 1, held), Flat([[Io], Block(BusMu, true, [])]), ToCollide(t, 1, held));
  }

  /** The terminal cleanup of a callback that runs in the goroutine of the watcher that the tailnet holds comes to wait
      for its own goroutine. By WithoutTimerForever the timer alone ends that. */
  lemma CleanupJoinsItself(t: int)
    ensures Process([Cleaner, Watching(t, 1, 1)], Collision(t, 1))
    ensures exists stuck :: Reaches(Collision(t, 1), stuck) && Inv(stuck) && Knot(stuck, 1, 1)
  {
    var s := Collision(t, 1);
    CollisionIsProcess(t, 1);
    ProcessStartsInOrder([Cleaner, Watching(t, 1, 1)], s);
    CollideShape(t, 1, 1);
    WatcherArrives(s, 1, t, 1, FromLock(t, 1));
    CleanupArrives(s, 1, s[1].(prog := FromLock(t, 1)), t, 1);
    var stuck := s[1 := s[1].(prog := [Join(1)])];
    assert Knot(stuck, 1, 1);
  }

  // ----- Exactly when a cleanup joins its own goroutine ----------------------------------------------

  lemma {:induction false} RunKeepsJoins(s: seq<Thread>, timer: bool, schedule: seq<nat>, i: nat, w: nat)
    requires CanRun(s, timer, schedule) && i < |s| && AllJoins(s[i].prog, w)
    ensures AllJoins(Run(s, timer, schedule)[i].prog, w)
    decreases |schedule|
  {
    if schedule != [] {
      var next := Step(s, schedule[0]);
      assert next[i].prog == s[i].prog || next[i].prog == s[i].prog[1..];
      RunKeepsJoins(next, timer, schedule[1..], i, w);
    }
  }

  /** In every run of every process: where a watcher's goroutine waits for a goroutine, it is in its cleanup and waits
      for the watcher that the tailnet held. If that is its own, and only then, it waits for itself, and without the
      timer no continuation lets it go on. If it is another one, which a stale callback may meet, then the wait ends by
      itself exactly when that goroutine has finished. */
  lemma CleanupWait(
    roles: seq<Role>, s: seq<Thread>, timer: bool, schedule: seq<nat>, i: nat, t: int, held: nat)
    requires Process(roles, s) && CanRun(s, timer, schedule) && i < |s| && roles[i] == Watching(t, i, held)
    requires var u := Run(s, timer, schedule)[i]; u.Unfinished() && u.prog[0].Join?
    ensures var end := Run(s, timer, schedule);
            && end[i].prog[0] == Join(held)
            && (Knot(end, i, i) <==> held == i)
            && (Enabled(end, false, i) <==> Finished(end, held))
            && (held == i ==> forall more :: CanRun(end, false, more) ==> i !in more)
  {
    var end := Run(s, timer, schedule);
    TraceJoins(CodeOf(roles[i]), s[i].prog, held);
    RunKeepsJoins(s, timer, schedule, i, held);
    ProcessStartsInOrder(roles, s);
    RunKeepsInv(s, timer, schedule);
    if held == i {
      forall more | CanRun(end, false, more) ensures i !in more {
        WithoutTimerForever(end, i, i, more);
      }
    }
  }
}
