/** Who is told about changes. */
module Announcements {
  import opened Wrappers
  import opened Ipn
  import opened Model
  import opened System
  import opened Invariants
  import opened Callbacks
  import opened Runs
  import opened Sse

  lemma {:induction false} UnchangedAlways(ops: seq<Op>, t: Tailnet, w: World, ipn: IPNState, io: ReactIO)
    requires !Always(ops, t, w, ipn, io).changed
    ensures Always(ops, t, w, ipn, io).t == t
  {
    if ops != [] {
      UnchangedAlways(ops[..|ops| - 1], t, w, ipn, io);
    }
  }

  lemma {:induction false} UnchangedOneOf(ops: seq<Op>, t: Tailnet, w: World, ipn: IPNState, io: ReactIO)
    requires !OneOf(ops, t, w, ipn, io).changed
    ensures OneOf(ops, t, w, ipn, io).t == t
    decreases |ops|
  {
    if ops != [] {
      var a := Apply(ops[0], t, w, ipn, io);
      UnchangedOneOf(ops[1..], a.t, a.w, ipn, io);
    }
  }

  /** When Process returns false, for whatever lists of operations, nothing about the tailnet has changed. */
  lemma FalseMeansUnchanged(always: seq<Op>, oneOf: seq<Op>, t: Tailnet, w: World, ipn: IPNState, io: ReactIO)
    ensures var a := Process(always, oneOf, t, w, ipn, io); !a.changed ==> a.t == t
  {
    var a := Always(always, t, w, ipn, io);
    if !a.changed {
      UnchangedAlways(always, t, w, ipn, io);
      if !OneOf(oneOf, a.t, a.w, ipn, io).changed {
        UnchangedOneOf(oneOf, a.t, a.w, ipn, io);
      }
    }
  }

  /** The announcements a step makes. */
  ghost function News(s: Sys, a: Action): seq<Event>
  {
    var es := Step(s, a).w.events;
    if |s.w.events| <= |es| then es[|s.w.events|..] else []
  }

  /** A start that gets as far as the watcher, cannot create it, and has switched the user's intent on. */
  predicate Silent(s: Sys, a: Action) {
    && a.DoStart? && a.id in s.objs && s.objs[a.id].state == StoppedState && s.objs[a.id].user == UserDisabled
    && a.startIO.listen && a.startIO.serverStart && a.startIO.localClient && !a.startIO.watcher
  }

  /** Whatever changes what the dashboard sees of a tailnet is announced in the same step, or is a callback that
      goes on to announce it. The one exception are the silent starts. */
  lemma ChangesAreAnnounced(s: Sys, a: Action, id: int)
    requires Inv(s) && id in s.objs && !a.Restart? && !Silent(s, a)
    ensures id in Step(s, a).objs
    ensures Snap(Step(s, a).objs[id]) != Snap(s.objs[id]) ==>
              || TailnetChange(id) in News(s, a)
              || (a.DoCallback?
                  && Step(s, a).pending == s.pending + [Pending(id, true, Step(s, a).pending[|s.pending|].cleanup)])
  {
    assert ObjectOk(s, id);
    if Enabled(s, a) {
      if a.AddCommit? {
        AddWorld(s.w, a.wanted, a.addIO);
      } else if a.DoCallback? && a.id == id {
        var t := s.objs[id];
        FalseMeansUnchanged(AlwaysOps(t.state), OneOfOps(t.state), t, s.w, a.ipn, a.reactIO);
      } else if (a.DoStart? || a.DoStop? || a.DoLogoutBegin? || a.DoLogoutEnd?) && a.id == id {
        CommandAnnounces(s, a);
      }
    }
  }

  lemma CommandAnnounces(s: Sys, a: Action)
    requires Inv(s) && Enabled(s, a) && (a.DoStart? || a.DoStop? || a.DoLogoutBegin? || a.DoLogoutEnd?)
    requires !Silent(s, a)
    ensures Step(s, a).objs[a.id] != s.objs[a.id] ==> News(s, a) == [TailnetChange(a.id)]
  {
    assert ObjectOk(s, a.id);
    var es := Step(s, a).w.events;
    if Step(s, a).objs[a.id] != s.objs[a.id] {
      assert es == s.w.events + [TailnetChange(a.id)];
    }
  }

  /** A start announces what it changes if and only if it is not a silent one. */
  lemma StartAnnouncesExactly(s: Sys, a: Action)
    requires Inv(s) && a.DoStart? && a.id in s.objs
    ensures (Snap(Step(s, a).objs[a.id]) != Snap(s.objs[a.id]) ==> TailnetChange(a.id) in News(s, a)) <==> !Silent(s, a)
  {
    if Silent(s, a) {
      SilentStart(s.objs[a.id], s.w, a.startIO);
      assert ObjectOk(s, a.id);
    } else {
      CommandAnnounces(s, a);
    }
  }

  /** A start whose watcher cannot be created announces nothing; it has changed the snapshot if and only if the
      user's intent was off; and it leaves its listener open, on the tailnet's port and in no field. */
  lemma SilentStart(t: Tailnet, w: World, io: StartIO)
    requires t.state == StoppedState && io.listen && io.serverStart && io.localClient && !io.watcher
    ensures Start(t, w, io).w.events == w.events
    ensures Snap(Start(t, w, io).t) != Snap(t) <==> t.user == UserDisabled
    ensures var x, r := Opened(t.id, SocksProxy, w.host), Start(t, w, io);
            && x in r.w.host.listeners && r.w.host.listeners[x] == t.port
            && (HandlesOk(t, w.host) ==> r.t.socks != Some(x))
  {
  }

  /** A callback that changed something ends with the announcement. */
  lemma FinishAnnounces(s: Sys, k: nat, io: CleanupIO)
    requires Enabled(s, DoFinish(k, io))
    ensures News(s, DoFinish(k, io)) == if s.pending[k].changed then [TailnetChange(s.pending[k].id)] else []
  {
    var es := Step(s, DoFinish(k, io)).w.events;
    assert es == s.w.events + if s.pending[k].changed then [TailnetChange(s.pending[k].id)] else [];
  }

  // ----- Whole runs --------------------------------------------------------------------------------

  /** A callback that changed tailnet `id` and has not ended yet. */
  predicate Owes(s: Sys, id: int) {
    exists k :: 0 <= k < |s.pending| && s.pending[k].id == id && s.pending[k].changed
  }

  /** Between `s` and `s'` tailnet `id` was announced. */
  predicate Announced(s: Sys, s': Sys, id: int) {
    exists i :: |s.w.events| <= i < |s'.w.events| && s'.w.events[i] == TailnetChange(id)
  }

  /** It was, or a callback still has to announce it. */
  predicate Told(s: Sys, s': Sys, id: int) {
    Announced(s, s', id) || Owes(s', id)
  }

  /** A run without a crash and without a silent start; in particular one in which every watcher can be created. */
  ghost predicate Heard(s: Sys, acts: seq<Action>)
    decreases |acts|
  {
    acts != [] ==> !acts[0].Restart? && !Silent(s, acts[0]) && Heard(Step(s, acts[0]), acts[1..])
  }

  /** Whether watchers can be created is enough to know. */
  lemma {:induction false} WatchersMakeHeard(s: Sys, acts: seq<Action>)
    requires forall k :: 0 <= k < |acts| ==> !acts[k].Restart? && (acts[k].DoStart? ==> acts[k].startIO.watcher)
    ensures Heard(s, acts)
    decreases |acts|
  {
    if acts != [] {
      WatchersMakeHeard(Step(s, acts[0]), acts[1..]);
    }
  }

  /** Events are only ever appended. */
  lemma StepAppends(s: Sys, a: Action)
    requires Inv(s) && !a.Restart?
    ensures s.w.events <= Step(s, a).w.events
  {
    if Enabled(s, a) {
      match a
      case AddCheck =>
      case AddCommit(wanted, io) => AddWorld(s.w, wanted, io);
      case DoStart(j, io) => assert ObjectOk(s, j); StartKeeps(s.objs[j], s.w, io);
      case DoStop(j, io) => assert ObjectOk(s, j); StopKeeps(s.objs[j], s.w, io);
      case DoLogoutBegin(j, o) => assert ObjectOk(s, j); LogoutBeginKeeps(s.objs[j], s.w, o);
      case DoLogoutEnd(j) =>
      case DoCallback(j, ipn, io) => assert ObjectOk(s, j); ReactKeeps(s.objs[j], s.w, ipn, io);
      case DoFinish(k, io) =>
      case DoDelete(j, o) =>
    }
  }

  /** A callback that ends pays its own debt; the others remain. */
  lemma FinishPays(s: Sys, j: nat, io: CleanupIO, k: nat)
    requires Enabled(s, DoFinish(j, io)) && k < |s.pending| && s.pending[k].changed
    ensures Told(s, Step(s, DoFinish(j, io)), s.pending[k].id)
  {
    var a := DoFinish(j, io);
    var s' := Step(s, a);
    if j == k {
      assert s'.w.events == s.w.events + [TailnetChange(s.pending[k].id)];
      assert s'.w.events[|s.w.events|] == TailnetChange(s.pending[k].id);
    } else {
      assert s'.pending[if k < j then k else k - 1] == s.pending[k];
    }
  }

  lemma DebtsRemain(s: Sys, a: Action)
    requires !a.Restart? && !a.DoFinish?
    ensures s.pending <= Step(s, a).pending
  {
  }

  /** What is owed stays owed until the callback ends with the announcement. */
  lemma DebtIsPaid(s: Sys, a: Action, id: int)
    requires !a.Restart? && Owes(s, id)
    ensures Told(s, Step(s, a), id)
  {
    var k :| 0 <= k < |s.pending| && s.pending[k].id == id && s.pending[k].changed;
    if a.DoFinish? && Enabled(s, a) {
      FinishPays(s, a.index, a.cleanupIO, k);
    } else if !a.DoFinish? {
      DebtsRemain(s, a);
      assert Step(s, a).pending[k] == s.pending[k];
    }
  }

  lemma ChangeIsTold(s: Sys, a: Action, id: int)
    requires Inv(s) && id in s.objs && !a.Restart? && !Silent(s, a)
    ensures id in Step(s, a).objs
    ensures Snap(Step(s, a).objs[id]) != Snap(s.objs[id]) ==> Told(s, Step(s, a), id)
  {
    ChangesAreAnnounced(s, a, id);
    StepAppends(s, a);
    var s' := Step(s, a);
    if TailnetChange(id) in News(s, a) {
      var i :| 0 <= i < |News(s, a)| && News(s, a)[i] == TailnetChange(id);
      assert s'.w.events[|s.w.events| + i] == TailnetChange(id);
    } else if Snap(s'.objs[id]) != Snap(s.objs[id]) {
      assert s'.pending[|s.pending|] == Pending(id, true, s'.pending[|s.pending|].cleanup);
    }
  }

  /** News of the past stay, and debts are carried on. */
  lemma {:induction false} DebtCarries(s: Sys, acts: seq<Action>, id: int)
    requires Inv(s) && Heard(s, acts)
    ensures s.w.events <= Exec(s, acts).w.events
    ensures Owes(s, id) ==> Told(s, Exec(s, acts), id)
    decreases |acts|
  {
    if acts != [] {
      var s1 := Step(s, acts[0]);
      StepKeeps(s, acts[0]);
      StepAppends(s, acts[0]);
      DebtCarries(s1, acts[1..], id);
      if Owes(s, id) {
        DebtIsPaid(s, acts[0], id);
        ToldLater(s, s1, Exec(s, acts), id);
      }
    }
  }

  lemma ToldLater(s: Sys, s1: Sys, s2: Sys, id: int)
    requires s.w.events <= s1.w.events <= s2.w.events
    requires Told(s, s1, id) && (Owes(s1, id) ==> Told(s1, s2, id))
    ensures Told(s, s2, id)
  {
    if !Owes(s1, id) {
      var i :| |s.w.events| <= i < |s1.w.events| && s1.w.events[i] == TailnetChange(id);
      assert s2.w.events[i] == TailnetChange(id);
    }
  }

  /** No unannounced change, over whole runs without a silent start: when what the dashboard sees of a
      tailnet differs from what it was, then the tailnet was announced in between or is about to be. In a state in
      which no callback is in flight, it was. */
  lemma {:induction false} NoSilentChange(s: Sys, acts: seq<Action>, id: int)
    requires Inv(s) && id in s.objs && Heard(s, acts)
    ensures id in Exec(s, acts).objs
    ensures Snap(Exec(s, acts).objs[id]) != Snap(s.objs[id]) ==> Told(s, Exec(s, acts), id)
    ensures Snap(Exec(s, acts).objs[id]) != Snap(s.objs[id]) && Exec(s, acts).pending == [] ==>
              Announced(s, Exec(s, acts), id)
    decreases |acts|
  {
    if acts != [] {
      var s1 := Step(s, acts[0]);
      ChangeIsTold(s, acts[0], id);
      StepKeeps(s, acts[0]);
      StepAppends(s, acts[0]);
      NoSilentChange(s1, acts[1..], id);
      DebtCarries(s1, acts[1..], id);
      if Snap(s1.objs[id]) != Snap(s.objs[id]) {
        ToldLater(s, s1, Exec(s, acts), id);
      } else if Snap(Exec(s, acts).objs[id]) != Snap(s.objs[id]) {
        ToldBefore(s, s1, Exec(s, acts), id);
      }
    }
  }

  lemma ToldBefore(s: Sys, s1: Sys, s2: Sys, id: int)
    requires s.w.events <= s1.w.events && Told(s1, s2, id)
    ensures Told(s, s2, id)
  {
    if !Owes(s2, id) {
      var i :| |s1.w.events| <= i < |s2.w.events| && s2.w.events[i] == TailnetChange(id);
      assert |s.w.events| <= i;
    }
  }

  // ----- What subscribers hear ----------------------------------------------------------------------

  /** Between two states what the dashboard sees of the tailnet has changed, and no callback is in flight any more. */
  predicate Changed(s: Sys, s': Sys, id: int) {
    id in s.objs && id in s'.objs && Snap(s'.objs[id]) != Snap(s.objs[id]) && s'.pending == []
  }

  /** The position of the announcement among the broadcasts since a subscriber joined. */
  lemma AnnouncedAt(s: Sys, s': Sys, id: int, ops: seq<ChanOp>, c: Channel, since: nat) returns (n: nat)
    requires Announced(s, s', id) && Tracks(c, ops, s'.w.events, since) && since <= |s.w.events|
    ensures n < |Offers(ops)| && Offers(ops)[n] == TailnetChange(id)
  {
    var i :| |s.w.events| <= i < |s'.w.events| && s'.w.events[i] == TailnetChange(id);
    n := i - since;
    assert s'.w.events[since..][n] == TailnetChange(id);
  }

  /** A subscriber that never lets ten events wait hears of every tailnet whose snapshot has changed since it joined:
      once no callback is in flight, an event for that tailnet is among those it received or has waiting. */
  lemma PromptSubscriberHears(s: Sys, acts: seq<Action>, id: int, c: Channel, ops: seq<ChanOp>, since: nat)
    requires Inv(s) && Heard(s, acts) && Changed(s, Exec(s, acts), id)
    requires Tracks(c, ops, Exec(s, acts).w.events, since) && since <= |s.w.events|
    requires forall k :: 0 <= k < |ops| ==> |Play(ops[..k]).buffer| < 10
    ensures TailnetChange(id) in c.received + c.buffer
  {
    NoSilentChange(s, acts, id);
    var n := AnnouncedAt(s, Exec(s, acts), id, ops, c, since);
    PromptReaderMissesNothing(ops);
  }

  /** Any subscriber hears of it, or ten events were waiting for it when that tailnet was announced. */
  lemma SubscriberHearsOrWasFull(s: Sys, acts: seq<Action>, id: int, c: Channel, ops: seq<ChanOp>, since: nat)
    requires Inv(s) && Heard(s, acts) && Changed(s, Exec(s, acts), id)
    requires Tracks(c, ops, Exec(s, acts).w.events, since) && since <= |s.w.events|
    ensures TailnetChange(id) in c.received + c.buffer ||
            exists k :: 0 <= k < |ops| && ops[k] == Offer(TailnetChange(id)) && |Play(ops[..k]).buffer| == 10
  {
    NoSilentChange(s, acts, id);
    var n := AnnouncedAt(s, Exec(s, acts), id, ops, c, since);
    DeliveredOrLost(ops, n);
  }
}
