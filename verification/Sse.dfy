/** internal/sse/sse.go: bounded, lossy, ordered delivery of announcements to subscribers. */
module Sse {
  import opened Model

  const CAPACITY: nat := 10

  /** One subscriber's channel: what its reader has taken out and what is buffered. */
  datatype Channel = Channel(received: seq<Event>, buffer: seq<Event>)

  datatype ChanOp = Offer(e: Event) | Take

  function StepChannel(c: Channel, op: ChanOp): Channel {
    match op
    case Offer(e) => if |c.buffer| < CAPACITY then c.(buffer := c.buffer + [e]) else c
    case Take => if c.buffer == [] then c else Channel(c.received + [c.buffer[0]], c.buffer[1..])
  }

  /** A channel after a history of broadcasts and reads. */
  function Play(ops: seq<ChanOp>): Channel {
    if ops == [] then Channel([], []) else StepChannel(Play(ops[..|ops| - 1]), ops[|ops| - 1])
  }

  /** The broadcasts of a history. */
  function Offers(ops: seq<ChanOp>): seq<Event> {
    if ops == [] then []
    else Offers(ops[..|ops| - 1]) + if ops[|ops| - 1].Offer? then [ops[|ops| - 1].e] else []
  }

  /** Which broadcasts, by position, found room in the buffer. */
  function Kept(ops: seq<ChanOp>): seq<nat> {
    if ops == [] then []
    else
      var before := ops[..|ops| - 1];
      Kept(before) +
      if ops[|ops| - 1].Offer? && |Play(before).buffer| < CAPACITY then [|Offers(before)|] else []
  }

  /** What was received, followed by what is buffered, is the kept broadcasts in their order. */
  lemma {:induction false} DeliversInOrder(ops: seq<ChanOp>)
    ensures var got := Play(ops).received + Play(ops).buffer;
            && |got| == |Kept(ops)| && |Play(ops).buffer| <= 10
            && (forall i :: 0 <= i < |got| ==> Kept(ops)[i] < |Offers(ops)| && got[i] == Offers(ops)[Kept(ops)[i]])
            && (forall i, j :: 0 <= i < j < |got| ==> Kept(ops)[i] < Kept(ops)[j])
  {
    if ops != [] {
      var before := ops[..|ops| - 1];
      DeliversInOrder(before);
      var c := Play(before);
      if ops[|ops| - 1].Take? && c.buffer != [] {
        assert c.received + c.buffer == (c.received + [c.buffer[0]]) + c.buffer[1..];
      }
    }
  }

  /** A broadcast is lost if and only if ten events were waiting when it was made. */
  lemma {:induction false} LostOnlyWhenFull(ops: seq<ChanOp>, k: nat)
    requires k < |ops| && ops[k].Offer?
    ensures |Offers(ops[..k])| !in Kept(ops) <==> |Play(ops[..k]).buffer| == 10
  {
    var n := |ops| - 1;
    var before := ops[..n];
    DeliversInOrder(ops);
    DeliversInOrder(before);
    if k < n {
      assert before[..k] == ops[..k];
      LostOnlyWhenFull(before, k);
      OffersGrow(ops, k, n);
      assert forall x :: x in Kept(ops) <==> x in Kept(before) || x in Kept(ops)[|Kept(before)|..];
    } else {
      assert ops[..k] == before;
      assert Kept(ops) == Kept(before) + if |Play(before).buffer| < CAPACITY then [|Offers(before)|] else [];
    }
  }

  lemma {:induction false} OffersGrow(ops: seq<ChanOp>, k: nat, n: nat)
    requires k < n <= |ops| && ops[k].Offer?
    ensures |Offers(ops[..k])| < |Offers(ops[..n])|
  {
    assert ops[..n][..n - 1] == ops[..n - 1];
    if k < n - 1 {
      OffersGrow(ops, k, n - 1);
    }
  }

  /** Where in a history the broadcast with position `n` was made. */
  lemma {:induction false} OfferAt(ops: seq<ChanOp>, n: nat) returns (k: nat)
    requires n < |Offers(ops)|
    ensures k < |ops| && ops[k] == Offer(Offers(ops)[n]) && |Offers(ops[..k])| == n
  {
    var last := |ops| - 1;
    if n < |Offers(ops[..last])| {
      k := OfferAt(ops[..last], n);
      assert ops[..last][..k] == ops[..k];
    } else {
      k := last;
    }
  }

  /** Every broadcast was received or is waiting, or ten events were waiting when it was made. */
  lemma DeliveredOrLost(ops: seq<ChanOp>, n: nat)
    requires n < |Offers(ops)|
    ensures Offers(ops)[n] in Play(ops).received + Play(ops).buffer ||
            exists k :: 0 <= k < |ops| && ops[k] == Offer(Offers(ops)[n]) && |Play(ops[..k]).buffer| == 10
  {
    DeliversInOrder(ops);
    var k := OfferAt(ops, n);
    LostOnlyWhenFull(ops, k);
    if n in Kept(ops) {
      var kept := Kept(ops);
      var j :| 0 <= j < |kept| && kept[j] == n;
      assert (Play(ops).received + Play(ops).buffer)[j] == Offers(ops)[n];
    }
  }

  /** A reader that never lets ten events wait receives everything. */
  lemma {:induction false} PromptReaderMissesNothing(ops: seq<ChanOp>)
    requires forall k :: 0 <= k < |ops| ==> |Play(ops[..k]).buffer| < 10
    ensures Play(ops).received + Play(ops).buffer == Offers(ops)
  {
    if ops != [] {
      var before := ops[..|ops| - 1];
      forall k | 0 <= k < |before| ensures |Play(before[..k]).buffer| < 10 {
        assert before[..k] == ops[..k];
      }
      PromptReaderMissesNothing(before);
      var c := Play(before);
      assert before == ops[..|before|] && |c.buffer| < CAPACITY;
      assert ops[|ops| - 1].Take? && c.buffer != [] ==>
          c.received + c.buffer == (c.received + [c.buffer[0]]) + c.buffer[1..];
    }
  }

  /** A channel is the outcome of `ops`, whose broadcasts are all those of `history` from position `since` on. */
  ghost predicate Tracks(c: Channel, ops: seq<ChanOp>, history: seq<Event>, since: nat) {
    since <= |history| && c == Play(ops) && Offers(ops) == history[since..]
  }

  lemma TracksOffer(c: Channel, ops: seq<ChanOp>, history: seq<Event>, since: nat, e: Event)
    requires Tracks(c, ops, history, since)
    ensures Tracks(StepChannel(c, Offer(e)), ops + [Offer(e)], history + [e], since)
  {
    assert (ops + [Offer(e)])[..|ops|] == ops;
    assert (history + [e])[since..] == history[since..] + [e];
  }

  /** The class invariant, on values. */
  ghost predicate AllTrack(
    subs: map<nat, Channel>, traces: map<nat, seq<ChanOp>>, history: seq<Event>, joined: map<nat, nat>, next: nat)
  {
    && traces.Keys == subs.Keys && joined.Keys == subs.Keys
    && forall id :: id in subs ==> id < next && Tracks(subs[id], traces[id], history, joined[id])
  }

  /** One broadcast keeps it, when every channel was offered the event. */
  lemma AllTrackOffer(
    subs: map<nat, Channel>, after: map<nat, Channel>, traces: map<nat, seq<ChanOp>>, history: seq<Event>,
    joined: map<nat, nat>, next: nat, e: Event)
    requires AllTrack(subs, traces, history, joined, next) && after.Keys == subs.Keys
    requires forall id :: id in subs ==> after[id] == StepChannel(subs[id], Offer(e))
    ensures AllTrack(after, map id | id in traces :: traces[id] + [Offer(e)], history + [e], joined, next)
  {
    forall id | id in after
      ensures id < next && Tracks(after[id], traces[id] + [Offer(e)], history + [e], joined[id])
    {
      TracksOffer(subs[id], traces[id], history, joined[id], e);
    }
  }

  lemma TracksTake(c: Channel, ops: seq<ChanOp>, history: seq<Event>, since: nat)
    requires Tracks(c, ops, history, since)
    ensures Tracks(StepChannel(c, Take), ops + [Take], history, since)
  {
    assert (ops + [Take])[..|ops|] == ops;
  }

  /** One read keeps it as well. */
  lemma AllTrackTake(
    subs: map<nat, Channel>, traces: map<nat, seq<ChanOp>>, history: seq<Event>, joined: map<nat, nat>, next: nat,
    id: nat)
    requires AllTrack(subs, traces, history, joined, next) && id in subs
    ensures AllTrack(subs[id := StepChannel(subs[id], Take)], traces[id := traces[id] + [Take]], history, joined, next)
  {
    TracksTake(subs[id], traces[id], history, joined[id]);
  }

  method PickOne<T(==)>(s: set<T>) returns (x: T)
    requires s != {}
    ensures x in s
  {
    x :| x in s;
  }

  /** The broadcaster. The ghost fields record every broadcast and, per subscriber, its channel's history. */
  class SSEBroadcaster {
    var subscribers: map<nat, Channel>
    var nextClient: nat
    ghost var history: seq<Event>
    ghost var traces: map<nat, seq<ChanOp>>
    ghost var joined: map<nat, nat>

    ghost predicate Valid()
      reads this
    {
      AllTrack(subscribers, traces, history, joined, nextClient)
    }

    constructor ()
      ensures Valid() && history == [] && subscribers == map[]
    {
      subscribers, nextClient, history, traces, joined := map[], 1, [], map[], map[];
    }

    method Subscribe() returns (id: nat)
      requires Valid()
      modifies this
      ensures Valid() && history == old(history)
      ensures id !in old(subscribers) && subscribers == old(subscribers)[id := Channel([], [])]
      ensures traces[id] == [] && joined[id] == |history|
    {
      id := nextClient;
      nextClient := nextClient + 1;
      subscribers := subscribers[id := Channel([], [])];
      traces := traces[id := []];
      joined := joined[id := |history|];
    }

    method Unsubscribe(id: nat)
      requires Valid()
      modifies this
      ensures Valid() && history == old(history)
      ensures subscribers == old(subscribers) - {id}
    {
      if id in subscribers {
        subscribers := subscribers - {id};
        traces := traces - {id};
        joined := joined - {id};
      }
    }

    /** The reader's side: take the oldest buffered event, if any. */
    method Receive(id: nat) returns (got: seq<Event>)
      requires Valid() && id in subscribers
      modifies this
      ensures Valid() && history == old(history)
      ensures subscribers == old(subscribers)[id := StepChannel(old(subscribers)[id], Take)]
      ensures got == if old(subscribers)[id].buffer == [] then [] else [old(subscribers)[id].buffer[0]]
    {
      var c := subscribers[id];
      AllTrackTake(subscribers, traces, history, joined, nextClient, id);
      got := if c.buffer == [] then [] else [c.buffer[0]];
      var after := if c.buffer == [] then c else Channel(c.received + got, c.buffer[1..]);
      assert after == StepChannel(c, Take);
      subscribers, traces := subscribers[id := after], traces[id := traces[id] + [Take]];
    }

    /** Offers the event to every subscriber without waiting for any of them. */
    method Broadcast(e: Event)
      requires Valid()
      modifies this
      ensures Valid() && history == old(history) + [e]
      ensures nextClient == old(nextClient) && subscribers.Keys == old(subscribers.Keys)
      ensures forall id :: id in subscribers ==> subscribers[id] == StepChannel(old(subscribers)[id], Offer(e))
    {
      ghost var before := subscribers;
      if |subscribers| != 0 {
        OfferToAll(e);
      }
      AllTrackOffer(before, subscribers, traces, history, joined, nextClient, e);
      history := history + [e];
      traces := map id | id in traces :: traces[id] + [Offer(e)];
    }

    /** The loop over the channels, in any order; a full channel is skipped. */
    method OfferToAll(e: Event)
      modifies this`subscribers
      ensures subscribers.Keys == old(subscribers.Keys)
      ensures forall id :: id in subscribers ==> subscribers[id] == StepChannel(old(subscribers)[id], Offer(e))
    {
      var todo := subscribers.Keys;
      while todo != {}
        invariant todo <= subscribers.Keys == old(subscribers.Keys)
        invariant forall id :: id in subscribers ==>
                    subscribers[id] ==
                    if id in todo then old(subscribers)[id] else StepChannel(old(subscribers)[id], Offer(e))
      {
        var id := PickOne(todo);
        var c := subscribers[id];
        if |c.buffer| < CAPACITY {
          subscribers := subscribers[id := c.(buffer := c.buffer + [e])];
        }
        todo := todo - {id};
      }
    }
  }
}
