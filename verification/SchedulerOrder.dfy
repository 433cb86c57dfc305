/** In which order tasklets run after a transfer or after `run`. */
module SchedulerOrder {
  import opened Flags
  import opened Lists
  import opened Scheduler
  import opened SchedulerInvariant
  import opened SchedulerEffects
  import opened SchedulerPlacement

  lemma WithoutMiddle(a: seq<Tid>, x: Tid, b: seq<Tid>)
    requires Distinct(a + [x] + b)
    ensures Without(a + [x] + b, x) == a + b
  {
    var s := a + [x] + b;
    assert s[|a|] == x;
    WithoutAt(s, |a|);
    assert s[..|a|] == a && s[|a| + 1..] == b;
  }

  lemma InsertAfterMiddle(a: seq<Tid>, c: Tid, b: seq<Tid>, x: Tid)
    requires Distinct(a + [c] + b)
    ensures c in a + [c] + b && InsertAfter(a + [c] + b, c, x) == a + [c, x] + b
  {
    var s := a + [c] + b;
    assert s[|a|] == c;
    IndexUnique(s, |a|);
    assert s[..|a| + 1] == a + [c] && s[|a| + 1..] == b;
  }

  /** The partner is put behind the caller, and the caller then goes to the back. */
  lemma HandOffOrder(a: seq<Tid>, me: Tid, rest: seq<Tid>, p: Tid)
    requires Distinct(a + [me] + rest) && p !in a + [me] + rest && me != MAIN
    ensures me in a + [me] + rest
    ensures YieldQueue(NextQueue(a + [me] + rest, me, p, false), me, Back) == a + [p] + rest + [me]
  {
    InsertAfterMiddle(a, me, rest, p);
    InsertAfterMembers(a + [me] + rest, me, p);
    assert a + [me, p] + rest == a + [me] + ([p] + rest);
    WithoutMiddle(a, me, [p] + rest);
    assert a + ([p] + rest) + [me] == a + [p] + rest + [me];
  }

  /** The queue after a caller, with `a` before it and `rest` behind it, has handed over to its
      partner. The main tasklet keeps its place at the head, as caller and as partner. */
  function HandedOver(a: seq<Tid>, me: Tid, rest: seq<Tid>, p: Tid): seq<Tid> {
    if me == MAIN then [MAIN, p] + rest
    else if p == MAIN then a + rest + [me]
    else a + [p] + rest + [me]
  }

  lemma HandedOverOrder(q: seq<Tid>, a: seq<Tid>, me: Tid, rest: seq<Tid>, p: Tid)
    requires Distinct(q) && q != [] && q[0] == MAIN && q == a + [me] + rest && p != me && (p in q <==> p == MAIN)
    ensures me in q && YieldQueue(NextQueue(q, me, p, p == MAIN), me, Back) == HandedOver(a, me, rest, p)
  {
    assert q[|a|] == me;
    if me == MAIN {
      assert a == [] && a + [me] + rest == [MAIN] + rest;
      InsertAfterMiddle([], MAIN, rest, p);
      assert [] + [MAIN] + rest == q && [] + [MAIN, p] + rest == [MAIN, p] + rest;
    } else if p == MAIN {
      WithoutMiddle(a, me, rest);
    } else {
      HandOffOrder(a, me, rest, p);
    }
  }

  /** Whether a partner is in the run queue already: only the main tasklet is. */
  lemma PartnerQueued(s: State, p: Tid)
    requires Placed(s) && p in s.tasklets && (p != MAIN ==> !s.tasklets[p].scheduled)
    ensures (p in s.queue <==> p == MAIN) && (s.tasklets[p].scheduled <==> p == MAIN)
  {}

  /** A matching send under receiver preference: the receiver takes the sender's place and the sender
      goes to the back. */
  lemma SendPrefersReceiver(s: State, c: Cid, m: Message, a: seq<Tid>, rest: seq<Tid>)
    requires Placed(s) && Running(s) && c in s.channels && s.channels[c].receivers != []
    requires s.channels[c].preference == Receiver && s.queue == a + [s.current] + rest
    ensures Shaped(s) && s.channels[c].receivers[0] in s.tasklets
    ensures var s' := Send(s, c, m);
            s'.queue == HandedOver(a, s.current, rest, s.channels[c].receivers[0]) && s'.current == MAIN
  {
    PlacedIsShaped(s);
    WaitingReceiver(s, c);
    SendHandsOffEffect(s, c, m);
    PartnerQueued(s, s.channels[c].receivers[0]);
    HandedOverOrder(s.queue, a, s.current, rest, s.channels[c].receivers[0]);
  }

  /** A matching receive under sender preference is symmetric. */
  lemma ReceivePrefersSender(s: State, c: Cid, a: seq<Tid>, rest: seq<Tid>)
    requires Placed(s) && Running(s) && c in s.channels && s.channels[c].senders != []
    requires s.channels[c].preference == Sender && s.queue == a + [s.current] + rest
    ensures Shaped(s) && s.channels[c].senders[0] in s.tasklets
    ensures var s' := Receive(s, c);
            s'.queue == HandedOver(a, s.current, rest, s.channels[c].senders[0]) && s'.current == MAIN
  {
    PlacedIsShaped(s);
    WaitingSender(s, c);
    ReceiveHandsOffEffect(s, c);
    PartnerQueued(s, s.channels[c].senders[0]);
    HandedOverOrder(s.queue, a, s.current, rest, s.channels[c].senders[0]);
  }

  /** A partner that is made runnable at the back; the main tasklet is at the head already. */
  function Queued(queue: seq<Tid>, p: Tid): seq<Tid> {
    if p == MAIN then queue else queue + [p]
  }

  /** Under any other preference the partner goes to the back and the caller continues. */
  lemma SendContinuesOtherwise(s: State, c: Cid, m: Message)
    requires Placed(s) && Running(s) && c in s.channels && s.channels[c].receivers != []
    requires s.channels[c].preference != Receiver
    ensures Shaped(s) && s.channels[c].receivers[0] in s.tasklets
    ensures var s' := Send(s, c, m);
            s'.queue == Queued(s.queue, s.channels[c].receivers[0]) && s'.current == s.current && Running(s')
  {
    PlacedIsShaped(s);
    WaitingReceiver(s, c);
    PartnerQueued(s, s.channels[c].receivers[0]);
    SendGoesOnEffect(s, c, m);
  }

  lemma ReceiveContinuesOtherwise(s: State, c: Cid)
    requires Placed(s) && Running(s) && c in s.channels && s.channels[c].senders != []
    requires s.channels[c].preference != Sender
    ensures Shaped(s) && s.channels[c].senders[0] in s.tasklets
    ensures var s' := Receive(s, c);
            s'.queue == Queued(s.queue, s.channels[c].senders[0]) && s'.current == s.current && Running(s')
  {
    PlacedIsShaped(s);
    WaitingSender(s, c);
    PartnerQueued(s, s.channels[c].senders[0]);
    ReceiveGoesOnEffect(s, c);
  }

  /** The turn of the head tasklet ends with a request to come back behind its successor. */
  lemma FrontPlusOneOrder(me: Tid, t: Tid, x: seq<Tid>)
    requires Distinct([MAIN] + [me] + ([t] + x))
    ensures AfterTurn([MAIN] + [me] + ([t] + x), me, FrontPlusOne) == [MAIN, t, me] + x
  {
    WithoutMiddle([MAIN], me, [t] + x);
    var rest := [MAIN] + ([t] + x);
    assert rest[..2] == [MAIN, t] && rest[2..] == x;
  }

  lemma TakenOut(me: Tid, a: seq<Tid>, t: Tid, b: seq<Tid>, queued: bool)
    requires var q := [MAIN, me] + a + (if queued then [t] + b else b);
             Distinct(q) && (t in q <==> queued)
    ensures var q := [MAIN, me] + a + (if queued then [t] + b else b);
            Without(q, t) == [MAIN] + [me] + (a + b)
  {
    if queued {
      assert [MAIN, me] + a + ([t] + b) == ([MAIN, me] + a) + [t] + b;
      WithoutMiddle([MAIN, me] + a, t, b);
    }
  }

  lemma RunQueueOrder(me: Tid, a: seq<Tid>, t: Tid, b: seq<Tid>, queued: bool)
    requires me != MAIN && t != me && t != MAIN
    requires var q := [MAIN, me] + a + (if queued then [t] + b else b);
             Distinct(q) && (t in q <==> queued)
    ensures var q := [MAIN, me] + a + (if queued then [t] + b else b);
            me in q && RunQueued(q, me, t) == [MAIN, t, me] + (a + b)
  {
    var q := [MAIN, me] + a + (if queued then [t] + b else b);
    assert q[1] == me;
    TakenOut(me, a, t, b, queued);
    WithoutMembers(q, t);
    InsertAfterMiddle([MAIN], me, a + b, t);
    InsertAfterMembers(Without(q, t), me, t);
    assert [MAIN] + [me, t] + (a + b) == [MAIN] + [me] + ([t] + (a + b));
    FrontPlusOneOrder(me, t, a + b);
  }

  /** The same from the main tasklet, which stays at the head. */
  lemma MainRunQueueOrder(a: seq<Tid>, t: Tid, b: seq<Tid>, queued: bool)
    requires t != MAIN
    requires var q := [MAIN] + a + (if queued then [t] + b else b);
             Distinct(q) && (t in q <==> queued)
    ensures var q := [MAIN] + a + (if queued then [t] + b else b);
            MAIN in q && RunQueued(q, MAIN, t) == [MAIN, t] + (a + b)
  {
    var q := [MAIN] + a + (if queued then [t] + b else b);
    assert q[0] == MAIN;
    if queued {
      assert q == ([MAIN] + a) + [t] + b;
      WithoutMiddle([MAIN] + a, t, b);
    }
    assert Without(q, t) == [] + [MAIN] + (a + b);
    WithoutMembers(q, t);
    InsertAfterMiddle([], MAIN, a + b, t);
    assert [] + [MAIN, t] + (a + b) == [MAIN, t] + (a + b);
  }

  /** `t.run()` from the tasklet at the head, or from the main tasklet: `t` runs next and the caller
      right after it, whether or not `t` was queued before. */
  lemma RunBringsToFront(s: State, t: Tid, a: seq<Tid>, b: seq<Tid>, queued: bool)
    requires Placed(s) && Running(s) && t in s.tasklets && t != MAIN && t != s.current
    requires s.tasklets[t].alive && s.tasklets[t].blockedOn.None? && queued == s.tasklets[t].scheduled
    requires var head := if s.current == MAIN then [MAIN] else [MAIN, s.current];
             s.queue == head + a + (if queued then [t] + b else b)
    ensures Shaped(s) && RunTasklet(s, t).current == MAIN
    ensures RunTasklet(s, t).queue == (if s.current == MAIN then [MAIN, t] else [MAIN, t, s.current]) + (a + b)
  {
    PlacedIsShaped(s);
    RunEffect(s, t);
    if s.current == MAIN {
      MainRunQueueOrder(a, t, b, queued);
    } else {
      RunQueueOrder(s.current, a, t, b, queued);
    }
  }
}
