/** How the primitive operations of the scheduler treat the run queue and the blocked lists. */
module SchedulerLists {
  import opened Options
  import opened Flags
  import opened Lists
  import opened Scheduler
  import opened SchedulerInvariant

  // ---- The run queue ----

  lemma SameQueue(s: State, s': State)
    requires QueueOk(s) && s'.queue == s.queue && s'.current == s.current && s'.tasklets.Keys == s.tasklets.Keys
    requires forall t :: t in s.tasklets ==> s'.tasklets[t].scheduled == s.tasklets[t].scheduled
    ensures QueueOk(s')
  {}

  lemma PutKeepsQueue(s: State, t: Tid, x: Tasklet)
    requires QueueOk(s)
    requires if t in s.tasklets then x.scheduled == s.tasklets[t].scheduled else !x.scheduled
    ensures QueueOk(Put(s, t, x))
  {}

  lemma InsertKeepsQueue(s: State, t: Tid)
    requires QueueOk(s) && t in s.tasklets
    ensures QueueOk(Insert(s, t))
  {
    if !s.tasklets[t].scheduled {
      AppendMembers(s.queue, t);
    }
  }

  lemma InsertNextKeepsQueue(s: State, t: Tid)
    requires QueueOk(s) && t in s.tasklets
    ensures QueueOk(InsertNext(s, t))
  {
    if !s.tasklets[t].scheduled {
      InsertAfterMembers(s.queue, s.current, t);
    }
  }

  lemma RemoveKeepsQueue(s: State, t: Tid)
    requires QueueOk(s) && t in s.tasklets && t != MAIN && t != s.current
    ensures QueueOk(Remove(s, t))
  {
    WithoutMembers(s.queue, t);
    HeadStays(s.queue, t);
  }

  lemma AfterTurnMembers(q: seq<Tid>, t: Tid, r: Reschedule)
    requires q != [] && q[0] == MAIN && t != MAIN && t in q && Distinct(q)
    ensures var q' := AfterTurn(q, t, r);
            && q' != [] && q'[0] == MAIN && Distinct(q')
            && forall y :: y in q' <==> if y == t then r != Stay else y in q
  {
    var rest := Without(q, t);
    WithoutMembers(q, t);
    HeadStays(q, t);
    if r == Back || (r == FrontPlusOne && |rest| < 2) {
      AppendMembers(rest, t);
    } else if r == FrontPlusOne {
      IndexUnique(rest, 1);
      InsertAfterMembers(rest, rest[1], t);
      assert AfterTurn(q, t, r) == InsertAfter(rest, rest[1], t);
    }
  }

  lemma EndTurnKeepsQueue(s: State)
    requires QueueOk(s) && s.current != MAIN
    ensures QueueOk(EndTurn(s))
  {
    AfterTurnMembers(s.queue, s.current, s.tasklets[s.current].reschedule);
  }

  // ---- The blocked lists ----

  lemma PutKeepsLists(s: State, t: Tid, x: Tasklet)
    requires ListsOk(s)
    requires if t in s.tasklets then x.blockedOn == s.tasklets[t].blockedOn && x.direction == s.tasklets[t].direction
             else x.blockedOn.None? && x.direction == Neither
    ensures ListsOk(Put(s, t, x))
  {
    var s' := Put(s, t, x);
    forall c, u | c in s'.channels
      ensures Listed(s', c, u)
    {
      assert Listed(s, c, u);
    }
    forall u | u in s'.tasklets
      ensures Directed(s', u)
    {
      if u in s.tasklets { assert Directed(s, u); }
    }
  }

  /** A tasklet blocked nowhere joins the end of a blocked list. */
  lemma ParkKeepsLists(s: State, c: Cid, d: Direction, t: Tid)
    requires ListsOk(s) && t in s.tasklets && c in s.channels && d != Neither && s.tasklets[t].blockedOn.None?
    ensures ListsOk(Block(Add(s, c, d, t), c, t))
  {
    var s' := Block(Add(s, c, d, t), c, t);
    forall b, u | b in s'.channels
      ensures Listed(s', b, u)
    {
      assert Listed(s, b, u);
    }
    forall u | u in s'.tasklets
      ensures Directed(s', u)
    {
      assert Directed(s, u);
    }
  }

  lemma UnparkEffect(s: State, c: Cid, t: Tid)
    requires t in s.tasklets && c in s.channels && Distinct(s.channels[c].senders) && Distinct(s.channels[c].receivers)
    ensures OffEffect(s, c, t, Unblock(RemoveBlocked(s, c, t), t))
  {
    WithoutMembers(s.channels[c].senders, t);
    WithoutMembers(s.channels[c].receivers, t);
  }

  ghost predicate OffEffect(s: State, c: Cid, t: Tid, s': State) {
    && t in s.tasklets && c in s.channels
    && s'.tasklets == s.tasklets[t := s.tasklets[t].(direction := Neither, blockedOn := None)]
    && s'.channels.Keys == s.channels.Keys
    && (forall b :: b in s.channels && b != c ==> s'.channels[b] == s.channels[b])
    && (forall u :: u in s'.channels[c].senders <==> u in s.channels[c].senders && u != t)
    && (forall u :: u in s'.channels[c].receivers <==> u in s.channels[c].receivers && u != t)
  }

  lemma OffListed(s: State, c: Cid, t: Tid, s': State, b: Cid, u: Tid)
    requires OffEffect(s, c, t, s') && b in s.channels && Listed(s, b, u)
    requires s.tasklets[t].blockedOn == Some(c) || s.tasklets[t].blockedOn.None?
    ensures Listed(s', b, u)
  {
    if b != c { assert s'.channels[b] == s.channels[b]; }
  }

  lemma OffListsKeepsLists(s: State, c: Cid, t: Tid, s': State)
    requires ListsOk(s) && OffEffect(s, c, t, s')
    requires s.tasklets[t].blockedOn == Some(c) || s.tasklets[t].blockedOn.None?
    ensures ListsOk(s')
  {
    forall b, u | b in s'.channels
      ensures Listed(s', b, u)
    {
      assert Listed(s, b, u);
      OffListed(s, c, t, s', b, u);
    }
    forall u | u in s'.tasklets
      ensures Directed(s', u)
    {
      assert Directed(s, u);
    }
  }

  /** A tasklet blocked on `c`, or nowhere, is off the lists of `c` and blocked nowhere. */
  lemma UnparkKeepsLists(s: State, c: Cid, t: Tid)
    requires ListsOk(s) && t in s.tasklets && c in s.channels && Distinct(s.channels[c].senders)
    requires Distinct(s.channels[c].receivers)
    requires s.tasklets[t].blockedOn == Some(c) || s.tasklets[t].blockedOn.None?
    ensures ListsOk(Unblock(RemoveBlocked(s, c, t), t))
  {
    UnparkEffect(s, c, t);
    OffListsKeepsLists(s, c, t, Unblock(RemoveBlocked(s, c, t), t));
  }

  /** Changes to a channel other than to its lists, and new channels. */
  lemma PutChannelKeepsLists(s: State, c: Cid, ch: Channel)
    requires ListsOk(s)
    requires if c in s.channels then ch.senders == s.channels[c].senders && ch.receivers == s.channels[c].receivers
             else ch.senders == [] && ch.receivers == []
    ensures ListsOk(PutChannel(s, c, ch))
  {
    var s' := PutChannel(s, c, ch);
    forall b, u | b in s'.channels
      ensures Listed(s', b, u)
    {
      if b in s.channels { assert Listed(s, b, u); }
      if u in s.tasklets { assert Directed(s, u); }
    }
    forall u | u in s'.tasklets
      ensures Directed(s', u)
    {
      assert Directed(s, u);
    }
  }

  lemma UpdateCloseKeepsLists(s: State, c: Cid)
    requires ListsOk(s) && c in s.channels
    ensures ListsOk(UpdateClose(s, c))
  {
    PutChannelKeepsLists(s, c, CloseIfDrained(s.channels[c]));
  }

  // ---- Channels ----

  lemma PutChannelKeepsChannels(s: State, c: Cid, ch: Channel)
    requires ChannelsOk(s) && ChannelOk(ch)
    ensures ChannelsOk(PutChannel(s, c, ch))
  {}

  lemma UpdateCloseKeepsChannels(s: State, c: Cid)
    requires ChannelsOk(s) && c in s.channels
    ensures ChannelsOk(UpdateClose(s, c))
  {
    assert ChannelOk(s.channels[c]);
  }

  /** Blocking keeps the two lists exclusive only because a call blocks when the other list is
      empty, and keeps closed channels empty only because a closing channel refuses to block. */
  lemma ParkKeepsChannels(s: State, c: Cid, d: Direction, t: Tid)
    requires ChannelsOk(s) && t in s.tasklets && c in s.channels && d != Neither
    requires t !in s.channels[c].senders && t !in s.channels[c].receivers && !s.channels[c].closed
    requires if d == Sender then s.channels[c].receivers == [] else s.channels[c].senders == []
    ensures ChannelsOk(Block(Add(s, c, d, t), c, t))
  {
    assert ChannelOk(s.channels[c]);
  }

  lemma UnparkKeepsChannels(s: State, c: Cid, t: Tid)
    requires ChannelsOk(s) && t in s.tasklets && c in s.channels
    requires t in s.channels[c].senders <==> s.tasklets[t].direction == Sender
    requires t in s.channels[c].receivers <==> s.tasklets[t].direction == Receiver
    ensures ChannelsOk(Unblock(RemoveBlocked(s, c, t), t))
  {
    assert ChannelOk(s.channels[c]);
    WithoutDistinct(s.channels[c].senders, t);
    WithoutDistinct(s.channels[c].receivers, t);
  }

  // ---- The three together ----

  lemma PutStruct(s: State, t: Tid, x: Tasklet)
    requires Struct(s)
    requires if t in s.tasklets
             then x.scheduled == s.tasklets[t].scheduled
                  && x.blockedOn == s.tasklets[t].blockedOn && x.direction == s.tasklets[t].direction
             else !x.scheduled && x.blockedOn.None? && x.direction == Neither
    ensures Struct(Put(s, t, x))
  {
    PutKeepsQueue(s, t, x);
    PutKeepsLists(s, t, x);
  }

  lemma BooksStruct(s: State, nextCall: Call, outcomes: map<Call, Outcome>)
    requires Struct(s)
    ensures Struct(s.(nextCall := nextCall, outcomes := outcomes))
  {
    var s' := s.(nextCall := nextCall, outcomes := outcomes);
    forall c, t | c in s'.channels ensures Listed(s', c, t) { assert Listed(s, c, t); }
    forall t | t in s'.tasklets ensures Directed(s', t) { assert Directed(s, t); }
  }

  lemma QueueOnly(s: State, t: Tid, s': State)
    requires ListsOk(s) && ChannelsOk(s) && t in s.tasklets && s'.channels == s.channels
    requires exists x: Tasklet :: s'.tasklets == s.tasklets[t := x]
                               && x.blockedOn == s.tasklets[t].blockedOn && x.direction == s.tasklets[t].direction
    ensures ListsOk(s') && ChannelsOk(s')
  {
    forall c, u | c in s'.channels ensures Listed(s', c, u) { assert Listed(s, c, u); }
    forall u | u in s'.tasklets ensures Directed(s', u) { assert Directed(s, u); }
  }

  lemma InsertStruct(s: State, t: Tid)
    requires Struct(s) && t in s.tasklets && (s.tasklets[t].blockedOn.None? || s.tasklets[t].scheduled)
    ensures Struct(Insert(s, t))
  {
    InsertKeepsQueue(s, t);
    assert Insert(s, t).tasklets == s.tasklets[t := Insert(s, t).tasklets[t]];
    QueueOnly(s, t, Insert(s, t));
  }

  lemma InsertNextStruct(s: State, t: Tid)
    requires Struct(s) && t in s.tasklets && (s.tasklets[t].blockedOn.None? || s.tasklets[t].scheduled)
    ensures Struct(InsertNext(s, t))
  {
    InsertNextKeepsQueue(s, t);
    assert InsertNext(s, t).tasklets == s.tasklets[t := InsertNext(s, t).tasklets[t]];
    QueueOnly(s, t, InsertNext(s, t));
  }

  lemma RemoveStruct(s: State, t: Tid)
    requires Struct(s) && t in s.tasklets && t != MAIN && t != s.current
    ensures Struct(Remove(s, t))
  {
    RemoveKeepsQueue(s, t);
    assert Remove(s, t).tasklets == s.tasklets[t := Remove(s, t).tasklets[t]];
    QueueOnly(s, t, Remove(s, t));
  }

  lemma EndTurnStruct(s: State)
    requires Struct(s) && s.current != MAIN
    requires s.tasklets[s.current].reschedule != Stay ==> s.tasklets[s.current].blockedOn.None?
    ensures Struct(EndTurn(s))
  {
    EndTurnKeepsQueue(s);
    assert EndTurn(s).tasklets == s.tasklets[s.current := EndTurn(s).tasklets[s.current]];
    QueueOnly(s, s.current, EndTurn(s));
  }

  lemma YieldStruct(s: State, at: Suspension)
    requires Struct(s)
    requires s.current != MAIN && s.tasklets[s.current].reschedule != Stay ==> s.tasklets[s.current].blockedOn.None?
    ensures Struct(Yield(s, at))
  {
    var x := s.tasklets[s.current].(at := at);
    PutStruct(s, s.current, x);
    if s.current != MAIN {
      EndTurnStruct(Put(s, s.current, x));
    }
  }

  lemma ParkKeepsQueue(s: State, c: Cid, d: Direction, t: Tid)
    requires QueueOk(s) && t in s.tasklets && c in s.channels && d != Neither
    ensures QueueOk(Block(Add(s, c, d, t), c, t))
  {
    SameQueue(s, Block(Add(s, c, d, t), c, t));
  }

  lemma ParkStruct(s: State, c: Cid, d: Direction, t: Tid)
    requires Struct(s) && t in s.tasklets && c in s.channels && d != Neither && s.tasklets[t].blockedOn.None?
    requires !s.channels[c].closed
    requires if d == Sender then s.channels[c].receivers == [] else s.channels[c].senders == []
    ensures Struct(Block(Add(s, c, d, t), c, t))
  {
    assert Listed(s, c, t);
    ParkKeepsLists(s, c, d, t);
    ParkKeepsChannels(s, c, d, t);
    ParkKeepsQueue(s, c, d, t);
  }

  lemma UnparkStruct(s: State, c: Cid, t: Tid)
    requires Struct(s) && t in s.tasklets && c in s.channels
    requires s.tasklets[t].blockedOn == Some(c) || s.tasklets[t].blockedOn.None?
    ensures Struct(Unblock(RemoveBlocked(s, c, t), t))
  {
    assert ChannelOk(s.channels[c]) && Listed(s, c, t) && Directed(s, t);
    UnparkKeepsLists(s, c, t);
    UnparkKeepsChannels(s, c, t);
    PutKeepsQueue(s, t, s.tasklets[t].(direction := Neither, blockedOn := None));
    UnparkEffect(s, c, t);
  }

  lemma PutChannelStruct(s: State, c: Cid, ch: Channel)
    requires Struct(s) && ChannelOk(ch)
    requires if c in s.channels then ch.senders == s.channels[c].senders && ch.receivers == s.channels[c].receivers
             else ch.senders == [] && ch.receivers == []
    ensures Struct(PutChannel(s, c, ch))
  {
    PutChannelKeepsLists(s, c, ch);
    PutChannelKeepsChannels(s, c, ch);
  }

  lemma UpdateCloseStruct(s: State, c: Cid)
    requires Struct(s) && c in s.channels
    ensures Struct(UpdateClose(s, c))
  {
    UpdateCloseKeepsLists(s, c);
    UpdateCloseKeepsChannels(s, c);
  }
}
