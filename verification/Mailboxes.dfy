/** A queue channel: a rendezvous channel with sender preference and a buffer in front of it, which
    together behave as an unbounded first-in-first-out mailbox. */
module Mailboxes {
  import opened Options
  import opened Flags
  import opened Scheduler
  import opened SchedulerInvariant
  import opened SchedulerEffects
  import opened SchedulerPlacement
  import opened Rendezvous
  import opened RendezvousSteps
  import opened ChannelSteps

  /** How a receive call gets its message: from the buffer, or through the channel. */
  datatype Get = Popped(message: Message) | Waited(call: Call)

  datatype Delivery = Delivery(message: Message, get: Get)

  /** `data` is the buffer; `delivered` is history: the messages handed over so far, each with the
      receive call that got it. */
  datatype Mailbox = Mailbox(state: State, c: Cid, data: seq<Message>, delivered: seq<Delivery>)

  // ---- Operations ----

  /** `send` and `send_throw`; the result is false if the send is refused. */
  function SendMail(q: Mailbox, m: Message): (Mailbox, bool)
    requires Placed(q.state) && Running(q.state) && q.c in q.state.channels
  {
    var ch := q.state.channels[q.c];
    if ch.balance >= 0 && !ch.closing then (q.(data := q.data + [m]), true)
    else
      var s' := Act(q.state, DoSend(q.c, m));
      if ch.receivers == [] then (q.(state := s'), false)
      else
        WaitingReceiver(q.state, q.c);
        var call := q.state.tasklets[ch.receivers[0]].at.call;
        (q.(state := s', delivered := q.delivered + [Delivery(m, Waited(call))]), true)
  }

  /** `receive`; the result is the message if the buffer has one. */
  function ReceiveMail(q: Mailbox): (Mailbox, Option<Message>)
    requires Placed(q.state) && Running(q.state) && q.c in q.state.channels
  {
    if q.data == [] then (q.(state := Act(q.state, DoReceive(q.c))), None)
    else (q.(data := q.data[1..], delivered := q.delivered + [Delivery(q.data[0], Popped(q.data[0]))]), Some(q.data[0]))
  }

  /** `balance`. */
  function MailBalance(q: Mailbox): int
    requires q.c in q.state.channels
  {
    if q.data != [] then |q.data| else q.state.channels[q.c].balance
  }

  /** Any step of the scheduler that does not bypass the queue channel. */
  ghost predicate Elsewhere(q: Mailbox, a: Action) {
    Placed(q.state) && Allowed(q.state, a) && !((a.DoSend? || a.DoReceive? || a.DoPrefer?) && a.c == q.c)
  }

  function StepElsewhere(q: Mailbox, a: Action): Mailbox
    requires Elsewhere(q, a)
  {
    q.(state := Act(q.state, a))
  }

  // ---- What has been accepted and what has been taken ----

  function SentMessages(sends: seq<SendCall>): seq<Message> {
    if sends == [] then [] else SentMessages(sends[..|sends| - 1]) + [sends[|sends| - 1].message]
  }

  /** The calls that got their message through the channel, and those messages. */
  function Waits(ds: seq<Delivery>): seq<Call> {
    if ds == [] then []
    else
      var d := ds[|ds| - 1];
      Waits(ds[..|ds| - 1]) + if d.get.Waited? then [d.get.call] else []
  }

  function WaitMessages(ds: seq<Delivery>): seq<Message> {
    if ds == [] then []
    else
      var d := ds[|ds| - 1];
      WaitMessages(ds[..|ds| - 1]) + if d.get.Waited? then [d.message] else []
  }

  function GetsOf(ds: seq<Delivery>): seq<Get> {
    seq(|ds|, i requires 0 <= i < |ds| => ds[i].get)
  }

  /** The messages accepted so far, in order. */
  function Accepted(q: Mailbox): seq<Message> {
    seq(|q.delivered|, i requires 0 <= i < |q.delivered| => q.delivered[i].message) + q.data
  }

  function WaitedCalls(calls: seq<Call>): seq<Get> {
    seq(|calls|, i requires 0 <= i < |calls| => Waited(calls[i]))
  }

  /** The receive calls made so far and not cancelled, in order. */
  function Taken(q: Mailbox): seq<Get>
    requires q.c in q.state.channels && Counted(q.state.channels[q.c])
  {
    var ch := q.state.channels[q.c];
    GetsOf(q.delivered) + WaitedCalls(ch.receives[Pairs(ch)..])
  }

  // ---- Invariant ----

  /** How the channel behind the buffer is used. */
  ghost predicate Behind(ch: Channel, data: seq<Message>, ds: seq<Delivery>) {
    && ch.senders == [] && ch.preference == Sender && (data != [] ==> ch.receivers == [])
    && Counted(ch) && Waits(ds) == ch.receives[..Pairs(ch)] && WaitMessages(ds) == SentMessages(ch.sends)
    && (forall i :: 0 <= i < |ds| && ds[i].get.Popped? ==> ds[i].get.message == ds[i].message)
  }

  ghost predicate MailOk(q: Mailbox) {
    && Placed(q.state) && Agreed(q.state) && q.c in q.state.channels
    && Behind(q.state.channels[q.c], q.data, q.delivered)
  }

  lemma BufferedBehind(ch: Channel, data: seq<Message>, ds: seq<Delivery>, m: Message)
    requires Behind(ch, data, ds)
    ensures ch.receivers == [] ==> Behind(ch, data + [m], ds)
    ensures data != [] ==> Behind(ch, data[1..], ds + [Delivery(data[0], Popped(data[0]))])
  {
    if data != [] {
      var ds' := ds + [Delivery(data[0], Popped(data[0]))];
      assert ds'[..|ds'| - 1] == ds;
    }
  }

  /** A message goes straight to the longest-waiting receiver. */
  lemma MatchedBehind(ch: Channel, ch': Channel, ds: seq<Delivery>, call: Call, n: Call, m: Message)
    requires Behind(ch, [], ds) && Counted(ch') && ch.receivers != [] && call == ch.receives[Pairs(ch)]
    requires ch'.senders == [] && ch'.preference == Sender && ch'.receives == ch.receives
    requires ch'.sends == ch.sends + [SendCall(n, m)]
    ensures Behind(ch', [], ds + [Delivery(m, Waited(call))])
  {
    var ds' := ds + [Delivery(m, Waited(call))];
    assert ds'[..|ds'| - 1] == ds && ch'.sends[..|ch'.sends| - 1] == ch.sends;
    assert ch.receives[..Pairs(ch) + 1] == ch.receives[..Pairs(ch)] + [call];
  }

  /** A receive that waits, or steps that leave the pairs alone. */
  lemma SamePairsBehind(ch: Channel, ch': Channel, data: seq<Message>, ds: seq<Delivery>)
    requires Behind(ch, data, ds) && Counted(ch') && Pairs(ch') == Pairs(ch)
    requires ch'.senders == [] && ch'.preference == Sender && ch'.sends == ch.sends
    requires Pairs(ch) <= |ch'.receives| && ch'.receives[..Pairs(ch)] == ch.receives[..Pairs(ch)]
    requires data != [] ==> ch'.receivers == []
    ensures Behind(ch', data, ds)
  {}

  // ---- Send ----

  lemma AgreedCounted(s: State, c: Cid)
    requires Agreed(s) && c in s.channels
    ensures Counted(s.channels[c])
  {
    assert Books(s, c);
  }

  lemma StepAgrees(s: State, a: Action, s': State)
    requires Placed(s) && Allowed(s, a) && Agreed(s) && s' == Act(s, a)
    ensures Placed(s') && Agreed(s')
  {
    ActAgrees(s, a);
  }

  lemma HeadReceiverCall(s: State, c: Cid)
    requires Agreed(s) && c in s.channels && s.channels[c].receivers != []
    ensures var ch := s.channels[c];
            Counted(ch) && ch.receivers[0] in s.tasklets && s.tasklets[ch.receivers[0]].at.InReceive?
            && s.tasklets[ch.receivers[0]].at.call == ch.receives[Pairs(ch)]
  {
    assert Books(s, c) && ReceiverLogged(s.channels[c], 0, s.tasklets);
  }

  /** A send to a waiting receiver: the sender goes on, and the receiver leaves the list. */
  lemma SendReaches(s: State, c: Cid, m: Message, s': State)
    requires Placed(s) && Running(s) && c in s.channels && s.channels[c].receivers != []
    requires s.channels[c].preference == Sender
    requires s' == Act(s, DoSend(c, m))
    ensures c in s'.channels && s'.current == s.current && Running(s')
    ensures var (ch, ch') := (s.channels[c], s'.channels[c]);
            && ch'.senders == [] && ch'.preference == Sender && ch'.receives == ch.receives
            && ch'.sends == ch.sends + [SendCall(s.nextCall, m)] && ch'.receivers == ch.receivers[1..]
  {
    PlacedIsShaped(s);
    WaitingReceiver(s, c);
    assert ChannelOk(s.channels[c]);
    SendReachesPartner(s, c, m, s');
  }

  lemma SendReachesPartner(s: State, c: Cid, m: Message, s': State)
    requires Shaped(s) && Running(s) && c in s.channels && s.channels[c].receivers != [] && ChannelOk(s.channels[c])
    requires s.channels[c].preference == Sender
    requires s.channels[c].receivers[0] in s.tasklets && s.channels[c].receivers[0] != s.current
    requires s' == Send(s, c, m)
    ensures c in s'.channels && s'.current == s.current && Running(s')
    ensures var (ch, ch') := (s.channels[c], s'.channels[c]);
            && ch'.senders == [] && ch'.preference == Sender && ch'.receives == ch.receives
            && ch'.sends == ch.sends + [SendCall(s.nextCall, m)] && ch'.receivers == ch.receivers[1..]
  {
    SendGoesOnEffect(s, c, m);
    var r := s.channels[c].receivers[0];
    MatchedLists(s.channels[c], LoggedSend(s.channels[c], s.nextCall, m), r, s.tasklets[r].direction);
  }

  lemma SendRefusedState(s: State, c: Cid, m: Message, s': State)
    requires Placed(s) && Running(s) && c in s.channels && Refused(s.channels[c], DoSend(c, m))
    requires s' == Act(s, DoSend(c, m))
    ensures s'.channels == s.channels && s'.current == s.current && Running(s')
  {}

  /** What a send promises: the sender goes on, and what is accepted grows by the message or, if the
      send is refused, not at all. */
  ghost predicate Sent(q: Mailbox, m: Message, q': Mailbox, ok: bool) {
    && q'.c == q.c && q.c in q.state.channels && q.c in q'.state.channels
    && Counted(q.state.channels[q.c]) && Behind(q'.state.channels[q.c], q'.data, q'.delivered)
    && Running(q'.state) && q'.state.current == q.state.current
    && Accepted(q') == Accepted(q) + (if ok then [m] else []) && Taken(q') == Taken(q)
  }

  lemma SendBuffers(q: Mailbox, m: Message, q': Mailbox)
    requires q.c in q.state.channels && Behind(q.state.channels[q.c], q.data, q.delivered)
    requires Running(q.state) && q.state.channels[q.c].receivers == [] && q' == q.(data := q.data + [m])
    ensures Sent(q, m, q', true)
  {
    BufferedBehind(q.state.channels[q.c], q.data, q.delivered, m);
    assert Accepted(q') == Accepted(q) + [m];
  }

  lemma SendRefuses(q: Mailbox, m: Message, q': Mailbox)
    requires q.c in q.state.channels && Behind(q.state.channels[q.c], q.data, q.delivered)
    requires Placed(q.state) && Running(q.state) && Refused(q.state.channels[q.c], DoSend(q.c, m))
    requires q' == q.(state := Act(q.state, DoSend(q.c, m)))
    ensures Sent(q, m, q', false)
  {
    SendRefusedState(q.state, q.c, m, q'.state);
  }

  lemma SendDelivers(q: Mailbox, m: Message, q': Mailbox)
    requires q.c in q.state.channels && Behind(q.state.channels[q.c], q.data, q.delivered)
    requires Placed(q.state) && Running(q.state) && q.state.channels[q.c].receivers != []
    requires q.c in q'.state.channels && Counted(q'.state.channels[q.c])
    requires var ch := q.state.channels[q.c];
             q' == q.(state := Act(q.state, DoSend(q.c, m)),
                      delivered := q.delivered + [Delivery(m, Waited(ch.receives[Pairs(ch)]))])
    ensures Sent(q, m, q', true)
  {
    SendReaches(q.state, q.c, m, q'.state);
    SendHandsOver(q, m, q'.state);
  }

  lemma SendMailSends(q: Mailbox, m: Message, q': Mailbox, ok: bool)
    requires MailOk(q) && Running(q.state) && (q', ok) == SendMail(q, m)
    requires q.c in q'.state.channels && Counted(q'.state.channels[q.c])
    ensures Sent(q, m, q', ok)
    ensures ok <==> !(q.state.channels[q.c].closing && q.state.channels[q.c].receivers == [])
  {
    var ch := q.state.channels[q.c];
    BalanceSign(q.state, q.c);
    if ch.balance >= 0 && !ch.closing {
      SendBuffers(q, m, q');
    } else if ch.receivers == [] {
      SendRefuses(q, m, q');
    } else {
      HeadReceiverCall(q.state, q.c);
      SendDelivers(q, m, q');
    }
  }

  lemma SendMailStep(q: Mailbox, m: Message, q': Mailbox)
    requires MailOk(q) && Running(q.state) && q' == SendMail(q, m).0
    ensures Placed(q'.state) && Agreed(q'.state) && q.c in q'.state.channels && Counted(q'.state.channels[q.c])
  {
    if q'.state != q.state {
      StepAgrees(q.state, DoSend(q.c, m), q'.state);
      ActMoves(q.state, DoSend(q.c, m), q.c);
    }
    AgreedCounted(q'.state, q.c);
  }

  /** Sending never blocks and keeps the invariant, and is refused exactly when the channel is
      closing and nobody waits. */
  lemma SendMailKeeps(q: Mailbox, m: Message, q': Mailbox, ok: bool)
    requires MailOk(q) && Running(q.state) && (q', ok) == SendMail(q, m)
    ensures MailOk(q') && Sent(q, m, q', ok)
    ensures ok <==> !(q.state.channels[q.c].closing && q.state.channels[q.c].receivers == [])
  {
    SendMailStep(q, m, q');
    SendMailSends(q, m, q', ok);
  }

  lemma BalanceSign(s: State, c: Cid)
    requires Placed(s) && c in s.channels
    ensures var ch := s.channels[c];
            && ch.balance == |ch.senders| - |ch.receivers| && (ch.balance < 0 <==> ch.receivers != [])
            && (ch.closed ==> ch.closing)
  {
    assert ChannelOk(s.channels[c]);
  }

  lemma SendHandsOver(q: Mailbox, m: Message, s': State)
    requires q.c in q.state.channels && q.c in s'.channels && Counted(s'.channels[q.c])
    requires var (ch, ch') := (q.state.channels[q.c], s'.channels[q.c]);
             && Behind(ch, q.data, q.delivered) && ch.receivers != []
             && ch'.senders == [] && ch'.preference == Sender && ch'.receives == ch.receives
             && ch'.sends == ch.sends + [SendCall(q.state.nextCall, m)] && ch'.receivers == ch.receivers[1..]
    ensures var ch := q.state.channels[q.c];
            var q' := q.(state := s', delivered := q.delivered + [Delivery(m, Waited(ch.receives[Pairs(ch)]))]);
            && Behind(s'.channels[q.c], q'.data, q'.delivered)
            && Accepted(q') == Accepted(q) + [m] && Taken(q') == Taken(q)
  {
    var (ch, ch') := (q.state.channels[q.c], s'.channels[q.c]);
    var call := ch.receives[Pairs(ch)];
    MatchedBehind(ch, ch', q.delivered, call, q.state.nextCall, m);
    assert ch.receives[Pairs(ch)..] == [call] + ch'.receives[Pairs(ch')..];
    assert WaitedCalls(ch.receives[Pairs(ch)..]) == [Waited(call)] + WaitedCalls(ch'.receives[Pairs(ch')..]);
  }

  // ---- Receive ----

  lemma ReceiveWaits(s: State, c: Cid, s': State)
    requires Placed(s) && Running(s) && c in s.channels && s.channels[c].senders == [] && s' == Act(s, DoReceive(c))
    ensures c in s'.channels
    ensures var (ch, ch') := (s.channels[c], s'.channels[c]);
            && ch'.senders == [] && ch'.preference == ch.preference && ch'.sends == ch.sends
            && ch'.receives == ch.receives + (if ch.closing then [] else [s.nextCall])
  {
    WaitsOrRefuses(s, c, s');
    ReceiveChannels(s, c);
  }

  lemma WaitsOrRefuses(s: State, c: Cid, s': State)
    requires Placed(s) && Running(s) && c in s.channels && s.channels[c].senders == [] && s' == Act(s, DoReceive(c))
    ensures s' == if s.channels[c].closing then ReceiveRefused(s, c) else ReceiveBlocks(s, c)
  {
    PlacedIsShaped(s);
    assert ChannelOk(s.channels[c]);
    assert s' == Receive(s, c);
  }

  lemma ReceiveChannels(s: State, c: Cid)
    requires Placed(s) && Running(s) && c in s.channels
    ensures ReceiveRefused(s, c).channels == s.channels
    ensures ReceiveBlocks(s, c).channels == s.channels[c := WithReceiver(s.channels[c], s.current, s.nextCall)]
  {
    ReceiveRefusedChannels(s, c);
    ReceiveBlocksEffect(s, c);
  }

  lemma ReceiveMailWaits(q: Mailbox, s': State)
    requires q.c in q.state.channels && Behind(q.state.channels[q.c], q.data, q.delivered) && q.data == []
    requires Placed(q.state) && Running(q.state) && s' == Act(q.state, DoReceive(q.c))
    requires q.c in s'.channels && Counted(s'.channels[q.c])
    ensures Behind(s'.channels[q.c], q.data, q.delivered) && Accepted(q.(state := s')) == Accepted(q)
    ensures Taken(q.(state := s'))
         == Taken(q) + (if q.state.channels[q.c].closing then [] else [Waited(q.state.nextCall)])
  {
    ReceiveWaits(q.state, q.c, s');
    ReceiveJoins(q, s', q.state.channels[q.c].closing, q.state.nextCall);
  }

  lemma ReceiveMailStep(q: Mailbox, q': Mailbox)
    requires MailOk(q) && Running(q.state) && q' == ReceiveMail(q).0
    ensures Placed(q'.state) && Agreed(q'.state) && q.c in q'.state.channels && Counted(q'.state.channels[q.c])
  {
    if q.data == [] {
      StepAgrees(q.state, DoReceive(q.c), q'.state);
      ActMoves(q.state, DoReceive(q.c), q.c);
    }
    AgreedCounted(q'.state, q.c);
  }

  /** A receive takes the oldest buffered message, closing or not, or else waits, or is refused by a
      closing channel. */
  lemma ReceiveMailKeeps(q: Mailbox, q': Mailbox, m: Option<Message>)
    requires MailOk(q) && Running(q.state) && (q', m) == ReceiveMail(q)
    ensures MailOk(q') && q'.c == q.c && Counted(q.state.channels[q.c]) && Accepted(q') == Accepted(q)
    ensures q.data != [] ==> m == Some(q.data[0]) && Taken(q') == Taken(q) + [Popped(q.data[0])] && q'.state == q.state
    ensures q.data == [] ==>
              && m == None
              && Taken(q') == Taken(q) + (if q.state.channels[q.c].closing then [] else [Waited(q.state.nextCall)])
  {
    ReceiveMailStep(q, q');
    if q.data == [] {
      ReceiveMailWaits(q, q'.state);
    } else {
      ReceivePops(q);
    }
  }

  lemma ReceivePops(q: Mailbox)
    requires q.c in q.state.channels && q.data != [] && Behind(q.state.channels[q.c], q.data, q.delivered)
    ensures var q' := q.(data := q.data[1..], delivered := q.delivered + [Delivery(q.data[0], Popped(q.data[0]))]);
            && Behind(q'.state.channels[q'.c], q'.data, q'.delivered)
            && Accepted(q') == Accepted(q) && Taken(q') == Taken(q) + [Popped(q.data[0])]
  {
    var ch := q.state.channels[q.c];
    BufferedBehind(ch, q.data, q.delivered, q.data[0]);
    assert ch.receives[Pairs(ch)..] == [];
  }

  lemma ReceiveJoins(q: Mailbox, s': State, refused: bool, call: Call)
    requires q.c in q.state.channels && q.c in s'.channels && Counted(s'.channels[q.c]) && q.data == []
    requires var (ch, ch') := (q.state.channels[q.c], s'.channels[q.c]);
             && Behind(ch, q.data, q.delivered)
             && ch'.senders == [] && ch'.preference == ch.preference && ch'.sends == ch.sends
             && ch'.receives == ch.receives + (if refused then [] else [call])
    ensures var q' := q.(state := s');
            && Behind(s'.channels[q.c], q'.data, q'.delivered)
            && Accepted(q') == Accepted(q) && Taken(q') == Taken(q) + (if refused then [] else [Waited(call)])
  {
    var (ch, ch') := (q.state.channels[q.c], s'.channels[q.c]);
    SamePairsBehind(ch, ch', q.data, q.delivered);
    var calls := if refused then [] else [call];
    assert ch'.receives[Pairs(ch')..] == ch.receives[Pairs(ch)..] + calls;
    assert WaitedCalls(calls) == if refused then [] else [Waited(call)];
  }

  // ---- Everything else ----

  /** The victim on this channel is a waiting receiver, whose call is dropped; the rest stays. */
  lemma ElsewhereChannel(s: State, a: Action, c: Cid, s': State)
    requires Placed(s) && Allowed(s, a) && Agreed(s) && c in s.channels && s.channels[c].senders == []
    requires s' == Act(s, a)
    requires !((a.DoSend? || a.DoReceive? || a.DoPrefer?) && a.c == c)
    ensures c in s'.channels && s'.channels[c].preference == s.channels[c].preference
    ensures || SameBook(s.channels[c], s'.channels[c])
            || (CancelledBy(s, a).Some? && exists j :: ReceiverDropped(s.channels[c], s'.channels[c], j))
  {
    ActMoves(s, a, c);
    MovesElsewhere(s, a, c, s');
  }

  lemma MovesElsewhere(s: State, a: Action, c: Cid, s': State)
    requires ListsOk(s) && ChannelsOk(s) && Agreed(s) && Moves(s, a, c, s') && s.channels[c].senders == []
    requires !((a.DoSend? || a.DoReceive? || a.DoPrefer?) && a.c == c)
    ensures s'.channels[c].preference == s.channels[c].preference
    ensures || SameBook(s.channels[c], s'.channels[c])
            || (CancelledBy(s, a).Some? && exists j :: ReceiverDropped(s.channels[c], s'.channels[c], j))
  {
    var victim := CancelledBy(s, a);
    if victim.Some? && victim.value in s.tasklets && s.tasklets[victim.value].blockedOn == Some(c) {
      var t := victim.value;
      assert Listed(s, c, t) && Directed(s, t) && Books(s, c) && ChannelOk(s.channels[c]);
      VictimDropped(s.channels[c], s'.channels[c], s.nextCall, s.tasklets, t);
    }
  }

  lemma VictimDropped(ch: Channel, ch': Channel, nextCall: Call, k: map<Tid, Tasklet>, t: Tid)
    requires ChannelOk(ch) && Logged(ch, nextCall) && Tails(ch, k) && t in k && t in ch.receivers
    requires SameBook(OffLists(CancelCall(ch, k[t].at), t, k[t].direction), ch')
    ensures exists j :: ReceiverDropped(ch, ch', j)
  {
    CancelDrops(ch, nextCall, k, t);
    var ch1 := OffLists(CancelCall(ch, k[t].at), t, k[t].direction);
    var j :| ReceiverDropped(ch, ch1, j);
    assert ReceiverDropped(ch, ch', j);
  }

  /** Steps elsewhere accept and lose nothing; they can only cancel a waiting receive. */
  lemma ElsewhereKeeps(q: Mailbox, a: Action)
    requires MailOk(q) && Elsewhere(q, a)
    ensures var q' := StepElsewhere(q, a);
            && MailOk(q') && Accepted(q') == Accepted(q) && q'.data == q.data
            && (Taken(q') == Taken(q)
                || (CancelledBy(q.state, a).Some? && exists k :: |q.delivered| <= k && Dropped(Taken(q), Taken(q'), k)))
  {
    var (s, c) := (q.state, q.c);
    var s' := Act(s, a);
    StepAgrees(s, a, s');
    AgreedCounted(s, c);
    ElsewhereChannel(s, a, c, s');
    AgreedCounted(s', c);
    ElsewhereTaken(q, s');
  }

  lemma ElsewhereTaken(q: Mailbox, s': State)
    requires q.c in q.state.channels && q.c in s'.channels && Counted(s'.channels[q.c])
    requires var (ch, ch') := (q.state.channels[q.c], s'.channels[q.c]);
             && Behind(ch, q.data, q.delivered) && ch'.preference == ch.preference
             && (SameBook(ch, ch') || exists j :: ReceiverDropped(ch, ch', j))
    ensures var q' := q.(state := s');
            && Behind(s'.channels[q.c], q'.data, q'.delivered) && Accepted(q') == Accepted(q)
            && (SameBook(q.state.channels[q.c], s'.channels[q.c]) ==> Taken(q') == Taken(q))
            && (Taken(q') == Taken(q) || exists k :: |q.delivered| <= k && Dropped(Taken(q), Taken(q'), k))
  {
    var ch := q.state.channels[q.c];
    var ch' := s'.channels[q.c];
    if SameBook(ch, ch') {
      SamePairsBehind(ch, ch', q.data, q.delivered);
    } else {
      var j :| ReceiverDropped(ch, ch', j);
      WaitingDropped(ch, ch', q.data, q.delivered, j);
      DroppedBehind(GetsOf(q.delivered), WaitedCalls(ch.receives[Pairs(ch)..]),
                    WaitedCalls(ch'.receives[Pairs(ch')..]), j);
      assert Dropped(Taken(q), Taken(q.(state := s')), |q.delivered| + j);
    }
  }

  /** A receive that is dropped from the blocked ones. */
  lemma WaitingDropped(ch: Channel, ch': Channel, data: seq<Message>, ds: seq<Delivery>, j: nat)
    requires Behind(ch, data, ds) && Counted(ch') && ch'.preference == ch.preference && ReceiverDropped(ch, ch', j)
    ensures Behind(ch', data, ds) && Pairs(ch') == Pairs(ch)
    ensures Dropped(WaitedCalls(ch.receives[Pairs(ch)..]), WaitedCalls(ch'.receives[Pairs(ch)..]), j)
  {
    var n := Pairs(ch);
    assert ch'.receives[..n] == ch.receives[..n];
    SamePairsBehind(ch, ch', data, ds);
  }

  lemma DroppedBehind<T>(front: seq<T>, a: seq<T>, b: seq<T>, j: nat)
    requires Dropped(a, b, j)
    ensures Dropped(front + a, front + b, |front| + j)
  {}

  // ---- What every mailbox in use satisfies ----

  lemma {:induction false} WaitIndex(ds: seq<Delivery>, i: nat)
    requires i < |ds| && ds[i].get.Waited?
    ensures |Waits(ds)| == |WaitMessages(ds)|
    ensures exists k :: 0 <= k < |Waits(ds)| && Waits(ds)[k] == ds[i].get.call && WaitMessages(ds)[k] == ds[i].message
  {
    var init := ds[..|ds| - 1];
    WaitLengths(init);
    if i < |ds| - 1 {
      WaitIndex(init, i);
      var k :| 0 <= k < |Waits(init)| && Waits(init)[k] == init[i].get.call && WaitMessages(init)[k] == init[i].message;
      assert Waits(ds)[k] == ds[i].get.call && WaitMessages(ds)[k] == ds[i].message;
    } else {
      assert Waits(ds)[|Waits(init)|] == ds[i].get.call && WaitMessages(ds)[|Waits(init)|] == ds[i].message;
    }
  }

  lemma WaitLengths(ds: seq<Delivery>)
    ensures |Waits(ds)| == |WaitMessages(ds)|
  {}

  lemma SentAt(sends: seq<SendCall>, k: nat)
    requires k < |sends|
    ensures |SentMessages(sends)| == |sends| && SentMessages(sends)[k] == sends[k].message
  {
    if k < |sends| - 1 { SentAt(sends[..|sends| - 1], k); } else { SentLength(sends[..|sends| - 1]); }
  }

  lemma SentLength(sends: seq<SendCall>)
    ensures |SentMessages(sends)| == |sends|
  {}

  /** The i-th accepted message reaches the i-th surviving receive call. */
  lemma FirstInFirstOut(q: Mailbox, i: nat)
    requires MailOk(q) && i < |q.delivered|
    ensures Counted(q.state.channels[q.c]) && i < |Accepted(q)| && i < |Taken(q)|
    ensures match Taken(q)[i]
            case Popped(m) => m == Accepted(q)[i]
            case Waited(call) => Matched(q.state, call, Accepted(q)[i])
  {
    AgreedCounted(q.state, q.c);
    var (ch, d) := (q.state.channels[q.c], q.delivered[i]);
    assert Accepted(q)[i] == d.message && Taken(q)[i] == d.get;
    if d.get.Waited? {
      assert Books(q.state, q.c);
      WaitIndex(q.delivered, i);
      var (calls, messages) := (Waits(q.delivered), WaitMessages(q.delivered));
      var k :| 0 <= k < |calls| && calls[k] == d.get.call && messages[k] == d.message;
      SentAt(ch.sends, k);
      assert Matched(q.state, ch.receives[k], ch.sends[k].message);
    }
  }

  /** Undelivered messages and waiting receivers never coexist, nobody is blocked in a send, and the
      balance counts the one or the other. */
  lemma MailBalanced(q: Mailbox)
    requires MailOk(q)
    ensures var ch := q.state.channels[q.c];
            && ch.senders == [] && (q.data == [] || ch.receivers == [])
            && MailBalance(q) == |q.data| - |ch.receivers| == |Accepted(q)| - |Taken(q)|
  {
    BalanceSign(q.state, q.c);
    AgreedCounted(q.state, q.c);
  }

  /** Repeated receives by a running tasklet. */
  function Drain(q: Mailbox, k: nat): (seq<Message>)
    requires Placed(q.state) && Running(q.state) && q.c in q.state.channels && k <= |q.data|
    decreases k
  {
    if k == 0 then [] else
    var (q', m) := ReceiveMail(q);
    [m.value] + Drain(q', k - 1)
  }

  /** Closing loses no buffered message: the next receives return the whole buffer in order. */
  lemma {:induction false} DrainReturnsBuffer(q: Mailbox, k: nat)
    requires Placed(q.state) && Running(q.state) && q.c in q.state.channels && k <= |q.data|
    ensures Drain(q, k) == q.data[..k]
    decreases k
  {
    if k > 0 {
      DrainReturnsBuffer(ReceiveMail(q).0, k - 1);
      assert q.data[..k] == [q.data[0]] + q.data[1..][..k - 1];
    }
  }
}
