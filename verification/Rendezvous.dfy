/** Send calls and receive calls on one channel are matched one to one in call order, and every
    receive is handed exactly the message of its partner. */
module Rendezvous {
  import opened Options
  import opened Lists
  import opened Scheduler
  import opened SchedulerInvariant

  // ---- Calls ----

  predicate HasCall(at: Suspension) {
    at.InSend? || at.InReceive? || at.InReceiveHandoff?
  }

  predicate Receiving(at: Suspension) {
    at.InReceive? || at.InReceiveHandoff?
  }

  /** Suspended in a receive whose message has arrived. */
  predicate Arrived(x: Tasklet) {
    Receiving(x.at) && x.blockedOn.None? && x.slot.Some?
  }

  /** Call numbers of suspended calls are issued, and a suspended receive has no outcome yet. */
  predicate CallOk(x: Tasklet, nextCall: Call, outcomes: map<Call, Outcome>) {
    && (HasCall(x.at) ==> x.at.call < nextCall)
    && (Receiving(x.at) ==> x.at.call !in outcomes)
  }

  predicate Apart(x: Tasklet, y: Tasklet) {
    HasCall(x.at) && HasCall(y.at) ==> x.at.call != y.at.call
  }

  ghost predicate CallsOk(s: State) {
    && (forall t :: t in s.tasklets ==> CallOk(s.tasklets[t], s.nextCall, s.outcomes))
    && (forall t, u :: t in s.tasklets && u in s.tasklets && t != u ==> Apart(s.tasklets[t], s.tasklets[u]))
    && (forall k :: k in s.outcomes ==> k < s.nextCall)
  }

  // ---- Histories ----

  /** Both histories are in call order. */
  ghost predicate Logged(ch: Channel, nextCall: Call) {
    && (forall i, j :: 0 <= i < j < |ch.sends| ==> ch.sends[i].call < ch.sends[j].call)
    && (forall i, j :: 0 <= i < j < |ch.receives| ==> ch.receives[i] < ch.receives[j])
    && (forall i :: 0 <= i < |ch.sends| ==> ch.sends[i].call < nextCall)
    && (forall i :: 0 <= i < |ch.receives| ==> ch.receives[i] < nextCall)
  }

  /** How many calls have found a partner. */
  function Pairs(ch: Channel): int {
    |ch.sends| - |ch.senders|
  }

  /** The calls without a partner are those of the blocked tasklets, in the same order. */
  predicate Counted(ch: Channel) {
    0 <= Pairs(ch) == |ch.receives| - |ch.receivers|
  }

  predicate SenderLogged(ch: Channel, j: nat, m: map<Tid, Tasklet>)
    requires Counted(ch) && j < |ch.senders|
  {
    var t := ch.senders[j];
    && t in m && m[t].at.InSend? && m[t].at.call == ch.sends[Pairs(ch) + j].call
    && m[t].slot == Some(ch.sends[Pairs(ch) + j].message)
  }

  predicate ReceiverLogged(ch: Channel, j: nat, m: map<Tid, Tasklet>)
    requires Counted(ch) && j < |ch.receivers|
  {
    var t := ch.receivers[j];
    t in m && m[t].at.InReceive? && m[t].at.call == ch.receives[Pairs(ch) + j]
  }

  ghost predicate Tails(ch: Channel, m: map<Tid, Tasklet>) {
    && Counted(ch)
    && (forall j :: 0 <= j < |ch.senders| ==> SenderLogged(ch, j, m))
    && (forall j :: 0 <= j < |ch.receivers| ==> ReceiverLogged(ch, j, m))
  }

  predicate HoldsFor(x: Tasklet, call: Call, m: Message) {
    Arrived(x) && x.at.call == call && x.slot == Some(m)
  }

  predicate Settled(outcomes: map<Call, Outcome>, call: Call, m: Message) {
    call in outcomes && (outcomes[call] == Got(m) || outcomes[call] == Lost)
  }

  /** The receive call has returned `m`, or was interrupted with `m` at hand, or will find `m`. */
  ghost predicate Matched(s: State, call: Call, m: Message) {
    Settled(s.outcomes, call, m) || exists t :: t in s.tasklets && HoldsFor(s.tasklets[t], call, m)
  }

  ghost predicate Paired(s: State, ch: Channel) {
    Counted(ch) && forall i :: 0 <= i < Pairs(ch) ==> Matched(s, ch.receives[i], ch.sends[i].message)
  }

  ghost predicate Books(s: State, c: Cid)
    requires c in s.channels
  {
    Logged(s.channels[c], s.nextCall) && Tails(s.channels[c], s.tasklets) && Paired(s, s.channels[c])
  }

  ghost predicate Agreed(s: State) {
    CallsOk(s) && forall c :: c in s.channels ==> Books(s, c)
  }

  // ---- What a step may do to what has been agreed ----

  /** The tasklet stays where it is in its call. */
  predicate Kept(x: Tasklet, x': Tasklet) {
    x'.at == x.at && x'.slot == x.slot && (x.blockedOn.None? ==> x'.blockedOn.None?)
  }

  /** Outcomes last, and a message that has arrived is kept or delivered. */
  ghost predicate Carried(s: State, s': State) {
    && (forall k :: k in s.outcomes ==> k in s'.outcomes && s'.outcomes[k] == s.outcomes[k])
    && (forall t :: t in s.tasklets && Arrived(s.tasklets[t]) ==>
          || (t in s'.tasklets && Kept(s.tasklets[t], s'.tasklets[t]))
          || Settled(s'.outcomes, s.tasklets[t].at.call, s.tasklets[t].slot.value))
  }

  /** Once two calls are matched they stay matched. */
  lemma MatchedStays(s: State, s': State, call: Call, m: Message)
    requires Carried(s, s') && Matched(s, call, m)
    ensures Matched(s', call, m)
  {
    if !Settled(s.outcomes, call, m) {
      var t :| t in s.tasklets && HoldsFor(s.tasklets[t], call, m);
      if t in s'.tasklets && Kept(s.tasklets[t], s'.tasklets[t]) {
        assert HoldsFor(s'.tasklets[t], call, m);
      }
    }
  }

  predicate SameBook(ch: Channel, ch': Channel) {
    ch'.senders == ch.senders && ch'.receivers == ch.receivers && ch'.sends == ch.sends && ch'.receives == ch.receives
  }

  /** Blocked tasklets keep their calls. */
  ghost predicate ListsCarried(ch: Channel, m: map<Tid, Tasklet>, m': map<Tid, Tasklet>) {
    forall t :: (t in ch.senders || t in ch.receivers) && t in m ==>
      t in m' && m'[t].at == m[t].at && m'[t].slot == m[t].slot
  }

  lemma TailsStay(ch: Channel, ch': Channel, m: map<Tid, Tasklet>, m': map<Tid, Tasklet>)
    requires Tails(ch, m) && SameBook(ch, ch') && ListsCarried(ch, m, m')
    ensures Tails(ch', m')
  {
    forall j | 0 <= j < |ch'.senders| ensures SenderLogged(ch', j, m') {
      assert SenderLogged(ch, j, m);
      assert ch.senders[j] in ch.senders;
    }
    forall j | 0 <= j < |ch'.receivers| ensures ReceiverLogged(ch', j, m') {
      assert ReceiverLogged(ch, j, m);
      assert ch.receivers[j] in ch.receivers;
    }
  }

  lemma PairedStays(s: State, s': State, ch: Channel, ch': Channel)
    requires Paired(s, ch) && SameBook(ch, ch') && Carried(s, s')
    ensures Paired(s', ch')
  {
    forall i | 0 <= i < Pairs(ch')
      ensures Matched(s', ch'.receives[i], ch'.sends[i].message)
    {
      MatchedStays(s, s', ch.receives[i], ch.sends[i].message);
    }
  }

  /** A channel that the step does not touch. */
  lemma BooksStay(s: State, s': State, c: Cid)
    requires c in s.channels && c in s'.channels && Books(s, c) && s.nextCall <= s'.nextCall
    requires SameBook(s.channels[c], s'.channels[c]) && Carried(s, s')
    requires ListsCarried(s.channels[c], s.tasklets, s'.tasklets)
    ensures Books(s', c)
  {
    TailsStay(s.channels[c], s'.channels[c], s.tasklets, s'.tasklets);
    PairedStays(s, s', s.channels[c], s'.channels[c]);
  }

  // ---- Steps that match nobody ----

  /** The tasklet is out of any call that another tasklet could still complete. */
  predicate Free(x: Tasklet) {
    x.blockedOn.None? && !Arrived(x)
  }

  /** `x` becomes `x'` without any transfer. */
  predicate Idles(x: Tasklet, x': Tasklet) {
    Kept(x, x') || (Free(x) && !HasCall(x'.at))
  }

  ghost predicate Quiet(s: State, s': State) {
    && s'.outcomes == s.outcomes && s.nextCall <= s'.nextCall
    && (forall t :: t in s.tasklets ==> t in s'.tasklets && Idles(s.tasklets[t], s'.tasklets[t]))
    && (forall t :: t in s'.tasklets && t !in s.tasklets ==> !HasCall(s'.tasklets[t].at))
    && (forall c :: c in s.channels ==> c in s'.channels && SameBook(s.channels[c], s'.channels[c]))
    && (forall c :: c in s'.channels && c !in s.channels ==> s'.channels[c] == NEW_CHANNEL)
  }

  lemma QuietCalls(s: State, s': State)
    requires CallsOk(s) && Quiet(s, s')
    ensures CallsOk(s')
  {
    forall t | t in s'.tasklets
      ensures CallOk(s'.tasklets[t], s'.nextCall, s'.outcomes)
    {
      if t in s.tasklets { assert CallOk(s.tasklets[t], s.nextCall, s.outcomes); }
    }
    forall t, u | t in s'.tasklets && u in s'.tasklets && t != u
      ensures Apart(s'.tasklets[t], s'.tasklets[u])
    {
      if t in s.tasklets && u in s.tasklets { assert Apart(s.tasklets[t], s.tasklets[u]); }
    }
  }

  lemma QuietCarries(s: State, s': State)
    requires Quiet(s, s')
    ensures Carried(s, s')
  {
    forall t | t in s.tasklets && Arrived(s.tasklets[t])
      ensures t in s'.tasklets && Kept(s.tasklets[t], s'.tasklets[t])
    {
      assert Idles(s.tasklets[t], s'.tasklets[t]);
    }
  }

  lemma BlockedCarried(s: State, s': State, c: Cid)
    requires ListsOk(s) && Quiet(s, s') && c in s.channels
    ensures ListsCarried(s.channels[c], s.tasklets, s'.tasklets)
  {
    forall t | (t in s.channels[c].senders || t in s.channels[c].receivers) && t in s.tasklets
      ensures t in s'.tasklets && s'.tasklets[t].at == s.tasklets[t].at && s'.tasklets[t].slot == s.tasklets[t].slot
    {
      assert Listed(s, c, t) && Idles(s.tasklets[t], s'.tasklets[t]);
    }
  }

  lemma NewBooks(s: State, c: Cid)
    requires c in s.channels && s.channels[c] == NEW_CHANNEL
    ensures Books(s, c)
  {}

  lemma QuietKeeps(s: State, s': State)
    requires ListsOk(s) && Agreed(s) && Quiet(s, s')
    ensures Agreed(s')
  {
    QuietCalls(s, s');
    QuietCarries(s, s');
    forall c | c in s'.channels
      ensures Books(s', c)
    {
      if c in s.channels {
        BlockedCarried(s, s', c);
        BooksStay(s, s', c);
      } else {
        NewBooks(s', c);
      }
    }
  }

  // ---- The other channels ----

  /** A step on channel `c` changes the records of `t`, not blocked or blocked on `c`, and of `u`,
      likewise. */
  ghost predicate Local(s: State, s': State, c: Cid, t: Tid, u: Tid) {
    && s.channels.Keys == s'.channels.Keys && c in s.channels && s.nextCall <= s'.nextCall
    && t in s.tasklets && u in s.tasklets && s'.tasklets.Keys == s.tasklets.Keys
    && (forall b :: b in s.channels && b != c ==> s'.channels[b] == s.channels[b])
    && (forall w :: w in s.tasklets && w != t && w != u ==> s'.tasklets[w] == s.tasklets[w])
    && (s.tasklets[t].blockedOn.None? || s.tasklets[t].blockedOn == Some(c))
    && (s.tasklets[u].blockedOn.None? || s.tasklets[u].blockedOn == Some(c))
  }

  lemma LocalLists(s: State, s': State, c: Cid, t: Tid, u: Tid, b: Cid)
    requires ListsOk(s) && Local(s, s', c, t, u) && b in s.channels && b != c
    ensures ListsCarried(s.channels[b], s.tasklets, s'.tasklets)
  {
    forall w | (w in s.channels[b].senders || w in s.channels[b].receivers) && w in s.tasklets
      ensures w != t && w != u
    {
      assert Listed(s, b, w);
    }
  }

  /** It is enough to look at the calls and at the channel of the step. */
  lemma LocalKeeps(s: State, s': State, c: Cid, t: Tid, u: Tid)
    requires ListsOk(s) && Agreed(s) && Local(s, s', c, t, u) && Carried(s, s')
    requires CallsOk(s') && Books(s', c)
    ensures Agreed(s')
  {
    forall b | b in s'.channels
      ensures Books(s', b)
    {
      if b != c {
        LocalLists(s, s', c, t, u, b);
        BooksStay(s, s', b);
      }
    }
  }

  /** The calls of `t` and `u` change: each keeps its call, drops it, or has the newest one. */
  predicate CallKept(x: Tasklet, x': Tasklet, nextCall: Call) {
    || !HasCall(x'.at)
    || x'.at == x.at
    || (x'.at.call == nextCall && !HasCall(x.at))
  }

  lemma LocalCalls(s: State, s': State, c: Cid, t: Tid, u: Tid)
    requires CallsOk(s) && Local(s, s', c, t, u) && s'.outcomes == s.outcomes && s'.nextCall == s.nextCall + 1
    requires CallKept(s.tasklets[t], s'.tasklets[t], s.nextCall)
    requires u != t ==> s'.tasklets[u].at == s.tasklets[u].at
    ensures CallsOk(s')
  {
    forall w | w in s'.tasklets
      ensures CallOk(s'.tasklets[w], s'.nextCall, s'.outcomes)
    {
      assert CallOk(s.tasklets[w], s.nextCall, s.outcomes);
    }
    forall w, v | w in s'.tasklets && v in s'.tasklets && w != v
      ensures Apart(s'.tasklets[w], s'.tasklets[v])
    {
      assert Apart(s.tasklets[w], s.tasklets[v]);
      assert CallOk(s.tasklets[w], s.nextCall, s.outcomes) && CallOk(s.tasklets[v], s.nextCall, s.outcomes);
    }
  }

  /** Nobody whose message had arrived is touched. */
  lemma LocalCarries(s: State, s': State, c: Cid, t: Tid, u: Tid)
    requires Local(s, s', c, t, u) && Free(s.tasklets[t]) && (u != t ==> s.tasklets[u].blockedOn.Some?)
    requires forall k :: k in s.outcomes ==> k in s'.outcomes && s'.outcomes[k] == s.outcomes[k]
    ensures Carried(s, s')
  {}

  // ---- Blocking ----

  lemma SenderJoins(ch: Channel, ch': Channel, t: Tid, call: Call, m: Message,
                    k: map<Tid, Tasklet>, k': map<Tid, Tasklet>)
    requires Tails(ch, k) && ListsCarried(ch, k, k')
    requires t in k' && k'[t].at.InSend? && k'[t].at.call == call && k'[t].slot == Some(m)
    requires ch'.senders == ch.senders + [t] && ch'.receivers == ch.receivers
    requires ch'.sends == ch.sends + [SendCall(call, m)] && ch'.receives == ch.receives
    ensures Tails(ch', k')
  {
    forall j | 0 <= j < |ch'.senders|
      ensures SenderLogged(ch', j, k')
    {
      if j < |ch.senders| { assert SenderLogged(ch, j, k); assert ch.senders[j] in ch.senders; }
    }
    forall j | 0 <= j < |ch'.receivers|
      ensures ReceiverLogged(ch', j, k')
    {
      assert ReceiverLogged(ch, j, k); assert ch.receivers[j] in ch.receivers;
    }
  }

  lemma ReceiverJoins(ch: Channel, ch': Channel, t: Tid, call: Call, k: map<Tid, Tasklet>, k': map<Tid, Tasklet>)
    requires Tails(ch, k) && ListsCarried(ch, k, k')
    requires t in k' && k'[t].at.InReceive? && k'[t].at.call == call
    requires ch'.receivers == ch.receivers + [t] && ch'.senders == ch.senders
    requires ch'.receives == ch.receives + [call] && ch'.sends == ch.sends
    ensures Tails(ch', k')
  {
    forall j | 0 <= j < |ch'.senders|
      ensures SenderLogged(ch', j, k')
    {
      assert SenderLogged(ch, j, k); assert ch.senders[j] in ch.senders;
    }
    forall j | 0 <= j < |ch'.receivers|
      ensures ReceiverLogged(ch', j, k')
    {
      if j < |ch.receivers| { assert ReceiverLogged(ch, j, k); assert ch.receivers[j] in ch.receivers; }
    }
  }

  /** A call that starts now comes after all the others. */
  lemma LoggedGrows(ch: Channel, ch': Channel, nextCall: Call, m: Message)
    requires Logged(ch, nextCall)
    requires ch'.sends == ch.sends || ch'.sends == ch.sends + [SendCall(nextCall, m)]
    requires ch'.receives == ch.receives || ch'.receives == ch.receives + [nextCall]
    ensures Logged(ch', nextCall + 1)
  {}

  lemma PairedGrows(s: State, s': State, ch: Channel, ch': Channel)
    requires Paired(s, ch) && Carried(s, s') && Counted(ch') && Pairs(ch') == Pairs(ch)
    requires ch.sends <= ch'.sends && ch.receives <= ch'.receives
    ensures Paired(s', ch')
  {
    forall i | 0 <= i < Pairs(ch')
      ensures Matched(s', ch'.receives[i], ch'.sends[i].message)
    {
      MatchedStays(s, s', ch.receives[i], ch.sends[i].message);
    }
  }

  lemma SendBlocksBooks(s: State, s': State, c: Cid, t: Tid, m: Message)
    requires c in s.channels && c in s'.channels && Books(s, c) && s'.nextCall == s.nextCall + 1 && Carried(s, s')
    requires ListsCarried(s.channels[c], s.tasklets, s'.tasklets)
    requires t in s'.tasklets && s'.tasklets[t].at == InSend(c, s.nextCall) && s'.tasklets[t].slot == Some(m)
    requires var (ch, ch') := (s.channels[c], s'.channels[c]);
             && ch'.senders == ch.senders + [t] && ch'.receivers == ch.receivers
             && ch'.sends == ch.sends + [SendCall(s.nextCall, m)] && ch'.receives == ch.receives
    ensures Books(s', c)
  {
    LoggedGrows(s.channels[c], s'.channels[c], s.nextCall, m);
    SenderJoins(s.channels[c], s'.channels[c], t, s.nextCall, m, s.tasklets, s'.tasklets);
    PairedGrows(s, s', s.channels[c], s'.channels[c]);
  }

  /** A send that blocks. */
  ghost predicate SendParks(s: State, s': State, c: Cid, t: Tid, m: Message) {
    && Local(s, s', c, t, t) && s'.outcomes == s.outcomes && s'.nextCall == s.nextCall + 1
    && s.tasklets[t].blockedOn.None? && !HasCall(s.tasklets[t].at)
    && s'.tasklets[t].at == InSend(c, s.nextCall) && s'.tasklets[t].slot == Some(m)
    && var (ch, ch') := (s.channels[c], s'.channels[c]);
    && ch'.senders == ch.senders + [t] && ch'.receivers == ch.receivers
    && ch'.sends == ch.sends + [SendCall(s.nextCall, m)] && ch'.receives == ch.receives
  }

  lemma SendParksKeeps(s: State, s': State, c: Cid, t: Tid, m: Message)
    requires ListsOk(s) && Agreed(s) && SendParks(s, s', c, t, m)
    ensures Agreed(s')
  {
    LocalCalls(s, s', c, t, t);
    LocalCarries(s, s', c, t, t);
    OwnLists(s, s', c, t);
    SendBlocksBooks(s, s', c, t, m);
    LocalKeeps(s, s', c, t, t);
  }

  lemma OwnLists(s: State, s': State, c: Cid, t: Tid)
    requires ListsOk(s) && Local(s, s', c, t, t) && s.tasklets[t].blockedOn.None?
    ensures ListsCarried(s.channels[c], s.tasklets, s'.tasklets)
  {
    forall w | (w in s.channels[c].senders || w in s.channels[c].receivers) && w in s.tasklets
      ensures w != t
    {
      assert Listed(s, c, w);
    }
  }

  lemma ReceiveBlocksBooks(s: State, s': State, c: Cid, t: Tid)
    requires c in s.channels && c in s'.channels && Books(s, c) && s'.nextCall == s.nextCall + 1 && Carried(s, s')
    requires ListsCarried(s.channels[c], s.tasklets, s'.tasklets)
    requires t in s'.tasklets && s'.tasklets[t].at == InReceive(c, s.nextCall)
    requires var (ch, ch') := (s.channels[c], s'.channels[c]);
             && ch'.receivers == ch.receivers + [t] && ch'.senders == ch.senders
             && ch'.receives == ch.receives + [s.nextCall] && ch'.sends == ch.sends
    ensures Books(s', c)
  {
    LoggedGrows(s.channels[c], s'.channels[c], s.nextCall, Data(0));
    ReceiverJoins(s.channels[c], s'.channels[c], t, s.nextCall, s.tasklets, s'.tasklets);
    PairedGrows(s, s', s.channels[c], s'.channels[c]);
  }

  /** A receive that blocks. */
  ghost predicate ReceiveParks(s: State, s': State, c: Cid, t: Tid) {
    && Local(s, s', c, t, t) && s'.outcomes == s.outcomes && s'.nextCall == s.nextCall + 1
    && s.tasklets[t].blockedOn.None? && !HasCall(s.tasklets[t].at)
    && s'.tasklets[t].at == InReceive(c, s.nextCall)
    && var (ch, ch') := (s.channels[c], s'.channels[c]);
    && ch'.receivers == ch.receivers + [t] && ch'.senders == ch.senders
    && ch'.receives == ch.receives + [s.nextCall] && ch'.sends == ch.sends
  }

  lemma ReceiveParksKeeps(s: State, s': State, c: Cid, t: Tid)
    requires ListsOk(s) && Agreed(s) && ReceiveParks(s, s', c, t)
    ensures Agreed(s')
  {
    LocalCalls(s, s', c, t, t);
    LocalCarries(s, s', c, t, t);
    OwnLists(s, s', c, t);
    ReceiveBlocksBooks(s, s', c, t);
    LocalKeeps(s, s', c, t, t);
  }

  // ---- Matching ----

  /** The head of a blocked list leaves; its call is the next one to be paired. */
  lemma TailsAdvance(ch: Channel, ch': Channel, k: map<Tid, Tasklet>, k': map<Tid, Tasklet>)
    requires Tails(ch, k) && Counted(ch') && Pairs(ch') == Pairs(ch) + 1
    requires ch.sends <= ch'.sends && ch.receives <= ch'.receives
    requires ch'.senders == (if ch.senders == [] then [] else ch.senders[1..])
    requires ch'.receivers == (if ch.receivers == [] then [] else ch.receivers[1..])
    requires ListsCarried(ch', k, k')
    ensures Tails(ch', k')
  {
    forall j | 0 <= j < |ch'.senders|
      ensures SenderLogged(ch', j, k')
    {
      assert SenderLogged(ch, j + 1, k); assert ch'.senders[j] in ch'.senders;
    }
    forall j | 0 <= j < |ch'.receivers|
      ensures ReceiverLogged(ch', j, k')
    {
      assert ReceiverLogged(ch, j + 1, k); assert ch'.receivers[j] in ch'.receivers;
    }
  }

  lemma PairedAdvances(s: State, s': State, ch: Channel, ch': Channel)
    requires Paired(s, ch) && Carried(s, s') && Counted(ch') && Pairs(ch') == Pairs(ch) + 1
    requires ch.sends <= ch'.sends && ch.receives <= ch'.receives
    requires Matched(s', ch'.receives[Pairs(ch)], ch'.sends[Pairs(ch)].message)
    ensures Paired(s', ch')
  {
    forall i | 0 <= i < Pairs(ch')
      ensures Matched(s', ch'.receives[i], ch'.sends[i].message)
    {
      if i < Pairs(ch) {
        MatchedStays(s, s', ch.receives[i], ch.sends[i].message);
      }
    }
  }

  /** After the head `u` has left, the tasklets still listed are neither it nor the caller `t`. */
  lemma RestCarried(s: State, s': State, c: Cid, t: Tid, u: Tid)
    requires ListsOk(s) && ChannelsOk(s) && Local(s, s', c, t, u) && s.tasklets[t].blockedOn.None?
    requires var (ch, ch') := (s.channels[c], s'.channels[c]);
             || (ch.senders != [] && u == ch.senders[0] && ch'.senders == ch.senders[1..] && ch'.receivers == [])
             || (ch.receivers != [] && u == ch.receivers[0] && ch'.receivers == ch.receivers[1..] && ch'.senders == [])
    ensures ListsCarried(s'.channels[c], s.tasklets, s'.tasklets)
  {
    var (ch, ch') := (s.channels[c], s'.channels[c]);
    assert ChannelOk(ch);
    forall w | (w in ch'.senders || w in ch'.receivers) && w in s.tasklets
      ensures w != t && w != u
    {
      assert Listed(s, c, w);
      if w in ch'.senders {
        var j :| 0 <= j < |ch'.senders| && ch'.senders[j] == w;
        assert w == ch.senders[j + 1];
      } else {
        var j :| 0 <= j < |ch'.receivers| && ch'.receivers[j] == w;
        assert w == ch.receivers[j + 1];
      }
    }
  }

  lemma SendMatchesBooks(s: State, s': State, c: Cid, r: Tid, m: Message)
    requires c in s.channels && c in s'.channels && Books(s, c) && s'.nextCall == s.nextCall + 1 && Carried(s, s')
    requires ListsCarried(s'.channels[c], s.tasklets, s'.tasklets) && r in s.tasklets && r in s'.tasklets
    requires s'.tasklets[r].at == s.tasklets[r].at && s'.tasklets[r].blockedOn.None? && s'.tasklets[r].slot == Some(m)
    requires var (ch, ch') := (s.channels[c], s'.channels[c]);
             && ch.receivers != [] && r == ch.receivers[0] && ch.senders == []
             && ch'.receivers == ch.receivers[1..] && ch'.senders == []
             && ch'.sends == ch.sends + [SendCall(s.nextCall, m)] && ch'.receives == ch.receives
    ensures Books(s', c)
  {
    var (ch, ch') := (s.channels[c], s'.channels[c]);
    LoggedGrows(ch, ch', s.nextCall, m);
    TailsAdvance(ch, ch', s.tasklets, s'.tasklets);
    assert ReceiverLogged(ch, 0, s.tasklets);
    assert HoldsFor(s'.tasklets[r], ch'.receives[Pairs(ch)], m);
    PairedAdvances(s, s', ch, ch');
  }

  /** A send that finds a receiver: the partner will find the message. */
  ghost predicate SendMeets(s: State, s': State, c: Cid, t: Tid, r: Tid, m: Message) {
    && Local(s, s', c, t, r) && s'.outcomes == s.outcomes && s'.nextCall == s.nextCall + 1 && t != r
    && s.tasklets[t].blockedOn.None? && !HasCall(s.tasklets[t].at) && !HasCall(s'.tasklets[t].at)
    && s.tasklets[r].blockedOn.Some? && s'.tasklets[r].at == s.tasklets[r].at
    && s'.tasklets[r].blockedOn.None? && s'.tasklets[r].slot == Some(m)
    && var (ch, ch') := (s.channels[c], s'.channels[c]);
    && ch.receivers != [] && r == ch.receivers[0]
    && ch'.receivers == ch.receivers[1..] && ch'.senders == []
    && ch'.sends == ch.sends + [SendCall(s.nextCall, m)] && ch'.receives == ch.receives
  }

  lemma SendMeetsKeeps(s: State, s': State, c: Cid, t: Tid, r: Tid, m: Message)
    requires ListsOk(s) && ChannelsOk(s) && Agreed(s) && SendMeets(s, s', c, t, r, m)
    ensures Agreed(s')
  {
    assert ChannelOk(s.channels[c]);
    LocalCalls(s, s', c, t, r);
    LocalCarries(s, s', c, t, r);
    RestCarried(s, s', c, t, r);
    SendMatchesBooks(s, s', c, r, m);
    LocalKeeps(s, s', c, t, r);
  }

  lemma ReceiveMatchesBooks(s: State, s': State, c: Cid, p: Tid)
    requires c in s.channels && c in s'.channels && Books(s, c) && s'.nextCall == s.nextCall + 1 && Carried(s, s')
    requires ListsCarried(s'.channels[c], s.tasklets, s'.tasklets) && p in s.tasklets && s.tasklets[p].slot.Some?
    requires Matched(s', s.nextCall, s.tasklets[p].slot.value)
    requires var (ch, ch') := (s.channels[c], s'.channels[c]);
             && ch.senders != [] && p == ch.senders[0] && ch.receivers == []
             && ch'.senders == ch.senders[1..] && ch'.receivers == []
             && ch'.receives == ch.receives + [s.nextCall] && ch'.sends == ch.sends
    ensures Books(s', c)
  {
    var (ch, ch') := (s.channels[c], s'.channels[c]);
    LoggedGrows(ch, ch', s.nextCall, Data(0));
    TailsAdvance(ch, ch', s.tasklets, s'.tasklets);
    assert SenderLogged(ch, 0, s.tasklets);
    PairedAdvances(s, s', ch, ch');
  }

  /** A receive that finds a sender and waits for its turn to end. */
  ghost predicate ReceiveHandsOff(s: State, s': State, c: Cid, t: Tid, p: Tid) {
    && Local(s, s', c, t, p) && s'.outcomes == s.outcomes && s'.nextCall == s.nextCall + 1 && t != p
    && s.tasklets[t].blockedOn.None? && !HasCall(s.tasklets[t].at)
    && s'.tasklets[t].at == InReceiveHandoff(c, s.nextCall) && s'.tasklets[t].blockedOn.None?
    && s.tasklets[p].blockedOn.Some? && s'.tasklets[p].at == s.tasklets[p].at
    && s'.tasklets[t].slot == s.tasklets[p].slot
    && SenderTaken(s.channels[c], s'.channels[c], p, s.nextCall)
  }

  predicate SenderTaken(ch: Channel, ch': Channel, p: Tid, call: Call) {
    && ch.senders != [] && p == ch.senders[0]
    && ch'.senders == ch.senders[1..] && ch'.receivers == []
    && ch'.receives == ch.receives + [call] && ch'.sends == ch.sends
  }

  lemma ReceiveHandsOffKeeps(s: State, s': State, c: Cid, t: Tid, p: Tid)
    requires ListsOk(s) && ChannelsOk(s) && Agreed(s) && ReceiveHandsOff(s, s', c, t, p)
    ensures Agreed(s')
  {
    assert ChannelOk(s.channels[c]);
    LocalCalls(s, s', c, t, p);
    LocalCarries(s, s', c, t, p);
    RestCarried(s, s', c, t, p);
    assert s.tasklets[p].slot.Some? by { assert Books(s, c) && SenderLogged(s.channels[c], 0, s.tasklets); }
    assert HoldsFor(s'.tasklets[t], s.nextCall, s.tasklets[p].slot.value);
    ReceiveMatchesBooks(s, s', c, p);
    LocalKeeps(s, s', c, t, p);
  }

  lemma NewOutcomeCalls(s: State, s': State, c: Cid, t: Tid, p: Tid, out: Outcome)
    requires CallsOk(s) && Local(s, s', c, t, p) && s'.outcomes == s.outcomes[s.nextCall := out]
    requires s'.nextCall == s.nextCall + 1
    requires !HasCall(s'.tasklets[t].at) && s'.tasklets[p].at == s.tasklets[p].at
    ensures CallsOk(s')
  {
    forall w | w in s'.tasklets
      ensures CallOk(s'.tasklets[w], s'.nextCall, s'.outcomes)
    {
      assert CallOk(s.tasklets[w], s.nextCall, s.outcomes);
    }
    forall w, v | w in s'.tasklets && v in s'.tasklets && w != v
      ensures Apart(s'.tasklets[w], s'.tasklets[v])
    {
      assert Apart(s.tasklets[w], s.tasklets[v]);
    }
  }

  /** A receive that finds a sender and returns at once. */
  ghost predicate ReceiveMeets(s: State, s': State, c: Cid, t: Tid, p: Tid) {
    && Local(s, s', c, t, p) && t != p && s'.nextCall == s.nextCall + 1
    && s.tasklets[p].slot.Some? && s'.outcomes == s.outcomes[s.nextCall := Got(s.tasklets[p].slot.value)]
    && s.tasklets[t].blockedOn.None? && !HasCall(s.tasklets[t].at) && !HasCall(s'.tasklets[t].at)
    && s.tasklets[p].blockedOn.Some? && s'.tasklets[p].at == s.tasklets[p].at
    && SenderTaken(s.channels[c], s'.channels[c], p, s.nextCall)
  }

  lemma ReceiveMeetsKeeps(s: State, s': State, c: Cid, t: Tid, p: Tid)
    requires ListsOk(s) && ChannelsOk(s) && Agreed(s) && ReceiveMeets(s, s', c, t, p)
    ensures Agreed(s')
  {
    assert ChannelOk(s.channels[c]);
    NewOutcomeCalls(s, s', c, t, p, Got(s.tasklets[p].slot.value));
    LocalCarries(s, s', c, t, p);
    RestCarried(s, s', c, t, p);
    assert Settled(s'.outcomes, s.nextCall, s.tasklets[p].slot.value);
    ReceiveMatchesBooks(s, s', c, p);
    LocalKeeps(s, s', c, t, p);
  }

  // ---- The end of a receive whose message has arrived ----

  lemma SettleCalls(s: State, s': State, c: Cid, t: Tid, out: Outcome)
    requires CallsOk(s) && Local(s, s', c, t, t) && Receiving(s.tasklets[t].at) && s'.nextCall == s.nextCall
    requires s'.outcomes == s.outcomes[s.tasklets[t].at.call := out] && !HasCall(s'.tasklets[t].at)
    ensures CallsOk(s')
  {
    assert CallOk(s.tasklets[t], s.nextCall, s.outcomes);
    forall w | w in s'.tasklets
      ensures CallOk(s'.tasklets[w], s'.nextCall, s'.outcomes)
    {
      assert CallOk(s.tasklets[w], s.nextCall, s.outcomes);
      if w != t { assert Apart(s.tasklets[w], s.tasklets[t]); }
    }
    forall w, v | w in s'.tasklets && v in s'.tasklets && w != v
      ensures Apart(s'.tasklets[w], s'.tasklets[v])
    {
      assert Apart(s.tasklets[w], s.tasklets[v]);
    }
  }

  lemma SettleCarries(s: State, s': State, c: Cid, t: Tid, out: Outcome)
    requires CallsOk(s) && Local(s, s', c, t, t)
    requires Arrived(s.tasklets[t]) && (out == Got(s.tasklets[t].slot.value) || out == Lost)
    requires s'.outcomes == s.outcomes[s.tasklets[t].at.call := out]
    ensures Carried(s, s')
  {
    assert CallOk(s.tasklets[t], s.nextCall, s.outcomes);
  }

  ghost predicate Settles(s: State, s': State, c: Cid, t: Tid, out: Outcome) {
    && Local(s, s', c, t, t) && s'.nextCall == s.nextCall
    && Arrived(s.tasklets[t]) && (out == Got(s.tasklets[t].slot.value) || out == Lost)
    && s'.outcomes == s.outcomes[s.tasklets[t].at.call := out] && !HasCall(s'.tasklets[t].at)
    && SameBook(s.channels[c], s'.channels[c])
  }

  lemma SettlesKeeps(s: State, s': State, c: Cid, t: Tid, out: Outcome)
    requires ListsOk(s) && Agreed(s) && Settles(s, s', c, t, out)
    ensures Agreed(s')
  {
    SettleCalls(s, s', c, t, out);
    SettleCarries(s, s', c, t, out);
    OwnLists(s, s', c, t);
    BooksStay(s, s', c);
    LocalKeeps(s, s', c, t, t);
  }

  // ---- A blocked call gives up ----

  lemma {:induction false} WithoutCallAt(sends: seq<SendCall>, i: nat)
    requires i < |sends| && forall a, b :: 0 <= a < b < |sends| ==> sends[a].call < sends[b].call
    ensures WithoutCall(sends, sends[i].call) == sends[..i] + sends[i + 1..]
  {
    if i > 0 {
      WithoutCallAt(sends[1..], i - 1);
    }
  }

  /** The channel after the call at place `j` among the blocked ones has gone. */
  predicate Dropped<T(==)>(a: seq<T>, b: seq<T>, j: nat) {
    j < |a| && b == a[..j] + a[j + 1..]
  }

  predicate SenderDropped(ch: Channel, ch': Channel, j: nat) {
    && Dropped(ch.senders, ch'.senders, j) && 0 <= Pairs(ch) && Dropped(ch.sends, ch'.sends, Pairs(ch) + j)
    && ch.receivers == [] == ch'.receivers && ch'.receives == ch.receives
  }

  predicate ReceiverDropped(ch: Channel, ch': Channel, j: nat) {
    && Dropped(ch.receivers, ch'.receivers, j) && 0 <= Pairs(ch) && Dropped(ch.receives, ch'.receives, Pairs(ch) + j)
    && ch.senders == [] == ch'.senders && ch'.sends == ch.sends
  }

  lemma SenderLeaves(ch: Channel, ch': Channel, j: nat, k: map<Tid, Tasklet>, k': map<Tid, Tasklet>)
    requires Tails(ch, k) && SenderDropped(ch, ch', j)
    requires ListsCarried(ch', k, k')
    ensures Tails(ch', k') && Pairs(ch') == Pairs(ch)
  {
    forall i | 0 <= i < |ch'.senders|
      ensures SenderLogged(ch', i, k')
    {
      assert SenderLogged(ch, if i < j then i else i + 1, k);
      assert ch'.senders[i] in ch'.senders;
    }
  }

  lemma ReceiverLeaves(ch: Channel, ch': Channel, j: nat, k: map<Tid, Tasklet>, k': map<Tid, Tasklet>)
    requires Tails(ch, k) && ReceiverDropped(ch, ch', j)
    requires ListsCarried(ch', k, k')
    ensures Tails(ch', k') && Pairs(ch') == Pairs(ch)
  {
    forall i | 0 <= i < |ch'.receivers|
      ensures ReceiverLogged(ch', i, k')
    {
      assert ReceiverLogged(ch, if i < j then i else i + 1, k);
      assert ch'.receivers[i] in ch'.receivers;
    }
  }

  /** The pairs made so far are not affected. */
  lemma PairedShrinks(s: State, s': State, ch: Channel, ch': Channel)
    requires Paired(s, ch) && Carried(s, s') && Counted(ch') && Pairs(ch') == Pairs(ch)
    requires ch'.sends[..Pairs(ch)] == ch.sends[..Pairs(ch)] && ch'.receives[..Pairs(ch)] == ch.receives[..Pairs(ch)]
    ensures Paired(s', ch')
  {
    forall i | 0 <= i < Pairs(ch')
      ensures Matched(s', ch'.receives[i], ch'.sends[i].message)
    {
      assert ch'.sends[..Pairs(ch)][i] == ch'.sends[i] && ch'.receives[..Pairs(ch)][i] == ch'.receives[i];
      assert ch.sends[..Pairs(ch)][i] == ch.sends[i] && ch.receives[..Pairs(ch)][i] == ch.receives[i];
      MatchedStays(s, s', ch.receives[i], ch.sends[i].message);
    }
  }

  lemma LoggedShrinks(ch: Channel, ch': Channel, nextCall: Call, j: nat)
    requires Logged(ch, nextCall)
    requires || (Dropped(ch.sends, ch'.sends, j) && ch'.receives == ch.receives)
             || (Dropped(ch.receives, ch'.receives, j) && ch'.sends == ch.sends)
    ensures Logged(ch', nextCall)
  {
    if Dropped(ch.sends, ch'.sends, j) && ch'.receives == ch.receives {
      assert forall i :: 0 <= i < |ch'.sends| ==> ch'.sends[i] == ch.sends[if i < j then i else i + 1];
    } else {
      assert forall i :: 0 <= i < |ch'.receives| ==> ch'.receives[i] == ch.receives[if i < j then i else i + 1];
    }
  }

  /** Taking `t` and its call off the channel drops the same place from the list and the history. */
  lemma CancelDrops(ch: Channel, nextCall: Call, k: map<Tid, Tasklet>, t: Tid)
    requires ChannelOk(ch) && Logged(ch, nextCall) && Tails(ch, k) && t in k && (t in ch.senders || t in ch.receivers)
    ensures var ch' := OffLists(CancelCall(ch, k[t].at), t, k[t].direction);
            (exists j :: SenderDropped(ch, ch', j)) || (exists j :: ReceiverDropped(ch, ch', j))
  {
    if t in ch.senders {
      CancelSendDrops(ch, nextCall, k, t, IndexOf(ch.senders, t));
    } else {
      CancelReceiveDrops(ch, nextCall, k, t, IndexOf(ch.receivers, t));
    }
  }

  lemma CancelSendDrops(ch: Channel, nextCall: Call, k: map<Tid, Tasklet>, t: Tid, j: nat)
    requires ChannelOk(ch) && Logged(ch, nextCall) && Tails(ch, k) && t in k && j < |ch.senders| && ch.senders[j] == t
    ensures SenderDropped(ch, OffLists(CancelCall(ch, k[t].at), t, k[t].direction), j)
  {
    assert SenderLogged(ch, j, k);
    WithoutCallAt(ch.sends, Pairs(ch) + j);
    WithoutAt(ch.senders, j);
  }

  lemma CancelReceiveDrops(ch: Channel, nextCall: Call, k: map<Tid, Tasklet>, t: Tid, j: nat)
    requires ChannelOk(ch) && Logged(ch, nextCall) && Tails(ch, k) && t in k && j < |ch.receivers|
    requires ch.receivers[j] == t
    ensures ReceiverDropped(ch, OffLists(CancelCall(ch, k[t].at), t, k[t].direction), j)
  {
    assert ReceiverLogged(ch, j, k);
    WithoutAt(ch.receives, Pairs(ch) + j);
    WithoutAt(ch.receivers, j);
  }

  lemma SenderDroppedBooks(s: State, s': State, c: Cid, j: nat)
    requires c in s.channels && c in s'.channels && Books(s, c) && s'.nextCall == s.nextCall && Carried(s, s')
    requires SenderDropped(s.channels[c], s'.channels[c], j)
    requires ListsCarried(s'.channels[c], s.tasklets, s'.tasklets)
    ensures Books(s', c)
  {
    var (ch, ch') := (s.channels[c], s'.channels[c]);
    SenderLeaves(ch, ch', j, s.tasklets, s'.tasklets);
    LoggedShrinks(ch, ch', s.nextCall, Pairs(ch) + j);
    PairedShrinks(s, s', ch, ch');
  }

  lemma ReceiverDroppedBooks(s: State, s': State, c: Cid, j: nat)
    requires c in s.channels && c in s'.channels && Books(s, c) && s'.nextCall == s.nextCall && Carried(s, s')
    requires ReceiverDropped(s.channels[c], s'.channels[c], j)
    requires ListsCarried(s'.channels[c], s.tasklets, s'.tasklets)
    ensures Books(s', c)
  {
    var (ch, ch') := (s.channels[c], s'.channels[c]);
    ReceiverLeaves(ch, ch', j, s.tasklets, s'.tasklets);
    LoggedShrinks(ch, ch', s.nextCall, Pairs(ch) + j);
    PairedShrinks(s, s', ch, ch');
  }

  lemma CancelBooks(s: State, s': State, c: Cid, t: Tid, ch': Channel)
    requires c in s.channels && c in s'.channels && Books(s, c) && s'.nextCall == s.nextCall && Carried(s, s')
    requires ChannelOk(s.channels[c]) && t in s.tasklets && (t in s.channels[c].senders || t in s.channels[c].receivers)
    requires ch' == OffLists(CancelCall(s.channels[c], s.tasklets[t].at), t, s.tasklets[t].direction)
    requires SameBook(ch', s'.channels[c]) && ListsCarried(ch', s.tasklets, s'.tasklets)
    ensures Books(s', c)
  {
    var ch := s.channels[c];
    CancelDrops(ch, s.nextCall, s.tasklets, t);
    if j :| SenderDropped(ch, ch', j) {
      SenderDroppedBooks(s, s', c, j);
    } else {
      var j :| ReceiverDropped(ch, ch', j);
      ReceiverDroppedBooks(s, s', c, j);
    }
  }

  lemma CancelCalls(s: State, s': State, c: Cid, t: Tid)
    requires CallsOk(s) && Local(s, s', c, t, t) && s'.outcomes == s.outcomes && s'.nextCall == s.nextCall
    requires s'.tasklets[t].at == s.tasklets[t].at || !HasCall(s'.tasklets[t].at)
    ensures CallsOk(s')
  {
    forall w | w in s'.tasklets
      ensures CallOk(s'.tasklets[w], s'.nextCall, s'.outcomes)
    {
      assert CallOk(s.tasklets[w], s.nextCall, s.outcomes);
    }
    forall w, v | w in s'.tasklets && v in s'.tasklets && w != v
      ensures Apart(s'.tasklets[w], s'.tasklets[v])
    {
      assert Apart(s.tasklets[w], s.tasklets[v]);
    }
  }

  lemma CancelCarries(s: State, s': State, c: Cid, t: Tid)
    requires Local(s, s', c, t, t) && s'.outcomes == s.outcomes && s.tasklets[t].blockedOn.Some?
    ensures Carried(s, s')
  {}

  lemma LeaverGone(s: State, s': State, c: Cid, t: Tid, ch': Channel)
    requires Local(s, s', c, t, t) && Distinct(s.channels[c].senders) && Distinct(s.channels[c].receivers)
    requires ch'.senders == Without(s.channels[c].senders, t) && ch'.receivers == Without(s.channels[c].receivers, t)
    ensures ListsCarried(ch', s.tasklets, s'.tasklets)
  {
    WithoutMembers(s.channels[c].senders, t);
    WithoutMembers(s.channels[c].receivers, t);
  }

  /** A blocked call that gives up leaves both histories as if it had not been made. */
  ghost predicate Cancels(s: State, s': State, c: Cid, t: Tid) {
    && Local(s, s', c, t, t) && s'.outcomes == s.outcomes && s'.nextCall == s.nextCall
    && s.tasklets[t].blockedOn == Some(c) && (s'.tasklets[t].at == s.tasklets[t].at || !HasCall(s'.tasklets[t].at))
    && SameBook(OffLists(CancelCall(s.channels[c], s.tasklets[t].at), t, s.tasklets[t].direction), s'.channels[c])
  }

  lemma CancelsKeeps(s: State, s': State, c: Cid, t: Tid)
    requires ListsOk(s) && ChannelsOk(s) && Agreed(s) && Cancels(s, s', c, t)
    ensures Agreed(s')
  {
    var ch' := OffLists(CancelCall(s.channels[c], s.tasklets[t].at), t, s.tasklets[t].direction);
    assert ChannelOk(s.channels[c]) && Listed(s, c, t) && Directed(s, t);
    CancelCalls(s, s', c, t);
    CancelCarries(s, s', c, t);
    LeaverGone(s, s', c, t, ch');
    CancelBooks(s, s', c, t, ch');
    LocalKeeps(s, s', c, t, t);
  }
}
