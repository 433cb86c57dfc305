/** The two blocked lists of a channel as they are stored: doubly linked through the tasklets, with
    pointers to both ends, and a signed balance. The list of senders and the list of receivers
    share the link fields and one removal routine. */
module BlockedLists {
  import opened Flags
  import opened Lists
  import opened TaskletNodes

  function Older(q: seq<TaskletNode>, i: int): TaskletNode?
    requires 0 <= i < |q|
  {
    if i > 0 then q[i - 1] else null
  }

  function Newer(q: seq<TaskletNode>, i: int): TaskletNode?
    requires 0 <= i < |q|
  {
    if i + 1 < |q| then q[i + 1] else null
  }

  ghost predicate ChainedAt(q: seq<TaskletNode>, d: Direction, i: int)
    requires 0 <= i < |q|
    reads q`nextBlocked, q`prevBlocked, q`direction
  {
    q[i].nextBlocked == Older(q, i) && q[i].prevBlocked == Newer(q, i) && q[i].direction == d
  }

  /** The longest-waiting tasklet comes first in `q`. */
  ghost predicate Chained(q: seq<TaskletNode>, d: Direction)
    reads q`nextBlocked, q`prevBlocked, q`direction
  {
    forall i :: 0 <= i < |q| ==> ChainedAt(q, d, i)
  }

  ghost predicate Ends(q: seq<TaskletNode>, first: TaskletNode?, last: TaskletNode?) {
    if q == [] then first == null && last == null else first == q[0] && last == q[|q| - 1]
  }

  /** Chained, but for the links to the node at `k`. */
  ghost predicate ChainedButHole(q: seq<TaskletNode>, d: Direction, i: int, k: int)
    requires 0 <= i < |q|
    reads q`nextBlocked, q`prevBlocked, q`direction
  {
    && (i == k - 1 || q[i].prevBlocked == Newer(q, i))
    && (i == k + 1 || q[i].nextBlocked == Older(q, i)) && q[i].direction == d
  }

  ghost predicate ListOk(q: seq<TaskletNode>, d: Direction, first: TaskletNode?, last: TaskletNode?)
    reads q`nextBlocked, q`prevBlocked, q`direction
  {
    Distinct(q) && Chained(q, d) && Ends(q, first, last)
  }

  /** The node at `k` has been bypassed. */
  lemma ChainedOut(q: seq<TaskletNode>, d: Direction, k: nat, first: TaskletNode?, last: TaskletNode?)
    requires k < |q| && Distinct(q)
    requires forall i :: 0 <= i < |q| && i != k ==> ChainedButHole(q, d, i, k)
    requires k > 0 ==> q[k - 1].prevBlocked == Newer(q, k)
    requires k + 1 < |q| ==> q[k + 1].nextBlocked == Older(q, k)
    requires Ends(q[..k] + q[k + 1..], first, last)
    ensures ListOk(Without(q, q[k]), d, first, last)
  {
    var r := q[..k] + q[k + 1..];
    WithoutAt(q, k);
    WithoutDistinct(q, q[k]);
    forall i | 0 <= i < |r|
      ensures ChainedAt(r, d, i)
    {
      assert ChainedButHole(q, d, if i < k then i else i + 1, k);
    }
  }

  lemma LeftMembers(q: seq<TaskletNode>, t: TaskletNode)
    requires Distinct(q)
    ensures forall x :: x in Without(q, t) ==> x in q
    ensures |Without(q, t)| == if t in q then |q| - 1 else |q|
    ensures Distinct(Without(q, t)) && t !in Without(q, t)
  {
    WithoutDistinct(q, t);
  }

  lemma LeftApart(s: seq<TaskletNode>, r: seq<TaskletNode>, t: TaskletNode)
    requires Distinct(s) && Distinct(r) && forall x :: x in s ==> x !in r
    ensures forall x :: x in Without(s, t) ==> x !in Without(r, t)
    ensures |Without(s, t)| == (if t in s then |s| - 1 else |s|)
    ensures |Without(r, t)| == (if t in r then |r| - 1 else |r|)
  {
    LeftMembers(s, t);
    LeftMembers(r, t);
  }

  lemma DirectionTellsMembership(q: seq<TaskletNode>, d: Direction, t: TaskletNode)
    requires Chained(q, d)
    ensures t in q ==> t.direction == d
  {
    if t in q { assert ChainedAt(q, d, IndexOf(q, t)); }
  }

  lemma AppendedDistinct(q: seq<TaskletNode>, t: TaskletNode)
    requires Distinct(q) && t !in q
    ensures Distinct(q + [t])
  {}

  /** What leaving a list does to the balance. */
  function Shift(d: Direction): int {
    match d
    case Sender => -1
    case Receiver => 1
    case Neither => 0
  }

  class ChannelLists {
    var firstSender: TaskletNode?
    var lastSender: TaskletNode?
    var firstReceiver: TaskletNode?
    var lastReceiver: TaskletNode?
    var balance: int
    ghost var senders: seq<TaskletNode>
    ghost var receivers: seq<TaskletNode>

    ghost predicate Valid()
      reads this, senders`nextBlocked, senders`prevBlocked, senders`direction
      reads receivers`nextBlocked, receivers`prevBlocked, receivers`direction
    {
      && ListOk(senders, Sender, firstSender, lastSender) && ListOk(receivers, Receiver, firstReceiver, lastReceiver)
      && balance == |senders| - |receivers|
      && (forall t :: t in senders ==> t !in receivers)
    }

    constructor ()
      ensures Valid() && senders == [] && receivers == []
    {
      firstSender, lastSender, firstReceiver, lastReceiver, balance := null, null, null, null, 0;
      senders, receivers := [], [];
    }

    /** The caller joins the end of the list of senders. */
    method AddTaskletToWaitingToSend(t: TaskletNode)
      requires Valid() && t.Unlisted()
      modifies this, t`nextBlocked, t`direction, senders`prevBlocked
      ensures Valid() && senders == old(senders) + [t] && receivers == old(receivers)
    {
      DirectionTellsMembership(senders, Sender, t);
      DirectionTellsMembership(receivers, Receiver, t);
      assert lastSender != null ==> lastSender in senders && lastSender !in receivers;
      if lastSender == null {
        lastSender := t;
        firstSender := t;
      } else {
        lastSender.prevBlocked := t;
        t.nextBlocked := lastSender;
        lastSender := t;
      }
      t.direction := Sender;
      balance := balance + 1;
      ghost var q := senders;
      AppendedDistinct(senders, t);
      senders := senders + [t];
      forall i | 0 <= i < |senders| ensures ChainedAt(senders, Sender, i) {
        assert i < |q| ==> old(ChainedAt(q, Sender, i));
      }
      forall i | 0 <= i < |receivers| ensures ChainedAt(receivers, Receiver, i) {
        assert old(ChainedAt(receivers, Receiver, i));
      }
    }

    /** The caller joins the end of the list of receivers. */
    method AddTaskletToWaitingToReceive(t: TaskletNode)
      requires Valid() && t.Unlisted()
      modifies this, t`nextBlocked, t`direction, receivers`prevBlocked
      ensures Valid() && receivers == old(receivers) + [t] && senders == old(senders)
    {
      DirectionTellsMembership(senders, Sender, t);
      DirectionTellsMembership(receivers, Receiver, t);
      assert lastReceiver != null ==> lastReceiver in receivers && lastReceiver !in senders;
      if lastReceiver == null {
        lastReceiver := t;
        firstReceiver := t;
      } else {
        lastReceiver.prevBlocked := t;
        t.nextBlocked := lastReceiver;
        lastReceiver := t;
      }
      t.direction := Receiver;
      balance := balance - 1;
      ghost var q := receivers;
      AppendedDistinct(receivers, t);
      receivers := receivers + [t];
      forall i | 0 <= i < |receivers| ensures ChainedAt(receivers, Receiver, i) {
        assert i < |q| ==> old(ChainedAt(q, Receiver, i));
      }
      forall i | 0 <= i < |senders| ensures ChainedAt(senders, Sender, i) { assert old(ChainedAt(senders, Sender, i)); }
    }

    /** The links around `t` and the ends of its list are redirected and its own cleared. `q` is the
        list that holds `t` at `k`, of the given direction; it is empty if `t` is on no list. */
    method Unchain(t: TaskletNode, ghost q: seq<TaskletNode>, ghost k: nat, ghost d: Direction)
      requires d != Neither && Distinct(q) && Chained(q, d)
      requires d == Sender || q == [] ==> t != firstReceiver && t != lastReceiver
      requires d == Receiver || q == [] ==> t != firstSender && t != lastSender
      requires if q == [] then t.Unlisted()
               else && k < |q| && q[k] == t
                    && if d == Sender then Ends(q, firstSender, lastSender) else Ends(q, firstReceiver, lastReceiver)
      modifies this`firstSender, this`lastSender, this`firstReceiver, this`lastReceiver, this`balance,
               q`nextBlocked, q`prevBlocked, t`nextBlocked, t`prevBlocked, t`direction
      ensures t.Unlisted() && balance == old(balance) + Shift(old(t.direction))
      ensures d == Sender && q != [] ==> ListOk(Without(q, t), d, firstSender, lastSender)
      ensures d == Receiver && q != [] ==> ListOk(Without(q, t), d, firstReceiver, lastReceiver)
      ensures d == Sender || q == [] ==> firstReceiver == old(firstReceiver) && lastReceiver == old(lastReceiver)
      ensures d == Receiver || q == [] ==> firstSender == old(firstSender) && lastSender == old(lastSender)
    {
      assert q != [] ==> ChainedAt(q, d, k);
      var endNode := false;
      if t == lastReceiver {
        lastReceiver := t.nextBlocked;
        if lastReceiver != null {
          lastReceiver.prevBlocked := null;
        }
        endNode := true;
      }
      if t == lastSender {
        lastSender := t.nextBlocked;
        if lastSender != null {
          lastSender.prevBlocked := null;
        }
        endNode := true;
      }
      if t == firstReceiver {
        firstReceiver := t.prevBlocked;
        if firstReceiver != null {
          firstReceiver.nextBlocked := null;
        }
        endNode := true;
      }
      if t == firstSender {
        firstSender := t.prevBlocked;
        if firstSender != null {
          firstSender.nextBlocked := null;
        }
        endNode := true;
      }
      if !endNode {
        if t.prevBlocked != null {
          t.prevBlocked.nextBlocked := t.nextBlocked;
        }
        if t.nextBlocked != null {
          t.nextBlocked.prevBlocked := t.prevBlocked;
        }
      }
      t.nextBlocked := null;
      t.prevBlocked := null;
      if t.direction == Sender {
        balance := balance - 1;
      } else if t.direction == Receiver {
        balance := balance + 1;
      }
      t.direction := Neither;
      forall i | 0 <= i < |q| && i != k ensures ChainedButHole(q, d, i, k) { assert old(ChainedAt(q, d, i)); }
      if q != [] {
        ChainedOut(q, d, k, if d == Sender then firstSender else firstReceiver,
                   if d == Sender then lastSender else lastReceiver);
      }
    }

    /** The list that does not hold `t` is as it was, since its tasklets are not touched. */
    method UnchainFrom(t: TaskletNode, ghost q: seq<TaskletNode>, ghost k: nat, ghost d: Direction,
                       ghost other: seq<TaskletNode>, ghost od: Direction)
      requires d != Neither && Distinct(q) && Chained(q, d) && Chained(other, od)
      requires t !in other && forall x :: x in other ==> x !in q
      requires d == Sender || q == [] ==> t != firstReceiver && t != lastReceiver
      requires d == Receiver || q == [] ==> t != firstSender && t != lastSender
      requires if q == [] then t.Unlisted()
               else && k < |q| && q[k] == t
                    && if d == Sender then Ends(q, firstSender, lastSender) else Ends(q, firstReceiver, lastReceiver)
      modifies this`firstSender, this`lastSender, this`firstReceiver, this`lastReceiver, this`balance,
               q`nextBlocked, q`prevBlocked, t`nextBlocked, t`prevBlocked, t`direction
      ensures t.Unlisted() && balance == old(balance) + Shift(old(t.direction)) && Chained(other, od)
      ensures d == Sender && q != [] ==> ListOk(Without(q, t), d, firstSender, lastSender)
      ensures d == Receiver && q != [] ==> ListOk(Without(q, t), d, firstReceiver, lastReceiver)
      ensures d == Sender || q == [] ==> firstReceiver == old(firstReceiver) && lastReceiver == old(lastReceiver)
      ensures d == Receiver || q == [] ==> firstSender == old(firstSender) && lastSender == old(lastSender)
    {
      Unchain(t, q, k, d);
      forall i | 0 <= i < |other| ensures ChainedAt(other, od, i) {
        assert old(ChainedAt(other, od, i)) && other[i] in other;
      }
    }

    /** Both lists after `t` has left the one that holds it. */
    method LeaveLists(t: TaskletNode)
      requires Valid() && (t in senders || t in receivers || t.Unlisted())
      modifies this`firstSender, this`lastSender, this`firstReceiver, this`lastReceiver, this`balance, t`nextBlocked,
               t`prevBlocked, t`direction, senders`nextBlocked, senders`prevBlocked,
               receivers`nextBlocked, receivers`prevBlocked
      ensures t.Unlisted()
      ensures balance == old(balance) + (if t in senders then -1 else if t in receivers then 1 else 0)
      ensures ListOk(Without(senders, t), Sender, firstSender, lastSender)
      ensures ListOk(Without(receivers, t), Receiver, firstReceiver, lastReceiver)
    {
      DirectionTellsMembership(senders, Sender, t);
      DirectionTellsMembership(receivers, Receiver, t);
      ghost var d := if t in receivers then Receiver else Sender;
      ghost var q := if t in senders then senders else if t in receivers then receivers else [];
      ghost var k := if q != [] then IndexOf(q, t) else 0;
      ghost var other := if t in senders then receivers else if t in receivers then senders else [];
      UnchainFrom(t, q, k, d, other, if d == Sender then Receiver else Sender);
      if q == [] {
        forall i | 0 <= i < |senders| ensures ChainedAt(senders, Sender, i) {
          assert old(ChainedAt(senders, Sender, i));
        }
        forall i | 0 <= i < |receivers| ensures ChainedAt(receivers, Receiver, i) {
          assert old(ChainedAt(receivers, Receiver, i));
        }
      }
    }

    /** Removal from whichever list holds the tasklet, at the front, at the back, in the middle or as
        its only element; the other list stays as it is, and a tasklet on no list is left alone. */
    method RemoveTaskletFromBlocked(t: TaskletNode)
      requires Valid() && (t in senders || t in receivers || t.Unlisted())
      modifies this, t`nextBlocked, t`prevBlocked, t`direction, senders`nextBlocked, senders`prevBlocked,
               receivers`nextBlocked, receivers`prevBlocked
      ensures Valid() && t.Unlisted()
      ensures senders == Without(old(senders), t) && receivers == Without(old(receivers), t)
    {
      LeaveLists(t);
      LeftApart(senders, receivers, t);
      Settle(Without(senders, t), Without(receivers, t));
    }

    /** The lists stand for new sequences. */
    ghost method Settle(s: seq<TaskletNode>, r: seq<TaskletNode>)
      requires ListOk(s, Sender, firstSender, lastSender) && ListOk(r, Receiver, firstReceiver, lastReceiver)
      requires balance == |s| - |r| && forall x :: x in s ==> x !in r
      modifies this`senders, this`receivers
      ensures Valid() && senders == s && receivers == r
    {
      senders, receivers := s, r;
    }

    /** The longest-waiting sender leaves. */
    method PopNextTaskletBlockedOnSend() returns (t: TaskletNode?)
      requires Valid()
      modifies this, senders`nextBlocked, senders`prevBlocked, senders`direction,
               receivers`nextBlocked, receivers`prevBlocked
      ensures Valid() && receivers == old(receivers)
      ensures if old(senders) == [] then t == null && senders == []
              else t == old(senders)[0] && senders == old(senders)[1..] && t.Unlisted()
    {
      t := firstSender;
      if t != null {
        WithoutAt(senders, 0);
        assert senders[0] == t && t !in receivers;
        RemoveTaskletFromBlocked(t);
      }
    }

    /** The longest-waiting receiver leaves. */
    method PopNextTaskletBlockedOnReceive() returns (t: TaskletNode?)
      requires Valid()
      modifies this, receivers`nextBlocked, receivers`prevBlocked, receivers`direction,
               senders`nextBlocked, senders`prevBlocked
      ensures Valid() && senders == old(senders)
      ensures if old(receivers) == [] then t == null && receivers == []
              else t == old(receivers)[0] && receivers == old(receivers)[1..] && t.Unlisted()
    {
      t := firstReceiver;
      if t != null {
        WithoutAt(receivers, 0);
        assert receivers[0] == t && t !in senders;
        RemoveTaskletFromBlocked(t);
      }
    }

    /** A pending kill takes a blocked tasklet off its list, and the failing call does so again when
        the tasklet resumes: the balance moves once. */
    method RemovedByKillAndAgain(t: TaskletNode)
      requires Valid() && (t in senders || t in receivers)
      modifies this, t`nextBlocked, t`prevBlocked, t`direction, senders`nextBlocked, senders`prevBlocked,
               receivers`nextBlocked, receivers`prevBlocked
      ensures Valid() && t.Unlisted()
      ensures senders == Without(old(senders), t) && receivers == Without(old(receivers), t)
      ensures balance == old(balance) + if old(t in senders) then -1 else 1
    {
      LeftMembers(senders, t);
      LeftMembers(receivers, t);
      RemoveTaskletFromBlocked(t);
      RemoveTaskletFromBlocked(t);
    }
  }
}
