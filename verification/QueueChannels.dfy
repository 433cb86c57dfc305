/** Queue channels in use: every run keeps the mailbox discipline, and the class that updates its
    buffer in place implements it. */
module QueueChannels {
  import opened Options
  import opened Flags
  import opened Scheduler
  import opened SchedulerInvariant
  import opened SchedulerPlacement
  import opened Rendezvous
  import opened RendezvousSteps
  import opened Mailboxes

  // ---- Runs ----

  /** A new queue channel: an unused channel that prefers senders. */
  function Opened(s: State, c: Cid): Mailbox {
    Mailbox(Prefer(NewChannel(s, c), c, Sender), c, [], [])
  }

  lemma OpenedOk(s: State, c: Cid)
    requires Placed(s) && Agreed(s) && c !in s.channels
    ensures MailOk(Opened(s, c))
  {
    var s1 := NewChannel(s, c);
    assert Placed(s1) && Agreed(s1) by { NewChannelPlaced(s, c); ConfigureAgrees(s, c, NEW_CHANNEL); }
    PreferredOk(s1, c);
  }

  lemma PreferredOk(s: State, c: Cid)
    requires Placed(s) && Agreed(s) && c in s.channels && s.channels[c] == NEW_CHANNEL
    ensures MailOk(Mailbox(Prefer(s, c, Sender), c, [], []))
  {
    PreferPlaced(s, c, Sender);
    ConfigureAgrees(s, c, s.channels[c].(preference := Sender));
  }

  datatype Step = Put(m: Message) | Take | Other(a: Action)

  ghost predicate StepOk(q: Mailbox, step: Step) {
    && Placed(q.state) && q.c in q.state.channels
    && match step
       case Put(_) => Running(q.state)
       case Take => Running(q.state)
       case Other(a) => Elsewhere(q, a)
  }

  function Advance(q: Mailbox, step: Step): Mailbox
    requires StepOk(q, step)
  {
    match step
    case Put(m) => SendMail(q, m).0
    case Take => ReceiveMail(q).0
    case Other(a) => StepElsewhere(q, a)
  }

  /** A run of the scheduler in which a queue channel is opened and then only used as one. */
  ghost predicate MailRun(run: seq<Mailbox>, log: seq<Step>)
    decreases |run|
  {
    && |run| == |log| + 1
    && (if log == [] then
          exists s, c :: Placed(s) && Agreed(s) && c !in s.channels && run[0] == Opened(s, c)
        else
          && MailRun(run[..|run| - 1], log[..|log| - 1])
          && var (q, step) := (run[|run| - 2], log[|log| - 1]);
             StepOk(q, step) && run[|run| - 1] == Advance(q, step))
  }

  lemma AdvanceKeeps(q: Mailbox, step: Step, q': Mailbox)
    requires MailOk(q) && StepOk(q, step) && q' == Advance(q, step)
    ensures MailOk(q')
  {
    match step
    case Put(m) => SendMailKeeps(q, m, q', SendMail(q, m).1);
    case Take => ReceiveMailKeeps(q, q', ReceiveMail(q).1);
    case Other(a) => ElsewhereKeeps(q, a);
  }

  lemma {:induction false} MailRunKeeps(run: seq<Mailbox>, log: seq<Step>)
    requires MailRun(run, log)
    ensures MailOk(run[|run| - 1])
    decreases |run|
  {
    if log == [] {
      var s, c :| Placed(s) && Agreed(s) && c !in s.channels && run[0] == Opened(s, c);
      OpenedOk(s, c);
    } else {
      MailRunKeeps(run[..|run| - 1], log[..|log| - 1]);
      AdvanceKeeps(run[|run| - 2], log[|log| - 1], run[|run| - 1]);
    }
  }

  /** In every reachable state the mailbox is first-in-first-out, never holds data and waiting
      receivers at once, and blocks no sender. */
  lemma MailboxTheorem(run: seq<Mailbox>, log: seq<Step>)
    requires MailRun(run, log)
    ensures var q := run[|run| - 1];
            && q.c in q.state.channels && Counted(q.state.channels[q.c])
            && q.state.channels[q.c].senders == [] && (q.data == [] || q.state.channels[q.c].receivers == [])
            && forall i :: 0 <= i < |q.delivered| ==> Reaches(q, i)
  {
    MailRunKeeps(run, log);
    var q := run[|run| - 1];
    MailBalanced(q);
    AgreedCounted(q.state, q.c);
    forall i | 0 <= i < |q.delivered| ensures Reaches(q, i) { FirstInFirstOut(q, i); }
  }

  /** The i-th accepted message has been taken from the buffer by the i-th receive call, or reaches it
      through the channel. */
  ghost predicate Reaches(q: Mailbox, i: nat)
    requires q.c in q.state.channels && Counted(q.state.channels[q.c])
  {
    && i < |Accepted(q)| && i < |Taken(q)|
    && match Taken(q)[i]
       case Popped(m) => m == Accepted(q)[i]
       case Waited(call) => Matched(q.state, call, Accepted(q)[i])
  }

  // ---- The class ----

  class QueueChannel {
    const c: Cid
    var state: State
    var dataQueue: seq<Message>
    ghost var delivered: seq<Delivery>

    ghost function Value(): Mailbox
      reads this
    {
      Mailbox(state, c, dataQueue, delivered)
    }

    constructor (s: State, name: Cid)
      requires Placed(s) && Agreed(s) && name !in s.channels
      ensures MailOk(Value()) && Value() == Opened(s, name)
    {
      OpenedOk(s, name);
      c := name;
      state := Prefer(NewChannel(s, name), name, Sender);
      dataQueue := [];
      delivered := [];
    }

    method Balance() returns (n: int)
      requires MailOk(Value())
      ensures n == |dataQueue| - |state.channels[c].receivers|
    {
      MailBalanced(Value());
      n := if dataQueue != [] then |dataQueue| else state.channels[c].balance;
    }

    /** `send`, and `send_throw` with a message that raises: false if it is refused.
        `SendMailKeeps` says what this means for the mailbox. */
    method Send(m: Message) returns (ok: bool)
      requires Placed(state) && Running(state) && c in state.channels
      modifies this
      ensures (Value(), ok) == SendMail(old(Value()), m)
    {
      ghost var after := SendMail(Value(), m).0;
      var ch := state.channels[c];
      if ch.balance >= 0 && !ch.closing {
        dataQueue := dataQueue + [m];
        ok := true;
      } else {
        ok := ch.receivers != [];
        state := Act(state, DoSend(c, m));
        delivered := after.delivered;
      }
    }

    /** `receive`: the oldest buffered message, or `None` if the call goes to the channel.
        `ReceiveMailKeeps` says what this means for the mailbox. */
    method Receive() returns (m: Option<Message>)
      requires Placed(state) && Running(state) && c in state.channels
      modifies this
      ensures (Value(), m) == ReceiveMail(old(Value()))
    {
      ghost var after := ReceiveMail(Value()).0;
      if dataQueue == [] {
        state := Act(state, DoReceive(c));
        return None;
      }
      m := Some(dataQueue[0]);
      dataQueue := dataQueue[1..];
      delivered := after.delivered;
    }
  }
}
