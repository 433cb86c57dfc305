/** One-shot cells: a sender and a receiver share a completion flag, a value and two wakers. */
module OneShots {
  import opened Options

  type Waker = nat

  /** What polling a receiver yields. */
  datatype Poll = Pending | Ready(value: int) | Canceled

  datatype Cell = Cell(complete: bool, data: Option<int>, recvWaker: Option<Waker>, cancelWaker: Option<Waker>)

  const NEW_CELL: Cell := Cell(false, None, None, None)

  /** Dropping the sender completes the cell; the registered waker, if any, is taken and woken. */
  function SenderDropped(x: Cell): Cell {
    x.(complete := true, recvWaker := None)
  }

  /** Sending consumes the sender: the value is stored unless the cell is complete already, and the
      sender is dropped. Either way the registered waker is woken. */
  function Sent(x: Cell, v: int): Cell {
    SenderDropped(if x.complete || x.data.Some? then x else x.(data := Some(v)))
  }

  /** Closing or dropping the receiver. */
  function Closed(x: Cell): Cell {
    x.(complete := true, cancelWaker := None)
  }

  /** Polling the receiver: a complete cell gives up its value or reports cancellation, an open one
      keeps the first waker it is shown. */
  function Polled(x: Cell, k: Waker): (Cell, Poll) {
    if x.complete then (x.(data := None), if x.data.Some? then Ready(x.data.value) else Canceled)
    else (x.(recvWaker := if x.recvWaker.Some? then x.recvWaker else Some(k)), Pending)
  }

  /** What is sent is what is received, whatever polls came before, as long as the receiver has not
      closed the cell. */
  lemma SendThenPoll(x: Cell, v: int, k: Waker)
    requires !x.complete && x.data.None?
    ensures Polled(Sent(x, v), k).1 == Ready(v)
    ensures Polled(Polled(Sent(x, v), k).0, k).1 == Canceled
    ensures forall u :: Sent(Sent(x, v), u) == Sent(x, v)
  {}

  /** The waker of the latest pending poll is the one that completion will wake exactly when no
      other waker had been registered before: an earlier waker is never replaced. */
  lemma LatestWakerIsWoken(x: Cell, k: Waker)
    requires !x.complete
    ensures Polled(x, k).1 == Pending
    ensures Polled(x, k).0.recvWaker == Some(k) <==> x.recvWaker == None || x.recvWaker == Some(k)
  {}

  /** A task that polls again with a new waker is not woken through it. */
  lemma StaleWakerExample()
    ensures Polled(Polled(NEW_CELL, 1).0, 2).0.recvWaker == Some(1)
  {}

  class OneShot {
    var complete: bool
    var data: Option<int>
    var recvWaker: Option<Waker>
    var cancelWaker: Option<Waker>

    function Value(): Cell
      reads this
    {
      Cell(complete, data, recvWaker, cancelWaker)
    }

    constructor ()
      ensures Value() == NEW_CELL
    {
      complete, data, recvWaker, cancelWaker := false, None, None, None;
    }

    method DropSender() returns (woken: Option<Waker>)
      modifies this
      ensures Value() == SenderDropped(old(Value())) && woken == old(recvWaker)
    {
      complete := true;
      woken := recvWaker;
      recvWaker := None;
    }

    /** `Sender::send`, which consumes the sender; the result says whether the value was taken. */
    method Send(v: int) returns (ok: bool, woken: Option<Waker>)
      modifies this
      ensures Value() == Sent(old(Value()), v) && woken == old(recvWaker)
      ensures ok <==> !old(complete) && old(data).None?
    {
      ok, woken := false, None;
      if !complete {
        complete := true;
        woken := recvWaker;
        recvWaker := None;
        if data.None? {
          data := Some(v);
          ok := true;
        }
      }
      var late := DropSender();
      if woken.None? {
        woken := late;
      }
    }

    method Close() returns (woken: Option<Waker>)
      modifies this
      ensures Value() == Closed(old(Value())) && woken == old(cancelWaker)
    {
      complete := true;
      woken := cancelWaker;
      cancelWaker := None;
    }

    method Recv(k: Waker) returns (p: Poll)
      modifies this
      ensures (Value(), p) == Polled(old(Value()), k)
    {
      if complete {
        p := if data.Some? then Ready(data.value) else Canceled;
        data := None;
      } else {
        if recvWaker.None? {
          recvWaker := Some(k);
        }
        p := Pending;
      }
    }
  }
}
