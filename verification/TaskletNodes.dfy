/** The fields through which tasklets are linked into the run queue and into the blocked lists. */
module TaskletNodes {
  import opened Flags

  class TaskletNode {
    var next: TaskletNode?
    var prev: TaskletNode?
    var scheduled: bool
    var blocked: bool
    var reschedule: Reschedule
    /** Towards the tasklets blocked before this one. */
    var nextBlocked: TaskletNode?
    /** Towards the tasklets blocked after this one. */
    var prevBlocked: TaskletNode?
    var direction: Direction

    constructor ()
      ensures Detached() && Unlisted() && reschedule == Stay && !blocked
    {
      next, prev, scheduled, blocked, reschedule := null, null, false, false, Stay;
      nextBlocked, prevBlocked, direction := null, null, Neither;
    }

    /** Not in the run queue. */
    predicate Detached()
      reads this`next, this`prev, this`scheduled
    {
      next == null && prev == null && !scheduled
    }

    /** On no blocked list. */
    predicate Unlisted()
      reads this`nextBlocked, this`prevBlocked, this`direction
    {
      nextBlocked == null && prevBlocked == null && direction == Neither
    }
  }
}
