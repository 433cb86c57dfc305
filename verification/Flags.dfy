/** The enumerations shared by the pointer structures and the scheduler machine. */
module Flags {
  /** Which side of a channel a tasklet is blocked on, or which side a channel prefers. */
  datatype Direction = Receiver | Neither | Sender

  /** Where a tasklet goes when its turn ends: nowhere, to the back of the run queue, or right
      behind the tasklet at its front. */
  datatype Reschedule = Stay | Back | FrontPlusOne
}
