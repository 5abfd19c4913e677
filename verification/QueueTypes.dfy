/** What both queue implementations share. */
module QueueTypes {
  import opened Base

  /**
   What the libraries decide during a section: which sleepers a signal wakes, the capacity
   the array list has after an attempt to expand or shrink it, and whether the linked list
   accepts the element (it refuses a node that already is in a list).
   */
  datatype Choice = Choice(signalled: set<Tid>, newCapacity: nat, linked: bool)

  datatype PushOutcome = PushSleeps | PushReturns(pushed: bool)

  /** None is the NULL that a timed out pop returns. */
  datatype PopOutcome<+T> = PopSleeps | PopReturns(item: Option<T>)
}
