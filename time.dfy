/** Time as the dispatcher and the audit logger see it. */
module Time {

  /** An instant, as a count of nanoseconds since the Unix epoch in UTC. */
  type Instant = int

  /**
   * The clock the dispatcher is given. `reading` is whatever instant the
   * environment currently shows; the wall clock behind it is not modelled.
   */
  class Clock {
    var reading: Instant

    constructor (start: Instant)
      ensures reading == start
    {
      reading := start;
    }

    /** The current instant; reading the clock changes nothing. */
    method Now() returns (t: Instant)
      ensures t == reading
    {
      t := reading;
    }
  }
}
