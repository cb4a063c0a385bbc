/** Runs whose events carry the instant at which they happen. */
module Clock {
  import opened Common

  /** The clock never goes back from one event to the next. */
  ghost predicate Timely<E>(clock: Time, events: seq<E>, at: E -> Time)
    decreases |events|
  {
    events != [] ==> clock <= at(events[0]) && Timely(at(events[0]), events[1..], at)
  }

  function LastInstant<E>(clock: Time, events: seq<E>, at: E -> Time): Time {
    if events == [] then clock else at(events[|events| - 1])
  }
}
