/** The user events both components react to, one at a time: a keystroke
    in a field, or a submission whose network outcome is already known. */
module Events {
  import opened Js
  import opened Backend
  import opened Form

  datatype Event = Typed(field: Field, value: string) | Submitted(outcome: FetchOutcome)

  /** The string last typed into a field, if any. */
  function LastTyped(events: seq<Event>, f: Field): Option<string>
    decreases |events|
  {
    if events == [] then None
    else
      var e := events[|events| - 1];
      if e.Typed? && e.field == f then Some(e.value) else LastTyped(events[..|events| - 1], f)
  }

  /** The outcome of the last submission, if any. */
  function LastOutcome(events: seq<Event>): Option<FetchOutcome>
    decreases |events|
  {
    if events == [] then None
    else
      var e := events[|events| - 1];
      if e.Submitted? then Some(e.outcome) else LastOutcome(events[..|events| - 1])
  }
}
