/** What a thread is doing, and which of several threads the lamp shows. */
module Activity {
  datatype ActivityState =
    | UnknownActivity | Idle | Thinking | Executing | WaitingForUser | Reviewing | Completed | Failed

  function Priority(state: ActivityState): nat {
    match state
    case Failed => 7
    case WaitingForUser => 6
    case Executing => 5
    case Reviewing => 4
    case Thinking => 3
    case Completed => 2
    case Idle => 1
    case UnknownActivity => 0
  }

  /** The state with the highest priority, or unknown when there is none. */
  function Aggregate(states: seq<ActivityState>): (top: ActivityState)
    ensures states == [] ==> top == UnknownActivity
    ensures states != [] ==> top in states
    ensures forall state :: state in states ==> Priority(state) <= Priority(top)
  {
    if states == [] then UnknownActivity
    else
      var rest, last := Aggregate(states[..|states| - 1]), states[|states| - 1];
      if |states| > 1 && Priority(rest) > Priority(last) then rest else last
  }

  /** The same for a set of states: no two states share a priority. */
  function Highest(states: set<ActivityState>): (top: ActivityState)
    requires states != {}
    ensures top in states && forall state :: state in states ==> Priority(state) <= Priority(top)
  {
    if Failed in states then Failed
    else if WaitingForUser in states then WaitingForUser
    else if Executing in states then Executing
    else if Reviewing in states then Reviewing
    else if Thinking in states then Thinking
    else if Completed in states then Completed
    else if Idle in states then Idle
    else
      assert UnknownActivity in states by {
        var state :| state in states;
        assert state.UnknownActivity? || state == Failed || state == WaitingForUser || state == Executing
               || state == Reviewing || state == Thinking || state == Completed || state == Idle;
      }
      UnknownActivity
  }
}
