/** What the loop does about each stop reason. */
module StopReasons {
  import opened Contract

  const MAX_PAUSE_RESUMES := 5

  datatype Action =
    | Finish
    | DispatchTools
    | Resume(attempt: nat)
    | Compact
    | SettleFailed

  function Decide(reason: StopReason, attempt: nat): Action {
    match reason
    case EndTurn => Finish
    case ToolUse => DispatchTools
    case MaxTokens => SettleFailed
    case PauseTurn => if attempt >= MAX_PAUSE_RESUMES then SettleFailed else Resume(attempt + 1)
    case Refusal => SettleFailed
    case ContextWindowExceeded => Compact
  }
}
