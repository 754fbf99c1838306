/** The remediation policy: the instance status decides which mutating call, if any, is made. */
module Policy {
  import opened Wrappers

  datatype Action = ResetAction | StartAction | NoAction

  const Running: string := "RUNNING"
  const Terminated: string := "TERMINATED"
  const Stopped: string := "STOPPED"

  /**
   * A running instance is reset, a terminated or stopped one is started, and any other
   * status (including an absent one) leads to no call at all.
   */
  function Decide(status: Option<string>): (a: Action)
    ensures a.ResetAction? <==> status == Some(Running)
    ensures a.StartAction? <==> status == Some(Terminated) || status == Some(Stopped)
    ensures a.NoAction? <==> status !in {Some(Running), Some(Terminated), Some(Stopped)}
  {
    match status
    case Some(s) =>
      if s == Running then ResetAction
      else if s == Terminated || s == Stopped then StartAction
      else NoAction
    case None => NoAction
  }
}
