/** The result shape a goal executor hands back to the SDM framework, and the
    mapping from a settled deployment to it that DockerDeploy and DockerRun
    share. */
module Goals {
  import opened JsValues

  /** `ExecuteGoalResult`: an exit code with an optional message and target URL. */
  datatype GoalResult = GoalResult(code: int, message: Option<string>, targetUrl: Option<string>)

  /** The framework's `Success` constant. */
  const Success := GoalResult(0, None, None)

  /** How the promise returned by `deployProject` ends; `Pending` when it never settles. */
  datatype DeployOutcome = Pending | Resolved(endpoint: string) | Rejected(reason: string)

  /** The `then`/`catch` of `executeDockerRun`: success carries the endpoint as
      target URL, any rejection becomes code 1 with the reason as message, and
      a deployment that never settles leaves the goal without a result. */
  function ToGoalResult(o: DeployOutcome): (r: Option<GoalResult>)
    ensures r.None? <==> o.Pending?
    ensures r.Some? ==> (r.value.code == 0 <==> o.Resolved?)
    ensures r.Some? && r.value.code == 0 ==> r.value.targetUrl == Some(o.endpoint) && r.value.message.None?
    ensures r.Some? && r.value.code != 0 ==> r.value.code == 1 && r.value.message == Some(o.reason) && r.value.targetUrl.None?
  {
    match o
    case Pending => None
    case Resolved(endpoint) => Some(GoalResult(0, None, Some(endpoint)))
    case Rejected(reason) => Some(GoalResult(1, Some(reason), None))
  }

  /** Reads a goal result back as the deployment outcome it came from. */
  function FromGoalResult(r: Option<GoalResult>): DeployOutcome
  {
    match r
    case None => Pending
    case Some(g) =>
      if g.code == 0 && g.targetUrl.Some? then Resolved(g.targetUrl.value)
      else if g.message.Some? then Rejected(g.message.value)
      else Rejected("")
  }

  /** No outcome is lost in the mapping: the executor never swallows or alters a rejection reason. */
  lemma GoalResultRoundTrip(o: DeployOutcome)
    ensures FromGoalResult(ToGoalResult(o)) == o
  {
  }
}
