/** The `DockerRun` goal: like `DockerDeploy`, but over a `DockerRunner`,
    whose base URL defaults to "localhost" without a scheme. */
module DockerRun {
  import opened JsValues
  import opened Goals
  import opened Deployment
  import Runner = DockerRunner

  /** `DockerRunRegistration`: `lowerPort` and `baseUrl` may be left undefined. */
  datatype DockerRunRegistration = DockerRunRegistration(
    lowerPort: Option<int>,
    successPatterns: seq<Pattern>,
    baseUrl: Option<string>)

  const DefaultLowerPort := 9090
  const DefaultBaseUrl := "localhost"

  /** The options `with` passes on: a falsy lower port becomes 9090, a falsy
      base URL becomes "localhost", the patterns are passed through. */
  function RunnerOptions(registration: DockerRunRegistration): (o: Runner.DockerRunnerOptions)
    ensures o.lowerPort != 0 && o.baseUrl != ""
    ensures TruthyNumber(registration.lowerPort) ==> o.lowerPort == registration.lowerPort.value
    ensures !TruthyNumber(registration.lowerPort) ==> o.lowerPort == DefaultLowerPort
    ensures TruthyString(registration.baseUrl) ==> o.baseUrl == registration.baseUrl.value
    ensures !TruthyString(registration.baseUrl) ==> o.baseUrl == DefaultBaseUrl
    ensures o.successPatterns == registration.successPatterns
  {
    Runner.DockerRunnerOptions(
      if TruthyNumber(registration.lowerPort) then registration.lowerPort.value else DefaultLowerPort,
      registration.successPatterns,
      if TruthyString(registration.baseUrl) then registration.baseUrl.value else DefaultBaseUrl)
  }

  /** With the default base URL the endpoint has no scheme: it is `localhost:<port>`. */
  lemma DefaultEndpointHasNoScheme(registration: DockerRunRegistration, port: nat)
    requires !TruthyString(registration.baseUrl)
    ensures Endpoint(RunnerOptions(registration).baseUrl, port) == "localhost:" + Decimal(port)
  {
  }

  /** The executor that `executeDockerRun` returns, closing over one runner. */
  class DockerRunExecutor {
    const runner: Runner.DockerRunner

    /** `with(registration)`: one fresh runner, with empty tables, per registration. */
    constructor With(registration: DockerRunRegistration)
      ensures fresh(runner) && runner.options == RunnerOptions(registration)
      ensures runner.repoBranchToPort == map[] && runner.portToContainer == map[]
    {
      runner := new Runner.DockerRunner(RunnerOptions(registration));
    }

    /** One goal invocation on the shared runner, mapped to a goal result. */
    method Execute(inv: Invocation, probe: PortProbe, pid: Option<int>, events: seq<Event>)
      returns (result: Option<GoalResult>)
      modifies runner
      ensures var d := Deploy(old(runner.State()), runner.Config(), inv, probe, pid, events);
              runner.State() == d.tables && result == ToGoalResult(d.outcome)
    {
      var outcome, commands, probedFrom := runner.DeployProject(inv, probe, pid, events);
      result := ToGoalResult(outcome);
    }
  }
}
