/** The `DockerDeploy` goal: `with` turns a registration into deployer
    options, and the executor it registers shares one
    `DockerPerBranchDeployer` between all of its invocations. */
module DockerDeploy {
  import opened JsValues
  import opened Goals
  import opened Deployment
  import PerBranch = DockerPerBranchDeployer

  /** `DockerDeployRegistration`: `lowerPort` and `baseUrl` may be left undefined. */
  datatype DockerDeployRegistration = DockerDeployRegistration(
    lowerPort: Option<int>,
    successPatterns: seq<Pattern>,
    baseUrl: Option<string>,
    sourcePort: nat)

  const DefaultLowerPort := 9090
  const DefaultBaseUrl := "http://localhost"

  /** The options `with` passes on: a falsy lower port (undefined or 0)
      becomes 9090, a falsy base URL (undefined or "") becomes
      "http://localhost", the rest is passed through. */
  function DeployerOptions(registration: DockerDeployRegistration): (o: PerBranch.DockerPerBranchDeployerOptions)
    ensures o.lowerPort != 0 && o.baseUrl != ""
    ensures TruthyNumber(registration.lowerPort) ==> o.lowerPort == registration.lowerPort.value
    ensures !TruthyNumber(registration.lowerPort) ==> o.lowerPort == DefaultLowerPort
    ensures TruthyString(registration.baseUrl) ==> o.baseUrl == registration.baseUrl.value
    ensures !TruthyString(registration.baseUrl) ==> o.baseUrl == DefaultBaseUrl
    ensures o.successPatterns == registration.successPatterns && o.sourcePort == registration.sourcePort
  {
    PerBranch.DockerPerBranchDeployerOptions(
      if TruthyNumber(registration.lowerPort) then registration.lowerPort.value else DefaultLowerPort,
      registration.successPatterns,
      if TruthyString(registration.baseUrl) then registration.baseUrl.value else DefaultBaseUrl,
      registration.sourcePort)
  }

  /** Defaulting is idempotent: registering the resulting options again changes nothing. */
  lemma DefaultingIdempotent(registration: DockerDeployRegistration)
    ensures var o := DeployerOptions(registration);
            DeployerOptions(DockerDeployRegistration(Some(o.lowerPort), o.successPatterns, Some(o.baseUrl), o.sourcePort)) == o
  {
  }

  /** The executor that `executeDockerRun` returns, closing over one deployer. */
  class DockerDeployExecutor {
    const deployer: PerBranch.DockerPerBranchDeployer

    /** `with(registration)`: one fresh deployer, with empty tables, per registration. */
    constructor With(registration: DockerDeployRegistration)
      ensures fresh(deployer) && deployer.options == DeployerOptions(registration)
      ensures deployer.repoBranchToPort == map[] && deployer.portToContainer == map[]
    {
      deployer := new PerBranch.DockerPerBranchDeployer(DeployerOptions(registration));
    }

    /** One goal invocation: deploy on the shared deployer, whose tables carry
        over to the next invocation, and map the outcome to a goal result;
        a rejection is never propagated. */
    method Execute(inv: Invocation, probe: PortProbe, pid: Option<int>, events: seq<Event>)
      returns (result: Option<GoalResult>)
      modifies deployer
      ensures var d := Deploy(old(deployer.State()), deployer.Config(), inv, probe, pid, events);
              deployer.State() == d.tables && result == ToGoalResult(d.outcome)
    {
      var outcome, commands, probedFrom := deployer.DeployProject(inv, probe, pid, events);
      result := ToGoalResult(outcome);
    }
  }
}
