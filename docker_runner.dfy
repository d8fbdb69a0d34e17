/** `DockerRunner`: the same per-branch deployment as
    `DockerPerBranchDeployer`, with the container port fixed at 8080 and its
    own failure message. */
module DockerRunner {
  import opened JsValues
  import opened Goals
  import opened Deployment

  /** `DockerRunnerOptions`. */
  datatype DockerRunnerOptions = DockerRunnerOptions(
    lowerPort: int,
    successPatterns: seq<Pattern>,
    baseUrl: string)

  const DeploymentFailure := "Maven deployment failure"

  /** The container port every image is expected to expose. */
  const ContainerPort: nat := 8080

  class DockerRunner {
    const options: DockerRunnerOptions
    /** Already allocated ports, keyed by `repo:branch`. */
    var repoBranchToPort: map<string, nat>
    /** The container last started on each port. */
    var portToContainer: map<nat, string>

    ghost function State(): Tables
      reads this
    {
      Tables(repoBranchToPort, portToContainer)
    }

    /** This deployer's configuration: the exposed port is always 8080. */
    function Config(): DeployConfig
    {
      DeployConfig(options.lowerPort, options.successPatterns, options.baseUrl, ContainerPort, DeploymentFailure)
    }

    constructor (options: DockerRunnerOptions)
      ensures this.options == options
      ensures repoBranchToPort == map[] && portToContainer == map[]
    {
      this.options := options;
      repoBranchToPort := map[];
      portToContainer := map[];
    }

    /** `deployProject`: `probe` is what the port finder would answer, `pid`
        what the spawn reports, `events` what the process then emits. Returns
        the outcome, the docker commands issued in order and the lower port
        the finder was asked from. */
    method DeployProject(inv: Invocation, probe: PortProbe, pid: Option<int>, events: seq<Event>)
      returns (outcome: DeployOutcome, commands: seq<seq<string>>, probedFrom: Option<int>)
      modifies this
      ensures var d := Deploy(old(State()), Config(), inv, probe, pid, events);
              State() == d.tables && outcome == d.outcome && commands == d.commands && probedFrom == d.probedFrom
    {
      var key := BranchKey(inv.repo, inv.branch);
      commands, probedFrom := [], None;
      var port: nat := if key in repoBranchToPort then repoBranchToPort[key] else 0;
      if port == 0 {
        probedFrom := Some(options.lowerPort);
        match probe {
          case ProbeFailed(reason) =>
            outcome := Rejected(reason);
            return;
          case PortFound(p) =>
            port := p;
        }
        repoBranchToPort := repoBranchToPort[key := port];
      }
      var existingContainer := if port in portToContainer then Some(portToContainer[port]) else None;
      if TruthyString(existingContainer) {
        // stopAndRemoveContainer: the removal is issued, not awaited
        commands := commands + [RemoveArgs(existingContainer.value)];
      } else {
        var presentCount := PresentCount(portToContainer);
        if presentCount >= 5 {
          outcome := Rejected(CapacityMessage(inv.id));
          return;
        }
      }
      var name := ContainerName(inv.repo, inv.branch);
      commands := commands + [RunArgs(port, ContainerPort, name, inv.imageName)];
      if !TruthyNumber(pid) {
        outcome := Rejected(LaunchFailure);
        return;
      }
      var endpoint := Endpoint(options.baseUrl, port);
      portToContainer := portToContainer[port := name];
      var stdout, stderr, settlement := WatchStartup(options.successPatterns, DeploymentFailure, events);
      outcome := SettledOutcome(settlement, endpoint);
    }
  }
}
