/** What `DockerPerBranchDeployer` and `DockerRunner` share: the deployment
    key and container name, the `docker run` and `docker rm` arguments, the
    capacity count, the startup watch over the container's output, and
    `Deploy`, one `deployProject` call stated on values. The two classes
    differ only in the container port and the failure message they pass in
    a `DeployConfig`. */
module Deployment {
  import opened JsValues
  import opened Goals

  /** A success pattern, reduced to what `RegExp.test` answers for a text. */
  type Pattern = string -> bool

  /* ---------------- naming and arguments ---------------- */

  /** The key of `repoBranchToPort`. */
  function BranchKey(repo: string, branch: string): string
  {
    repo + ":" + branch
  }

  /** The container name `${repo}_${branch}`. */
  function ContainerName(repo: string, branch: string): (name: string)
    ensures |name| == |repo| + 1 + |branch|
    ensures name[..|repo|] == repo && name[|repo|] == '_' && name[|repo| + 1..] == branch
  {
    repo + "_" + branch
  }

  /** `docker run -p<port>:<containerPort> --name=<name> <image>`. */
  function RunArgs(port: nat, containerPort: nat, name: string, image: string): seq<string>
  {
    ["run", "-p" + Decimal(port) + ":" + Decimal(containerPort), "--name=" + name, image]
  }

  /** `docker rm -f <name>`, issued by `stopAndRemoveContainer`. */
  function RemoveArgs(name: string): seq<string>
  {
    ["rm", "-f", name]
  }

  /** The deployment endpoint `${baseUrl}:${port}`. */
  function Endpoint(baseUrl: string, port: nat): string
  {
    baseUrl + ":" + Decimal(port)
  }

  /** Index of the first `c` in `s`, or `|s|` when there is none. */
  function IndexOf(s: string, c: char): (i: nat)
    ensures i <= |s|
    ensures forall j :: 0 <= j < i ==> s[j] != c
    ensures i < |s| ==> s[i] == c
  {
    if s == [] then 0 else if s[0] == c then 0 else 1 + IndexOf(s[1..], c)
  }

  /** Reads a `-p<host>:<container>` argument back as its two ports. */
  function PortMapping(arg: string): Option<(nat, nat)>
  {
    if |arg| < 2 || arg[..2] != "-p" then None
    else
      var rest := arg[2..];
      var i := IndexOf(rest, ':');
      if i < |rest| && AllDigits(rest[..i]) && AllDigits(rest[i + 1..])
      then Some((DecimalValue(rest[..i]), DecimalValue(rest[i + 1..])))
      else None
  }

  /** The port mapping in the `docker run` arguments binds exactly the host port to the container port. */
  lemma RunArgsBindPort(port: nat, containerPort: nat, name: string, image: string)
    ensures |RunArgs(port, containerPort, name, image)| == 4
    ensures PortMapping(RunArgs(port, containerPort, name, image)[1]) == Some((port, containerPort))
  {
    var arg := RunArgs(port, containerPort, name, image)[1];
    var rest := arg[2..];
    var p, q := Decimal(port), Decimal(containerPort);
    assert rest == p + ":" + q;
    assert forall j :: 0 <= j < |p| ==> rest[j] == p[j] && rest[j] != ':';
    assert rest[|p|] == ':';
    assert IndexOf(rest, ':') == |p|;
    assert rest[..|p|] == p;
    assert rest[|p| + 1..] == q;
    DecimalRoundTrip(port);
    DecimalRoundTrip(containerPort);
  }

  /** Index just after the last `:` of `s`, or 0 when there is none. */
  function AfterLastColon(s: string): (i: nat)
    ensures i <= |s|
    ensures i > 0 ==> s[i - 1] == ':'
    ensures forall j :: i <= j < |s| ==> s[j] != ':'
  {
    if s == [] then 0
    else if s[|s| - 1] == ':' then |s|
    else AfterLastColon(s[..|s| - 1])
  }

  /** The port an endpoint URL names: the digits after its last colon. */
  function EndpointPort(endpoint: string): Option<nat>
  {
    var i := AfterLastColon(endpoint);
    if i > 0 && AllDigits(endpoint[i..]) then Some(DecimalValue(endpoint[i..])) else None
  }

  lemma {:induction false} AfterLastColonOfSuffix(a: string, b: string)
    requires forall j :: 0 <= j < |b| ==> b[j] != ':'
    ensures AfterLastColon(a + ":" + b) == |a| + 1
  {
    if b != [] {
      var s := a + ":" + b;
      assert s[..|s| - 1] == a + ":" + b[..|b| - 1];
      AfterLastColonOfSuffix(a, b[..|b| - 1]);
    } else {
      assert (a + ":" + b)[|a|] == ':';
    }
  }

  /** Whatever the base URL (with or without a scheme), the endpoint names the deployed port. */
  lemma EndpointNamesPort(baseUrl: string, port: nat)
    ensures EndpointPort(Endpoint(baseUrl, port)) == Some(port)
  {
    var d := Decimal(port);
    AfterLastColonOfSuffix(baseUrl, d);
    assert Endpoint(baseUrl, port)[|baseUrl| + 1..] == d;
    DecimalRoundTrip(port);
  }

  /* ---------------- capacity guard ---------------- */

  /** `Object.keys(portToContainer)`: every key of a JavaScript object is a string. */
  function ObjectKeys(portToContainer: map<nat, string>): set<JsValue>
  {
    set p | p in portToContainer :: JsString(Decimal(p))
  }

  /** `Object.keys(...).filter(n => typeof n === "number").length`. */
  function PresentCount(portToContainer: map<nat, string>): nat
  {
    |set k | k in ObjectKeys(portToContainer) && TypeOf(k) == "number"|
  }

  /** The count the guard compares with 5 is 0 for every table, so the
      "limit of 5 has been reached" error can never be raised. */
  lemma PresentCountIsZero(portToContainer: map<nat, string>)
    ensures PresentCount(portToContainer) == 0
  {
    var numbers := set k | k in ObjectKeys(portToContainer) && TypeOf(k) == "number";
    forall k | k in ObjectKeys(portToContainer)
      ensures TypeOf(k) == "string"
    {
    }
    assert numbers == {};
  }

  /** The keys themselves are there to be counted: one distinct key per bound port. */
  lemma ObjectKeysOnePerPort(portToContainer: map<nat, string>, p: nat, q: nat)
    requires p in portToContainer && q in portToContainer && p != q
    ensures JsString(Decimal(p)) in ObjectKeys(portToContainer)
    ensures JsString(Decimal(p)) != JsString(Decimal(q))
  {
    if Decimal(p) == Decimal(q) {
      DecimalInjective(p, q);
    }
  }

  /* ---------------- startup watch ---------------- */

  /** What the spawned process reports, in the order the listeners see it. */
  datatype Event = StdoutData(chunk: string) | StderrData(chunk: string) | Exit | ProcessError(reason: string)

  /** The state of the deployment promise. */
  datatype Settlement = Unsettled | Succeeded | Failed(reason: string)

  /** The listeners' local `stdout` and `stderr` buffers and the promise. */
  datatype WatchState = WatchState(stdout: string, stderr: string, settlement: Settlement)

  /** `successPatterns.some(p => p.test(text))`. */
  predicate AnyMatch(patterns: seq<Pattern>, text: string)
  {
    exists i :: 0 <= i < |patterns| && patterns[i](text)
  }

  /** A promise settles once: later calls of `resolve` or `reject` are ignored. */
  function Settle(w: WatchState, s: Settlement): WatchState
  {
    if w.settlement.Unsettled? then w.(settlement := s) else w
  }

  /** One listener call. */
  function Step(patterns: seq<Pattern>, failure: string, w: WatchState, e: Event): WatchState
  {
    match e
    case StdoutData(chunk) =>
      var out := if chunk != "" then w.stdout + chunk else w.stdout;
      var w' := w.(stdout := out);
      if AnyMatch(patterns, out) then Settle(w', Succeeded) else w'
    case StderrData(chunk) =>
      w.(stderr := if chunk != "" then w.stderr + chunk else w.stderr)
    case Exit =>
      if AnyMatch(patterns, w.stdout) then Settle(w, Succeeded) else Settle(w, Failed(failure))
    case ProcessError(reason) =>
      Settle(w, Failed(reason))
  }

  /** The state after the listeners have seen all of `events`. */
  function WatchAll(patterns: seq<Pattern>, failure: string, events: seq<Event>): WatchState
  {
    if events == [] then WatchState("", "", Unsettled)
    else Step(patterns, failure, WatchAll(patterns, failure, events[..|events| - 1]), events[|events| - 1])
  }

  /** The listeners of `deployProject`: append each chunk to its buffer,
      test the patterns on all of stdout after each stdout chunk and at
      exit, reject on exit without a match or on an error event. */
  method WatchStartup(patterns: seq<Pattern>, failure: string, events: seq<Event>)
    returns (stdout: string, stderr: string, settlement: Settlement)
    ensures WatchState(stdout, stderr, settlement) == WatchAll(patterns, failure, events)
  {
    stdout, stderr, settlement := "", "", Unsettled;
    var i := 0;
    while i < |events|
      invariant 0 <= i <= |events|
      invariant WatchState(stdout, stderr, settlement) == WatchAll(patterns, failure, events[..i])
    {
      match events[i] {
        case StdoutData(chunk) =>
          if chunk != "" {
            stdout := stdout + chunk;
          }
          if AnyMatch(patterns, stdout) && settlement.Unsettled? {
            settlement := Succeeded;
          }
        case StderrData(chunk) =>
          if chunk != "" {
            stderr := stderr + chunk;
          }
        case Exit =>
          if settlement.Unsettled? {
            settlement := if AnyMatch(patterns, stdout) then Succeeded else Failed(failure);
          }
        case ProcessError(reason) =>
          if settlement.Unsettled? {
            settlement := Failed(reason);
          }
      }
      assert events[..i + 1][..i] == events[..i];
      i := i + 1;
    }
    assert events[..|events|] == events;
  }

  /** All stdout chunks, concatenated in order. */
  function StdoutText(events: seq<Event>): string
  {
    if events == [] then ""
    else StdoutText(events[..|events| - 1]) + (if events[|events| - 1].StdoutData? then events[|events| - 1].chunk else "")
  }

  /** All stderr chunks, concatenated in order. */
  function StderrText(events: seq<Event>): string
  {
    if events == [] then ""
    else StderrText(events[..|events| - 1]) + (if events[|events| - 1].StderrData? then events[|events| - 1].chunk else "")
  }

  /** The buffers hold every chunk of their own stream, in order, and nothing else. */
  lemma {:induction false} WatchBuffers(patterns: seq<Pattern>, failure: string, events: seq<Event>)
    ensures WatchAll(patterns, failure, events).stdout == StdoutText(events)
    ensures WatchAll(patterns, failure, events).stderr == StderrText(events)
  {
    if events != [] {
      WatchBuffers(patterns, failure, events[..|events| - 1]);
    }
  }

  /** Only the first settlement counts: once settled, further events never change the outcome. */
  lemma {:induction false} SettlesOnce(patterns: seq<Pattern>, failure: string, events: seq<Event>, more: seq<Event>)
    requires !WatchAll(patterns, failure, events).settlement.Unsettled?
    ensures WatchAll(patterns, failure, events + more).settlement == WatchAll(patterns, failure, events).settlement
  {
    if more != [] {
      var all := events + more;
      assert all[..|all| - 1] == events + more[..|more| - 1];
      SettlesOnce(patterns, failure, events, more[..|more| - 1]);
    } else {
      assert events + more == events;
    }
  }

  /** The events without the stderr chunks. */
  function WithoutStderr(events: seq<Event>): seq<Event>
  {
    if events == [] then []
    else WithoutStderr(events[..|events| - 1]) + (if events[|events| - 1].StderrData? then [] else [events[|events| - 1]])
  }

  /** What a listener does to stdout and to the promise depends on nothing but stdout and the promise. */
  lemma StepIgnoresStderr(patterns: seq<Pattern>, failure: string, w1: WatchState, w2: WatchState, e: Event)
    requires w1.stdout == w2.stdout && w1.settlement == w2.settlement
    ensures Step(patterns, failure, w1, e).stdout == Step(patterns, failure, w2, e).stdout
    ensures Step(patterns, failure, w1, e).settlement == Step(patterns, failure, w2, e).settlement
  {
  }

  /** stderr is accumulated but never tested: dropping it changes neither stdout nor the outcome. */
  lemma {:induction false} StderrNeverTested(patterns: seq<Pattern>, failure: string, events: seq<Event>)
    ensures WatchAll(patterns, failure, WithoutStderr(events)).settlement == WatchAll(patterns, failure, events).settlement
    ensures WatchAll(patterns, failure, WithoutStderr(events)).stdout == WatchAll(patterns, failure, events).stdout
  {
    if events != [] {
      var front := events[..|events| - 1];
      var e := events[|events| - 1];
      StderrNeverTested(patterns, failure, front);
      var w1 := WatchAll(patterns, failure, WithoutStderr(front));
      var w2 := WatchAll(patterns, failure, front);
      assert WatchAll(patterns, failure, events) == Step(patterns, failure, w2, e);
      if e.StderrData? {
        assert WithoutStderr(events) == WithoutStderr(front);
      } else {
        var w := WithoutStderr(events);
        assert w == WithoutStderr(front) + [e];
        assert w[..|w| - 1] == WithoutStderr(front);
        assert WatchAll(patterns, failure, w) == Step(patterns, failure, w1, e);
        StepIgnoresStderr(patterns, failure, w1, w2, e);
      }
    }
  }

  /** The deployment succeeds only if some pattern matched all of stdout up to a stdout chunk or the exit. */
  lemma {:induction false} SucceedsOnlyOnMatch(patterns: seq<Pattern>, failure: string, events: seq<Event>)
    requires WatchAll(patterns, failure, events).settlement == Succeeded
    ensures exists k :: 0 <= k < |events| && (events[k].StdoutData? || events[k].Exit?)
                        && AnyMatch(patterns, StdoutText(events[..k + 1]))
  {
    var front := events[..|events| - 1];
    var e := events[|events| - 1];
    WatchBuffers(patterns, failure, front);
    assert events[..|events|] == events;
    if WatchAll(patterns, failure, front).settlement == Succeeded {
      SucceedsOnlyOnMatch(patterns, failure, front);
      var k :| 0 <= k < |front| && (front[k].StdoutData? || front[k].Exit?) && AnyMatch(patterns, StdoutText(front[..k + 1]));
      assert front[..k + 1] == events[..k + 1];
    } else {
      WatchBuffers(patterns, failure, events);
      assert (e.StdoutData? || e.Exit?) && AnyMatch(patterns, StdoutText(events[..|events|]));
    }
  }

  /** A stdout chunk after which all of stdout matches settles the deployment as succeeded, if nothing settled it before. */
  lemma MatchingChunkSucceeds(patterns: seq<Pattern>, failure: string, events: seq<Event>, k: nat)
    requires k < |events| && events[k].StdoutData?
    requires WatchAll(patterns, failure, events[..k]).settlement.Unsettled?
    requires AnyMatch(patterns, StdoutText(events[..k + 1]))
    ensures WatchAll(patterns, failure, events).settlement == Succeeded
  {
    SettledAt(patterns, failure, events, k);
    var w := WatchAll(patterns, failure, events[..k]);
    var chunk := events[k].chunk;
    assert (if chunk != "" then w.stdout + chunk else w.stdout) == w.stdout + chunk;
  }

  /** An exit settles the deployment: succeeded when all of stdout matches, otherwise failed with the failure message. */
  lemma ExitDecides(patterns: seq<Pattern>, failure: string, events: seq<Event>, k: nat)
    requires k < |events| && events[k].Exit?
    requires WatchAll(patterns, failure, events[..k]).settlement.Unsettled?
    ensures AnyMatch(patterns, StdoutText(events[..k])) ==> WatchAll(patterns, failure, events).settlement == Succeeded
    ensures !AnyMatch(patterns, StdoutText(events[..k])) ==> WatchAll(patterns, failure, events).settlement == Failed(failure)
  {
    SettledAt(patterns, failure, events, k);
  }

  /** An error event rejects with its own reason, without testing any pattern. */
  lemma ErrorFails(patterns: seq<Pattern>, failure: string, events: seq<Event>, k: nat)
    requires k < |events| && events[k].ProcessError?
    requires WatchAll(patterns, failure, events[..k]).settlement.Unsettled?
    ensures WatchAll(patterns, failure, events).settlement == Failed(events[k].reason)
  {
    SettledAt(patterns, failure, events, k);
  }

  /** Helper: the event at `k` settles the promise and everything after it is ignored. */
  lemma SettledAt(patterns: seq<Pattern>, failure: string, events: seq<Event>, k: nat)
    requires k < |events|
    requires WatchAll(patterns, failure, events[..k]).settlement.Unsettled?
    ensures var w := Step(patterns, failure, WatchAll(patterns, failure, events[..k]), events[k]);
            !w.settlement.Unsettled? ==> WatchAll(patterns, failure, events).settlement == w.settlement
    ensures WatchAll(patterns, failure, events[..k]).stdout == StdoutText(events[..k])
    ensures events[k].StdoutData? ==> StdoutText(events[..k + 1]) == StdoutText(events[..k]) + events[k].chunk
  {
    var prefix := events[..k + 1];
    assert prefix[..k] == events[..k];
    WatchBuffers(patterns, failure, events[..k]);
    var w := WatchAll(patterns, failure, prefix);
    if !w.settlement.Unsettled? {
      SettlesOnce(patterns, failure, prefix, events[k + 1..]);
      assert prefix + events[k + 1..] == events;
    }
  }

  /* ---------------- one deployProject call ---------------- */

  /** The deployer's two tables. */
  datatype Tables = Tables(repoBranchToPort: map<string, nat>, portToContainer: map<nat, string>)

  /** The options of one deployer plus what the two classes hard-wire differently. */
  datatype DeployConfig = DeployConfig(
    lowerPort: int,
    successPatterns: seq<Pattern>,
    baseUrl: string,
    containerPort: nat,
    failureMessage: string)

  /** What `deployProject` reads from the goal invocation. */
  datatype Invocation = Invocation(repo: string, branch: string, id: string, imageName: string)

  /** What `portfinder.getPortPromise` would answer. */
  datatype PortProbe = PortFound(port: nat) | ProbeFailed(reason: string)

  /** The effect of one call: the new tables, the port used, the lower port
      the finder was asked from (`None` when it was not asked), the docker
      commands issued, in order, and the outcome. */
  datatype DeployStep = DeployStep(
    tables: Tables,
    port: Option<nat>,
    probedFrom: Option<int>,
    commands: seq<seq<string>>,
    outcome: DeployOutcome)

  const LaunchFailure := "Fatal error deploying using Docker"

  function CapacityMessage(id: string): string
  {
    "Unable to deploy project at " + id + " as limit of 5 has been reached"
  }

  /** `repoBranchToPort[key]` when it is truthy. */
  function MemoisedPort(ports: map<string, nat>, key: string): Option<nat>
  {
    if key in ports && ports[key] != 0 then Some(ports[key]) else None
  }

  /** `portToContainer[port]`, `undefined` when absent. */
  function ContainerAt(containers: map<nat, string>, port: nat): Option<string>
  {
    if port in containers then Some(containers[port]) else None
  }

  function SettledOutcome(s: Settlement, endpoint: string): DeployOutcome
  {
    match s
    case Unsettled => Pending
    case Succeeded => Resolved(endpoint)
    case Failed(reason) => Rejected(reason)
  }

  /** One `deployProject` call, from the tables before it to its effect. */
  function Deploy(t: Tables, c: DeployConfig, inv: Invocation, probe: PortProbe, pid: Option<int>, events: seq<Event>): DeployStep
  {
    var key := BranchKey(inv.repo, inv.branch);
    var memo := MemoisedPort(t.repoBranchToPort, key);
    if memo.None? && probe.ProbeFailed? then
      DeployStep(t, None, Some(c.lowerPort), [], Rejected(probe.reason))
    else
      var probedFrom := if memo.Some? then None else Some(c.lowerPort);
      var port := if memo.Some? then memo.value else probe.port;
      var ports := if memo.Some? then t.repoBranchToPort else t.repoBranchToPort[key := port];
      var existing := ContainerAt(t.portToContainer, port);
      if !TruthyString(existing) && PresentCount(t.portToContainer) >= 5 then
        DeployStep(Tables(ports, t.portToContainer), Some(port), probedFrom, [], Rejected(CapacityMessage(inv.id)))
      else
        var evict := if TruthyString(existing) then [RemoveArgs(existing.value)] else [];
        var name := ContainerName(inv.repo, inv.branch);
        var commands := evict + [RunArgs(port, c.containerPort, name, inv.imageName)];
        if !TruthyNumber(pid) then
          DeployStep(Tables(ports, t.portToContainer), Some(port), probedFrom, commands, Rejected(LaunchFailure))
        else
          var w := WatchAll(c.successPatterns, c.failureMessage, events);
          DeployStep(Tables(ports, t.portToContainer[port := name]), Some(port), probedFrom, commands,
                     SettledOutcome(w.settlement, Endpoint(c.baseUrl, port)))
  }

  /** A branch whose key already holds a truthy port reuses it, the port finder is not consulted and the port table is unchanged. */
  lemma ReusesMemoisedPort(t: Tables, c: DeployConfig, inv: Invocation, probe: PortProbe, pid: Option<int>, events: seq<Event>)
    requires MemoisedPort(t.repoBranchToPort, BranchKey(inv.repo, inv.branch)).Some?
    ensures var d := Deploy(t, c, inv, probe, pid, events);
            d.port == MemoisedPort(t.repoBranchToPort, BranchKey(inv.repo, inv.branch))
            && d.probedFrom.None? && d.tables.repoBranchToPort == t.repoBranchToPort
  {
  }

  /** Otherwise the finder is asked from the lower port and its answer is stored under the key; a failed probe changes nothing and issues no command. */
  lemma RecordsProbedPort(t: Tables, c: DeployConfig, inv: Invocation, probe: PortProbe, pid: Option<int>, events: seq<Event>)
    requires MemoisedPort(t.repoBranchToPort, BranchKey(inv.repo, inv.branch)).None?
    ensures var d := Deploy(t, c, inv, probe, pid, events);
            d.probedFrom == Some(c.lowerPort)
            && (probe.PortFound? ==>
                  d.port == Some(probe.port)
                  && d.tables.repoBranchToPort == t.repoBranchToPort[BranchKey(inv.repo, inv.branch) := probe.port])
            && (probe.ProbeFailed? ==> d.tables == t && d.commands == [] && d.outcome == Rejected(probe.reason))
  {
  }

  /** Port assignments are never removed, and a truthy assignment never changes. */
  lemma PortEntriesKept(t: Tables, c: DeployConfig, inv: Invocation, probe: PortProbe, pid: Option<int>, events: seq<Event>)
    ensures var d := Deploy(t, c, inv, probe, pid, events);
            t.repoBranchToPort.Keys <= d.tables.repoBranchToPort.Keys
            && forall k :: k in t.repoBranchToPort && t.repoBranchToPort[k] != 0 ==>
                 d.tables.repoBranchToPort[k] == t.repoBranchToPort[k]
  {
  }

  /** The capacity guard never stops a deployment: once a port is resolved, `docker run` is always issued, after a `docker rm -f` of the container bound to that port, if any. */
  lemma AlwaysRunsOnceResolved(t: Tables, c: DeployConfig, inv: Invocation, probe: PortProbe, pid: Option<int>, events: seq<Event>)
    ensures var d := Deploy(t, c, inv, probe, pid, events);
            d.port.Some? ==>
              var existing := ContainerAt(t.portToContainer, d.port.value);
              var run := RunArgs(d.port.value, c.containerPort, ContainerName(inv.repo, inv.branch), inv.imageName);
              && (TruthyString(existing) ==> d.commands == [RemoveArgs(existing.value), run])
              && (!TruthyString(existing) ==> d.commands == [run])
  {
    PresentCountIsZero(t.portToContainer);
  }

  /** Without a pid the call fails with the launch error and the container table is unchanged; with one, exactly the entry of the port is (over)written with the new name, before the outcome is known. */
  lemma RecordsContainerAfterSpawn(t: Tables, c: DeployConfig, inv: Invocation, probe: PortProbe, pid: Option<int>, events: seq<Event>)
    requires Deploy(t, c, inv, probe, pid, events).port.Some?
    ensures var d := Deploy(t, c, inv, probe, pid, events);
            && (!TruthyNumber(pid) ==> d.outcome == Rejected(LaunchFailure) && d.tables.portToContainer == t.portToContainer)
            && (TruthyNumber(pid) ==> d.tables.portToContainer == t.portToContainer[d.port.value := ContainerName(inv.repo, inv.branch)])
  {
    PresentCountIsZero(t.portToContainer);
  }

  /** After a spawn the outcome is the startup watch's verdict; success carries the endpoint of the port. */
  lemma OutcomeIsWatchVerdict(t: Tables, c: DeployConfig, inv: Invocation, probe: PortProbe, pid: Option<int>, events: seq<Event>)
    requires Deploy(t, c, inv, probe, pid, events).port.Some? && TruthyNumber(pid)
    ensures var d := Deploy(t, c, inv, probe, pid, events);
            var s := WatchAll(c.successPatterns, c.failureMessage, events).settlement;
            && (d.outcome.Resolved? <==> s == Succeeded)
            && (d.outcome.Resolved? ==> d.outcome.endpoint == Endpoint(c.baseUrl, d.port.value))
            && (d.outcome.Resolved? ==> EndpointPort(d.outcome.endpoint) == d.port)
            && (d.outcome.Rejected? <==> s.Failed?)
            && (d.outcome.Pending? <==> s.Unsettled?)
  {
    PresentCountIsZero(t.portToContainer);
    EndpointNamesPort(c.baseUrl, Deploy(t, c, inv, probe, pid, events).port.value);
  }

  /** Every container name in the table is non-empty, so `!!existingContainer` holds exactly for bound ports. */
  ghost predicate NamesTruthy(t: Tables)
  {
    forall p :: p in t.portToContainer ==> t.portToContainer[p] != ""
  }

  lemma KeepsNamesTruthy(t: Tables, c: DeployConfig, inv: Invocation, probe: PortProbe, pid: Option<int>, events: seq<Event>)
    requires NamesTruthy(t)
    ensures NamesTruthy(Deploy(t, c, inv, probe, pid, events).tables)
  {
  }

  /** With truthy names, a `docker rm -f` is issued exactly when the resolved port is already bound. */
  lemma EvictsIffBound(t: Tables, c: DeployConfig, inv: Invocation, probe: PortProbe, pid: Option<int>, events: seq<Event>)
    requires NamesTruthy(t)
    requires Deploy(t, c, inv, probe, pid, events).port.Some?
    ensures var d := Deploy(t, c, inv, probe, pid, events);
            (d.commands[0][0] == "rm") <==> d.port.value in t.portToContainer
  {
    AlwaysRunsOnceResolved(t, c, inv, probe, pid, events);
  }

  /** Redeploying a branch that was deployed before uses the same port without asking the finder, and first removes the container the earlier deployment recorded there. */
  lemma RedeployEvictsPrevious(t: Tables, c: DeployConfig, inv: Invocation,
                               probe1: PortProbe, pid1: Option<int>, events1: seq<Event>,
                               probe2: PortProbe, pid2: Option<int>, events2: seq<Event>)
    requires var d1 := Deploy(t, c, inv, probe1, pid1, events1);
             d1.port.Some? && d1.port.value != 0 && TruthyNumber(pid1)
    ensures var d1 := Deploy(t, c, inv, probe1, pid1, events1);
            var d2 := Deploy(d1.tables, c, inv, probe2, pid2, events2);
            var name := ContainerName(inv.repo, inv.branch);
            && d2.port == d1.port && d2.probedFrom.None?
            && d2.commands == [RemoveArgs(name), RunArgs(d1.port.value, c.containerPort, name, inv.imageName)]
  {
    var d1 := Deploy(t, c, inv, probe1, pid1, events1);
    RecordsContainerAfterSpawn(t, c, inv, probe1, pid1, events1);
    assert MemoisedPort(d1.tables.repoBranchToPort, BranchKey(inv.repo, inv.branch)) == d1.port;
    AlwaysRunsOnceResolved(d1.tables, c, inv, probe2, pid2, events2);
  }
}
