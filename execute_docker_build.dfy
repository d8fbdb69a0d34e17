/** `executeDockerBuild`: run the goal's preparations, then `docker login`,
    `docker build`, `docker push` and the image-link webhook, stopping at the
    first step whose result code is not 0. Every step that runs a process or
    calls out is given by its result. */
module ExecuteDockerBuild {
  import opened JsValues
  import opened Goals
  import DockerBuildFile

  /** What the image name creator yields. */
  datatype ImageName = ImageName(registry: Option<string>, name: string, version: string)

  /** The image tag: a truthy registry and a slash, the name, a colon and the version. */
  function ImageString(n: ImageName): string
  {
    (if TruthyString(n.registry) then n.registry.value + "/" else "") + n.name + ":" + n.version
  }

  /** The Dockerfile path: what the configured finder yields for this
      invocation's project, `"Dockerfile"` when no finder is configured. */
  function DockerfilePath(hasDockerfileFinder: bool, found: string): string
  {
    if hasDockerfileFinder then found else "Dockerfile"
  }

  function BuildArgs(dockerfilePath: string, image: string): seq<string>
  {
    ["build", ".", "-f", dockerfilePath, "-t", image]
  }

  function PushArgs(image: string): seq<string>
  {
    ["push", image]
  }

  predicate IsAsciiAlnum(c: char)
  {
    'A' <= c <= 'Z' || 'a' <= c <= 'z' || '0' <= c <= '9'
  }

  /** `/[^A-Za-z0-9]/.test(t)` */
  predicate HasNonAlnum(t: string)
  {
    exists k :: 0 <= k < |t| && !IsAsciiAlnum(t[k])
  }

  /** `String(v)`: the text a regular expression tests when given `v`. */
  function JsText(v: Option<string>): string
  {
    if v.Some? then v.value else "undefined"
  }

  const PushConfigMessage := "Required configuration missing for pushing docker image. Please make sure to set 'registry', 'user' and 'password' in your configuration."
  const LinkFailedMessage := "Image link failed"

  /** The options as they stand at one moment. */
  datatype Settings = Settings(
    push: Option<bool>,
    registry: Option<string>,
    user: Option<string>,
    password: Option<string>,
    hasDockerfileFinder: bool)

  /** `DockerOptions`. Of the `dockerfileFinder` only whether one is
      configured is kept here; what it yields is an input of each invocation.
      Only `push` is ever assigned. */
  class DockerOptions {
    var push: Option<bool>
    const registry: Option<string>
    const user: Option<string>
    const password: Option<string>
    const hasDockerfileFinder: bool

    function State(): Settings
      reads this
    {
      Settings(push, registry, user, password, hasDockerfileFinder)
    }

    constructor (push: Option<bool>, registry: Option<string>, user: Option<string>, password: Option<string>, hasDockerfileFinder: bool)
      ensures State() == Settings(push, registry, user, password, hasDockerfileFinder)
    {
      this.push := push;
      this.registry := registry;
      this.user := user;
      this.password := password;
      this.hasDockerfileFinder := hasDockerfileFinder;
    }
  }

  /** Everything outside the pipeline, as results: each preparation's result,
      the image name, what the Dockerfile finder yields for the project (unused
      when none is configured), the results of the login, build and push
      processes, whether the SDM runs in local mode and whether the image link
      was posted. */
  datatype BuildInputs = BuildInputs(
    preparations: seq<GoalResult>,
    imageName: ImageName,
    dockerfileFound: string,
    loginResult: GoalResult,
    buildResult: GoalResult,
    pushResult: GoalResult,
    localMode: bool,
    linkPosted: bool)

  /** How the goal's promise ends. */
  datatype BuildOutcome = Returned(result: GoalResult) | ThrewTypeError

  /** One run: the outcome, the docker commands issued in order and `options.push` afterwards. */
  datatype BuildRun = BuildRun(outcome: BuildOutcome, commands: seq<seq<string>>, push: Option<bool>)

  /* ---------------- preparations ---------------- */

  /** The first preparation whose code is not 0. */
  function FirstFailing(results: seq<GoalResult>): (r: Option<nat>)
    ensures r.Some? ==> r.value < |results| && results[r.value].code != 0
    ensures r.Some? ==> forall k :: 0 <= k < r.value ==> results[k].code == 0
    ensures r.None? ==> forall k :: 0 <= k < |results| ==> results[k].code == 0
  {
    if results == [] then None
    else if results[0].code != 0 then Some(0)
    else
      match FirstFailing(results[1..])
      case None => None
      case Some(k) => Some(k + 1)
  }

  /* ---------------- login ---------------- */

  /** `docker login` arguments: the registry is appended when its text holds a
      character other than a letter or digit. */
  function LoginArgs(user: string, password: string, registry: Option<string>): seq<string>
  {
    ["login", "--username", user, "--password", password]
      + (if HasNonAlnum(JsText(registry)) then [JsText(registry)] else [])
  }

  /** `dockerLogin`: the commands it issues and its result. */
  function Login(s: Settings, loginResult: GoalResult): (seq<seq<string>>, GoalResult)
  {
    if TruthyString(s.user) && TruthyString(s.password) then
      ([LoginArgs(s.user.value, s.password.value, s.registry)], loginResult)
    else
      ([], Success)
  }

  /* ---------------- push ---------------- */

  /** `dockerPush` as written returns nothing when it skips the push; the
      corrected one returns `Success` there, as `dockerLogin` does. */
  datatype PushVariant = AsWritten | SkipIsSuccess

  /** Whether to push: an undefined `push` becomes "not in local mode". */
  function PushDecision(push: Option<bool>, localMode: bool): bool
  {
    if push.None? then !localMode else push.value
  }

  /** `dockerPush`: the commands it issues and its result, `None` for `undefined`. */
  function Push(v: PushVariant, s: Settings, image: string, localMode: bool, pushResult: GoalResult): (seq<seq<string>>, Option<GoalResult>)
  {
    if PushDecision(s.push, localMode) then
      if !TruthyString(s.user) || !TruthyString(s.password) then
        ([], Some(GoalResult(1, Some(PushConfigMessage), None)))
      else
        ([PushArgs(image)], Some(pushResult))
    else if v == AsWritten then ([], None)
    else ([], Some(Success))
  }

  /* ---------------- the pipeline ---------------- */

  /** Everything after the preparations. */
  function Steps(v: PushVariant, s: Settings, inputs: BuildInputs): BuildRun
  {
    var image := ImageString(inputs.imageName);
    var (loginCommands, loginResult) := Login(s, inputs.loginResult);
    if loginResult.code != 0 then BuildRun(Returned(loginResult), loginCommands, s.push)
    else
      var built := loginCommands + [BuildArgs(DockerfilePath(s.hasDockerfileFinder, inputs.dockerfileFound), image)];
      if inputs.buildResult.code != 0 then BuildRun(Returned(inputs.buildResult), built, s.push)
      else
        var (pushCommands, pushed) := Push(v, s, image, inputs.localMode, inputs.pushResult);
        var commands := built + pushCommands;
        var push := Some(PushDecision(s.push, inputs.localMode));
        match pushed
        case None => BuildRun(ThrewTypeError, commands, push)
        case Some(r) =>
          if r.code != 0 then BuildRun(Returned(r), commands, push)
          else if inputs.linkPosted then BuildRun(Returned(r), commands, push)
          else BuildRun(Returned(GoalResult(1, Some(LinkFailedMessage), None)), commands, push)
  }

  /** The whole goal. */
  function Pipeline(v: PushVariant, s: Settings, inputs: BuildInputs): BuildRun
  {
    match FirstFailing(inputs.preparations)
    case Some(k) => BuildRun(Returned(inputs.preparations[k]), [], s.push)
    case None => Steps(v, s, inputs)
  }

  /* ---------------- the imperative steps ---------------- */

  /** `dockerLogin`: builds the argument list, appending the registry when needed. */
  method DockerLogin(options: DockerOptions, loginResult: GoalResult)
    returns (commands: seq<seq<string>>, result: GoalResult)
    ensures (commands, result) == Login(options.State(), loginResult)
  {
    if TruthyString(options.user) && TruthyString(options.password) {
      var loginArgs := ["login", "--username", options.user.value, "--password", options.password.value];
      if HasNonAlnum(JsText(options.registry)) {
        loginArgs := loginArgs + [JsText(options.registry)];
      }
      assert loginArgs == LoginArgs(options.user.value, options.password.value, options.registry);
      commands, result := [loginArgs], loginResult;
    } else {
      commands, result := [], Success;
    }
  }

  /** `dockerPush`, corrected to return `Success` when it skips the push.
      Settles an undefined `options.push` first. */
  method DockerPush(options: DockerOptions, image: string, localMode: bool, pushResult: GoalResult)
    returns (commands: seq<seq<string>>, result: GoalResult)
    modifies options
    ensures options.push == Some(PushDecision(old(options.push), localMode))
    ensures (commands, Some(result)) == Push(SkipIsSuccess, old(options.State()), image, localMode, pushResult)
  {
    if options.push.None? {
      options.push := Some(!localMode);
    }
    if options.push.value {
      if !TruthyString(options.user) || !TruthyString(options.password) {
        commands, result := [], GoalResult(1, Some(PushConfigMessage), None);
        return;
      }
      commands, result := [PushArgs(image)], pushResult;
    } else {
      commands, result := [], Success;
    }
  }

  /** `executeDockerBuild`, with the corrected push step. */
  method ExecuteDockerBuild(options: DockerOptions, inputs: BuildInputs)
    returns (outcome: BuildOutcome, commands: seq<seq<string>>)
    modifies options
    ensures var run := Pipeline(SkipIsSuccess, old(options.State()), inputs);
            outcome == run.outcome && commands == run.commands && options.push == run.push
  {
    var preparations := inputs.preparations;
    var i := 0;
    while i < |preparations|
      invariant 0 <= i <= |preparations|
      invariant FirstFailing(preparations) == (if FirstFailing(preparations[i..]).Some? then Some(FirstFailing(preparations[i..]).value + i) else None)
    {
      if preparations[i].code != 0 {
        return Returned(preparations[i]), [];
      }
      assert preparations[i..][1..] == preparations[i + 1..];
      i := i + 1;
    }
    assert preparations[i..] == [];

    var image := ImageString(inputs.imageName);
    var dockerfilePath := DockerfilePath(options.hasDockerfileFinder, inputs.dockerfileFound);

    var result;
    commands, result := DockerLogin(options, inputs.loginResult);
    if result.code != 0 {
      return Returned(result), commands;
    }

    commands := commands + [BuildArgs(dockerfilePath, image)];
    result := inputs.buildResult;
    if result.code != 0 {
      return Returned(result), commands;
    }

    var pushCommands;
    pushCommands, result := DockerPush(options, image, inputs.localMode, inputs.pushResult);
    commands := commands + pushCommands;
    if result.code != 0 {
      return Returned(result), commands;
    }

    if inputs.linkPosted {
      outcome := Returned(result);
    } else {
      outcome := Returned(GoalResult(1, Some(LinkFailedMessage), None));
    }
  }

  /* ---------------- properties ---------------- */

  /** The first preparation that fails is the goal's result; no docker command
      runs and `options.push` is untouched. */
  lemma PreparationFailureStops(v: PushVariant, s: Settings, inputs: BuildInputs, k: nat)
    requires k < |inputs.preparations| && inputs.preparations[k].code != 0
    requires forall j :: 0 <= j < k ==> inputs.preparations[j].code == 0
    ensures Pipeline(v, s, inputs) == BuildRun(Returned(inputs.preparations[k]), [], s.push)
  {
  }


  /** Login runs only with both a truthy user and a truthy password; otherwise it
      issues nothing and counts as `Success`. */
  lemma LoginRunsIffCredentials(s: Settings, loginResult: GoalResult)
    ensures Login(s, loginResult).0 != [] <==> TruthyString(s.user) && TruthyString(s.password)
    ensures !(TruthyString(s.user) && TruthyString(s.password)) ==> Login(s, loginResult).1 == Success
    ensures TruthyString(s.user) && TruthyString(s.password) ==> Login(s, loginResult).1 == loginResult
  {
  }

  /** The login command starts with the user and the password, and carries the
      registry as a sixth argument exactly when the registry is defined and
      holds a character other than a letter or digit: an undefined registry
      reads as `"undefined"`, which never matches. */
  lemma {:induction false} LoginArgsRegistry(user: string, password: string, registry: Option<string>)
    ensures var a := LoginArgs(user, password, registry);
            && a[..5] == ["login", "--username", user, "--password", password]
            && (|a| == 6 <==> registry.Some? && HasNonAlnum(registry.value))
            && (|a| == 6 ==> a[5] == registry.value)
            && (|a| == 5 || |a| == 6)
  {
    var a := LoginArgs(user, password, registry);
    assert a[..5] == ["login", "--username", user, "--password", password];
    if registry.None? {
      forall k | 0 <= k < |"undefined"|
        ensures IsAsciiAlnum("undefined"[k])
      {
      }
    }
  }

  /** A failed login is the goal's result, after the preparations pass: only
      the login command was issued. */
  lemma LoginFailureStops(v: PushVariant, s: Settings, inputs: BuildInputs)
    requires FirstFailing(inputs.preparations).None?
    requires TruthyString(s.user) && TruthyString(s.password) && inputs.loginResult.code != 0
    ensures Pipeline(v, s, inputs)
         == BuildRun(Returned(inputs.loginResult), [LoginArgs(s.user.value, s.password.value, s.registry)], s.push)
  {
  }

  /** The build command is exactly `build . -f <path> -t <image>`, the path
      being `Dockerfile` unless a finder is configured; a failed build is the
      goal's result and nothing is pushed. */
  lemma BuildFailureStops(v: PushVariant, s: Settings, inputs: BuildInputs)
    requires FirstFailing(inputs.preparations).None? && Login(s, inputs.loginResult).1.code == 0
    requires inputs.buildResult.code != 0
    ensures var run := Pipeline(v, s, inputs);
            var path := if s.hasDockerfileFinder then inputs.dockerfileFound else "Dockerfile";
            && run.outcome == Returned(inputs.buildResult)
            && run.commands == Login(s, inputs.loginResult).0
                               + [["build", ".", "-f", path, "-t", ImageString(inputs.imageName)]]
            && run.push == s.push
  {
  }

  /** Once the pipeline reaches the push step, `options.push` is settled: an
      undefined value becomes "not in local mode", a defined one is kept. */
  lemma PushSettled(v: PushVariant, s: Settings, inputs: BuildInputs)
    requires FirstFailing(inputs.preparations).None? && Login(s, inputs.loginResult).1.code == 0
    requires inputs.buildResult.code == 0
    ensures Pipeline(v, s, inputs).push == Some(if s.push.None? then !inputs.localMode else s.push.value)
  {
  }

  /** A push that is due without both credentials fails with the configuration
      message, and no push command is issued. */
  lemma PushWithoutCredentials(v: PushVariant, s: Settings, inputs: BuildInputs)
    requires FirstFailing(inputs.preparations).None? && Login(s, inputs.loginResult).1.code == 0
    requires inputs.buildResult.code == 0 && PushDecision(s.push, inputs.localMode)
    requires !TruthyString(s.user) || !TruthyString(s.password)
    ensures var run := Pipeline(v, s, inputs);
            && run.outcome == Returned(GoalResult(1, Some(PushConfigMessage), None))
            && run.commands == [BuildArgs(DockerfilePath(s.hasDockerfileFinder, inputs.dockerfileFound), ImageString(inputs.imageName))]
  {
  }

  /** The goal succeeds exactly when every preparation, the login, the build
      and the push succeed and the image link is posted. */
  lemma SucceedsIff(s: Settings, inputs: BuildInputs)
    ensures var run := Pipeline(SkipIsSuccess, s, inputs);
            var pushed := Push(SkipIsSuccess, s, ImageString(inputs.imageName), inputs.localMode, inputs.pushResult).1;
            (run.outcome.Returned? && run.outcome.result.code == 0)
            <==> (&& FirstFailing(inputs.preparations).None?
                  && Login(s, inputs.loginResult).1.code == 0
                  && inputs.buildResult.code == 0
                  && pushed.Some? && pushed.value.code == 0
                  && inputs.linkPosted)
  {
  }

  /** After a successful push, an image link that is not posted fails the goal. */
  lemma LinkFailure(v: PushVariant, s: Settings, inputs: BuildInputs)
    requires FirstFailing(inputs.preparations).None? && Login(s, inputs.loginResult).1.code == 0
    requires inputs.buildResult.code == 0
    requires var pushed := Push(v, s, ImageString(inputs.imageName), inputs.localMode, inputs.pushResult).1;
             pushed.Some? && pushed.value.code == 0
    requires !inputs.linkPosted
    ensures Pipeline(v, s, inputs).outcome == Returned(GoalResult(1, Some(LinkFailedMessage), None))
  {
  }

  /** A `docker push` that runs decides the goal: a failed push is returned
      as it is, and so is a successful one once the image link is posted;
      the push command comes right after the build command. */
  lemma PushResultReturned(v: PushVariant, s: Settings, inputs: BuildInputs)
    requires FirstFailing(inputs.preparations).None? && Login(s, inputs.loginResult).1.code == 0
    requires inputs.buildResult.code == 0 && PushDecision(s.push, inputs.localMode)
    requires TruthyString(s.user) && TruthyString(s.password)
    requires inputs.pushResult.code != 0 || inputs.linkPosted
    ensures var run := Pipeline(v, s, inputs);
            && run.outcome == Returned(inputs.pushResult)
            && run.commands[|run.commands| - 1] == ["push", ImageString(inputs.imageName)]
            && run.commands[|run.commands| - 2][0] == "build"
  {
  }

  /** As written, a skipped push leaves `result` undefined and reading its
      `code` throws: once login and build pass, a goal that does not push can
      never succeed. */
  lemma SkippedPushThrows(s: Settings, inputs: BuildInputs)
    requires FirstFailing(inputs.preparations).None? && Login(s, inputs.loginResult).1.code == 0
    requires inputs.buildResult.code == 0 && !PushDecision(s.push, inputs.localMode)
    ensures Pipeline(AsWritten, s, inputs).outcome == ThrewTypeError
  {
  }

  /** A concrete case: local mode, no credentials, everything else passing. */
  lemma LocalModeBuildThrows()
    ensures var inputs := BuildInputs([], ImageName(None, "app", "1.0.0"), "", Success, Success, Success, true, true);
            Pipeline(AsWritten, Settings(None, None, None, None, false), inputs).outcome == ThrewTypeError
  {
  }

  /** Corrected, a skipped push lets the goal go on to the image link and succeed. */
  lemma SkippedPushSucceeds(s: Settings, inputs: BuildInputs)
    requires FirstFailing(inputs.preparations).None? && Login(s, inputs.loginResult).1.code == 0
    requires inputs.buildResult.code == 0 && !PushDecision(s.push, inputs.localMode)
    requires inputs.linkPosted
    ensures Pipeline(SkipIsSuccess, s, inputs).outcome == Returned(Success)
  {
  }

  /** The correction changes nothing but the skipped push. */
  lemma VariantsAgreeUnlessSkipped(s: Settings, inputs: BuildInputs)
    requires PushDecision(s.push, inputs.localMode)
          || FirstFailing(inputs.preparations).Some?
          || Login(s, inputs.loginResult).1.code != 0
          || inputs.buildResult.code != 0
    ensures Pipeline(AsWritten, s, inputs) == Pipeline(SkipIsSuccess, s, inputs)
  {
  }

  /** The image tag is the text of the image reference it names, so a tag
      built from well-formed parts reads back as those parts. */
  lemma ImageStringRoundTrip(n: ImageName)
    requires var image := DockerBuildFile.DockerImage(if TruthyString(n.registry) then n.registry else None, n.name, Some(n.version));
             DockerBuildFile.WellFormed(image)
    ensures var image := DockerBuildFile.DockerImage(if TruthyString(n.registry) then n.registry else None, n.name, Some(n.version));
            DockerBuildFile.ParseImageRef(ImageString(n)) == Some((image, |ImageString(n)|))
  {
    var image := DockerBuildFile.DockerImage(if TruthyString(n.registry) then n.registry else None, n.name, Some(n.version));
    assert ImageString(n) == DockerBuildFile.Render(image);
    DockerBuildFile.ImageRefRoundTrip(image);
  }
}
