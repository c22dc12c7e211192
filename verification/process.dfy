/** `BrewProcess` and `BrewCommand`: how a brew invocation is planned. The
    process itself is not run here; its outcome is a parameter. */
module Process {
  import opened Wrappers
  import opened BrewResults
  import Locator

  /** The launcher used when no brew binary is known. */
  const EnvLauncher := "/usr/bin/env"

  type Environment = map<string, string>

  /** A `BrewProcess`: the brew path it settled on at construction and the
      extra environment it was given. */
  datatype BrewProcess = BrewProcess(brewPath: string, environment: Option<Environment>)

  /** What is handed to the operating system. */
  datatype Invocation = Invocation(executable: string, arguments: seq<string>, environment: Environment)

  /** What came back from the operating system: the process could not be
      launched, or it exited with a status and two output streams, each
      `None` when it is not valid UTF-8. */
  datatype Outcome =
    | FailedToLaunch(reason: string)
    | Exited(stdout: Option<string>, stderr: Option<string>, status: int32)

  /** `init(brewPath:environment:)`: the explicit path, else the located
      one, else the `env` launcher. */
  function Init(brewPath: Option<string>, environment: Option<Environment>, host: Locator.Host): (p: BrewProcess)
    ensures p.environment == environment
    ensures brewPath.Some? ==> p.brewPath == brewPath.value
    ensures brewPath.None? && Locator.Locate(host).Some? ==> p.brewPath == Locator.Locate(host).value.path
    ensures brewPath.None? && Locator.Locate(host).None? ==> p.brewPath == EnvLauncher
  {
    var path :=
      if brewPath.Some? then brewPath.value
      else match Locator.Locate(host)
        case Some(located) => located.path
        case None => EnvLauncher;
    BrewProcess(path, environment)
  }

  /** `env.merge(additionalEnv) { _, new in new }`. */
  function Merge(ambient: Environment, additional: Environment): (e: Environment)
    ensures e.Keys == ambient.Keys + additional.Keys
    ensures forall k :: k in additional ==> e[k] == additional[k]
    ensures forall k :: k in ambient && k !in additional ==> e[k] == ambient[k]
  {
    ambient + additional
  }

  /** The environment a run uses: the ambient one, overlaid with the
      per-call environment when given, else with the one from `init`. */
  function RunEnvironment(p: BrewProcess, ambient: Environment, callEnvironment: Option<Environment>): (e: Environment)
    ensures callEnvironment.Some? ==> e == Merge(ambient, callEnvironment.value)
    ensures callEnvironment.None? && p.environment.Some? ==> e == Merge(ambient, p.environment.value)
    ensures callEnvironment.None? && p.environment.None? ==> e == ambient
  {
    match (if callEnvironment.Some? then callEnvironment else p.environment)
    case Some(additional) => Merge(ambient, additional)
    case None => ambient
  }

  /** What `run(_:environment:)` launches. With the `env` launcher the
      word `brew` is put in front of the arguments. */
  function Plan(p: BrewProcess, args: seq<string>, ambient: Environment, callEnvironment: Option<Environment>): (inv: Invocation)
    ensures inv.executable == p.brewPath
    ensures p.brewPath == EnvLauncher ==> inv.arguments == ["brew"] + args
    ensures p.brewPath != EnvLauncher ==> inv.arguments == args
    ensures inv.environment == RunEnvironment(p, ambient, callEnvironment)
  {
    var arguments := if p.brewPath == EnvLauncher then ["brew"] + args else args;
    Invocation(p.brewPath, arguments, RunEnvironment(p, ambient, callEnvironment))
  }

  /** The outcome of running `Plan(...)`: a launch failure is thrown, any
      exit status is returned, and an undecodable stream reads as empty. */
  function Run(o: Outcome): (r: Result<BrewResult, string>)
    ensures r.Err? <==> o.FailedToLaunch?
    ensures r.Err? ==> r.error == o.reason
    ensures r.Ok? ==> r.value.exitCode == o.status
    ensures r.Ok? ==> r.value.stdout == o.stdout.GetOr("") && r.value.stderr == o.stderr.GetOr("")
  {
    match o
    case FailedToLaunch(reason) => Err(reason)
    case Exited(stdout, stderr, status) => Ok(BrewResult(stdout.GetOr(""), stderr.GetOr(""), status))
  }

  /** `BrewCommand.run(_:env:)`: a fresh located process given `env` both
      at construction and per call. */
  function CommandProcess(env: Option<Environment>, host: Locator.Host): BrewProcess {
    Init(None, env, host)
  }

  /** The arguments handed over always end with the caller's, and differ
      from them only by the `brew` word in front for the `env` launcher. */
  lemma ArgumentsEndWithCallersArgs(p: BrewProcess, args: seq<string>, ambient: Environment, callEnvironment: Option<Environment>)
    ensures var inv := Plan(p, args, ambient, callEnvironment);
      && |inv.arguments| - |args| in {0, 1}
      && inv.arguments[|inv.arguments| - |args|..] == args
      && (|inv.arguments| == |args| + 1 ==> inv.arguments[0] == "brew" && inv.executable == EnvLauncher)
  {
    var inv := Plan(p, args, ambient, callEnvironment);
    if p.brewPath == EnvLauncher {
      assert inv.arguments[1..] == args;
    } else {
      assert inv.arguments[0..] == args;
    }
  }

  /** A per-call environment wins over the one from `init`, and both
      overrides win over the ambient environment. */
  lemma CallEnvironmentWins(p: BrewProcess, ambient: Environment, callEnvironment: Environment, k: string)
    requires k in callEnvironment
    ensures RunEnvironment(p, ambient, Some(callEnvironment))[k] == callEnvironment[k]
  {
  }

  /** A variable no override names keeps its ambient value. */
  lemma AmbientKept(p: BrewProcess, ambient: Environment, callEnvironment: Option<Environment>, k: string)
    requires k in ambient
    requires callEnvironment.Some? ==> k !in callEnvironment.value
    requires callEnvironment.None? && p.environment.Some? ==> k !in p.environment.value
    ensures RunEnvironment(p, ambient, callEnvironment)[k] == ambient[k]
  {
  }

  /** `BrewCommand.run` launches the located brew, or `env brew` when
      none is located, with `env` laid over the ambient environment. */
  lemma CommandRunPlan(env: Option<Environment>, host: Locator.Host, args: seq<string>, ambient: Environment)
    ensures var inv := Plan(CommandProcess(env, host), args, ambient, env);
      && inv.environment == (if env.Some? then ambient + env.value else ambient)
      && (Locator.Locate(host).Some? ==> inv.executable == Locator.Locate(host).value.path)
      && (Locator.Locate(host).None? ==> inv.executable == EnvLauncher && inv.arguments == ["brew"] + args)
  {
  }
}
