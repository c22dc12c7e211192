/** `BrewManager`: the coordinator that turns brew's output into published
    application state. Each public operation is a step from one state to
    the next. What the outside world did during the step is an input: the
    outcome of the cache read, of running brew, of parsing its standard
    output as JSON, and of the cache write. The cache requests and the
    intermediate list publications are returned as a trace of effects. */
module Manager {
  import opened Wrappers
  import opened BrewResults
  import opened Json
  import opened Models
  import Cache
  import Locator
  import Process

  /** The published properties of a `BrewManager`, plus the process it
      was built with. */
  datatype ManagerState = ManagerState(
    installedPackages: seq<Package>,
    outdatedPackages: seq<Package>,
    taps: seq<Tap>,
    searchResults: seq<Package>,
    isLoading: bool,
    errorMessage: Option<string>,
    isBrewAvailable: bool,
    brewPath: Option<string>,
    process: Process.BrewProcess)

  /** What a step asks of the outside world, or shows, in order. */
  datatype Effect<R, L> =
    | LoadCache(key: Cache.CacheKey)
    | RunBrew(args: seq<string>)
    | SaveCache(key: Cache.CacheKey, response: R)
    | Publish(list: L)

  /** A step of a refresh or search: the new state and what it did. */
  datatype Transition<R, L> = Transition(state: ManagerState, effects: seq<Effect<R, L>>)

  type PackageEffect = Effect<PackageResponse, seq<Package>>

  // ---------------------------------------------------------------------
  // Messages.

  const NotAvailableText := "Homebrew is not available"
  const InstalledPrefix := "Failed to load installed packages: "
  const OutdatedPrefix := "Failed to load outdated packages: "
  const TapsPrefix := "Failed to load taps: "
  const SearchPrefix := "Failed to search packages: "

  /** The description Foundation gives a decoding error. */
  function DecodeErrorText(e: DecodeError): string {
    match e
    case TypeMismatch(_) => "The data couldn\U{2019}t be read because it isn\U{2019}t in the correct format."
    case _ => "The data couldn\U{2019}t be read because it is missing."
  }

  // ---------------------------------------------------------------------
  // Construction.

  /** `init(brewPath:cacheDirectory:)`: an explicit path is available when
      it exists, a located one always is, and with neither there is no
      path and the process falls back to the `env` launcher. */
  function InitManager(brewPath: Option<string>, host: Locator.Host): (s: ManagerState)
    ensures s.installedPackages == [] && s.outdatedPackages == [] && s.taps == [] && s.searchResults == []
    ensures !s.isLoading && s.errorMessage.None?
    ensures brewPath.Some? ==>
      && s.brewPath == brewPath && s.process.brewPath == brewPath.value
      && (s.isBrewAvailable <==> brewPath.value in host.existing)
    ensures brewPath.None? ==> (s.isBrewAvailable <==> Locator.Locate(host).Some?)
    ensures brewPath.None? && Locator.Locate(host).Some? ==>
      s.brewPath == Some(Locator.Locate(host).value.path) && s.process.brewPath == s.brewPath.value
    ensures brewPath.None? && Locator.Locate(host).None? ==>
      s.brewPath.None? && s.process.brewPath == Process.EnvLauncher
    ensures s.process.environment.None?
  {
    var initial := ManagerState([], [], [], [], false, None, false, None, Process.Init(None, None, host));
    if brewPath.Some? then
      initial.(brewPath := brewPath, process := Process.Init(brewPath, None, host),
        isBrewAvailable := brewPath.value in host.existing)
    else match Locator.Locate(host)
      case Some(located) =>
        initial.(brewPath := Some(located.path), process := Process.Init(Some(located.path), None, host),
          isBrewAvailable := true)
      case None => initial
  }

  // ---------------------------------------------------------------------
  // `updateInstalledPackages(from:)` / `updateOutdatedPackages(from:)`.

  function MapFormulae(fs: seq<Formula>): (ps: seq<Package>)
    ensures |ps| == |fs|
    ensures forall i :: 0 <= i < |fs| ==> ps[i] == FromFormula(fs[i])
  {
    if |fs| == 0 then [] else [FromFormula(fs[0])] + MapFormulae(fs[1..])
  }

  function MapCasks(cs: seq<Cask>): (ps: seq<Package>)
    ensures |ps| == |cs|
    ensures forall i :: 0 <= i < |cs| ==> ps[i] == FromCask(cs[i])
  {
    if |cs| == 0 then [] else [FromCask(cs[0])] + MapCasks(cs[1..])
  }

  function Section<T>(s: Option<seq<T>>): seq<T> {
    s.GetOr([])
  }

  /** The package list a response publishes: its formulae, then its casks,
      each mapped in order; an absent section adds nothing. */
  function Packages(resp: PackageResponse): (ps: seq<Package>)
    ensures |ps| == |Section(resp.formulae)| + |Section(resp.casks)|
    ensures forall i :: 0 <= i < |Section(resp.formulae)| ==>
      ps[i] == FromFormula(Section(resp.formulae)[i])
    ensures forall i :: 0 <= i < |Section(resp.casks)| ==>
      ps[|Section(resp.formulae)| + i] == FromCask(Section(resp.casks)[i])
  {
    MapFormulae(Section(resp.formulae)) + MapCasks(Section(resp.casks))
  }

  function TapList(resp: TapResponse): seq<Tap> {
    resp.taps
  }

  // ---------------------------------------------------------------------
  // The shared shape of the three refreshes.

  /** What the outside world did during one refresh. `cached` is what the
      cache read gave (`Unreadable` is a thrown error), `run` the outcome
      of launching brew (`Err` is a thrown error), `parsed` the standard
      output read as JSON (`Err` is the parse error's description) and
      `saveFailure` the description of the error the cache write threw,
      if it threw. */
  datatype FetchInputs<R> = FetchInputs(
    cached: Cache.Loaded<R>,
    run: Result<BrewResult, string>,
    parsed: Result<JVal, string>,
    saveFailure: Option<string>)

  /** What a refresh leaves behind: the list, the error message and the trace. */
  datatype Flow<R, L> = Flow(list: L, errorMessage: Option<string>, effects: seq<Effect<R, L>>)

  /** `JSONDecoder().decode(_:from:)` on brew's standard output. */
  function DecodeOutput<R>(parsed: Result<JVal, string>, decode: JVal -> Result<R, DecodeError>): (r: Result<R, string>)
    ensures r.Ok? <==> parsed.Ok? && decode(parsed.value).Ok?
    ensures r.Ok? ==> r.value == decode(parsed.value).value
  {
    match parsed
    case Err(description) => Err(description)
    case Ok(v) =>
      match decode(v)
      case Err(e) => Err(DecodeErrorText(e))
      case Ok(resp) => Ok(resp)
  }

  /** The response a refresh receives from brew when the run succeeds with
      exit status zero and its output decodes. */
  function Fresh<R>(inputs: FetchInputs<R>, decode: JVal -> Result<R, DecodeError>): Option<R> {
    if inputs.run.Ok? && IsSuccess(inputs.run.value) && DecodeOutput(inputs.parsed, decode).Ok?
    then Some(DecodeOutput(inputs.parsed, decode).value)
    else None
  }

  /** The list after the cache read: the cached one on a hit, else the old one. */
  function AfterCache<R, L>(list: L, cached: Cache.Loaded<R>, toList: R -> L): L {
    if cached.Found? then toList(cached.value) else list
  }

  /** The body of `refreshInstalledPackages` and its siblings, after the
      availability guard: read the cache and publish a hit, run brew, and
      on success decode, save and publish. Any thrown error ends the
      refresh with `prefix` and the error's description; a non-zero exit
      ends it with the result's `errorMessage`. */
  function ReadFlow<R, L>(
    key: Cache.CacheKey, args: seq<string>, prefix: string,
    list: L, decode: JVal -> Result<R, DecodeError>, toList: R -> L,
    inputs: FetchInputs<R>): (f: Flow<R, L>)
    ensures inputs.cached.Unreadable? ==>
      f == Flow(list, Some(prefix + inputs.cached.reason), [LoadCache(key)])
    ensures !inputs.cached.Unreadable? ==>
      && |f.effects| >= 2
      && f.effects[0] == LoadCache(key)
      && (inputs.cached.Found? <==> f.effects[1].Publish?)
      && (inputs.cached.Found? ==> f.effects[1] == Publish(toList(inputs.cached.value)))
      && RunBrew(args) in f.effects
    ensures (f.errorMessage.None? <==> !inputs.cached.Unreadable? && Fresh(inputs, decode).Some? && inputs.saveFailure.None?)
    ensures f.errorMessage.None? ==>
      && f.list == toList(Fresh(inputs, decode).value)
      && f.effects[|f.effects| - 2..] == [SaveCache(key, Fresh(inputs, decode).value), Publish(f.list)]
    ensures f.errorMessage.Some? ==> f.list == AfterCache(list, inputs.cached, toList)
    ensures !inputs.cached.Unreadable? && Fresh(inputs, decode).Some? ==>
      SaveCache(key, Fresh(inputs, decode).value) in f.effects
    ensures inputs.cached.Unreadable? || Fresh(inputs, decode).None? ==>
      forall e :: e in f.effects ==> !e.SaveCache?
    ensures !inputs.cached.Unreadable? && inputs.run.Ok? && !IsSuccess(inputs.run.value) ==>
      f.errorMessage == Some(ErrorMessage(inputs.run.value))
  {
    match inputs.cached
    case Unreadable(reason) => Flow(list, Some(prefix + reason), [LoadCache(key)])
    case _ =>
      var shown := AfterCache(list, inputs.cached, toList);
      var ran := [LoadCache(key)] + (if inputs.cached.Found? then [Publish(shown)] else []) + [RunBrew(args)];
      match inputs.run
      case Err(reason) => Flow(shown, Some(prefix + reason), ran)
      case Ok(result) =>
        if !IsSuccess(result) then Flow(shown, Some(ErrorMessage(result)), ran)
        else
          match DecodeOutput(inputs.parsed, decode)
          case Err(reason) => Flow(shown, Some(prefix + reason), ran)
          case Ok(resp) =>
            match inputs.saveFailure
            case Some(reason) => Flow(shown, Some(prefix + reason), ran + [SaveCache(key, resp)])
            case None => Flow(toList(resp), None, ran + [SaveCache(key, resp), Publish(toList(resp))])
  }

  /** The decoder used for `BrewListResponse` and `BrewInfoResponse`. */
  function DecodeListResponse(v: JVal): Result<PackageResponse, DecodeError> {
    DecodePackageResponse(v, DecodeCask)
  }

  /** The decoder `load(BrewListResponse.self, forKey:)` applies to a
      cached document; a failure is thrown with its description. */
  function DecodeCachedList(v: JVal): Result<PackageResponse, string> {
    DecodeOutput(Ok(v), DecodeListResponse)
  }

  /** The state a refresh leaves behind when brew is available: only the
      refreshed list and the error message may change, and loading is over. */
  function Settle(s: ManagerState, errorMessage: Option<string>): ManagerState {
    s.(errorMessage := errorMessage, isLoading := false)
  }

  /** `refreshInstalledPackages()`. */
  function RefreshInstalled(s: ManagerState, inputs: FetchInputs<PackageResponse>): (t: Transition<PackageResponse, seq<Package>>)
    ensures !s.isBrewAvailable ==> t == Transition(s.(errorMessage := Some(NotAvailableText)), [])
    ensures s.isBrewAvailable ==>
      && t.state == Settle(s, t.state.errorMessage).(installedPackages := t.state.installedPackages)
      && |t.effects| >= 1 && t.effects[0] == LoadCache(Cache.InstalledFormulae)
      && (inputs.cached.Unreadable? || RunBrew(["list", "--json=v2"]) in t.effects)
    ensures s.isBrewAvailable && Fresh(inputs, DecodeListResponse).Some? && !inputs.cached.Unreadable? && inputs.saveFailure.None? ==>
      t.state.installedPackages == Packages(Fresh(inputs, DecodeListResponse).value) && t.state.errorMessage.None?
  {
    if !s.isBrewAvailable then Transition(s.(errorMessage := Some(NotAvailableText)), [])
    else
      var f := ReadFlow(Cache.InstalledFormulae, ["list", "--json=v2"], InstalledPrefix,
        s.installedPackages, DecodeListResponse, Packages, inputs);
      Transition(Settle(s, f.errorMessage).(installedPackages := f.list), f.effects)
  }

  /** `refreshOutdatedPackages()`. */
  function RefreshOutdated(s: ManagerState, inputs: FetchInputs<PackageResponse>): (t: Transition<PackageResponse, seq<Package>>)
    ensures !s.isBrewAvailable ==> t == Transition(s.(errorMessage := Some(NotAvailableText)), [])
    ensures s.isBrewAvailable ==>
      && t.state == Settle(s, t.state.errorMessage).(outdatedPackages := t.state.outdatedPackages)
      && |t.effects| >= 1 && t.effects[0] == LoadCache(Cache.OutdatedFormulae)
      && (inputs.cached.Unreadable? || RunBrew(["outdated", "--json=v2"]) in t.effects)
    ensures s.isBrewAvailable && Fresh(inputs, DecodeListResponse).Some? && !inputs.cached.Unreadable? && inputs.saveFailure.None? ==>
      t.state.outdatedPackages == Packages(Fresh(inputs, DecodeListResponse).value) && t.state.errorMessage.None?
  {
    if !s.isBrewAvailable then Transition(s.(errorMessage := Some(NotAvailableText)), [])
    else
      var f := ReadFlow(Cache.OutdatedFormulae, ["outdated", "--json=v2"], OutdatedPrefix,
        s.outdatedPackages, DecodeListResponse, Packages, inputs);
      Transition(Settle(s, f.errorMessage).(outdatedPackages := f.list), f.effects)
  }

  /** `refreshTaps()`. */
  function RefreshTaps(s: ManagerState, inputs: FetchInputs<TapResponse>): (t: Transition<TapResponse, seq<Tap>>)
    ensures !s.isBrewAvailable ==> t == Transition(s.(errorMessage := Some(NotAvailableText)), [])
    ensures s.isBrewAvailable ==>
      && t.state == Settle(s, t.state.errorMessage).(taps := t.state.taps)
      && |t.effects| >= 1 && t.effects[0] == LoadCache(Cache.Taps)
      && (inputs.cached.Unreadable? || RunBrew(["tap", "--json"]) in t.effects)
    ensures s.isBrewAvailable && Fresh(inputs, DecodeTapResponse).Some? && !inputs.cached.Unreadable? && inputs.saveFailure.None? ==>
      t.state.taps == Fresh(inputs, DecodeTapResponse).value.taps && t.state.errorMessage.None?
  {
    if !s.isBrewAvailable then Transition(s.(errorMessage := Some(NotAvailableText)), [])
    else
      var f := ReadFlow(Cache.Taps, ["tap", "--json"], TapsPrefix, s.taps, DecodeTapResponse, TapList, inputs);
      Transition(Settle(s, f.errorMessage).(taps := f.list), f.effects)
  }

  // ---------------------------------------------------------------------
  // Search.

  /** What the outside world did during a search. */
  datatype SearchInputs = SearchInputs(run: Result<BrewResult, string>, parsed: Result<JVal, string>)

  function SearchArgs(query: string): seq<string> {
    ["search", "--json=v2", query]
  }

  /** `search(_:)`. Results are replaced by the decoded packages on
      success and cleared on every failure; the cache is not used. */
  function Search(s: ManagerState, query: string, inputs: SearchInputs): (t: Transition<PackageResponse, seq<Package>>)
    ensures !s.isBrewAvailable || query == "" ==> t == Transition(s.(searchResults := []), [])
    ensures s.isBrewAvailable && query != "" ==>
      && t.effects == [RunBrew(SearchArgs(query))]
      // Only the results, the error and the loading flag change.
      && t.state == Settle(s, t.state.errorMessage).(searchResults := t.state.searchResults)
    ensures t.state.errorMessage.Some? ==> t.state.searchResults == []
    ensures s.isBrewAvailable && query != "" ==>
      (t.state.errorMessage.None? <==>
        inputs.run.Ok? && IsSuccess(inputs.run.value) && DecodeOutput(inputs.parsed, DecodeListResponse).Ok?)
    ensures s.isBrewAvailable && query != "" && t.state.errorMessage.None? ==>
      t.state.searchResults == Packages(DecodeOutput(inputs.parsed, DecodeListResponse).value)
  {
    if !s.isBrewAvailable || query == "" then Transition(s.(searchResults := []), [])
    else
      var ran := [RunBrew(SearchArgs(query))];
      match inputs.run
      case Err(reason) =>
        Transition(Settle(s, Some(SearchPrefix + reason)).(searchResults := []), ran)
      case Ok(result) =>
        if !IsSuccess(result) then
          Transition(Settle(s, Some(ErrorMessage(result))).(searchResults := []), ran)
        else
          match DecodeOutput(inputs.parsed, DecodeListResponse)
          case Err(reason) => Transition(Settle(s, Some(SearchPrefix + reason)).(searchResults := []), ran)
          case Ok(resp) => Transition(Settle(s, None).(searchResults := Packages(resp)), ran)
  }

  // ---------------------------------------------------------------------
  // Mutations.

  /** `BrewManagerError`. */
  datatype ManagerError =
    | BrewNotAvailable
    | InstallationFailed(stderr: string)
    | UninstallationFailed(stderr: string)
    | UpgradeFailed(stderr: string)
    | UpdateFailed(stderr: string)

  /** `errorDescription`: a fixed text when brew is missing, otherwise a
      label for the failed verb followed by brew's standard error as is. */
  function ErrorDescription(e: ManagerError): (d: string)
    ensures e.BrewNotAvailable? ==> d == NotAvailableText
    ensures !e.BrewNotAvailable? ==> |d| > |e.stderr| && d[|d| - |e.stderr|..] == e.stderr
  {
    match e
    case BrewNotAvailable => NotAvailableText
    case InstallationFailed(stderr) => "Installation failed: " + stderr
    case UninstallationFailed(stderr) => "Uninstallation failed: " + stderr
    case UpgradeFailed(stderr) => "Upgrade failed: " + stderr
    case UpdateFailed(stderr) => "Update failed: " + stderr
  }

  /** What a mutation throws: one of its own errors, or the error that
      launching brew threw (its description). */
  datatype Thrown = Failure(error: ManagerError) | LaunchFailure(description: string)

  /** The five mutating operations. */
  datatype Mutation =
    | Install(package: Package)
    | Uninstall(package: Package)
    | Upgrade(package: Package)
    | UpgradeAll
    | Update

  /** The argument list of install, uninstall and upgrade. */
  function PackageArgs(verb: string, p: Package): (args: seq<string>)
    ensures |args| == if p.kind == CaskKind then 3 else 2
    ensures args[0] == verb && args[|args| - 1] == p.fullName
    ensures p.kind == CaskKind ==> args[1] == "--cask"
  {
    [verb] + (if p.kind == CaskKind then ["--cask"] else []) + [p.fullName]
  }

  function MutationArgs(m: Mutation): seq<string> {
    match m
    case Install(p) => PackageArgs("install", p)
    case Uninstall(p) => PackageArgs("uninstall", p)
    case Upgrade(p) => PackageArgs("upgrade", p)
    case UpgradeAll => ["upgrade"]
    case Update => ["update"]
  }

  /** The error a non-zero exit throws, carrying brew's standard error unchanged. */
  function ExitFailure(m: Mutation, stderr: string): ManagerError {
    match m
    case Install(_) => InstallationFailed(stderr)
    case Uninstall(_) => UninstallationFailed(stderr)
    case Upgrade(_) => UpgradeFailed(stderr)
    case UpgradeAll => UpgradeFailed(stderr)
    case Update => UpdateFailed(stderr)
  }

  /** Which lists a successful mutation refreshes, in order. */
  function RefreshesInstalled(m: Mutation): bool {
    !m.Update?
  }

  function RefreshesOutdated(m: Mutation): bool {
    m.Upgrade? || m.UpgradeAll?
  }

  /** What the outside world did during a mutation: the run of the
      mutating command and of the refreshes that follow it. */
  datatype MutationInputs = MutationInputs(
    run: Result<BrewResult, string>,
    installed: FetchInputs<PackageResponse>,
    outdated: FetchInputs<PackageResponse>)

  /** The state after a mutation, its trace and what it threw. */
  datatype MutationStep = MutationStep(state: ManagerState, effects: seq<PackageEffect>, thrown: Option<Thrown>)

  /** `install(_:)`, `uninstall(_:)`, `upgrade(_:)`, `upgradeAll()` and `update()`. */
  function Mutate(s: ManagerState, m: Mutation, inputs: MutationInputs): (r: MutationStep)
    ensures !s.isBrewAvailable ==> r == MutationStep(s, [], Some(Failure(BrewNotAvailable)))
    ensures s.isBrewAvailable ==> |r.effects| >= 1 && r.effects[0] == RunBrew(MutationArgs(m))
    ensures s.isBrewAvailable && inputs.run.Err? ==>
      r == MutationStep(s, [RunBrew(MutationArgs(m))], Some(LaunchFailure(inputs.run.error)))
    ensures s.isBrewAvailable && inputs.run.Ok? && !IsSuccess(inputs.run.value) ==>
      r == MutationStep(s, [RunBrew(MutationArgs(m))], Some(Failure(ExitFailure(m, inputs.run.value.stderr))))
    ensures r.thrown.None? <==> s.isBrewAvailable && inputs.run.Ok? && IsSuccess(inputs.run.value)
  {
    if !s.isBrewAvailable then MutationStep(s, [], Some(Failure(BrewNotAvailable)))
    else
      var ran: seq<PackageEffect> := [RunBrew(MutationArgs(m))];
      match inputs.run
      case Err(reason) => MutationStep(s, ran, Some(LaunchFailure(reason)))
      case Ok(result) =>
        if !IsSuccess(result) then MutationStep(s, ran, Some(Failure(ExitFailure(m, result.stderr))))
        else
          var afterInstalled :=
            if RefreshesInstalled(m) then RefreshInstalled(s, inputs.installed) else Transition(s, []);
          var afterOutdated :=
            if RefreshesOutdated(m) then RefreshOutdated(afterInstalled.state, inputs.outdated)
            else Transition(afterInstalled.state, []);
          MutationStep(afterOutdated.state, ran + afterInstalled.effects + afterOutdated.effects, None)
  }
}

/** Properties of the coordinator. */
module ManagerProperties {
  import opened Wrappers
  import opened BrewResults
  import opened Json
  import opened Models
  import opened Manager
  import Cache
  import ModelProperties

  /** A package is published from a response exactly when it is the
      package of one of its formulae or of one of its casks. */
  lemma PackagesMembers(resp: PackageResponse, p: Package)
    ensures p in Packages(resp) <==>
      || (exists f :: f in Section(resp.formulae) && p == FromFormula(f))
      || (exists c :: c in Section(resp.casks) && p == FromCask(c))
  {
    var fs, cs := Section(resp.formulae), Section(resp.casks);
    assert Packages(resp) == MapFormulae(fs) + MapCasks(cs);
    MappedFormulaMembers(fs, p);
    MappedCaskMembers(cs, p);
  }

  lemma MappedFormulaMembers(fs: seq<Formula>, p: Package)
    ensures p in MapFormulae(fs) <==> exists f :: f in fs && p == FromFormula(f)
  {
    var ps := MapFormulae(fs);
    if p in ps {
      var k :| 0 <= k < |ps| && ps[k] == p;
      assert fs[k] in fs;
    }
    if f :| f in fs && p == FromFormula(f) {
      var k :| 0 <= k < |fs| && fs[k] == f;
      assert ps[k] == p;
    }
  }

  lemma MappedCaskMembers(cs: seq<Cask>, p: Package)
    ensures p in MapCasks(cs) <==> exists c :: c in cs && p == FromCask(c)
  {
    var ps := MapCasks(cs);
    if p in ps {
      var k :| 0 <= k < |ps| && ps[k] == p;
      assert cs[k] in cs;
    }
    if c :| c in cs && p == FromCask(c) {
      var k :| 0 <= k < |cs| && cs[k] == c;
      assert ps[k] == p;
    }
  }

  /** Every formula of a published list precedes every cask. */
  lemma FormulaeBeforeCasks(resp: PackageResponse, i: int, j: int)
    requires 0 <= i < j < |Packages(resp)|
    requires Packages(resp)[j].kind == FormulaKind
    ensures Packages(resp)[i].kind == FormulaKind
  {
  }

  /** With the cache unreadable, brew is never run and nothing is saved. */
  lemma CacheFailureSkipsRun(s: ManagerState, inputs: FetchInputs<PackageResponse>)
    requires s.isBrewAvailable && inputs.cached.Unreadable?
    ensures var t := RefreshInstalled(s, inputs);
      && t.effects == [LoadCache(Cache.InstalledFormulae)]
      && t.state == s.(errorMessage := Some(InstalledPrefix + inputs.cached.reason), isLoading := false)
  {
  }

  /** On a cache hit and a successful run the list is published twice:
      first as cached, then as latest, and the latest response is saved in
      between. The final list is the latest one, never a mix. */
  lemma CacheHitThenFresh(s: ManagerState, inputs: FetchInputs<PackageResponse>, cached: PackageResponse, latest: PackageResponse)
    requires s.isBrewAvailable && inputs.cached == Cache.Found(cached) && inputs.saveFailure.None?
    requires Fresh(inputs, DecodeListResponse) == Some(latest)
    ensures var t := RefreshInstalled(s, inputs);
      && t.effects == [LoadCache(Cache.InstalledFormulae), Publish(Packages(cached)),
                       RunBrew(["list", "--json=v2"]), SaveCache(Cache.InstalledFormulae, latest),
                       Publish(Packages(latest))]
      && t.state.installedPackages == Packages(latest)
      && t.state.errorMessage.None? && !t.state.isLoading
  {
    ReadFlowSucceeds(Cache.InstalledFormulae, ["list", "--json=v2"], InstalledPrefix,
      s.installedPackages, DecodeListResponse, Packages, inputs, latest);
    FiveEffects(LoadCache(Cache.InstalledFormulae), Publish(Packages(cached)),
      RunBrew(["list", "--json=v2"]), SaveCache(Cache.InstalledFormulae, latest), Publish(Packages(latest)));
  }

  /** The whole trace of a refresh whose run, decoding and cache write all
      succeed: the cache read, a publication of any hit, the run, the
      write and the publication of the fresh list. */
  lemma ReadFlowSucceeds<R, L>(
    key: Cache.CacheKey, args: seq<string>, prefix: string,
    list: L, decode: JVal -> Result<R, DecodeError>, toList: R -> L,
    inputs: FetchInputs<R>, latest: R)
    requires !inputs.cached.Unreadable? && inputs.saveFailure.None?
    requires Fresh(inputs, decode) == Some(latest)
    ensures ReadFlow(key, args, prefix, list, decode, toList, inputs) == Flow(toList(latest), None,
      [LoadCache(key)] + (if inputs.cached.Found? then [Publish(toList(inputs.cached.value))] else [])
      + [RunBrew(args), SaveCache(key, latest), Publish(toList(latest))])
  {
    assert DecodeOutput(inputs.parsed, decode) == Ok(latest);
  }

  /** Concatenating the pieces of a cache-hit trace. */
  lemma FiveEffects<R, L>(a: Effect<R, L>, b: Effect<R, L>, c: Effect<R, L>, d: Effect<R, L>, e: Effect<R, L>)
    ensures [a] + [b] + [c, d, e] == [a, b, c, d, e]
  {
  }

  /** A non-zero exit reports the result's `errorMessage`, saves nothing and
      leaves the list as the cache read left it. */
  lemma NonZeroExitKeepsList(s: ManagerState, inputs: FetchInputs<PackageResponse>)
    requires s.isBrewAvailable && !inputs.cached.Unreadable?
    requires inputs.run.Ok? && !IsSuccess(inputs.run.value)
    ensures var t := RefreshOutdated(s, inputs);
      && t.state.errorMessage == Some(ErrorMessage(inputs.run.value))
      && t.state.outdatedPackages == AfterCache(s.outdatedPackages, inputs.cached, Packages)
      && (forall e :: e in t.effects ==> !e.SaveCache?)
  {
    var f := ReadFlow(Cache.OutdatedFormulae, ["outdated", "--json=v2"], OutdatedPrefix,
      s.outdatedPackages, DecodeListResponse, Packages, inputs);
    assert Fresh(inputs, DecodeListResponse).None?;
  }

  /** As written, brew output listing one cask with a `name` makes the
      installed refresh fail: the error is reported, the list stays as the
      cache read left it and nothing is saved. */
  lemma NamedCaskFailsRefresh(s: ManagerState, inputs: FetchInputs<PackageResponse>, v: JVal, i: int)
    requires s.isBrewAvailable && !inputs.cached.Unreadable?
    requires inputs.run.Ok? && IsSuccess(inputs.run.value) && inputs.parsed == Ok(v)
    requires v.JObj? && "casks" in v.fields && v.fields["casks"].JArr?
    requires 0 <= i < |v.fields["casks"].items|
    requires v.fields["casks"].items[i].JObj? && Present(v.fields["casks"].items[i].fields, "name")
    ensures var t := RefreshInstalled(s, inputs);
      && t.state.errorMessage.Some?
      && t.state.installedPackages == AfterCache(s.installedPackages, inputs.cached, Packages)
      && (forall e :: e in t.effects ==> !e.SaveCache?)
  {
    ModelProperties.NamedCaskFailsResponse(v, i);
    assert Fresh(inputs, DecodeListResponse).None?;
  }

  /** As written, once a list response holding a cask has been saved, the
      next installed refresh within the hour stops at the cache read: the
      read throws because the cask's encoding no longer decodes, brew is
      not run, and the entry is kept, so the refresh after it stops the
      same way. */
  lemma SavedCaskListBlocksRefresh(s: ManagerState, dir: Cache.Directory, resp: PackageResponse,
                                   savedAt: int, now: int, inputs: FetchInputs<PackageResponse>)
    requires s.isBrewAvailable
    requires resp.casks.Some? && |resp.casks.value| > 0
    requires now - savedAt <= Cache.DefaultTtl
    ensures var saved := Cache.Save(dir, Cache.InstalledFormulae, EncodePackageResponse(resp), savedAt);
      var step := Cache.Load(saved, Cache.InstalledFormulae, DecodeCachedList, None, now);
      var t := RefreshInstalled(s, inputs.(cached := step.result));
      && step.result.Unreadable? && step.dir == saved
      && t.effects == [LoadCache(Cache.InstalledFormulae)]
      && t.state.errorMessage == Some(InstalledPrefix + step.result.reason)
  {
    ModelProperties.CaskResponseNeverDecodesAgain(resp);
    Cache.UndecodableSaveKeepsFailing(dir, Cache.InstalledFormulae, EncodePackageResponse(resp), DecodeCachedList,
      savedAt, None, now);
  }

  /** A failed cache write keeps the list shown from the cache and reports
      the write's error; the fresh list is not published. */
  lemma SaveFailureKeepsCachedList(s: ManagerState, inputs: FetchInputs<TapResponse>, reason: string)
    requires s.isBrewAvailable && !inputs.cached.Unreadable?
    requires Fresh(inputs, DecodeTapResponse).Some? && inputs.saveFailure == Some(reason)
    ensures var t := RefreshTaps(s, inputs);
      && t.state.errorMessage == Some(TapsPrefix + reason)
      && t.state.taps == AfterCache(s.taps, inputs.cached, TapList)
  {
  }

  /** A search never reads or writes the cache. */
  lemma SearchLeavesCacheAlone(s: ManagerState, query: string, inputs: SearchInputs)
    ensures forall e :: e in Search(s, query, inputs).effects ==> e.RunBrew?
  {
  }

  /** Every failed search clears the results, and so does an empty query. */
  lemma SearchFailureClears(s: ManagerState, query: string, inputs: SearchInputs)
    requires s.isBrewAvailable && query != ""
    requires !(inputs.run.Ok? && IsSuccess(inputs.run.value) && DecodeOutput(inputs.parsed, DecodeListResponse).Ok?)
    ensures Search(s, query, inputs).state.searchResults == []
    ensures Search(s, query, inputs).state.errorMessage.Some?
    ensures Search(s, "", inputs).state.searchResults == []
  {
  }

  /** The argument list of a package mutation determines its verb, whether
      the package is a cask, and its full name. */
  lemma PackageArgsInjective(verb1: string, p1: Package, verb2: string, p2: Package)
    requires PackageArgs(verb1, p1) == PackageArgs(verb2, p2)
    ensures verb1 == verb2 && p1.fullName == p2.fullName
    ensures p1.kind == CaskKind <==> p2.kind == CaskKind
  {
  }

  /** `update()` refreshes nothing, even when it succeeds. */
  lemma UpdateRefreshesNothing(s: ManagerState, inputs: MutationInputs)
    requires s.isBrewAvailable && inputs.run.Ok? && IsSuccess(inputs.run.value)
    ensures Mutate(s, Update, inputs) == MutationStep(s, [RunBrew(["update"])], None)
  {
  }

  /** A successful install publishes what a refresh of the installed list
      publishes, and runs nothing else afterwards. */
  lemma InstallThenRefresh(s: ManagerState, p: Package, inputs: MutationInputs)
    requires s.isBrewAvailable && inputs.run.Ok? && IsSuccess(inputs.run.value)
    ensures var r := Mutate(s, Install(p), inputs);
      && r.state == RefreshInstalled(s, inputs.installed).state
      && r.effects == [RunBrew(PackageArgs("install", p))] + RefreshInstalled(s, inputs.installed).effects
  {
  }

  /** A successful upgrade refreshes the installed list, then the outdated one. */
  lemma UpgradeThenRefreshBoth(s: ManagerState, p: Package, inputs: MutationInputs)
    requires s.isBrewAvailable && inputs.run.Ok? && IsSuccess(inputs.run.value)
    ensures var r := Mutate(s, Upgrade(p), inputs);
      var first := RefreshInstalled(s, inputs.installed);
      && r.state == RefreshOutdated(first.state, inputs.outdated).state
      && r.effects == [RunBrew(PackageArgs("upgrade", p))] + first.effects + RefreshOutdated(first.state, inputs.outdated).effects
  {
  }

  /** Distinct errors have distinct descriptions. */
  lemma ErrorDescriptionInjective(e1: ManagerError, e2: ManagerError)
    requires ErrorDescription(e1) == ErrorDescription(e2)
    ensures e1 == e2
  {
    var d := ErrorDescription(e1);
    if e1.BrewNotAvailable? || e2.BrewNotAvailable? {
      assert d[0] == 'H';
    } else {
      assert d[0] == ErrorDescription(e2)[0] && d[1] == ErrorDescription(e2)[1] && d[2] == ErrorDescription(e2)[2];
      var prefix := |d| - |e1.stderr|;
      assert prefix == |d| - |e2.stderr|;
      assert e1.stderr == d[prefix..] == e2.stderr;
    }
  }
}
