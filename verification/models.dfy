/** The package records brew prints (`Formula`, `Cask`, `Tap` and their
    response envelopes), how each is decoded from JSON, and the unified
    `Package` the application shows. */
module Models {
  import opened Wrappers
  import opened Json

  /** One installed keg of a package. */
  datatype InstalledVersion = InstalledVersion(version: string, installedOnRequest: bool, installedAsDependency: bool)

  /** A package built from source. */
  datatype Formula = Formula(
    id: string,
    name: string,
    fullName: string,
    desc: Option<string>,
    homepage: Option<string>,
    version: Option<string>,
    installed: Option<seq<InstalledVersion>>,
    dependencies: Option<seq<string>>,
    buildDependencies: Option<seq<string>>,
    conflictsWith: Option<seq<string>>,
    pinned: Option<bool>,
    outdated: Option<bool>,
    deprecated: Option<bool>,
    deprecationReason: Option<string>,
    disabled: Option<bool>,
    disableReason: Option<string>)

  /** A package distributed as a prebuilt binary or application bundle. */
  datatype Cask = Cask(
    id: string,
    name: string,
    fullName: string,
    token: string,
    desc: Option<string>,
    homepage: Option<string>,
    version: Option<string>,
    installed: Option<seq<InstalledVersion>>,
    outdated: Option<bool>,
    deprecated: Option<bool>,
    deprecationReason: Option<string>,
    disabled: Option<bool>,
    disableReason: Option<string>,
    appcast: Option<string>,
    url: Option<string>)

  /** The descriptive fields both records read right after their names,
      in this order. */
  datatype Description = Description(
    desc: Option<string>,
    homepage: Option<string>,
    version: Option<string>,
    installed: Option<seq<InstalledVersion>>)

  /** The formula-only fields read after the description. */
  datatype Dependencies = Dependencies(
    dependencies: Option<seq<string>>,
    buildDependencies: Option<seq<string>>,
    conflictsWith: Option<seq<string>>,
    pinned: Option<bool>)

  /** The status fields both records read next, in this order. */
  datatype Status = Status(
    outdated: Option<bool>,
    deprecated: Option<bool>,
    deprecationReason: Option<string>,
    disabled: Option<bool>,
    disableReason: Option<string>)

  /** A third-party repository (`Tap`). */
  datatype Tap = Tap(
    id: string,
    name: string,
    user: string,
    repo: string,
    path: string,
    remote: Option<string>,
    official: Option<bool>,
    customRemote: Option<bool>,
    pinned: Option<bool>)

  /** `BrewListResponse` and `BrewInfoResponse`, which have the same shape:
      two optional sections. */
  datatype PackageResponse = PackageResponse(formulae: Option<seq<Formula>>, casks: Option<seq<Cask>>)

  /** `BrewTapResponse`. */
  datatype TapResponse = TapResponse(taps: seq<Tap>)

  /** `PackageType`. */
  datatype PackageType = FormulaKind | CaskKind

  /** The unified package shown by the application (`Package`). */
  datatype Package = Package(
    id: string,
    name: string,
    fullName: string,
    kind: PackageType,
    desc: Option<string>,
    homepage: Option<string>,
    version: Option<string>,
    isInstalled: bool,
    isOutdated: bool,
    isDeprecated: bool)

  // ---------------------------------------------------------------------
  // Reference shapes: which JSON objects each decoder is meant to accept.

  predicate StringOrAbsent(obj: JObject, key: string) {
    !Present(obj, key) || obj[key].JStr?
  }

  predicate BoolOrAbsent(obj: JObject, key: string) {
    !Present(obj, key) || obj[key].JBool?
  }

  predicate StringListOrAbsent(obj: JObject, key: string) {
    !Present(obj, key) || IsStringArray(obj[key])
  }

  /** An object with the three required fields of an installed keg. */
  predicate IsInstalledRecord(v: JVal) {
    && v.JObj?
    && "version" in v.fields && v.fields["version"].JStr?
    && "installed_on_request" in v.fields && v.fields["installed_on_request"].JBool?
    && "installed_as_dependency" in v.fields && v.fields["installed_as_dependency"].JBool?
  }

  predicate InstalledOrAbsent(obj: JObject) {
    !Present(obj, "installed")
    || (obj["installed"].JArr? && forall i :: 0 <= i < |obj["installed"].items| ==> IsInstalledRecord(obj["installed"].items[i]))
  }

  predicate DescriptionWellTyped(obj: JObject) {
    && StringOrAbsent(obj, "desc")
    && StringOrAbsent(obj, "homepage")
    && StringOrAbsent(obj, "version")
    && InstalledOrAbsent(obj)
  }

  predicate DependenciesWellTyped(obj: JObject) {
    && StringListOrAbsent(obj, "dependencies")
    && StringListOrAbsent(obj, "build_dependencies")
    && StringListOrAbsent(obj, "conflicts_with")
    && BoolOrAbsent(obj, "pinned")
  }

  predicate StatusWellTyped(obj: JObject) {
    && BoolOrAbsent(obj, "outdated")
    && BoolOrAbsent(obj, "deprecated")
    && StringOrAbsent(obj, "deprecation_reason")
    && BoolOrAbsent(obj, "disabled")
    && StringOrAbsent(obj, "disable_reason")
  }

  /** The optional fields formulae and casks share, each absent, null or of its type. */
  predicate CommonFieldsWellTyped(obj: JObject) {
    && StringOrAbsent(obj, "id")
    && StringOrAbsent(obj, "full_name")
    && DescriptionWellTyped(obj)
    && StatusWellTyped(obj)
  }

  /** What a formula object must look like: a string `name` and every
      other field absent, null or of its declared type. */
  predicate FormulaShaped(obj: JObject) {
    && "name" in obj && obj["name"].JStr?
    && CommonFieldsWellTyped(obj)
    && DependenciesWellTyped(obj)
  }

  /** The cask fields other than `name`, each absent, null or of its type. */
  predicate CaskFieldsWellTyped(obj: JObject) {
    && StringOrAbsent(obj, "token")
    && CommonFieldsWellTyped(obj)
    && StringOrAbsent(obj, "appcast")
    && StringOrAbsent(obj, "url")
  }

  /** What a tap object must look like: the five string fields present and
      every optional field absent, null or of its declared type. */
  predicate TapShaped(obj: JObject) {
    && "id" in obj && obj["id"].JStr?
    && "name" in obj && obj["name"].JStr?
    && "user" in obj && obj["user"].JStr?
    && "repo" in obj && obj["repo"].JStr?
    && "path" in obj && obj["path"].JStr?
    && StringOrAbsent(obj, "remote")
    && BoolOrAbsent(obj, "official")
    && BoolOrAbsent(obj, "customRemote")
    && BoolOrAbsent(obj, "pinned")
  }

  /** A cask `name` in either documented shape: one string or a list of aliases. */
  predicate NameEitherShape(obj: JObject) {
    !Present(obj, "name") || obj["name"].JStr? || IsStringArray(obj["name"])
  }

  /** A string field read leniently: its value when it is a string. */
  function StrField(obj: JObject, key: string): Option<string> {
    if key in obj && obj[key].JStr? then Some(obj[key].s) else None
  }

  /** A boolean field read leniently: its value when it is a boolean. */
  function BoolField(obj: JObject, key: string): Option<bool> {
    if key in obj && obj[key].JBool? then Some(obj[key].b) else None
  }

  // ---------------------------------------------------------------------
  // Decoding (`init(from:)`).

  /** The synthesized decoder of `InstalledVersion`; all three fields are required. */
  function DecodeInstalledVersion(v: JVal): (r: Result<InstalledVersion, DecodeError>)
    ensures r.Ok? <==> IsInstalledRecord(v)
    ensures r.Ok? ==> r.value == InstalledVersion(
      v.fields["version"].s, v.fields["installed_on_request"].b, v.fields["installed_as_dependency"].b)
  {
    var obj :- AsObject(v, "installed");
    var version :- RequiredString(obj, "version");
    var onRequest :- RequiredBool(obj, "installed_on_request");
    var asDependency :- RequiredBool(obj, "installed_as_dependency");
    Ok(InstalledVersion(version, onRequest, asDependency))
  }

  /** `decodeIfPresent([InstalledVersion].self, forKey: .installed)`. */
  function OptInstalled(obj: JObject): (r: Result<Option<seq<InstalledVersion>>, DecodeError>)
    ensures r.Ok? <==> InstalledOrAbsent(obj)
    ensures r.Ok? ==> (r.value.Some? <==> Present(obj, "installed"))
    ensures r.Ok? && r.value.Some? ==> |r.value.value| == |obj["installed"].items|
  {
    OptArray(obj, "installed", DecodeInstalledVersion)
  }

  /** The reads of `desc`, `homepage`, `version` and `installed`, in order. */
  function DecodeDescription(obj: JObject): (r: Result<Description, DecodeError>)
    ensures r.Ok? <==> DescriptionWellTyped(obj)
    ensures r.Ok? ==>
      && r.value.desc == StrField(obj, "desc")
      && r.value.homepage == StrField(obj, "homepage")
      && r.value.version == StrField(obj, "version")
      && r.value.installed == OptInstalled(obj).value
  {
    var desc :- OptString(obj, "desc");
    var homepage :- OptString(obj, "homepage");
    var version :- OptString(obj, "version");
    var installed :- OptInstalled(obj);
    Ok(Description(desc, homepage, version, installed))
  }

  /** The reads of the three dependency lists and `pinned`, in order. */
  function DecodeDependencies(obj: JObject): (r: Result<Dependencies, DecodeError>)
    ensures r.Ok? <==> DependenciesWellTyped(obj)
    ensures r.Ok? ==>
      && r.value.dependencies == OptStringList(obj, "dependencies").value
      && r.value.buildDependencies == OptStringList(obj, "build_dependencies").value
      && r.value.conflictsWith == OptStringList(obj, "conflicts_with").value
      && r.value.pinned == BoolField(obj, "pinned")
  {
    var dependencies :- OptStringList(obj, "dependencies");
    var buildDependencies :- OptStringList(obj, "build_dependencies");
    var conflictsWith :- OptStringList(obj, "conflicts_with");
    var pinned :- OptBool(obj, "pinned");
    Ok(Dependencies(dependencies, buildDependencies, conflictsWith, pinned))
  }

  /** The reads of the five status fields, in order. */
  function DecodeStatus(obj: JObject): (r: Result<Status, DecodeError>)
    ensures r.Ok? <==> StatusWellTyped(obj)
    ensures r.Ok? ==>
      && r.value.outdated == BoolField(obj, "outdated")
      && r.value.deprecated == BoolField(obj, "deprecated")
      && r.value.deprecationReason == StrField(obj, "deprecation_reason")
      && r.value.disabled == BoolField(obj, "disabled")
      && r.value.disableReason == StrField(obj, "disable_reason")
  {
    var outdated :- OptBool(obj, "outdated");
    var deprecated :- OptBool(obj, "deprecated");
    var deprecationReason :- OptString(obj, "deprecation_reason");
    var disabled :- OptBool(obj, "disabled");
    var disableReason :- OptString(obj, "disable_reason");
    Ok(Status(outdated, deprecated, deprecationReason, disabled, disableReason))
  }

  /** `Formula.init(from:)`: `id` falls back to `name`, `fullName` to
      `name`; `name` itself is required. It succeeds exactly when `name`
      is a string and every other field is absent, null or of its declared
      type. The fields are read in the declared order, so the first
      ill-typed one decides the error. */
  function DecodeFormula(obj: JObject): (r: Result<Formula, DecodeError>)
    ensures r.Ok? <==> FormulaShaped(obj)
  {
    var explicitId :- OptString(obj, "id");
    var id :- if explicitId.Some? then Ok(explicitId.value) else RequiredString(obj, "name");
    var name :- RequiredString(obj, "name");
    var fullName :- OptString(obj, "full_name");
    var d :- DecodeDescription(obj);
    var deps :- DecodeDependencies(obj);
    var st :- DecodeStatus(obj);
    Ok(Formula(id, name, fullName.GetOr(name), d.desc, d.homepage, d.version, d.installed,
      deps.dependencies, deps.buildDependencies, deps.conflictsWith, deps.pinned,
      st.outdated, st.deprecated, st.deprecationReason, st.disabled, st.disableReason))
  }

  /** `aliases?.first ?? ""`. */
  function FirstAlias(aliases: Option<seq<string>>): string {
    match aliases
    case Some(names) => if |names| > 0 then names[0] else ""
    case None => ""
  }

  /** The cask `name` as the decoder reads it: first as a `[String]`, then
      as a `String`, each under `try`. A present `name` of either shape
      makes one of the two reads throw, so only an absent or null `name`
      gets through, as `""`. */
  function CaskNameAsWritten(obj: JObject): (r: Result<string, DecodeError>)
    ensures r.Ok? <==> !Present(obj, "name")
    ensures r.Ok? ==> r.value == ""
  {
    var aliases :- OptStringList(obj, "name");
    var single :- OptString(obj, "name");
    Ok(single.GetOr(FirstAlias(aliases)))
  }

  /** The cask `name` as evidently intended: a string is taken as is, a
      list of aliases gives its first element (or `""` when empty), and an
      absent or null `name` gives `""`. */
  function CaskNameIntended(obj: JObject): (r: Result<string, DecodeError>)
    ensures r.Ok? <==> NameEitherShape(obj)
    ensures !Present(obj, "name") ==> r == Ok("")
    ensures Present(obj, "name") && obj["name"].JStr? ==> r == Ok(obj["name"].s)
    ensures Present(obj, "name") && IsStringArray(obj["name"]) ==>
      r == Ok(if |obj["name"].items| > 0 then obj["name"].items[0].s else "")
  {
    if Present(obj, "name") && obj["name"].JStr? then Ok(obj["name"].s)
    else
      var aliases :- OptStringList(obj, "name");
      Ok(FirstAlias(aliases))
  }

  /** The rest of `Cask.init(from:)` once `token` and the display name are
      known: `id` falls back to `token` then to the name, `token` to the
      name, `fullName` to the name. */
  function CaskFromFields(obj: JObject, token: Option<string>, name: string): Result<Cask, DecodeError> {
    var explicitId :- OptString(obj, "id");
    var fullName :- OptString(obj, "full_name");
    var d :- DecodeDescription(obj);
    var st :- DecodeStatus(obj);
    var appcast :- OptString(obj, "appcast");
    var url :- OptString(obj, "url");
    Ok(Cask(explicitId.GetOr(token.GetOr(name)), name, fullName.GetOr(name), token.GetOr(name),
      d.desc, d.homepage, d.version, d.installed, st.outdated, st.deprecated, st.deprecationReason,
      st.disabled, st.disableReason, appcast, url))
  }

  /** `Cask.init(from:)` as written: it succeeds exactly when `name` is
      absent or null and every other field is absent, null or of its
      declared type. */
  function DecodeCask(obj: JObject): (r: Result<Cask, DecodeError>)
    ensures r.Ok? <==> !Present(obj, "name") && CaskFieldsWellTyped(obj)
  {
    var token :- OptString(obj, "token");
    var name :- CaskNameAsWritten(obj);
    CaskFromFields(obj, token, name)
  }

  /** `Cask.init(from:)` with the display-name read corrected: it succeeds
      exactly when `name` is absent, a string or a list of strings, and
      every other field is absent, null or of its declared type. */
  function DecodeCaskIntended(obj: JObject): (r: Result<Cask, DecodeError>)
    ensures r.Ok? <==> NameEitherShape(obj) && CaskFieldsWellTyped(obj)
  {
    var token :- OptString(obj, "token");
    var name :- CaskNameIntended(obj);
    CaskFromFields(obj, token, name)
  }

  /** One element of the `formulae` array. */
  function FormulaItem(v: JVal): Result<Formula, DecodeError> {
    var obj :- AsObject(v, "formulae");
    DecodeFormula(obj)
  }

  /** One element of the `casks` array, decoded by `decodeCask`. */
  function CaskItem(v: JVal, decodeCask: JObject -> Result<Cask, DecodeError>): Result<Cask, DecodeError> {
    var obj :- AsObject(v, "casks");
    decodeCask(obj)
  }

  /** A response section that decodes: absent or null, or an array of
      formula records every one of which decodes. */
  predicate FormulaeDecode(obj: JObject) {
    !Present(obj, "formulae") || (
      && obj["formulae"].JArr?
      && forall i :: 0 <= i < |obj["formulae"].items| ==> FormulaItem(obj["formulae"].items[i]).Ok?)
  }

  /** The same for the `casks` section, decoded by `decodeCask`. */
  predicate CasksDecode(obj: JObject, decodeCask: JObject -> Result<Cask, DecodeError>) {
    !Present(obj, "casks") || (
      && obj["casks"].JArr?
      && forall i :: 0 <= i < |obj["casks"].items| ==> CaskItem(obj["casks"].items[i], decodeCask).Ok?)
  }

  /** The synthesized decoder of `BrewListResponse` / `BrewInfoResponse`,
      parameterised by the cask decoder: an absent or null section is
      `None`; one record that fails fails the whole response. */
  function DecodePackageResponse(v: JVal, decodeCask: JObject -> Result<Cask, DecodeError>): (r: Result<PackageResponse, DecodeError>)
    ensures r.Ok? <==> v.JObj? && FormulaeDecode(v.fields) && CasksDecode(v.fields, decodeCask)
    ensures r.Ok? ==> (r.value.formulae.None? <==> !Present(v.fields, "formulae"))
    ensures r.Ok? ==> (r.value.casks.None? <==> !Present(v.fields, "casks"))
    ensures r.Ok? && r.value.formulae.Some? ==>
      && |r.value.formulae.value| == |v.fields["formulae"].items|
      && forall i :: 0 <= i < |v.fields["formulae"].items| ==> FormulaItem(v.fields["formulae"].items[i]) == Ok(r.value.formulae.value[i])
    ensures r.Ok? && r.value.casks.Some? ==>
      && |r.value.casks.value| == |v.fields["casks"].items|
      && forall i :: 0 <= i < |v.fields["casks"].items| ==> CaskItem(v.fields["casks"].items[i], decodeCask) == Ok(r.value.casks.value[i])
  {
    var obj :- AsObject(v, "");
    var formulae :- OptArray(obj, "formulae", FormulaItem);
    var casks :- OptArray(obj, "casks", w => CaskItem(w, decodeCask));
    Ok(PackageResponse(formulae, casks))
  }

  /** The synthesized decoder of `Tap`, whose keys are its property names:
      the five strings are required, the rest are read if present. */
  function DecodeTap(obj: JObject): (r: Result<Tap, DecodeError>)
    ensures r.Ok? <==> TapShaped(obj)
    ensures r.Ok? ==>
      && r.value.id == obj["id"].s && r.value.name == obj["name"].s
      && r.value.user == obj["user"].s && r.value.repo == obj["repo"].s
      && r.value.path == obj["path"].s
      && r.value.remote == StrField(obj, "remote")
      && r.value.official == BoolField(obj, "official")
      && r.value.customRemote == BoolField(obj, "customRemote")
      && r.value.pinned == BoolField(obj, "pinned")
  {
    var id :- RequiredString(obj, "id");
    var name :- RequiredString(obj, "name");
    var user :- RequiredString(obj, "user");
    var repo :- RequiredString(obj, "repo");
    var path :- RequiredString(obj, "path");
    var remote :- OptString(obj, "remote");
    var official :- OptBool(obj, "official");
    var customRemote :- OptBool(obj, "customRemote");
    var pinned :- OptBool(obj, "pinned");
    Ok(Tap(id, name, user, repo, path, remote, official, customRemote, pinned))
  }

  /** One element of the `taps` array. */
  function TapItem(v: JVal): (r: Result<Tap, DecodeError>)
    ensures r.Ok? <==> v.JObj? && TapShaped(v.fields)
  {
    var obj :- AsObject(v, "taps");
    DecodeTap(obj)
  }

  /** The synthesized decoder of `BrewTapResponse`: `taps` is required,
      and one tap that fails fails the whole response. */
  function DecodeTapResponse(v: JVal): (r: Result<TapResponse, DecodeError>)
    ensures r.Ok? <==> (
      && v.JObj? && "taps" in v.fields && v.fields["taps"].JArr?
      && forall i :: 0 <= i < |v.fields["taps"].items| ==>
           v.fields["taps"].items[i].JObj? && TapShaped(v.fields["taps"].items[i].fields))
    ensures r.Ok? ==> |r.value.taps| == |v.fields["taps"].items|
    ensures r.Ok? ==> forall i :: 0 <= i < |v.fields["taps"].items| ==> TapItem(v.fields["taps"].items[i]) == Ok(r.value.taps[i])
  {
    var obj :- AsObject(v, "");
    var taps :- RequiredArray(obj, "taps", TapItem);
    Ok(TapResponse(taps))
  }

  // ---------------------------------------------------------------------
  // Encoding (the synthesized `encode(to:)`, which omits nil optionals).

  function OptJStr(v: Option<string>): Option<JVal> {
    if v.Some? then Some(JStr(v.value)) else None
  }

  function OptJBool(v: Option<bool>): Option<JVal> {
    if v.Some? then Some(JBool(v.value)) else None
  }

  function OptJStrings(v: Option<seq<string>>): Option<JVal> {
    if v.Some? then Some(StringArray(v.value)) else None
  }

  function EncodeInstalledVersion(iv: InstalledVersion): JVal {
    JObj(map[
      "version" := JStr(iv.version),
      "installed_on_request" := JBool(iv.installedOnRequest),
      "installed_as_dependency" := JBool(iv.installedAsDependency)])
  }

  function OptJInstalled(v: Option<seq<InstalledVersion>>): Option<JVal> {
    if v.Some? then
      Some(JArr(seq(|v.value|, i requires 0 <= i < |v.value| => EncodeInstalledVersion(v.value[i]))))
    else None
  }

  /** The JSON keys of `Formula` (its `CodingKeys`). */
  const FormulaKeys: set<string> := {
    "id", "name", "full_name", "desc", "homepage", "version", "installed", "dependencies",
    "build_dependencies", "conflicts_with", "pinned", "outdated", "deprecated",
    "deprecation_reason", "disabled", "disable_reason"}

  /** The JSON keys of `Cask` (its `CodingKeys`). */
  const CaskKeys: set<string> := {
    "id", "name", "full_name", "desc", "homepage", "version", "installed", "token",
    "outdated", "deprecated", "deprecation_reason", "disabled", "disable_reason", "appcast", "url"}

  /** What the encoder writes under `key` for a formula; `None` omits the key. */
  function FormulaField(f: Formula, key: string): Option<JVal> {
    match key
    case "id" => Some(JStr(f.id))
    case "name" => Some(JStr(f.name))
    case "full_name" => Some(JStr(f.fullName))
    case "desc" => OptJStr(f.desc)
    case "homepage" => OptJStr(f.homepage)
    case "version" => OptJStr(f.version)
    case "installed" => OptJInstalled(f.installed)
    case "dependencies" => OptJStrings(f.dependencies)
    case "build_dependencies" => OptJStrings(f.buildDependencies)
    case "conflicts_with" => OptJStrings(f.conflictsWith)
    case "pinned" => OptJBool(f.pinned)
    case "outdated" => OptJBool(f.outdated)
    case "deprecated" => OptJBool(f.deprecated)
    case "deprecation_reason" => OptJStr(f.deprecationReason)
    case "disabled" => OptJBool(f.disabled)
    case "disable_reason" => OptJStr(f.disableReason)
    case _ => None
  }

  /** What the encoder writes under `key` for a cask; the display name is
      written as a single string. */
  function CaskField(c: Cask, key: string): Option<JVal> {
    match key
    case "id" => Some(JStr(c.id))
    case "name" => Some(JStr(c.name))
    case "full_name" => Some(JStr(c.fullName))
    case "token" => Some(JStr(c.token))
    case "desc" => OptJStr(c.desc)
    case "homepage" => OptJStr(c.homepage)
    case "version" => OptJStr(c.version)
    case "installed" => OptJInstalled(c.installed)
    case "outdated" => OptJBool(c.outdated)
    case "deprecated" => OptJBool(c.deprecated)
    case "deprecation_reason" => OptJStr(c.deprecationReason)
    case "disabled" => OptJBool(c.disabled)
    case "disable_reason" => OptJStr(c.disableReason)
    case "appcast" => OptJStr(c.appcast)
    case "url" => OptJStr(c.url)
    case _ => None
  }

  /** The JSON keys of `Tap`. */
  const TapKeys: set<string> := {
    "id", "name", "user", "repo", "path", "remote", "official", "customRemote", "pinned"}

  /** What the encoder writes under `key` for a tap. */
  function TapField(t: Tap, key: string): Option<JVal> {
    match key
    case "id" => Some(JStr(t.id))
    case "name" => Some(JStr(t.name))
    case "user" => Some(JStr(t.user))
    case "repo" => Some(JStr(t.repo))
    case "path" => Some(JStr(t.path))
    case "remote" => OptJStr(t.remote)
    case "official" => OptJBool(t.official)
    case "customRemote" => OptJBool(t.customRemote)
    case "pinned" => OptJBool(t.pinned)
    case _ => None
  }

  function EncodeTap(t: Tap): JObject {
    map k | k in TapKeys && TapField(t, k).Some? :: TapField(t, k).value
  }

  function EncodeFormula(f: Formula): JObject {
    map k | k in FormulaKeys && FormulaField(f, k).Some? :: FormulaField(f, k).value
  }

  function EncodeCask(c: Cask): JObject {
    map k | k in CaskKeys && CaskField(c, k).Some? :: CaskField(c, k).value
  }

  /** A formula section as the encoder writes it. */
  function FormulaArray(fs: seq<Formula>): JVal {
    JArr(seq(|fs|, i requires 0 <= i < |fs| => JObj(EncodeFormula(fs[i]))))
  }

  /** A cask section as the encoder writes it. */
  function CaskArray(cs: seq<Cask>): JVal {
    JArr(seq(|cs|, i requires 0 <= i < |cs| => JObj(EncodeCask(cs[i]))))
  }

  /** `BrewListResponse` / `BrewInfoResponse` as the encoder writes them:
      a nil section is omitted. */
  function EncodePackageResponse(resp: PackageResponse): JVal {
    var withFormulae: JObject :=
      if resp.formulae.Some? then map["formulae" := FormulaArray(resp.formulae.value)] else map[];
    JObj(if resp.casks.Some? then withFormulae["casks" := CaskArray(resp.casks.value)] else withFormulae)
  }

  // ---------------------------------------------------------------------
  // `Package.from(_:)`.

  /** True when the optional list of installed kegs is present and non-empty. */
  predicate HasKegs(installed: Option<seq<InstalledVersion>>) {
    installed.Some? && |installed.value| > 0
  }

  /** `Package.from(_ formula:)`. */
  function FromFormula(f: Formula): (p: Package)
    ensures p.kind == FormulaKind
    ensures p.id == f.id && p.name == f.name && p.fullName == f.fullName
    ensures p.desc == f.desc && p.homepage == f.homepage && p.version == f.version
    ensures p.isInstalled <==> HasKegs(f.installed)
    ensures p.isOutdated <==> f.outdated == Some(true)
    ensures p.isDeprecated <==> f.deprecated == Some(true)
  {
    Package(f.id, f.name, f.fullName, FormulaKind, f.desc, f.homepage, f.version,
      f.installed.Some? && |f.installed.value| != 0, f.outdated.GetOr(false), f.deprecated.GetOr(false))
  }

  /** `Package.from(_ cask:)`. */
  function FromCask(c: Cask): (p: Package)
    ensures p.kind == CaskKind
    ensures p.id == c.id && p.name == c.name && p.fullName == c.fullName
    ensures p.desc == c.desc && p.homepage == c.homepage && p.version == c.version
    ensures p.isInstalled <==> HasKegs(c.installed)
    ensures p.isOutdated <==> c.outdated == Some(true)
    ensures p.isDeprecated <==> c.deprecated == Some(true)
  {
    Package(c.id, c.name, c.fullName, CaskKind, c.desc, c.homepage, c.version,
      c.installed.Some? && |c.installed.value| != 0, c.outdated.GetOr(false), c.deprecated.GetOr(false))
  }
}

/** Properties of the record decoders and of `Package.from`. */
module ModelProperties {
  import opened Wrappers
  import opened Json
  import opened Models

  /** A formula without a string `name` never decodes, whatever `id` holds. */
  lemma FormulaNeedsName(obj: JObject)
    requires !("name" in obj && obj["name"].JStr?)
    ensures DecodeFormula(obj).Err?
  {
  }

  /** The fields of a decoded formula: `id` is the explicit `id` when
      present and otherwise `name`; `fullName` is `full_name` when present
      and otherwise `name`; every optional field is read as it stands,
      with the installed kegs and the string lists decoded element by
      element. */
  lemma FormulaFields(obj: JObject)
    requires DecodeFormula(obj).Ok?
    ensures var f := DecodeFormula(obj).value;
      && f.name == obj["name"].s
      && f.id == StrField(obj, "id").GetOr(f.name)
      && f.fullName == StrField(obj, "full_name").GetOr(f.name)
      && f.desc == StrField(obj, "desc")
      && f.homepage == StrField(obj, "homepage")
      && f.version == StrField(obj, "version")
      && f.installed == OptInstalled(obj).value
      && (f.installed.Some? <==> Present(obj, "installed"))
      && f.dependencies == OptStringList(obj, "dependencies").value
      && f.buildDependencies == OptStringList(obj, "build_dependencies").value
      && f.conflictsWith == OptStringList(obj, "conflicts_with").value
      && f.pinned == BoolField(obj, "pinned")
      && f.outdated == BoolField(obj, "outdated")
      && f.deprecated == BoolField(obj, "deprecated")
      && f.deprecationReason == StrField(obj, "deprecation_reason")
      && f.disabled == BoolField(obj, "disabled")
      && f.disableReason == StrField(obj, "disable_reason")
  {
  }

  /** As written, any cask whose `name` is present (a string, a list, or
      anything else but null) fails to decode. */
  lemma CaskWithNameNeverDecodes(obj: JObject)
    requires Present(obj, "name")
    ensures DecodeCask(obj).Err?
  {
  }

  /** A cask that decodes as written has the empty display name, and its
      identity falls back from `id` to `token` to `""`; missing `id` or
      `token` never causes a failure. */
  lemma CaskFallbacks(obj: JObject)
    requires DecodeCask(obj).Ok?
    ensures var c := DecodeCask(obj).value;
      && c.name == ""
      && c.token == StrField(obj, "token").GetOr("")
      && c.id == StrField(obj, "id").GetOr(StrField(obj, "token").GetOr(""))
      && c.fullName == StrField(obj, "full_name").GetOr("")
  {
  }

  /** The corrected decoder follows the identity chain explicit `id`, then
      `token`, then the display name (a string, or the first alias). */
  lemma CaskIntendedIdentity(obj: JObject)
    requires DecodeCaskIntended(obj).Ok?
    ensures CaskNameIntended(obj).Ok?
    ensures var c := DecodeCaskIntended(obj).value;
      var name := CaskNameIntended(obj).value;
      && c.name == name
      && c.token == StrField(obj, "token").GetOr(name)
      && c.id == StrField(obj, "id").GetOr(StrField(obj, "token").GetOr(name))
      && c.fullName == StrField(obj, "full_name").GetOr(name)
  {
  }

  /** The correction changes nothing for casks without a display name. */
  lemma CaskIntendedAgreesWithoutName(obj: JObject)
    requires !Present(obj, "name")
    ensures DecodeCaskIntended(obj) == DecodeCask(obj)
  {
  }

  /** Every formula survives encoding and decoding unchanged. */
  lemma FormulaRoundTrip(f: Formula)
    ensures DecodeFormula(EncodeFormula(f)) == Ok(f)
  {
    FormulaReadsNames(f);
    FormulaReadsDescription(f);
    FormulaReadsDependencies(f);
    FormulaReadsStatus(f);
  }

  /** With the corrected name read every cask survives encoding and
      decoding unchanged. */
  lemma CaskIntendedRoundTrip(c: Cask)
    ensures DecodeCaskIntended(EncodeCask(c)) == Ok(c)
  {
    CaskReadsNames(c);
    CaskReadsDescription(c);
    CaskReadsStatus(c);
  }

  // The four groups of fields of an encoded formula, read back one group
  // at a time.

  lemma FormulaReadsNames(f: Formula)
    ensures var m := EncodeFormula(f);
      && OptString(m, "id") == Ok(Some(f.id))
      && RequiredString(m, "name") == Ok(f.name)
      && OptString(m, "full_name") == Ok(Some(f.fullName))
  {
    var m := EncodeFormula(f);
    assert "id" in m && "name" in m && "full_name" in m;
  }

  lemma FormulaReadsDescription(f: Formula)
    ensures DecodeDescription(EncodeFormula(f)) == Ok(Description(f.desc, f.homepage, f.version, f.installed))
  {
    var m := EncodeFormula(f);
    assert "desc" in m <==> f.desc.Some?;
    assert "homepage" in m <==> f.homepage.Some?;
    assert "version" in m <==> f.version.Some?;
    ReadInstalled(m, f.installed, FormulaField(f, "installed"));
  }

  lemma FormulaReadsDependencies(f: Formula)
    ensures DecodeDependencies(EncodeFormula(f))
      == Ok(Dependencies(f.dependencies, f.buildDependencies, f.conflictsWith, f.pinned))
  {
    var m := EncodeFormula(f);
    ReadStrings(m, "dependencies", f.dependencies, FormulaField(f, "dependencies"));
    ReadStrings(m, "build_dependencies", f.buildDependencies, FormulaField(f, "build_dependencies"));
    ReadStrings(m, "conflicts_with", f.conflictsWith, FormulaField(f, "conflicts_with"));
    assert "pinned" in m <==> f.pinned.Some?;
  }

  lemma FormulaReadsStatus(f: Formula)
    ensures DecodeStatus(EncodeFormula(f))
      == Ok(Status(f.outdated, f.deprecated, f.deprecationReason, f.disabled, f.disableReason))
  {
    var m := EncodeFormula(f);
    assert "outdated" in m <==> f.outdated.Some?;
    assert "deprecated" in m <==> f.deprecated.Some?;
    assert "deprecation_reason" in m <==> f.deprecationReason.Some?;
    assert "disabled" in m <==> f.disabled.Some?;
    assert "disable_reason" in m <==> f.disableReason.Some?;
  }

  // The same for an encoded cask.

  lemma CaskReadsNames(c: Cask)
    ensures var m := EncodeCask(c);
      && OptString(m, "token") == Ok(Some(c.token))
      && CaskNameIntended(m) == Ok(c.name)
      && OptString(m, "id") == Ok(Some(c.id))
      && OptString(m, "full_name") == Ok(Some(c.fullName))
  {
    var m := EncodeCask(c);
    assert "token" in m && "name" in m && "id" in m && "full_name" in m;
  }

  lemma CaskReadsDescription(c: Cask)
    ensures var m := EncodeCask(c);
      && DecodeDescription(m) == Ok(Description(c.desc, c.homepage, c.version, c.installed))
      && OptString(m, "appcast") == Ok(c.appcast)
      && OptString(m, "url") == Ok(c.url)
  {
    var m := EncodeCask(c);
    assert "desc" in m <==> c.desc.Some?;
    assert "homepage" in m <==> c.homepage.Some?;
    assert "version" in m <==> c.version.Some?;
    ReadInstalled(m, c.installed, CaskField(c, "installed"));
    assert "appcast" in m <==> c.appcast.Some?;
    assert "url" in m <==> c.url.Some?;
  }

  lemma CaskReadsStatus(c: Cask)
    ensures DecodeStatus(EncodeCask(c))
      == Ok(Status(c.outdated, c.deprecated, c.deprecationReason, c.disabled, c.disableReason))
  {
    var m := EncodeCask(c);
    assert "outdated" in m <==> c.outdated.Some?;
    assert "deprecated" in m <==> c.deprecated.Some?;
    assert "deprecation_reason" in m <==> c.deprecationReason.Some?;
    assert "disabled" in m <==> c.disabled.Some?;
    assert "disable_reason" in m <==> c.disableReason.Some?;
  }

  /** Every tap survives encoding and decoding unchanged. */
  lemma TapRoundTrip(t: Tap)
    ensures DecodeTap(EncodeTap(t)) == Ok(t)
  {
    var m := EncodeTap(t);
    assert "id" in m && "name" in m && "user" in m && "repo" in m && "path" in m;
    assert "remote" in m <==> t.remote.Some?;
    assert "official" in m <==> t.official.Some?;
    assert "customRemote" in m <==> t.customRemote.Some?;
    assert "pinned" in m <==> t.pinned.Some?;
  }

  /** As written no encoded cask decodes again, because encoding always
      writes `name`. */
  lemma CaskAsWrittenRoundTripFails(c: Cask)
    ensures DecodeCask(EncodeCask(c)).Err?
  {
    assert Present(EncodeCask(c), "name");
  }

  /** With the corrected name read every list response survives encoding
      and decoding unchanged. */
  lemma ResponseIntendedRoundTrip(resp: PackageResponse)
    ensures DecodePackageResponse(EncodePackageResponse(resp), DecodeCaskIntended) == Ok(resp)
  {
    var obj := EncodePackageResponse(resp).fields;
    assert "formulae" in obj <==> resp.formulae.Some?;
    assert "casks" in obj <==> resp.casks.Some?;
    if resp.formulae.Some? {
      assert obj["formulae"] == FormulaArray(resp.formulae.value);
      FormulaSectionReadsBack(resp.formulae.value);
    }
    if resp.casks.Some? {
      assert obj["casks"] == CaskArray(resp.casks.value);
      CaskSectionReadsBack(resp.casks.value);
    }
    var r := DecodePackageResponse(EncodePackageResponse(resp), DecodeCaskIntended);
    assert r.Ok?;
    if resp.formulae.Some? {
      assert r.value.formulae.value == resp.formulae.value;
    }
    if resp.casks.Some? {
      assert r.value.casks.value == resp.casks.value;
    }
  }

  lemma FormulaSectionReadsBack(fs: seq<Formula>)
    ensures |FormulaArray(fs).items| == |fs|
    ensures forall i :: 0 <= i < |fs| ==> FormulaItem(FormulaArray(fs).items[i]) == Ok(fs[i])
  {
    forall i | 0 <= i < |fs| ensures FormulaItem(FormulaArray(fs).items[i]) == Ok(fs[i]) {
      FormulaRoundTrip(fs[i]);
    }
  }

  lemma CaskSectionReadsBack(cs: seq<Cask>)
    ensures |CaskArray(cs).items| == |cs|
    ensures forall i :: 0 <= i < |cs| ==> CaskItem(CaskArray(cs).items[i], DecodeCaskIntended) == Ok(cs[i])
  {
    forall i | 0 <= i < |cs| ensures CaskItem(CaskArray(cs).items[i], DecodeCaskIntended) == Ok(cs[i]) {
      CaskIntendedRoundTrip(cs[i]);
    }
  }

  /** As written, no list response holding a cask decodes again once
      encoded, because every encoded cask carries `name`. */
  lemma CaskResponseNeverDecodesAgain(resp: PackageResponse)
    requires resp.casks.Some? && |resp.casks.value| > 0
    ensures DecodePackageResponse(EncodePackageResponse(resp), DecodeCask).Err?
  {
    var obj := EncodePackageResponse(resp).fields;
    assert "casks" in obj && obj["casks"] == CaskArray(resp.casks.value);
    CaskAsWrittenRoundTripFails(resp.casks.value[0]);
    assert !CaskItem(obj["casks"].items[0], DecodeCask).Ok?;
  }

  /** As written, one named cask anywhere in a `casks` array makes the
      whole `BrewListResponse` / `BrewInfoResponse` fail to decode. */
  lemma NamedCaskFailsResponse(v: JVal, i: int)
    requires v.JObj? && "casks" in v.fields && v.fields["casks"].JArr?
    requires 0 <= i < |v.fields["casks"].items|
    requires v.fields["casks"].items[i].JObj? && Present(v.fields["casks"].items[i].fields, "name")
    ensures DecodePackageResponse(v, DecodeCask).Err?
  {
    var item := v.fields["casks"].items[i];
    CaskWithNameNeverDecodes(item.fields);
    assert CaskItem(item, DecodeCask).Err?;
  }

  /** A decoded formula's package is installed exactly when `installed`
      holds a non-empty array (absent, null and `[]` all give false), and
      outdated or deprecated exactly when the flag is `true`. */
  lemma DecodedFormulaPackage(obj: JObject)
    requires DecodeFormula(obj).Ok?
    ensures var p := FromFormula(DecodeFormula(obj).value);
      && p.kind == FormulaKind
      && p.name == obj["name"].s
      && p.id == StrField(obj, "id").GetOr(p.name)
      && (p.isInstalled <==> Present(obj, "installed") && |obj["installed"].items| > 0)
      && (p.isOutdated <==> "outdated" in obj && obj["outdated"] == JBool(true))
      && (p.isDeprecated <==> "deprecated" in obj && obj["deprecated"] == JBool(true))
  {
    FormulaFields(obj);
  }

  /** The same for a cask decoded with the corrected name read. */
  lemma DecodedCaskPackage(obj: JObject)
    requires DecodeCaskIntended(obj).Ok?
    ensures var p := FromCask(DecodeCaskIntended(obj).value);
      && p.kind == CaskKind
      && (p.isInstalled <==> Present(obj, "installed") && |obj["installed"].items| > 0)
      && (p.isOutdated <==> "outdated" in obj && obj["outdated"] == JBool(true))
      && (p.isDeprecated <==> "deprecated" in obj && obj["deprecated"] == JBool(true))
  {
  }

  /** A formula record with no `id` and `name` "jq" gets identity "jq". */
  lemma FormulaIdentityExample()
    ensures DecodeFormula(map["name" := JStr("jq")]).Ok?
    ensures DecodeFormula(map["name" := JStr("jq")]).value.id == "jq"
  {
    FormulaFields(map["name" := JStr("jq")]);
  }

  /** A cask record with no `id` or `token` and `name` ["Visual Studio
      Code"]: as written it fails to decode, with the correction it gets
      identity "Visual Studio Code". */
  lemma CaskIdentityExample()
    ensures DecodeCask(map["name" := JArr([JStr("Visual Studio Code")])]).Err?
    ensures DecodeCaskIntended(map["name" := JArr([JStr("Visual Studio Code")])]).Ok?
    ensures DecodeCaskIntended(map["name" := JArr([JStr("Visual Studio Code")])]).value.id == "Visual Studio Code"
  {
    var obj := map["name" := JArr([JStr("Visual Studio Code")])];
    assert IsStringArray(obj["name"]);
    CaskIntendedIdentity(obj);
  }

  // Reading back one encoded field: `written` is what the encoder put
  // under `key` (`None` when it omitted the key).

  lemma ReadStrings(m: JObject, key: string, v: Option<seq<string>>, written: Option<JVal>)
    requires written == OptJStrings(v)
    requires key in m <==> written.Some?
    requires key in m ==> m[key] == written.value
    ensures OptStringList(m, key) == Ok(v)
  {
  }

  lemma ReadInstalled(m: JObject, v: Option<seq<InstalledVersion>>, written: Option<JVal>)
    requires written == OptJInstalled(v)
    requires "installed" in m <==> written.Some?
    requires "installed" in m ==> m["installed"] == written.value
    ensures OptInstalled(m) == Ok(v)
  {
    if v.Some? {
      var r := DecodeEach(m["installed"].items, DecodeInstalledVersion);
      assert r.Ok?;
      assert r.value == v.value;
    }
  }
}
