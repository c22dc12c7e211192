# CozyBrew core, modelled in Dafny

CozyBrew is a macOS front end for Homebrew. This project models the layer
that turns brew's output into application state:

- the package records (formula, cask, installed version) and how their
  JSON is decoded, including the identity fallbacks and optional fields;
- the unified `Package` built from either record;
- `BrewResult` with its success flag and diagnostic text;
- the on-disk TTL cache (`BrewCache`);
- how a brew invocation is planned (`BrewProcess`, `BrewCommand`);
- how the brew binary is found (`BrewBinaryLocator`);
- the coordinator `BrewManager`: its initialisation, the three refreshes,
  search, the five mutations and its error texts;
- the sidebar items and `displayedPackages` list selector of the main window.

Everything is pure. Files, processes, the clock and JSON text are inputs:

- the cache directory is a map from file name to contents;
- the clock is an integer number of seconds;
- each process run is given by its outcome;
- brew's standard output arrives already parsed into a JSON value
  (`Json.JVal`), or as a parse error.

A coordinator operation is a function from the current state and those
outcomes to the next state. It also returns a trace of the cache reads,
runs, cache writes and list publications it made, in order.

Files:

| file | modules |
|---|---|
| `wrappers.dfy` | `Wrappers`: `Option`, `Result` |
| `text.dfy` | `Text`: whitespace trimming, substring search |
| `brew_results.dfy` | `BrewResults` |
| `json.dfy` | `Json`: JSON values and the keyed-container reads |
| `models.dfy` | `Models`, `ModelProperties` |
| `cache.dfy` | `Cache` |
| `locator.dfy` | `Locator` |
| `process.dfy` | `Process` |
| `manager.dfy` | `Manager`, `ManagerProperties` |
| `main_window.dfy` | `MainWindow`, `MainWindowProperties` |

How the Swift decoding calls are modelled:

- `decodeIfPresent` gives `Ok(None)` for an absent or null key, the value
  for the right type, and a type-mismatch error otherwise.
- `decode` also fails on an absent key and on null.
- A `?? b` fallback reads `b` only when the left side is nil.
- The synthesized encoder omits nil optionals.

## Model

| member | source | states |
|---|---|---|
| BrewResults.ErrorMessage | Sources/CozyBrewCore/BrewResult.swift:21-26 | the message is stderr when stderr is non-empty, otherwise stdout; it is empty exactly when both streams are empty |
| BrewResults.SuccessIgnoresStreams | Sources/CozyBrewCore/BrewResult.swift:16-18 | success holds exactly when the exit code is 0, whatever the two streams hold |
| Text.Trim | Sources/CozyBrewCore/BrewBinaryLocator.swift:67 | trimming leaves no whitespace or newline at either end, and removes only a whitespace prefix and a whitespace suffix |
| Text.TrimIdempotent | Sources/CozyBrewCore/BrewBinaryLocator.swift:67 | trimming twice is trimming once |
| Text.Contains | Sources/CozyBrewCore/BrewBinaryLocator.swift:38-40 | `contains` holds exactly when the substring occurs at some position |
| Json.OptString | Sources/CozyBrewService/Models.swift:115-117 | `decodeIfPresent(String)`: absent or null gives nil, a string gives itself, anything else is a type mismatch |
| Json.RequiredString | Sources/CozyBrewService/Models.swift:112-113 | `decode(String)`: succeeds exactly on a string, giving it; a missing key is key-not-found and null is value-not-found |
| Json.RequiredBool | Sources/CozyBrewService/Models.swift:15-31 | `decode(Bool)`: succeeds exactly on a boolean, giving it; a missing key is key-not-found |
| Json.OptBool | Sources/CozyBrewService/Models.swift:122-124 | `decodeIfPresent(Bool)`: absent or null gives nil, a boolean gives itself, anything else is a type mismatch |
| Json.DecodeEach | Sources/CozyBrewService/Models.swift:118-121 | an array decodes exactly when every element does, element by element and in order; a failure is the first failing element's error, every element before it decoding |
| Json.OptArray | Sources/CozyBrewService/Models.swift:118 | `decodeIfPresent([T])`: absent or null gives nil, a non-array is a type mismatch, and an array gives exactly its element-wise decoding |
| Json.RequiredArray | Sources/CozyBrewService/Models.swift:288-295 | `decode([T])`: an array gives its element-wise decoding; a missing key is key-not-found and null is value-not-found |
| Json.OptStringList | Sources/CozyBrewService/Models.swift:119-121 | `decodeIfPresent([String])`: absent or null gives nil; a list is returned exactly when the value is an array of strings, and it holds those strings |
| Models.DecodeInstalledVersion | Sources/CozyBrewService/Models.swift:15-31 | an installed-version record decodes exactly when it has a string `version` and booleans `installed_on_request` and `installed_as_dependency`, and it holds those values |
| Models.DecodeFormula | Sources/CozyBrewService/Models.swift:107-128 | a formula decodes exactly when `name` is a string and every other field is absent, null or of its declared type |
| ModelProperties.FormulaNeedsName | Sources/CozyBrewService/Models.swift:111-113 | a formula without a string `name` never decodes, even with an explicit `id` |
| ModelProperties.FormulaFields | Sources/CozyBrewService/Models.swift:111-127 | `id` is the explicit `id`, else `name`; `fullName` is `full_name`, else `name`; every optional field (desc, homepage, version, installed versions, the three name lists, the four flags and the two reasons) holds the value under its JSON key |
| ModelProperties.FormulaIdentityExample | Sources/CozyBrewService/Models.swift:110-112 | a record with only `name` "jq" decodes with identity "jq" |
| ModelProperties.FormulaRoundTrip | Sources/CozyBrewService/Models.swift:88-128 | decoding an encoded formula gives back the same formula |
| Models.CaskNameAsWritten | Sources/CozyBrewService/Models.swift:205-209 | the cask name reads succeed exactly when `name` is absent or null, and then give "" |
| ModelProperties.CaskWithNameNeverDecodes | Sources/CozyBrewService/Models.swift:206-207 | as written, a cask with any present `name` fails to decode |
| Models.DecodeCask | Sources/CozyBrewService/Models.swift:201-228 | as written, a cask decodes exactly when `name` is absent or null and every other field is absent, null or of its declared type |
| ModelProperties.CaskFallbacks | Sources/CozyBrewService/Models.swift:205-216 | a cask that decodes as written has name ""; `token` falls back to ""; `id` falls back to `token`, then to ""; `fullName` falls back to "" |
| ModelProperties.CaskAsWrittenRoundTripFails | Sources/CozyBrewService/Models.swift:206-207 | as written, no encoded cask decodes again |
| ModelProperties.NamedCaskFailsResponse | Sources/CozyBrewService/Models.swift:278-286 | as written, one named cask in the `casks` array fails the whole list response |
| ModelProperties.CaskIdentityExample | Sources/CozyBrewService/Models.swift:204-213 | `name` ["Visual Studio Code"] with no `id` or `token` fails as written; corrected, it gets identity "Visual Studio Code" |
| Models.CaskNameIntended | Sources/CozyBrewService/Models.swift:204-209 | corrected name read: a string gives itself, a string list gives its first element or "", absent gives ""; other shapes fail |
| Models.DecodeCaskIntended | Sources/CozyBrewService/Models.swift:201-228 | corrected, a cask decodes exactly when `name` is absent, a string or a string list, and every other field is absent, null or of its declared type |
| ModelProperties.CaskIntendedIdentity | Sources/CozyBrewService/Models.swift:211-216 | corrected, `id` falls back to `token`, then to the name; `token` and `fullName` fall back to the name |
| ModelProperties.CaskIntendedAgreesWithoutName | Sources/CozyBrewService/Models.swift:205-209 | the correction changes nothing for casks without a `name` |
| ModelProperties.CaskIntendedRoundTrip | Sources/CozyBrewService/Models.swift:183-228 | corrected, decoding an encoded cask gives back the same cask |
| Models.DecodePackageResponse | Sources/CozyBrewService/Models.swift:266-286 | a response decodes exactly when it is an object whose `formulae` and `casks` sections are each absent, null, or an array every element of which decodes; an absent or null section is nil; a present section holds each element's decoding, in order |
| ModelProperties.ResponseIntendedRoundTrip | Sources/CozyBrewService/Models.swift:266-286 | with the corrected cask decoder, decoding an encoded list response gives back the same response |
| ModelProperties.CaskResponseNeverDecodesAgain | Sources/CozyBrewService/Models.swift:206-207 | as written, an encoded list response holding at least one cask does not decode again |
| Models.DecodeTap | Sources/CozyBrewService/Models.swift:232-241 | a tap decodes exactly when `id`, `name`, `user`, `repo` and `path` are strings and `remote`, `official`, `customRemote` and `pinned` are absent, null or of their types; it holds those values |
| ModelProperties.TapRoundTrip | Sources/CozyBrewService/Models.swift:232-241 | decoding an encoded tap gives back the same tap |
| Models.DecodeTapResponse | Sources/CozyBrewService/Models.swift:288-295 | a tap response decodes exactly when `taps` is present and every element is a well-formed tap object, element by element and in order |
| Models.FromFormula | Sources/CozyBrewService/Models.swift:341-354 | tags the package as a formula and copies id, names, desc, homepage and version; installed exactly when `installed` is non-empty; outdated and deprecated exactly when the flag is true |
| Models.FromCask | Sources/CozyBrewService/Models.swift:357-370 | the same for a cask, tagged as a cask |
| ModelProperties.DecodedFormulaPackage | Sources/CozyBrewService/Models.swift:350-352 | from the JSON record: installed exactly when `installed` is a non-empty array, so absent, null and [] all give false; outdated and deprecated exactly when the flag is `true` |
| ModelProperties.DecodedCaskPackage | Sources/CozyBrewService/Models.swift:366-368 | the same for a cask decoded with the corrected name read |
| Cache.Save | Sources/CozyBrewService/BrewCache.swift:38-50 | saving writes the value's JSON document to the value file and a sidecar that reads back as the current time, adds no other file, and leaves every other file as it was |
| Cache.MetadataRoundTrip | Sources/CozyBrewService/BrewCache.swift:46-69 | the sidecar written at save time decodes to the time it was stamped with |
| Cache.Load | Sources/CozyBrewService/BrewCache.swift:58-84 | no value file is a miss; an entry strictly older than the TTL is a miss and deletes both files; otherwise the stored document is decoded as the requested type, a value is returned exactly when it decodes, and a failure is thrown with the entry left in place |
| Cache.FileNamesDistinct | Sources/CozyBrewService/BrewCache.swift:11-18 | no two keys share a value file or a sidecar, and no value file is a sidecar |
| Cache.SaveThenLoad | Sources/CozyBrewService/BrewCache.swift:38-84 | a saved value whose encoding decodes back loads back unchanged while its age is at most the TTL, the boundary included |
| Cache.UndecodableSaveKeepsFailing | Sources/CozyBrewService/BrewCache.swift:80-83 | a saved value whose encoding does not decode back makes every load within the TTL throw the decoder's error and keeps the entry |
| Cache.SaveThenExpire | Sources/CozyBrewService/BrewCache.swift:70-76 | past the TTL the entry loads as a miss and both of its files, and only those, are gone |
| Cache.DefaultTtlIsAnHour | Sources/CozyBrewService/BrewCache.swift:8-71 | a read without its own TTL keeps an entry for 3600 seconds after its save and misses one second later |
| Cache.ZeroTtlExpires | Sources/CozyBrewService/BrewCache.swift:70-71 | with TTL 0 any later read misses |
| Cache.NoMetadataNoExpiry | Sources/CozyBrewService/BrewCache.swift:68-69 | with a missing or unreadable sidecar a decodable stored value is returned whatever its age |
| Cache.SaveIsolated | Sources/CozyBrewService/BrewCache.swift:42-47 | saving one key changes nothing another key loads |
| Cache.SameEntrySameLoad | Sources/CozyBrewService/BrewCache.swift:59-60 | a load depends only on the key's own two files |
| Cache.Remove | Sources/CozyBrewService/BrewCache.swift:88-93 | removing a key deletes exactly its two files |
| Cache.RemoveMisses | Sources/CozyBrewService/BrewCache.swift:88-93 | after removal the key loads as a miss |
| Cache.RemoveIsolated | Sources/CozyBrewService/BrewCache.swift:88-93 | removal leaves every other key's files untouched |
| Cache.RemoveIdempotent | Sources/CozyBrewService/BrewCache.swift:91-92 | removing twice is removing once |
| Cache.ClearAll | Sources/CozyBrewService/BrewCache.swift:96-101 | clearing leaves no file in the directory |
| Cache.ClearAllEmpties | Sources/CozyBrewService/BrewCache.swift:96-101 | after clearing every key loads as a miss |
| Locator.AcceptedOutput | Sources/CozyBrewCore/BrewBinaryLocator.swift:65-70 | helper output is accepted only on exit 0, as valid UTF-8, and when it trims to a non-empty string, which is what is returned |
| Locator.RejectedIffBlank | Sources/CozyBrewCore/BrewBinaryLocator.swift:65-70 | helper output is rejected exactly when the run failed, exited non-zero, was not valid UTF-8 or held only whitespace |
| Locator.FindBrewWithWhich | Sources/CozyBrewCore/BrewBinaryLocator.swift:52-77 | runs `/usr/bin/which brew`; nothing exactly when that run failed, exited non-zero, wrote invalid UTF-8 or only whitespace; otherwise its trimmed, non-empty output |
| Locator.HomebrewPrefix | Sources/CozyBrewCore/BrewBinaryLocator.swift:82-107 | runs `/usr/bin/env <brewPath> --prefix`; no prefix exactly when that run failed, exited non-zero, wrote invalid UTF-8 or only whitespace; otherwise its trimmed, non-empty output |
| Locator.TrimEmptyIffAllWhitespace | Sources/CozyBrewCore/BrewBinaryLocator.swift:67-68 | output trims to nothing exactly when it is all whitespace |
| Locator.Classify | Sources/CozyBrewCore/BrewBinaryLocator.swift:37-44 | a path containing `/opt/homebrew` is Apple Silicon; else one containing `/usr/local` is Intel; else it is custom and carries the path |
| Locator.ClassifyStandardPaths | Sources/CozyBrewCore/BrewBinaryLocator.swift:6-9 | each standard path is classified as its own machine |
| Locator.ClassifyPrefersAppleSilicon | Sources/CozyBrewCore/BrewBinaryLocator.swift:38-41 | every path that mentions both prefixes is Apple Silicon: the first test wins |
| Locator.BothPrefixesExample | Sources/CozyBrewCore/BrewBinaryLocator.swift:38-41 | such paths exist: `/usr/local/opt/homebrew/bin/brew` mentions both prefixes and is Apple Silicon |
| Locator.Locate | Sources/CozyBrewCore/BrewBinaryLocator.swift:25-49 | the Apple Silicon path wins if it exists, then the Intel path; `which brew` decides only when neither exists, nothing is found exactly when it yields nothing, and its path is classified; a found path is non-empty and trimmed |
| Process.Init | Sources/CozyBrewCore/BrewProcess.swift:12-22 | the explicit path is used, else the located one, else `/usr/bin/env`; the environment is kept |
| Process.Merge | Sources/CozyBrewCore/BrewProcess.swift:42-45 | the merged environment has the keys of both, and the override wins on a shared key |
| Process.RunEnvironment | Sources/CozyBrewCore/BrewProcess.swift:42-46 | a per-call environment replaces the one from init; with neither, the ambient environment is used unchanged |
| Process.CallEnvironmentWins | Sources/CozyBrewCore/BrewProcess.swift:43-44 | a variable named per call gets the per-call value |
| Process.AmbientKept | Sources/CozyBrewCore/BrewProcess.swift:42-46 | a variable no override names keeps its ambient value |
| Process.Plan | Sources/CozyBrewCore/BrewProcess.swift:33-39 | the executable is the brew path; with `/usr/bin/env` the arguments are `brew` then the caller's, otherwise the caller's unchanged |
| Process.ArgumentsEndWithCallersArgs | Sources/CozyBrewCore/BrewProcess.swift:33-39 | the arguments always end with the caller's, with at most the word `brew` in front, and only for `/usr/bin/env` |
| Process.Run | Sources/CozyBrewCore/BrewProcess.swift:55-69 | only a launch failure throws; any exit status is returned, and an undecodable stream reads as "" |
| Process.CommandRunPlan | Sources/CozyBrewCore/BrewProcess.swift:80-84 | `BrewCommand.run` launches the located brew, or `env brew` when none is located, with its environment laid over the ambient one |
| Manager.InitManager | Sources/CozyBrewService/BrewManager.swift:46-63 | an explicit path is available exactly when it exists; a located path is available; with neither, brew is unavailable, has no path, and the process uses `/usr/bin/env` |
| Manager.MapFormulae | Sources/CozyBrewService/BrewManager.swift:324-326 | each formula is mapped to its package, in order |
| Manager.MapCasks | Sources/CozyBrewService/BrewManager.swift:327-329 | each cask is mapped to its package, in order |
| Manager.Packages | Sources/CozyBrewService/BrewManager.swift:322-331 | the published list is the mapped formulae then the mapped casks; an absent section adds nothing and the length is the sum |
| ManagerProperties.PackagesMembers | Sources/CozyBrewService/BrewManager.swift:322-331 | a package is in the published list exactly when it is the package of some formula or some cask of the response |
| ManagerProperties.FormulaeBeforeCasks | Sources/CozyBrewService/BrewManager.swift:322-331 | in a published list every formula precedes every cask |
| Manager.DecodeOutput | Sources/CozyBrewService/BrewManager.swift:87-88 | the output decodes exactly when it parses and the record decoder accepts it |
| Manager.ReadFlow | Sources/CozyBrewService/BrewManager.swift:74-101 | an unreadable cache stops the refresh before any run. Otherwise a cache hit is published first and brew is run. Only full success saves, publishes the fresh list and clears the error. Any failure keeps the list as the cache read left it, and a non-zero exit reports the result's `errorMessage` |
| Manager.RefreshInstalled | Sources/CozyBrewService/BrewManager.swift:68-102 | unavailable: only the error becomes "Homebrew is not available", with no effects. Available: only the installed list and the error change, loading ends, and the cache key and arguments are those of `list --json=v2` |
| Manager.RefreshOutdated | Sources/CozyBrewService/BrewManager.swift:105-139 | the same for the outdated list and `outdated --json=v2` |
| Manager.RefreshTaps | Sources/CozyBrewService/BrewManager.swift:142-176 | the same for the taps and `tap --json` |
| ManagerProperties.CacheFailureSkipsRun | Sources/CozyBrewService/BrewManager.swift:77-99 | when the cache read throws, brew is not run, and the error carries the "Failed to load installed packages: " prefix |
| ManagerProperties.ReadFlowSucceeds | Sources/CozyBrewService/BrewManager.swift:77-93 | when the run, the decoding and the cache write all succeed, the refresh ends with the fresh list and no error; its trace is: read the cache, publish any hit, run, save, publish the fresh list |
| ManagerProperties.CacheHitThenFresh | Sources/CozyBrewService/BrewManager.swift:79-93 | on a cache hit and a successful run, the cached list is published, then the fresh one is saved and published, and the fresh list is the final one |
| ManagerProperties.NonZeroExitKeepsList | Sources/CozyBrewService/BrewManager.swift:121-133 | a non-zero exit reports the result's message, saves nothing and keeps the list as the cache read left it |
| ManagerProperties.SavedCaskListBlocksRefresh | Sources/CozyBrewService/BrewManager.swift:77-98 | as written, once a list with a cask is saved, an installed refresh within the hour fails at the cache read, keeps the entry, runs nothing and reports the load error |
| ManagerProperties.SaveFailureKeepsCachedList | Sources/CozyBrewService/BrewManager.swift:153-172 | a failed cache write reports its error and keeps the cached taps |
| ManagerProperties.NamedCaskFailsRefresh | Sources/CozyBrewService/BrewManager.swift:84-98 | as written, brew output with one named cask makes the installed refresh report an error and save nothing |
| Manager.Search | Sources/CozyBrewService/BrewManager.swift:180-216 | an empty query or unavailable brew only clears the results. Otherwise brew runs `search --json=v2 <query>` and nothing else. Success publishes the decoded packages and clears the error; any failure clears the results |
| ManagerProperties.SearchLeavesCacheAlone | Sources/CozyBrewService/BrewManager.swift:189-191 | a search never reads or writes the cache |
| ManagerProperties.SearchFailureClears | Sources/CozyBrewService/BrewManager.swift:180-216 | every failed search, and every empty query, leaves no results |
| Manager.PackageArgs | Sources/CozyBrewService/BrewManager.swift:227-231 | the arguments are the verb, then `--cask` exactly for a cask, then the full name |
| ManagerProperties.PackageArgsInjective | Sources/CozyBrewService/BrewManager.swift:250-254 | the arguments determine the verb, the full name and whether the package is a cask |
| Manager.Mutate | Sources/CozyBrewService/BrewManager.swift:222-318 | unavailable brew throws "not available" before any run. A launch error propagates. A non-zero exit throws the verb's error carrying stderr unchanged and changes no state. Nothing is thrown exactly when the run succeeds |
| ManagerProperties.InstallThenRefresh | Sources/CozyBrewService/BrewManager.swift:233-240 | a successful install ends in the state of a refresh of the installed list |
| ManagerProperties.UpgradeThenRefreshBoth | Sources/CozyBrewService/BrewManager.swift:279-287 | a successful upgrade refreshes the installed list, then the outdated list |
| ManagerProperties.UpdateRefreshesNothing | Sources/CozyBrewService/BrewManager.swift:308-318 | a successful update changes no state and runs nothing after `update` |
| Manager.ErrorDescription | Sources/CozyBrewService/BrewManager.swift:353-366 | "not available" has its fixed text; every other error's description ends with the error's stderr, after a non-empty prefix |
| ManagerProperties.ErrorDescriptionInjective | Sources/CozyBrewService/BrewManager.swift:353-366 | distinct manager errors have distinct descriptions |
| MainWindow.OfKind | Sources/CozyBrewUIComponents/MainWindowView.swift:218-221 | the filtered list is no longer than the list and holds only packages of the kind |
| MainWindowProperties.OfKindMembers | Sources/CozyBrewUIComponents/MainWindowView.swift:218-221 | a package is in a filtered view exactly when it is in the list and of the view's kind |
| MainWindow.DisplayedPackages | Sources/CozyBrewUIComponents/MainWindowView.swift:208-225 | search text shows the search results. Otherwise Installed and Outdated show their lists, Formulae and Casks show the installed packages of that kind, and Taps or no selection shows nothing |
| MainWindowProperties.SearchOverridesSidebar | Sources/CozyBrewUIComponents/MainWindowView.swift:209-211 | with search text, every sidebar selection shows the same list |
| MainWindowProperties.OfKindIsSubsequence | Sources/CozyBrewUIComponents/MainWindowView.swift:218-221 | the Formulae and Casks views keep the installed order |
| MainWindowProperties.OfKindCounts | Sources/CozyBrewUIComponents/MainWindowView.swift:218-221 | the filter keeps every copy of a package of its kind and nothing else |
| MainWindowProperties.OfKindPartition | Sources/CozyBrewService/Models.swift:298-301 | the Formulae and Casks views together hold exactly the installed list |
| MainWindowProperties.OfKindAppend | Sources/CozyBrewUIComponents/MainWindowView.swift:218-221 | filtering distributes over concatenation |
| MainWindowProperties.ViewsOfPublishedList | Sources/CozyBrewService/BrewManager.swift:322-331 | after the installed list is published from a response, the Formulae view is its mapped formulae and the Casks view is its mapped casks |
| MainWindowProperties.RawValuesDistinct | Sources/CozyBrewUIComponents/MainWindowView.swift:90-96 | the sidebar items' raw values, which are their identifiers, are pairwise distinct |
| MainWindowProperties.AllCasesComplete | Sources/CozyBrewUIComponents/MainWindowView.swift:90-95 | every sidebar item is listed exactly once |

## Left out

- Process spawning, pipes and waiting for exit are left out. Every run is given by its outcome (`Locator.Probe`, `Process.Outcome`, the `run` fields of the coordinator inputs).
- File reads and writes, and the Application Support path, are left out. The cache directory is a map, and the cache's own constructor is not modelled.
- JSON text is not parsed. Standard output arrives as a parsed `JVal` or as a parse error's description. The cache holds the encoded JSON document of a value, read back with the decoder of the requested type; the metadata sidecar holds a `timestamp` number; a file that is not JSON at all is `Garbled`.
- `Date` and `TimeInterval` are floating point in the source; the model uses whole seconds. Because of this, a TTL-0 read in the same second as the save is still a hit. In the source, any elapsed time at all is positive.
- The date strategy of the metadata file is not modelled. It is written and read with the default date strategy rather than ISO-8601; here the `timestamp` is a whole number of seconds.
- Cache.Save: a failure between the value write and the sidecar write is not modelled. Such a failure can leave a value file with no sidecar, which then never expires. The coordinator instead takes the write's outcome as an input.
- Cache.ClearAll: the failure to list the directory, which throws, is not modelled.
- Manager.DecodeErrorText: the descriptions Foundation gives decoding errors are not part of the source. The two fixed texts stand for them.
- `BrewInstaller.swift` is not part of this model: it is network download and concurrent stream readers.
- `@MainActor`, `@Published` and Combine are not modelled, nor are overlapping asynchronous refreshes. Operations run one at a time. The `isLoading == true` phase inside a refresh is visible only through the effect trace.
- The progress handler of `install` is never called by the source, so it is not modelled.
- `Formula`, `Cask`, `Tap` and `InstalledVersion` encoding are modelled only far enough to state the round trips. Key order and formatting are not modelled.
- `SidebarItem.icon` and all view bodies, layout and app lifecycle are left out.
- Text.Contains: compares Unicode scalars one by one. Swift's `String.contains` compares grapheme clusters, so for example a combining mark right after `/usr/local` can make Swift report no match where this model reports one.
- Locator.Locate: the filesystem is fixed for the whole call. The source checks two paths one after the other, and the filesystem could change between the checks.
- Manager.InitManager: `BrewProcess()` locates brew a second time, which this model treats as giving the same answer on the same host.

## Where the code and the design description differ

The model follows the code in each case:

- The design says an entry whose metadata cannot be read counts as absent. The code (BrewCache.swift:68-77) instead skips the age check and returns the value. `Cache.NoMetadataNoExpiry` states the code's behaviour.
- The design calls for ISO-8601 timestamps in the metadata file. The code writes and reads the metadata with the default date strategy (BrewCache.swift:48, 69). Either way the model stores a whole number of seconds.
- The design says a save is atomic. The code writes the value file, then the metadata file, as two separate writes (BrewCache.swift:43-49).

## Findings

| source | as written | input that shows it | evidently intended | confidence | as-written member | corrected member |
|---|---|---|---|---|---|---|
| Sources/CozyBrewService/Models.swift:206-207 | The cask `name` is read as `[String]` and then as `String`, both with `try`. A present `name` of either shape makes one of the two reads throw, so the cask fails to decode | `{"token": "visual-studio-code", "name": ["Visual Studio Code"]}`, the shape brew emits, fails to decode. As a result any list or search output with such a cask fails as a whole, no encoded cask decodes back, and a list that holds a cask, once cached, makes every installed refresh in the next hour fail at the cache read | a string `name` is taken as is, a list gives its first element, and absent gives "" | not executed | ModelProperties.CaskWithNameNeverDecodes | ModelProperties.CaskIntendedRoundTrip |

The as-written decoder is `Models.DecodeCask`. Its consequences are shown by:

- `ModelProperties.CaskAsWrittenRoundTripFails`
- `ModelProperties.NamedCaskFailsResponse`
- `ModelProperties.CaskResponseNeverDecodesAgain`
- `ManagerProperties.NamedCaskFailsRefresh`
- `Cache.UndecodableSaveKeepsFailing` with `ManagerProperties.SavedCaskListBlocksRefresh`

The corrected decoder is `Models.DecodeCaskIntended`. Its shape, identity chain and round trip are proved by:

- `Models.DecodeCaskIntended`
- `ModelProperties.CaskIntendedIdentity`
- `ModelProperties.CaskIntendedRoundTrip`
- `ModelProperties.ResponseIntendedRoundTrip`

The coordinator keeps the as-written decoder, so that it behaves as the application does.
