/** `BrewBinaryLocator`: where the brew executable is looked for. The
    filesystem is the set of paths that exist, and each helper process
    (`which brew`, `brew --prefix`) is given as its outcome. */
module Locator {
  import opened Wrappers
  import opened Text
  import opened BrewResults

  /** The standard installation path on Apple Silicon Macs. */
  const AppleSiliconPath := "/opt/homebrew/bin/brew"

  /** The standard installation path on Intel Macs. */
  const IntelPath := "/usr/local/bin/brew"

  const WhichPath := "/usr/bin/which"
  const EnvPath := "/usr/bin/env"

  /** `BrewPath.Architecture`. */
  datatype Architecture = AppleSilicon | Intel | Custom(path: string)

  /** `BrewPath`. */
  datatype BrewPath = BrewPath(path: string, architecture: Architecture)

  /** The outcome of running a helper process that prints one line: it
      could not be launched, or it exited with a status and a standard
      output that is `None` when it is not valid UTF-8. */
  datatype Probe = NotLaunched | Exited(status: int32, output: Option<string>)

  /** An executable and its arguments. */
  datatype Command = Command(executable: string, arguments: seq<string>)

  /** The machine as the locator sees it: the paths that exist, and what
      running each helper command would give. */
  datatype Host = Host(existing: set<string>, run: Command -> Probe)

  /** How `findBrewWithWhich` and `getHomebrewPrefix` read a helper's
      output: only after exit status zero, only valid UTF-8, trimmed of
      surrounding whitespace and newlines, and only when not empty. */
  function AcceptedOutput(p: Probe): (r: Option<string>)
    ensures r.Some? <==> p.Exited? && p.status == 0 && p.output.Some? && Trim(p.output.value) != ""
    ensures r.Some? ==> r.value == Trim(p.output.value)
    ensures r.Some? ==> NoEdgeWhitespace(r.value) && r.value != ""
  {
    match p
    case NotLaunched => None
    case Exited(status, output) =>
      if status != 0 || output.None? then None
      else
        var trimmed := Trim(output.value);
        if |trimmed| == 0 then None else Some(trimmed)
  }

  /** Helper output is rejected exactly when the run failed, exited
      non-zero, was not valid UTF-8 or held only whitespace. */
  lemma RejectedIffBlank(p: Probe)
    ensures AcceptedOutput(p).None? <==> !(p.Exited? && p.status == 0) || p.output.None? || AllWhitespace(p.output.value)
  {
    if p.Exited? && p.output.Some? {
      TrimEmptyIffAllWhitespace(p.output.value);
    }
  }

  /** The process `findBrewWithWhich` runs. */
  function WhichCommand(): Command {
    Command(WhichPath, ["brew"])
  }

  /** `findBrewWithWhich()`: the trimmed output of `/usr/bin/which brew`
      as run on the host, when it exited zero and printed something. */
  function FindBrewWithWhich(run: Command -> Probe): (r: Option<string>)
    ensures var p := run(Command(WhichPath, ["brew"]));
      && (r.None? <==> !(p.Exited? && p.status == 0) || p.output.None? || AllWhitespace(p.output.value))
      && (r.Some? ==> r.value == Trim(p.output.value) && r.value != "")
  {
    var p := run(WhichCommand());
    RejectedIffBlank(p);
    AcceptedOutput(p)
  }

  /** The process `getHomebrewPrefix(brewPath:)` runs. */
  function PrefixCommand(brewPath: string): Command {
    Command(EnvPath, [brewPath, "--prefix"])
  }

  /** `getHomebrewPrefix(brewPath:)`: the trimmed output of
      `/usr/bin/env <brewPath> --prefix`, as run on the host, when it exited
      zero and printed something other than whitespace. */
  function HomebrewPrefix(brewPath: string, run: Command -> Probe): (r: Option<string>)
    ensures var p := run(Command(EnvPath, [brewPath, "--prefix"]));
      && (r.None? <==> !(p.Exited? && p.status == 0) || p.output.None? || AllWhitespace(p.output.value))
      && (r.Some? ==> r.value == Trim(p.output.value) && r.value != "" && NoEdgeWhitespace(r.value))
  {
    var p := run(PrefixCommand(brewPath));
    RejectedIffBlank(p);
    AcceptedOutput(p)
  }

  /** A string trims to nothing exactly when it is all whitespace. */
  lemma TrimEmptyIffAllWhitespace(s: string)
    ensures Trim(s) == "" <==> AllWhitespace(s)
  {
    var i := LeadingSpace(s);
    var t := Trim(s);
    if t == "" {
      forall k | 0 <= k < |s| ensures IsWhitespace(s[k]) {
        assert s[..i][k] == s[k];
      }
    } else {
      assert s[i..i + |t|][0] == s[i];
    }
  }

  /** The architecture read off a path found with `which`: the first test
      that matches wins. */
  function Classify(path: string): (a: Architecture)
    ensures a == AppleSilicon <==> Contains(path, "/opt/homebrew")
    ensures a == Intel <==> !Contains(path, "/opt/homebrew") && Contains(path, "/usr/local")
    ensures a.Custom? ==> a.path == path
  {
    if Contains(path, "/opt/homebrew") then AppleSilicon
    else if Contains(path, "/usr/local") then Intel
    else Custom(path)
  }

  /** `locate()`: the Apple Silicon path, then the Intel path, then
      `which brew`; `None` when all three come up empty. */
  function Locate(h: Host): (r: Option<BrewPath>)
    ensures AppleSiliconPath in h.existing ==> r == Some(BrewPath(AppleSiliconPath, AppleSilicon))
    ensures AppleSiliconPath !in h.existing && IntelPath in h.existing ==> r == Some(BrewPath(IntelPath, Intel))
    ensures AppleSiliconPath !in h.existing && IntelPath !in h.existing ==>
      (r.None? <==> FindBrewWithWhich(h.run).None?)
    ensures AppleSiliconPath !in h.existing && IntelPath !in h.existing && r.Some? ==>
      r.value.path == FindBrewWithWhich(h.run).value && r.value.architecture == Classify(r.value.path)
    ensures r.Some? ==> r.value.path != "" && NoEdgeWhitespace(r.value.path)
  {
    if AppleSiliconPath in h.existing then Some(BrewPath(AppleSiliconPath, AppleSilicon))
    else if IntelPath in h.existing then Some(BrewPath(IntelPath, Intel))
    else match FindBrewWithWhich(h.run)
      case Some(path) => Some(BrewPath(path, Classify(path)))
      case None => None
  }

  /** The two standard paths are classified as the machines they belong to. */
  lemma ClassifyStandardPaths()
    ensures Classify(AppleSiliconPath) == AppleSilicon
    ensures Classify(IntelPath) == Intel
  {
    assert OccursAt(AppleSiliconPath, "/opt/homebrew", 0);
    assert OccursAt(IntelPath, "/usr/local", 0);
    MissingCharacter(IntelPath, "/opt/homebrew", 'p');
  }

  /** Any path that mentions `/opt/homebrew` is Apple Silicon, whether or
      not it also mentions `/usr/local`: the first test wins. */
  lemma ClassifyPrefersAppleSilicon(path: string)
    requires Contains(path, "/opt/homebrew") && Contains(path, "/usr/local")
    ensures Classify(path) == AppleSilicon
  {
  }

  /** Paths that mention both prefixes exist: `/usr/local/opt/homebrew/bin/brew`
      is one, and it is classified as Apple Silicon. */
  lemma BothPrefixesExample()
    ensures var both := "/usr/local" + AppleSiliconPath;
      && Contains(both, "/opt/homebrew") && Contains(both, "/usr/local")
      && Classify(both) == AppleSilicon
  {
    var both := "/usr/local" + AppleSiliconPath;
    assert both[10..23] == AppleSiliconPath[..13];
    assert OccursAt(both, "/opt/homebrew", 10);
    assert OccursAt(both, "/usr/local", 0);
  }

  /** `sub` does not occur in `s` when one of its characters never appears in `s`. */
  lemma MissingCharacter(s: string, sub: string, c: char)
    requires c in sub && c !in s
    ensures !Contains(s, sub)
  {
    var j :| 0 <= j < |sub| && sub[j] == c;
    forall i: nat ensures !OccursAt(s, sub, i) {
      if i + |sub| <= |s| {
        assert s[i..i + |sub|][j] == s[i + j];
      }
    }
  }
}
