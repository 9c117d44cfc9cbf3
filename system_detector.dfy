/**
 * The local system detector (system_detector.py): per-fact chains of probes with
 * a platform fallback, each writing its evidence under a fixed key of the
 * detector's evidence map, and `detect_all`, which copies that map into the
 * result. The shell is an oracle and the `platform` module's values are inputs.
 */
module SystemDetection {
  import opened Wrappers
  import opened Text
  import opened Utils

  /** What the `platform` module reports on this machine. */
  datatype PlatformFacts = PlatformFacts(
    system: string,     // platform.system()
    version: string,    // platform.version()
    macVer: string,     // platform.mac_ver()[0]
    release: string,    // platform.release()
    processor: string,  // platform.processor()
    machine: string,    // platform.machine()
    node: string)       // platform.node()

  // ---------------------------------------------------------------- probe chains

  /** How a probe's output becomes the detected value. */
  datatype Shape =
    | AsIs        // the output
    | FirstWord   // output.split()[0]
    | Stripped    // output.strip()
    | SecondLine  // output.split('\n')[1].strip(), only when there is a second line

  /** A command and how its output is read. */
  datatype Probe = Probe(command: string, shape: Shape)

  /** What happens when no probe gives a value: a constant, or a recorded platform value. */
  datatype Fallback =
    | Silent(value: string)
    | Recorded(source: string, raw: string, value: string)

  /** A detected value and the evidence the chain left under its key, if any. */
  datatype Outcome = Outcome(value: string, evidence: Option<Evidence>)

  /** Whether a hit's output gives a value of this shape. */
  predicate Accepts(shape: Shape, output: string) {
    shape.SecondLine? ==> |SplitOn(output, "\n")| > 1
  }

  /** The value a hit gives. */
  function Apply(shape: Shape, output: string): string
    requires Accepts(shape, output)
    requires !AllSpace(output)
  {
    match shape
    case AsIs => output
    case FirstWord => Words(output)[0]
    case Stripped => Strip(output)
    case SecondLine => Strip(SplitOn(output, "\n")[1])
  }

  /** Whether a reply counts as a hit: it succeeded with output. */
  predicate Hit(r: Reply) {
    r.success && r.output != ""
  }

  /** Whether a reply gives a probe of this shape its value. */
  predicate Settled(r: Reply, shape: Shape) {
    Hit(r) && Accepts(shape, r.output)
  }

  /** Whether probe `p` succeeds with output. */
  predicate Hits(shell: Shell, p: Probe) {
    Hit(ExecuteCommand(shell, p.command))
  }

  /** Whether probe `p` gives the chain its value. */
  predicate Settles(shell: Shell, p: Probe) {
    Settled(ExecuteCommand(shell, p.command), p.shape)
  }

  /** The replies the probes of a chain get, in order. */
  function Replies(shell: Shell, probes: seq<Probe>): (rs: seq<Reply>)
    ensures |rs| == |probes|
  {
    seq(|probes|, j requires 0 <= j < |probes| => ExecuteCommand(shell, probes[j].command))
  }

  /** No hit is blank. */
  predicate HitsNotBlank(rs: seq<Reply>) {
    forall j :: 0 <= j < |rs| ==> Hit(rs[j]) ==> !AllSpace(rs[j].output)
  }

  /** Local replies are stripped, so no hit among them is blank. */
  lemma RepliesNotBlank(shell: Shell, probes: seq<Probe>)
    ensures HitsNotBlank(Replies(shell, probes))
  {
    var rs := Replies(shell, probes);
    forall j | 0 <= j < |rs| && Hit(rs[j])
      ensures !AllSpace(rs[j].output)
    {
      HitIsStripped(shell, probes[j].command);
    }
  }

  /**
   * A try-then-fallback chain from probe `i` on, given the replies: every hit
   * writes its evidence, the first hit whose output has the right shape gives the
   * value, and the fallback applies when none does; `written` is the evidence
   * already left.
   */
  function Chain(rs: seq<Reply>, probes: seq<Probe>, i: nat, fallback: Fallback, written: Option<Evidence>): (o: Outcome)
    requires |rs| == |probes| && i <= |probes| && HitsNotBlank(rs)
    ensures fallback.Recorded? ==> o.evidence.Some?
    ensures written.Some? ==> o.evidence.Some?
    decreases |probes| - i
  {
    if i == |probes| then
      match fallback
      case Silent(v) => Outcome(v, written)
      case Recorded(source, raw, v) => Outcome(v, Some(Evidence(source, raw)))
    else if Hit(rs[i]) then
      if Accepts(probes[i].shape, rs[i].output) then
        Outcome(Apply(probes[i].shape, rs[i].output), Some(Evidence(probes[i].command, rs[i].output)))
      else Chain(rs, probes, i + 1, fallback, Some(Evidence(probes[i].command, rs[i].output)))
    else Chain(rs, probes, i + 1, fallback, written)
  }

  /** The chain of probes from `i` on, run against the shell. */
  function Waterfall(shell: Shell, probes: seq<Probe>, i: nat, fallback: Fallback, written: Option<Evidence>): (o: Outcome)
    requires i <= |probes|
    ensures fallback.Recorded? ==> o.evidence.Some?
    ensures written.Some? ==> o.evidence.Some?
  {
    RepliesNotBlank(shell, probes);
    Chain(Replies(shell, probes), probes, i, fallback, written)
  }

  /** `evidences[key] = e` when the chain left evidence, nothing otherwise. */
  function Record(evidences: map<string, Evidence>, key: string, o: Outcome): map<string, Evidence> {
    if o.evidence.Some? then evidences[key := o.evidence.value] else evidences
  }

  /** A probe that does not hit leaves the chain to the next one, with nothing written. */
  lemma WaterfallMiss(shell: Shell, probes: seq<Probe>, i: nat, fallback: Fallback, written: Option<Evidence>)
    requires i < |probes| && !Hits(shell, probes[i])
    ensures Waterfall(shell, probes, i, fallback, written) == Waterfall(shell, probes, i + 1, fallback, written)
  {
    RepliesNotBlank(shell, probes);
    assert Replies(shell, probes)[i] == ExecuteCommand(shell, probes[i].command);
  }

  /** A probe that hits with output of the wrong shape writes its evidence and leaves the chain to the next one. */
  lemma WaterfallReject(shell: Shell, probes: seq<Probe>, i: nat, fallback: Fallback, written: Option<Evidence>)
    requires i < |probes| && Hits(shell, probes[i]) && !Settles(shell, probes[i])
    ensures var r := ExecuteCommand(shell, probes[i].command);
      Waterfall(shell, probes, i, fallback, written)
        == Waterfall(shell, probes, i + 1, fallback, Some(Evidence(probes[i].command, r.output)))
  {
    RepliesNotBlank(shell, probes);
    assert Replies(shell, probes)[i] == ExecuteCommand(shell, probes[i].command);
  }

  /** A probe that settles gives the chain's value and evidence. */
  lemma WaterfallSettle(shell: Shell, probes: seq<Probe>, i: nat, fallback: Fallback, written: Option<Evidence>)
    requires i < |probes| && Settles(shell, probes[i])
    ensures var r := ExecuteCommand(shell, probes[i].command);
      !AllSpace(r.output) &&
      Waterfall(shell, probes, i, fallback, written)
        == Outcome(Apply(probes[i].shape, r.output), Some(Evidence(probes[i].command, r.output)))
  {
    RepliesNotBlank(shell, probes);
    assert Replies(shell, probes)[i] == ExecuteCommand(shell, probes[i].command);
  }

  /** The first reply that settles decides the chain. */
  lemma {:induction false} ChainFirstSettles(rs: seq<Reply>, probes: seq<Probe>, i: nat, k: nat,
                                             fallback: Fallback, written: Option<Evidence>)
    requires |rs| == |probes| && HitsNotBlank(rs)
    requires i <= k < |probes| && Settled(rs[k], probes[k].shape)
    requires forall j :: i <= j < k ==> !Settled(rs[j], probes[j].shape)
    ensures !AllSpace(rs[k].output)
    ensures Chain(rs, probes, i, fallback, written)
         == Outcome(Apply(probes[k].shape, rs[k].output), Some(Evidence(probes[k].command, rs[k].output)))
    decreases k - i
  {
    if i < k {
      if Hit(rs[i]) {
        ChainFirstSettles(rs, probes, i + 1, k, fallback, Some(Evidence(probes[i].command, rs[i].output)));
      } else {
        ChainFirstSettles(rs, probes, i + 1, k, fallback, written);
      }
    }
  }

  /** With no reply settling, the fallback decides the chain's value. */
  lemma {:induction false} ChainNoneSettles(rs: seq<Reply>, probes: seq<Probe>, i: nat,
                                            fallback: Fallback, written: Option<Evidence>)
    requires |rs| == |probes| && HitsNotBlank(rs) && i <= |probes|
    requires forall j :: i <= j < |probes| ==> !Settled(rs[j], probes[j].shape)
    ensures var o := Chain(rs, probes, i, fallback, written);
      && o.value == fallback.value
      && (fallback.Recorded? ==> o.evidence == Some(Evidence(fallback.source, fallback.raw)))
      && (fallback.Silent? && (forall j :: i <= j < |probes| ==> !Hit(rs[j])) ==> o.evidence == written)
    decreases |probes| - i
  {
    if i < |probes| {
      if Hit(rs[i]) {
        ChainNoneSettles(rs, probes, i + 1, fallback, Some(Evidence(probes[i].command, rs[i].output)));
      } else {
        ChainNoneSettles(rs, probes, i + 1, fallback, written);
      }
    }
  }

  /**
   * The first probe that settles decides: its shaped output is the value and its
   * command and raw output are the evidence.
   */
  lemma WaterfallFirstSettles(shell: Shell, probes: seq<Probe>, i: nat, k: nat,
                              fallback: Fallback, written: Option<Evidence>)
    requires i <= k < |probes| && Settles(shell, probes[k])
    requires forall j :: i <= j < k ==> !Settles(shell, probes[j])
    ensures var r := ExecuteCommand(shell, probes[k].command);
      !AllSpace(r.output) &&
      Waterfall(shell, probes, i, fallback, written)
        == Outcome(Apply(probes[k].shape, r.output), Some(Evidence(probes[k].command, r.output)))
  {
    var rs := Replies(shell, probes);
    RepliesNotBlank(shell, probes);
    assert rs[k] == ExecuteCommand(shell, probes[k].command);
    forall j | i <= j < k
      ensures !Settled(rs[j], probes[j].shape)
    {
      assert rs[j] == ExecuteCommand(shell, probes[j].command);
    }
    ChainFirstSettles(rs, probes, i, k, fallback, written);
  }

  /**
   * When no probe settles, the fallback gives the value; a recorded fallback
   * replaces any evidence, and a silent one keeps the last evidence written,
   * which is none when no probe even hit.
   */
  lemma WaterfallNoneSettles(shell: Shell, probes: seq<Probe>, i: nat,
                             fallback: Fallback, written: Option<Evidence>)
    requires i <= |probes|
    requires forall j :: i <= j < |probes| ==> !Settles(shell, probes[j])
    ensures var o := Waterfall(shell, probes, i, fallback, written);
      && o.value == fallback.value
      && (fallback.Recorded? ==> o.evidence == Some(Evidence(fallback.source, fallback.raw)))
      && (fallback.Silent? && (forall j :: i <= j < |probes| ==> !Hits(shell, probes[j])) ==> o.evidence == written)
  {
    var rs := Replies(shell, probes);
    RepliesNotBlank(shell, probes);
    forall j | i <= j < |probes|
      ensures rs[j] == ExecuteCommand(shell, probes[j].command)
    {
    }
    ChainNoneSettles(rs, probes, i, fallback, written);
  }

  // ---------------------------------------------------------------- the detectors

  const DistroProbes: seq<Probe> := [
    Probe("cat /etc/os-release 2>/dev/null | grep '^NAME=' | cut -d'=' -f2 | tr -d '\"'", FirstWord),
    Probe("lsb_release -si 2>/dev/null", Stripped),
    Probe("cat /etc/issue 2>/dev/null | head -n 1", FirstWord)]

  const LinuxVersionProbes: seq<Probe> := [
    Probe("cat /etc/os-release 2>/dev/null | grep '^VERSION_ID=' | cut -d'=' -f2 | tr -d '\"'", AsIs),
    Probe("lsb_release -sr 2>/dev/null", AsIs),
    Probe("uname -r", AsIs)]

  const LinuxCpuProbes: seq<Probe> := [
    Probe("cat /proc/cpuinfo | grep 'model name' | head -n 1 | cut -d':' -f2", Stripped),
    Probe("lscpu | grep 'Model name' | cut -d':' -f2", Stripped)]

  predicate IsDarwin(facts: PlatformFacts) { facts.system == "Darwin" }
  predicate IsLinux(facts: PlatformFacts) { facts.system == "Linux" }
  predicate IsWindows(facts: PlatformFacts) { facts.system == "Windows" }

  /** `_detect_linux_distro`: os-release, lsb_release, /etc/issue, else "Linux" with no evidence. */
  function DistroOutcome(shell: Shell): Outcome {
    Waterfall(shell, DistroProbes, 0, Silent("Linux"), None)
  }

  /** `detect_os`; only the Linux branch probes, under `linux_distro`. */
  function OsOutcome(shell: Shell, facts: PlatformFacts): (o: Outcome)
    ensures IsDarwin(facts) ==> o == Outcome("macOS", None)
    ensures IsWindows(facts) ==> o == Outcome("Windows", None)
    ensures !IsDarwin(facts) && !IsLinux(facts) && !IsWindows(facts) ==> o == Outcome(facts.system, None)
  {
    if IsDarwin(facts) then Outcome("macOS", None)
    else if IsLinux(facts) then DistroOutcome(shell)
    else if IsWindows(facts) then Outcome("Windows", None)
    else Outcome(facts.system, None)
  }

  /** `detect_os_version` and its per-platform chains, under `os_version`. */
  function VersionOutcome(shell: Shell, facts: PlatformFacts): Outcome {
    var generic := Recorded("platform.version()", facts.version, facts.version);
    if IsDarwin(facts) then
      Waterfall(shell, [Probe("sw_vers -productVersion", AsIs)], 0,
                Recorded("platform.mac_ver()", facts.macVer, facts.macVer), None)
    else if IsLinux(facts) then Waterfall(shell, LinuxVersionProbes, 0, generic, None)
    else if IsWindows(facts) then Waterfall(shell, [Probe("ver", AsIs)], 0, generic, None)
    else Waterfall(shell, [], 0, generic, None)
  }

  /** The probes `detect_kernel_version` runs on a platform. */
  function KernelProbes(facts: PlatformFacts): seq<Probe> {
    if IsDarwin(facts) || IsLinux(facts) then [Probe("uname -r", AsIs)]
    else if IsWindows(facts) then [Probe("ver", AsIs)]
    else []
  }

  /** `detect_kernel_version`, under `kernel`. */
  function KernelOutcome(shell: Shell, facts: PlatformFacts): Outcome {
    Waterfall(shell, KernelProbes(facts), 0, Recorded("platform.release()", facts.release, facts.release), None)
  }

  /** The probes `detect_cpu` runs on a platform. */
  function CpuProbes(facts: PlatformFacts): seq<Probe> {
    if IsDarwin(facts) then [Probe("sysctl -n machdep.cpu.brand_string", AsIs)]
    else if IsLinux(facts) then LinuxCpuProbes
    else if IsWindows(facts) then [Probe("wmic cpu get name", SecondLine)]
    else []
  }

  /** The processor fallback of every CPU chain: "Unknown" for an empty processor string. */
  function ProcessorFallback(facts: PlatformFacts): Fallback {
    Recorded("platform.processor()", facts.processor, if facts.processor != "" then facts.processor else "Unknown")
  }

  /** `detect_cpu`, under `cpu`. */
  function CpuOutcome(shell: Shell, facts: PlatformFacts): Outcome {
    Waterfall(shell, CpuProbes(facts), 0, ProcessorFallback(facts), None)
  }

  /** The command `detect_architecture` runs. */
  function ArchitectureCommand(facts: PlatformFacts): string {
    if IsWindows(facts) then "echo %PROCESSOR_ARCHITECTURE%" else "uname -m"
  }

  /** `detect_architecture`, under `architecture`. */
  function ArchitectureOutcome(shell: Shell, facts: PlatformFacts): Outcome {
    Waterfall(shell, [Probe(ArchitectureCommand(facts), AsIs)], 0,
              Recorded("platform.machine()", facts.machine, facts.machine), None)
  }

  /** `detect_hostname`, under `hostname`. */
  function HostnameOutcome(shell: Shell, facts: PlatformFacts): Outcome {
    Waterfall(shell, [Probe("hostname", AsIs)], 0, Recorded("platform.node()", facts.node, facts.node), None)
  }

  /** The evidence map after the six detectors ran in `detect_all`'s order. */
  function Evidences(shell: Shell, facts: PlatformFacts, start: map<string, Evidence>): map<string, Evidence> {
    var e := Record(start, "linux_distro", OsOutcome(shell, facts));
    var e := Record(e, "os_version", VersionOutcome(shell, facts));
    var e := Record(e, "kernel", KernelOutcome(shell, facts));
    var e := Record(e, "cpu", CpuOutcome(shell, facts));
    var e := Record(e, "architecture", ArchitectureOutcome(shell, facts));
    Record(e, "hostname", HostnameOutcome(shell, facts))
  }

  /** Local system information: evidence entries are `Evidence.to_dict` dictionaries. */
  type LocalInfo = SystemInfo<map<string, string>>

  /** Every evidence entry in dictionary form. */
  function EvidenceDicts(evidences: map<string, Evidence>): map<string, map<string, string>> {
    map k | k in evidences :: evidences[k].ToDict()
  }

  /** `detect_all`'s result, for a detector whose evidence map held `start`. */
  function SystemInfoOf(shell: Shell, facts: PlatformFacts, start: map<string, Evidence>): LocalInfo {
    SystemInfo(
      OsOutcome(shell, facts).value, VersionOutcome(shell, facts).value, KernelOutcome(shell, facts).value,
      CpuOutcome(shell, facts).value, ArchitectureOutcome(shell, facts).value, HostnameOutcome(shell, facts).value,
      EvidenceDicts(Evidences(shell, facts, start)))
  }

  // ---------------------------------------------------------------- lemmas about the detectors

  /**
   * The distribution chain: the first of os-release, lsb_release and /etc/issue
   * that hits names the distribution, as its first word for os-release and
   * /etc/issue and stripped for lsb_release, and is recorded under `linux_distro`.
   */
  lemma DistroHit(shell: Shell, k: nat)
    requires k < |DistroProbes| && Hits(shell, DistroProbes[k])
    requires forall j :: 0 <= j < k ==> !Hits(shell, DistroProbes[j])
    ensures var r := ExecuteCommand(shell, DistroProbes[k].command);
      && Words(r.output) != []
      && DistroOutcome(shell).value == (if k == 1 then Strip(r.output) else Words(r.output)[0])
      && DistroOutcome(shell).evidence == Some(Evidence(DistroProbes[k].command, r.output))
  {
    WaterfallFirstSettles(shell, DistroProbes, 0, k, Silent("Linux"), None);
  }

  /** With no distribution probe hitting the name is "Linux" and no `linux_distro` evidence is left. */
  lemma DistroDefault(shell: Shell)
    requires forall j :: 0 <= j < |DistroProbes| ==> !Hits(shell, DistroProbes[j])
    ensures DistroOutcome(shell) == Outcome("Linux", None)
  {
    WaterfallNoneSettles(shell, DistroProbes, 0, Silent("Linux"), None);
  }

  /**
   * On Linux the version evidence comes from exactly one source: the first of
   * os-release, lsb_release and `uname -r` that hits, else the platform value.
   */
  lemma LinuxVersionSource(shell: Shell, facts: PlatformFacts, k: nat)
    requires IsLinux(facts)
    requires k < |LinuxVersionProbes| && Hits(shell, LinuxVersionProbes[k])
    requires forall j :: 0 <= j < k ==> !Hits(shell, LinuxVersionProbes[j])
    ensures var r := ExecuteCommand(shell, LinuxVersionProbes[k].command);
      VersionOutcome(shell, facts) == Outcome(r.output, Some(Evidence(LinuxVersionProbes[k].command, r.output)))
  {
    WaterfallFirstSettles(shell, LinuxVersionProbes, 0, k, Recorded("platform.version()", facts.version, facts.version), None);
  }

  /** On Linux with no probe hitting, the version is `platform.version()`, recorded as such. */
  lemma LinuxVersionFallback(shell: Shell, facts: PlatformFacts)
    requires IsLinux(facts)
    requires forall j :: 0 <= j < |LinuxVersionProbes| ==> !Hits(shell, LinuxVersionProbes[j])
    ensures VersionOutcome(shell, facts) == Outcome(facts.version, Some(Evidence("platform.version()", facts.version)))
  {
    WaterfallNoneSettles(shell, LinuxVersionProbes, 0, Recorded("platform.version()", facts.version, facts.version), None);
  }

  /**
   * The kernel comes from `uname -r` on Darwin and Linux and from `ver` on
   * Windows when that probe hits; otherwise from `platform.release()`.
   */
  lemma KernelSpec(shell: Shell, facts: PlatformFacts)
    ensures var o := KernelOutcome(shell, facts);
      var cmd := if IsWindows(facts) then "ver" else "uname -r";
      var r := ExecuteCommand(shell, cmd);
      && ((IsDarwin(facts) || IsLinux(facts) || IsWindows(facts)) && r.success && r.output != "" ==>
            o == Outcome(r.output, Some(Evidence(cmd, r.output))))
      && (!((IsDarwin(facts) || IsLinux(facts) || IsWindows(facts)) && r.success && r.output != "") ==>
            o == Outcome(facts.release, Some(Evidence("platform.release()", facts.release))))
  {
    var probes := KernelProbes(facts);
    var fallback := Recorded("platform.release()", facts.release, facts.release);
    if probes != [] {
      if Hits(shell, probes[0]) {
        WaterfallSettle(shell, probes, 0, fallback, None);
      } else {
        WaterfallMiss(shell, probes, 0, fallback, None);
      }
    }
  }

  /** Whatever the platform, an empty processor string on the fallback path gives "Unknown". */
  lemma CpuUnknown(shell: Shell, facts: PlatformFacts)
    requires facts.processor == ""
    requires forall j :: 0 <= j < |CpuProbes(facts)| ==> !Settles(shell, CpuProbes(facts)[j])
    ensures CpuOutcome(shell, facts) == Outcome("Unknown", Some(Evidence("platform.processor()", "")))
  {
    WaterfallNoneSettles(shell, CpuProbes(facts), 0, ProcessorFallback(facts), None);
  }

  /**
   * On Windows the CPU is the stripped second line of `wmic cpu get name` only
   * when its output has one; otherwise the processor fallback overwrites the
   * `wmic` evidence just written.
   */
  lemma WindowsCpu(shell: Shell, facts: PlatformFacts)
    requires IsWindows(facts)
    ensures var r := ExecuteCommand(shell, "wmic cpu get name");
      var lines := SplitOn(r.output, "\n");
      var o := CpuOutcome(shell, facts);
      && (r.success && r.output != "" && |lines| > 1 ==>
            o == Outcome(Strip(lines[1]), Some(Evidence("wmic cpu get name", r.output))))
      && (!(r.success && r.output != "" && |lines| > 1) ==>
            o == Outcome(ProcessorFallback(facts).value, Some(Evidence("platform.processor()", facts.processor))))
  {
    var probes := CpuProbes(facts);
    assert probes == [Probe("wmic cpu get name", SecondLine)];
    if Settles(shell, probes[0]) {
      WaterfallSettle(shell, probes, 0, ProcessorFallback(facts), None);
    } else {
      WaterfallNoneSettles(shell, probes, 0, ProcessorFallback(facts), None);
    }
  }

  /**
   * After `detect_all` the evidence map holds the keys it held before, one entry
   * for each of `os_version`, `kernel`, `cpu`, `architecture` and `hostname`, and
   * `linux_distro` when the distribution chain recorded one.
   */
  lemma EvidenceKeys(shell: Shell, facts: PlatformFacts, start: map<string, Evidence>)
    ensures Evidences(shell, facts, start).Keys
         == start.Keys + {"os_version", "kernel", "cpu", "architecture", "hostname"}
            + (if OsOutcome(shell, facts).evidence.Some? then {"linux_distro"} else {})
    ensures OsOutcome(shell, facts).evidence.Some? ==> IsLinux(facts)
  {
  }

  // ---------------------------------------------------------------- the detector object

  /** `SystemDetector`: the platform is read once; the evidence map grows as detectors run. */
  class SystemDetector {
    const shell: Shell
    const facts: PlatformFacts
    const isDarwin: bool
    const isLinux: bool
    const isWindows: bool
    var evidences: map<string, Evidence>

    constructor(shell: Shell, facts: PlatformFacts)
      ensures this.shell == shell && this.facts == facts && evidences == map[]
      ensures isDarwin == IsDarwin(facts) && isLinux == IsLinux(facts) && isWindows == IsWindows(facts)
    {
      this.shell := shell;
      this.facts := facts;
      evidences := map[];
      isDarwin := facts.system == "Darwin";
      isLinux := facts.system == "Linux";
      isWindows := facts.system == "Windows";
    }

    predicate Valid() {
      isDarwin == IsDarwin(facts) && isLinux == IsLinux(facts) && isWindows == IsWindows(facts)
    }

    /**
     * One step of a chain whose probes accept any hit: run probe `i`; on a hit
     * record it under `key` and return its shaped output, as the chain does.
     */
    method Attempt(key: string, probes: seq<Probe>, i: nat, fallback: Fallback) returns (settled: bool, value: string)
      requires i < |probes| && !probes[i].shape.SecondLine?
      modifies this
      ensures settled == Hits(shell, probes[i])
      ensures var o := Waterfall(shell, probes, i, fallback, None);
        settled ==> value == o.value && evidences == Record(old(evidences), key, o)
      ensures !settled ==> evidences == old(evidences)
      ensures !settled ==> Waterfall(shell, probes, i, fallback, None) == Waterfall(shell, probes, i + 1, fallback, None)
    {
      var cmd := probes[i].command;
      var r := ExecuteCommand(shell, cmd);
      if r.success && r.output != "" {
        WaterfallSettle(shell, probes, i, fallback, None);
        evidences := evidences[key := Evidence(cmd, r.output)];
        return true, Apply(probes[i].shape, r.output);
      }
      WaterfallMiss(shell, probes, i, fallback, None);
      return false, "";
    }

    /** `_detect_linux_distro` */
    method DetectLinuxDistro() returns (name: string)
      modifies this
      ensures name == DistroOutcome(shell).value
      ensures evidences == Record(old(evidences), "linux_distro", DistroOutcome(shell))
    {
      var settled;
      settled, name := Attempt("linux_distro", DistroProbes, 0, Silent("Linux"));
      if settled { return; }
      settled, name := Attempt("linux_distro", DistroProbes, 1, Silent("Linux"));
      if settled { return; }
      settled, name := Attempt("linux_distro", DistroProbes, 2, Silent("Linux"));
      if settled { return; }
      name := "Linux";
    }

    /** `detect_os` */
    method DetectOs() returns (os: string)
      requires Valid()
      modifies this
      ensures os == OsOutcome(shell, facts).value
      ensures evidences == Record(old(evidences), "linux_distro", OsOutcome(shell, facts))
    {
      if isDarwin {
        os := "macOS";
      } else if isLinux {
        os := DetectLinuxDistro();
      } else if isWindows {
        os := "Windows";
      } else {
        os := facts.system;
      }
    }

    /**
     * One probe followed by a recorded fallback, the form of most detectors:
     * a hit is recorded under `key` and returned, otherwise the fallback is.
     */
    method ProbeOrFallback(key: string, cmd: string, fallback: Fallback) returns (value: string)
      requires fallback.Recorded?
      modifies this
      ensures var o := Waterfall(shell, [Probe(cmd, AsIs)], 0, fallback, None);
        value == o.value && evidences == Record(old(evidences), key, o)
    {
      var r := ExecuteCommand(shell, cmd);
      if r.success && r.output != "" {
        WaterfallSettle(shell, [Probe(cmd, AsIs)], 0, fallback, None);
        evidences := evidences[key := Evidence(cmd, r.output)];
        return r.output;
      }
      WaterfallMiss(shell, [Probe(cmd, AsIs)], 0, fallback, None);
      value := fallback.value;
      evidences := evidences[key := Evidence(fallback.source, fallback.raw)];
    }

    /** `_detect_darwin_version` */
    method DetectDarwinVersion() returns (version: string)
      requires Valid() && isDarwin
      modifies this
      ensures version == VersionOutcome(shell, facts).value
      ensures evidences == Record(old(evidences), "os_version", VersionOutcome(shell, facts))
    {
      version := ProbeOrFallback("os_version", "sw_vers -productVersion",
                                 Recorded("platform.mac_ver()", facts.macVer, facts.macVer));
    }

    /** `_detect_linux_version` */
    method DetectLinuxVersion() returns (version: string)
      requires Valid() && isLinux
      modifies this
      ensures version == VersionOutcome(shell, facts).value
      ensures evidences == Record(old(evidences), "os_version", VersionOutcome(shell, facts))
    {
      var fallback := Recorded("platform.version()", facts.version, facts.version);
      var settled;
      settled, version := Attempt("os_version", LinuxVersionProbes, 0, fallback);
      if settled { return; }
      settled, version := Attempt("os_version", LinuxVersionProbes, 1, fallback);
      if settled { return; }
      settled, version := Attempt("os_version", LinuxVersionProbes, 2, fallback);
      if settled { return; }
      version := facts.version;
      evidences := evidences["os_version" := Evidence("platform.version()", version)];
    }

    /** `_detect_windows_version` */
    method DetectWindowsVersion() returns (version: string)
      requires Valid() && isWindows
      modifies this
      ensures version == VersionOutcome(shell, facts).value
      ensures evidences == Record(old(evidences), "os_version", VersionOutcome(shell, facts))
    {
      version := ProbeOrFallback("os_version", "ver", Recorded("platform.version()", facts.version, facts.version));
    }

    /** `detect_os_version` */
    method DetectOsVersion() returns (version: string)
      requires Valid()
      modifies this
      ensures version == VersionOutcome(shell, facts).value
      ensures evidences == Record(old(evidences), "os_version", VersionOutcome(shell, facts))
    {
      if isDarwin {
        version := DetectDarwinVersion();
      } else if isLinux {
        version := DetectLinuxVersion();
      } else if isWindows {
        version := DetectWindowsVersion();
      } else {
        version := facts.version;
        evidences := evidences["os_version" := Evidence("platform.version()", version)];
      }
    }

    /** `detect_kernel_version` */
    method DetectKernelVersion() returns (kernel: string)
      requires Valid()
      modifies this
      ensures kernel == KernelOutcome(shell, facts).value
      ensures evidences == Record(old(evidences), "kernel", KernelOutcome(shell, facts))
    {
      var fallback := Recorded("platform.release()", facts.release, facts.release);
      if isDarwin || isLinux {
        kernel := ProbeOrFallback("kernel", "uname -r", fallback);
      } else if isWindows {
        kernel := ProbeOrFallback("kernel", "ver", fallback);
      } else {
        kernel := facts.release;
        evidences := evidences["kernel" := Evidence("platform.release()", kernel)];
      }
    }

    /** The processor fallback the CPU detectors share. */
    method ProcessorFallbackValue() returns (cpu: string)
      modifies this
      ensures cpu == ProcessorFallback(facts).value
      ensures evidences == old(evidences)["cpu" := Evidence("platform.processor()", facts.processor)]
    {
      var processor := facts.processor;
      evidences := evidences["cpu" := Evidence("platform.processor()", processor)];
      cpu := if processor != "" then processor else "Unknown";
    }

    /** `_detect_darwin_cpu` */
    method DetectDarwinCpu() returns (cpu: string)
      requires Valid() && isDarwin
      modifies this
      ensures cpu == CpuOutcome(shell, facts).value
      ensures evidences == Record(old(evidences), "cpu", CpuOutcome(shell, facts))
    {
      cpu := ProbeOrFallback("cpu", "sysctl -n machdep.cpu.brand_string", ProcessorFallback(facts));
    }

    /** `_detect_linux_cpu` */
    method DetectLinuxCpu() returns (cpu: string)
      requires Valid() && isLinux
      modifies this
      ensures cpu == CpuOutcome(shell, facts).value
      ensures evidences == Record(old(evidences), "cpu", CpuOutcome(shell, facts))
    {
      var settled;
      settled, cpu := Attempt("cpu", LinuxCpuProbes, 0, ProcessorFallback(facts));
      if settled { return; }
      settled, cpu := Attempt("cpu", LinuxCpuProbes, 1, ProcessorFallback(facts));
      if settled { return; }
      cpu := ProcessorFallbackValue();
    }

    /** `_detect_windows_cpu`: a one-line answer is recorded, then overwritten by the fallback. */
    method DetectWindowsCpu() returns (cpu: string)
      requires Valid() && isWindows
      modifies this
      ensures cpu == CpuOutcome(shell, facts).value
      ensures evidences == Record(old(evidences), "cpu", CpuOutcome(shell, facts))
    {
      WindowsCpu(shell, facts);
      var cmd := "wmic cpu get name";
      var r := ExecuteCommand(shell, cmd);
      if r.success && r.output != "" {
        evidences := evidences["cpu" := Evidence(cmd, r.output)];
        var lines := SplitOn(r.output, "\n");
        if |lines| > 1 {
          return Strip(lines[1]);
        }
      }
      cpu := ProcessorFallbackValue();
    }

    /** `detect_cpu` */
    method DetectCpu() returns (cpu: string)
      requires Valid()
      modifies this
      ensures cpu == CpuOutcome(shell, facts).value
      ensures evidences == Record(old(evidences), "cpu", CpuOutcome(shell, facts))
    {
      if isDarwin {
        cpu := DetectDarwinCpu();
      } else if isLinux {
        cpu := DetectLinuxCpu();
      } else if isWindows {
        cpu := DetectWindowsCpu();
      } else {
        cpu := ProcessorFallbackValue();
      }
    }

    /** `detect_architecture` */
    method DetectArchitecture() returns (arch: string)
      requires Valid()
      modifies this
      ensures arch == ArchitectureOutcome(shell, facts).value
      ensures evidences == Record(old(evidences), "architecture", ArchitectureOutcome(shell, facts))
    {
      var cmd := if isWindows then "echo %PROCESSOR_ARCHITECTURE%" else "uname -m";
      arch := ProbeOrFallback("architecture", cmd, Recorded("platform.machine()", facts.machine, facts.machine));
    }

    /** `detect_hostname` */
    method DetectHostname() returns (hostname: string)
      modifies this
      ensures hostname == HostnameOutcome(shell, facts).value
      ensures evidences == Record(old(evidences), "hostname", HostnameOutcome(shell, facts))
    {
      hostname := ProbeOrFallback("hostname", "hostname", Recorded("platform.node()", facts.node, facts.node));
    }

    /** The copy at the end of `detect_all`: every evidence entry as a dictionary, nothing changed. */
    method EvidenceAsDicts() returns (copied: map<string, map<string, string>>)
      ensures copied.Keys == evidences.Keys
      ensures forall k :: k in copied ==> copied[k] == evidences[k].ToDict()
    {
      copied := map[];
      var pending := evidences.Keys;
      while pending != {}
        invariant pending <= evidences.Keys
        invariant copied.Keys == evidences.Keys - pending
        invariant forall k :: k in copied ==> copied[k] == evidences[k].ToDict()
        decreases pending
      {
        var key :| key in pending;
        copied := copied[key := evidences[key].ToDict()];
        pending := pending - {key};
      }
    }

    /** `detect_all`: the six detectors in order, then every evidence entry copied as a dictionary. */
    method DetectAll() returns (info: LocalInfo)
      requires Valid()
      modifies this
      ensures info == SystemInfoOf(shell, facts, old(evidences))
      ensures evidences == Evidences(shell, facts, old(evidences))
    {
      var os := DetectOs();
      var version := DetectOsVersion();
      var kernel := DetectKernelVersion();
      var cpu := DetectCpu();
      var architecture := DetectArchitecture();
      var hostname := DetectHostname();
      var copied := EvidenceAsDicts();
      assert copied == EvidenceDicts(evidences);
      info := SystemInfo(os, version, kernel, cpu, architecture, hostname, copied);
    }
  }
}
