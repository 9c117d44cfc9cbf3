/**
 * Remote fingerprinting over ssh (remote_executor.py): the executor's connection
 * state machine, the fingerprinter's OS routing with its per-platform probes and
 * evidence map, and remote software detection. The ssh client is an oracle.
 */
module RemoteExecution {
  import opened Wrappers
  import opened Text
  import opened Utils
  import SoftwareDetection

  /** The probe `connect` runs, and the mark its output must hold. */
  const Sentinel := "echo \"SSH_TEST_OK\""
  const SentinelMark := "SSH_TEST_OK"

  /** The reply of a call that could not connect first. */
  const ConnectFailure := "Cannot connect to remote host"

  /** The timeout `create_remote_executor` leaves at the constructor's default. */
  const CreateTimeout := 30

  /** Whether the connection probe succeeds with the mark in its output. */
  predicate SentinelAnswered(respond: SshResponder, host: string, username: string, port: int,
                             keyFile: string, timeout: int)
  {
    var r := SshCall(respond, host, Sentinel, username, port, keyFile, timeout);
    r.success && Contains(r.output, SentinelMark)
  }

  /**
   * `RemoteExecutor`: the connection parameters (`""` for a username or key
   * file that is not given) and the `connected` flag.
   */
  class RemoteExecutor {
    const client: SshClient
    const host: string
    const username: string
    const keyFile: string
    const port: int
    const timeout: int
    var connected: bool

    constructor(client: SshClient, host: string, username: string, keyFile: string, port: int, timeout: int)
      ensures this.client == client && this.host == host && this.username == username
      ensures this.keyFile == keyFile && this.port == port && this.timeout == timeout
      ensures !connected
    {
      this.client := client;
      this.host := host;
      this.username := username;
      this.keyFile := keyFile;
      this.port := port;
      this.timeout := timeout;
      connected := false;
    }

    /** Whether `connect` succeeds on this host; the ssh oracle is deterministic. */
    predicate Reachable() {
      SentinelAnswered(client.respond, host, username, port, keyFile, timeout)
    }

    /** Whether a command gets through: connected already, or able to connect now. */
    predicate Usable()
      reads this
    {
      connected || Reachable()
    }

    /** The reply `execute_command(command, t)` gets, given whether the executor is usable. */
    function Answer(usable: bool, command: string, t: Option<int>): SshReply {
      if !usable then SshReply(false, ConnectFailure, "")
      else SshCall(client.respond, host, command, username, port, keyFile, t.GetOr(timeout))
    }

    /** The argument vector `execute_ssh_command` runs for a command. */
    function Argv(command: string, t: int): seq<string> {
      SshArgv(host, command, username, port, keyFile, t)
    }

    /**
     * The argument vectors one `execute_command` call hands to ssh: the
     * connection probe when not connected, then the command unless connecting failed.
     */
    function Sends(wasConnected: bool, command: string, t: Option<int>): seq<seq<string>> {
      (if wasConnected then [] else [Argv(Sentinel, timeout)])
      + (if wasConnected || Reachable() then [Argv(command, t.GetOr(timeout))] else [])
    }

    /** `connect`: probe with the sentinel; set `connected` on success, leave it otherwise. */
    method Connect() returns (ok: bool)
      modifies this, client
      ensures ok <==> Reachable()
      ensures connected == (old(connected) || ok)
      ensures client.sent == old(client.sent) + [Argv(Sentinel, timeout)]
    {
      var r := ExecuteSshCommand(client, host, Sentinel, username, port, keyFile, timeout);
      if r.success && Contains(r.output, SentinelMark) {
        connected := true;
        ok := true;
      } else {
        ok := false;
      }
    }

    /**
     * `execute_command(command, timeout)`: connect first when not connected, give
     * up with a fixed reply if that fails, and run the command with the given
     * timeout or else the executor's own.
     */
    method ExecuteCommand(command: string, t: Option<int>) returns (r: SshReply)
      modifies this, client
      ensures r == Answer(old(Usable()), command, t)
      ensures connected == old(Usable())
      ensures client.sent == old(client.sent) + Sends(old(connected), command, t)
    {
      if !connected {
        var ok := Connect();
        if !ok {
          return SshReply(false, ConnectFailure, "");
        }
      }
      var limit := if t.None? then timeout else t.value;
      r := ExecuteSshCommand(client, host, command, username, port, keyFile, limit);
    }

    /** `__enter__`: try to connect, and hand back the executor itself. */
    method Enter() returns (self: RemoteExecutor)
      modifies this, client
      ensures self == this
      ensures connected == old(Usable())
      ensures client.sent == old(client.sent) + [Argv(Sentinel, timeout)]
    {
      var _ := Connect();
      self := this;
    }

    /** `__exit__`: the connection is marked closed, whatever the state was. */
    method Exit()
      modifies this
      ensures !connected
    {
      connected := false;
    }
  }

  /**
   * A call made while not connected connects exactly once, and when that fails
   * the command itself is never handed to ssh; once connected, only the command is sent.
   */
  lemma SendsSpec(ex: RemoteExecutor, wasConnected: bool, command: string, t: Option<int>)
    ensures var s := ex.Sends(wasConnected, command, t);
      && (wasConnected ==> s == [ex.Argv(command, t.GetOr(ex.timeout))])
      && (!wasConnected && ex.Reachable() ==> s == [ex.Argv(Sentinel, ex.timeout), ex.Argv(command, t.GetOr(ex.timeout))])
      && (!wasConnected && !ex.Reachable() ==> s == [ex.Argv(Sentinel, ex.timeout)])
      && (|s| == 2 ==> s[0][|s[0]| - 1] == Sentinel && s[1][|s[1]| - 1] == command)
  {
    SshArgvLast(ex.host, Sentinel, ex.username, ex.port, ex.keyFile, ex.timeout);
    SshArgvLast(ex.host, command, ex.username, ex.port, ex.keyFile, t.GetOr(ex.timeout));
  }

  /** A reply that did not get through is a failure with no ssh command line. */
  lemma AnswerUnusable(ex: RemoteExecutor, command: string, t: Option<int>)
    ensures !ex.Answer(false, command, t).success
    ensures ex.Answer(false, command, t).sshCommand == ""
    ensures ex.Answer(true, command, t).sshCommand == Join(ex.Argv(command, t.GetOr(ex.timeout)), " ")
  {
  }

  /**
   * `create_remote_executor`: an executor with the default timeout, returned only
   * when the connection probe succeeds.
   */
  method CreateRemoteExecutor(client: SshClient, host: string, username: string, keyFile: string, port: int)
    returns (r: Option<RemoteExecutor>)
    modifies client
    ensures r.Some? <==> SentinelAnswered(client.respond, host, username, port, keyFile, CreateTimeout)
    ensures r.Some? ==>
      && fresh(r.value) && r.value.connected && r.value.client == client
      && r.value.host == host && r.value.username == username && r.value.keyFile == keyFile
      && r.value.port == port && r.value.timeout == CreateTimeout
    ensures client.sent == old(client.sent) + [SshArgv(host, Sentinel, username, port, keyFile, CreateTimeout)]
  {
    var executor := new RemoteExecutor(client, host, username, keyFile, port, CreateTimeout);
    var ok := executor.Connect();
    r := if ok then Some(executor) else None;
  }

  // ---------------------------------------------------------------- system information

  /**
   * One evidence entry of the remote fingerprinter; `methodUsed` and `success`
   * are present only for the entries that record them.
   */
  datatype RemoteEvidence = RemoteEvidence(sshCommand: string, remoteCommand: string, rawOutput: string,
                                           methodUsed: Option<string>, success: Option<bool>)

  type RemoteInfo = SystemInfo<RemoteEvidence>

  /** The fields of the system information a probe may set. */
  datatype Field = Os | Version | Kernel | Cpu | Architecture | Hostname

  function Get(info: RemoteInfo, f: Field): string {
    match f
    case Os => info.os
    case Version => info.version
    case Kernel => info.kernel
    case Cpu => info.cpu
    case Architecture => info.architecture
    case Hostname => info.hostname
  }

  /** `system_info[f] = v`: that field and no other changes. */
  function Set(info: RemoteInfo, f: Field, v: string): (r: RemoteInfo)
    ensures Get(r, f) == v
    ensures forall g :: g != f ==> Get(r, g) == Get(info, g)
    ensures r.evidence == info.evidence
  {
    match f
    case Os => info.(os := v)
    case Version => info.(version := v)
    case Kernel => info.(kernel := v)
    case Cpu => info.(cpu := v)
    case Architecture => info.(architecture := v)
    case Hostname => info.(hostname := v)
  }

  /** Every field starts at "Unknown", with no evidence. */
  const InitialInfo: RemoteInfo :=
    SystemInfo("Unknown", "Unknown", "Unknown", "Unknown", "Unknown", "Unknown", map[])

  /** A probe counts when it succeeded with non-empty output. */
  predicate Hit(r: SshReply) {
    r.success && r.output != ""
  }

  /** The evidence entry for a probe whose output was taken as is. */
  function Plain(r: SshReply, command: string): RemoteEvidence {
    RemoteEvidence(r.sshCommand, command, r.output, None, None)
  }

  /** One probe: on a hit, the field takes the output and `key` records it; otherwise nothing changes. */
  function Probed(ex: RemoteExecutor, usable: bool, info: RemoteInfo, f: Field, key: string, command: string): RemoteInfo {
    var r := ex.Answer(usable, command, None);
    if Hit(r) then Set(info, f, r.output).(evidence := info.evidence[key := Plain(r, command)]) else info
  }

  /** A candidate command of a waterfall and the name recorded for it. */
  datatype Labelled = Labelled(command: string, via: string)

  const DistroProbes: seq<Labelled> := [
    Labelled("cat /etc/os-release | grep '^NAME=' | cut -d'=' -f2 | tr -d '\"'", "os-release"),
    Labelled("lsb_release -si 2>/dev/null", "lsb_release")]

  const LinuxVersionProbes: seq<Labelled> := [
    Labelled("cat /etc/os-release | grep '^VERSION_ID=' | cut -d'=' -f2 | tr -d '\"'", "os-release"),
    Labelled("lsb_release -sr 2>/dev/null", "lsb_release")]

  const LinuxCpuCommand := "cat /proc/cpuinfo | grep 'model name' | head -n 1 | cut -d':' -f2 | xargs"

  const WindowsCommand := "systeminfo | findstr /B /C:\"OS Name\" /C:\"OS Version\""

  /** The replies the candidates of a waterfall would get, in order. */
  function Replies(ex: RemoteExecutor, usable: bool, probes: seq<Labelled>): (rs: seq<SshReply>)
    ensures |rs| == |probes|
    ensures forall j :: 0 <= j < |rs| ==> rs[j] == ex.Answer(usable, probes[j].command, None)
  {
    seq(|probes|, j requires 0 <= j < |probes| => ex.Answer(usable, probes[j].command, None))
  }

  /** The first reply at or after `i` that hits, if any. */
  function FirstHit(rs: seq<SshReply>, i: nat): (k: Option<nat>)
    requires i <= |rs|
    ensures k.Some? ==> i <= k.value < |rs|
    decreases |rs| - i
  {
    if i == |rs| then None
    else if Hit(rs[i]) then Some(i)
    else FirstHit(rs, i + 1)
  }

  /** The first hit is a hit, and nothing before it is. */
  lemma {:induction false} FirstHitIsFirst(rs: seq<SshReply>, i: nat)
    requires i <= |rs|
    ensures var k := FirstHit(rs, i);
      && (k.Some? ==> Hit(rs[k.value]) && forall j :: i <= j < k.value ==> !Hit(rs[j]))
      && (k.None? ==> forall j :: i <= j < |rs| ==> !Hit(rs[j]))
    decreases |rs| - i
  {
    if i < |rs| && !Hit(rs[i]) {
      FirstHitIsFirst(rs, i + 1);
    }
  }

  /** Stepping past a reply that does not hit. */
  lemma FirstHitStep(rs: seq<SshReply>, i: nat)
    requires i < |rs|
    ensures !Hit(rs[i]) ==> FirstHit(rs, i) == FirstHit(rs, i + 1)
    ensures Hit(rs[i]) ==> FirstHit(rs, i) == Some(i)
  {
  }

  /** The reply to the `i`-th candidate decides whether the search stops there. */
  lemma ProbeStep(ex: RemoteExecutor, usable: bool, probes: seq<Labelled>, i: nat, r: SshReply)
    requires i < |probes| && r == ex.Answer(usable, probes[i].command, None)
    ensures var rs := Replies(ex, usable, probes);
      && r == rs[i]
      && (Hit(r) ==> FirstHit(rs, i) == Some(i))
      && (!Hit(r) ==> FirstHit(rs, i) == FirstHit(rs, i + 1))
  {
    FirstHitStep(Replies(ex, usable, probes), i);
  }

  /**
   * A waterfall loop with `break`: the first candidate that hits sets the field
   * (stripped when `strip`) and records its command, output and label under `key`.
   */
  function Waterfall(ex: RemoteExecutor, usable: bool, info: RemoteInfo, f: Field, key: string,
                     probes: seq<Labelled>, strip: bool): RemoteInfo
  {
    var rs := Replies(ex, usable, probes);
    match FirstHit(rs, 0)
    case None => info
    case Some(k) =>
      Set(info, f, if strip then Strip(rs[k].output) else rs[k].output)
        .(evidence := info.evidence[key := RemoteEvidence(rs[k].sshCommand, probes[k].command, rs[k].output, Some(probes[k].via), None)])
  }

  /** `_detect_darwin_system` */
  function DarwinInfo(ex: RemoteExecutor, usable: bool, info: RemoteInfo): RemoteInfo {
    var info := info.(os := "macOS");
    var info := Probed(ex, usable, info, Version, "version", "sw_vers -productVersion");
    Probed(ex, usable, info, Cpu, "cpu", "sysctl -n machdep.cpu.brand_string")
  }

  /** `_detect_linux_system` */
  function LinuxInfo(ex: RemoteExecutor, usable: bool, info: RemoteInfo): RemoteInfo {
    var info := info.(os := "Linux");
    var info := Waterfall(ex, usable, info, Os, "os_name", DistroProbes, true);
    var info := Waterfall(ex, usable, info, Version, "version", LinuxVersionProbes, false);
    Probed(ex, usable, info, Cpu, "cpu", LinuxCpuCommand)
  }

  /** `_detect_generic_unix_system` */
  function UnixInfo(ex: RemoteExecutor, usable: bool, info: RemoteInfo): RemoteInfo {
    Probed(ex, usable, info.(os := "Unix"), Version, "version", "uname -v")
  }

  /**
   * One line of the Windows scan: a line naming "OS Name" sets the OS, else one
   * naming "OS Version" sets the version, each to the stripped text after the
   * first ':'; `None` where that text does not exist and Python raises IndexError.
   */
  function ScanLine(line: string, info: RemoteInfo): Option<RemoteInfo> {
    if Contains(line, "OS Name") then
      match AfterFirst(line, ':')
      case None => None
      case Some(v) => Some(info.(os := Strip(v)))
    else if Contains(line, "OS Version") then
      match AfterFirst(line, ':')
      case None => None
      case Some(v) => Some(info.(version := Strip(v)))
    else Some(info)
  }

  /** The line loop of `_detect_windows_system`, line by line from the first. */
  function ScanWindows(lines: seq<string>, info: RemoteInfo): Option<RemoteInfo> {
    if lines == [] then Some(info)
    else
      match ScanWindows(lines[..|lines| - 1], info)
      case None => None
      case Some(i) => ScanLine(lines[|lines| - 1], i)
  }

  /** `_detect_windows_system`; `None` where the scan raises. */
  function WindowsInfo(ex: RemoteExecutor, usable: bool, info: RemoteInfo): Option<RemoteInfo> {
    var r := ex.Answer(usable, WindowsCommand, None);
    if !Hit(r) then Some(info)
    else
      match ScanWindows(SplitOn(r.output, "\n"), info)
      case None => None
      case Some(i) => Some(i.(evidence := i.evidence["os_info" := Plain(r, "systeminfo")]))
  }

  /** The system information right after the `uname -s` probe. */
  function AfterOsType(r: SshReply): RemoteInfo {
    InitialInfo.(evidence := map["os_type" := Plain(r, "uname -s")])
  }

  /** The routing on `uname -s`: the system information once the OS-specific routine ran. */
  function Routed(ex: RemoteExecutor, usable: bool): Option<RemoteInfo> {
    var r := ex.Answer(usable, "uname -s", None);
    if Hit(r) then
      var osType := AsciiLower(Strip(r.output));
      Some(if osType == "darwin" then DarwinInfo(ex, usable, AfterOsType(r))
           else if osType == "linux" then LinuxInfo(ex, usable, AfterOsType(r))
           else UnixInfo(ex, usable, AfterOsType(r)))
    else WindowsInfo(ex, usable, InitialInfo)
  }

  /** The probes every platform runs after the routine: kernel, architecture, hostname. */
  function Tail(ex: RemoteExecutor, usable: bool, info: RemoteInfo): RemoteInfo {
    var info := Probed(ex, usable, info, Kernel, "kernel", "uname -r");
    var info := Probed(ex, usable, info, Architecture, "architecture", "uname -m");
    Probed(ex, usable, info, Hostname, "hostname", "hostname")
  }

  /** `detect_system_info`; a `Failure` is the IndexError the Windows scan can raise. */
  function SystemInfoOf(ex: RemoteExecutor, usable: bool): Result<RemoteInfo> {
    match Routed(ex, usable)
    case None => Failure("list index out of range")
    case Some(info) => Success(Tail(ex, usable, info))
  }

  // ---------------------------------------------------------------- lemmas about system information

  /** The keys the OS-specific routines may write. */
  const RoutingKeys: set<string> := {"os_type", "version", "cpu", "os_name", "os_info"}

  /** The keys the final probes write. */
  const TailKeys: set<string> := {"kernel", "architecture", "hostname"}

  /** `b` came from `a` by a routine: kernel, architecture and hostname kept, only routing keys added. */
  predicate KeepsTail(a: RemoteInfo, b: RemoteInfo) {
    && b.kernel == a.kernel && b.architecture == a.architecture && b.hostname == a.hostname
    && b.evidence.Keys <= a.evidence.Keys + RoutingKeys
  }

  lemma ProbedKeepsTail(ex: RemoteExecutor, usable: bool, info: RemoteInfo, f: Field, key: string, command: string)
    requires f == Os || f == Version || f == Cpu
    requires key in RoutingKeys
    ensures KeepsTail(info, Probed(ex, usable, info, f, key, command))
  {
  }

  lemma WaterfallKeepsTail(ex: RemoteExecutor, usable: bool, info: RemoteInfo, f: Field, key: string,
                           probes: seq<Labelled>, strip: bool)
    requires f == Os || f == Version || f == Cpu
    requires key in RoutingKeys
    ensures KeepsTail(info, Waterfall(ex, usable, info, f, key, probes, strip))
  {
  }

  /** Entry `k` is the same in `a` and `b`. */
  predicate Untouched(a: RemoteInfo, b: RemoteInfo, k: string) {
    && (k in a.evidence <==> k in b.evidence)
    && (k in a.evidence ==> b.evidence[k] == a.evidence[k])
  }

  /** A probe changes only its own field and its own entry. */
  lemma ProbedOthers(ex: RemoteExecutor, usable: bool, info: RemoteInfo, f: Field, key: string, command: string, k: string)
    requires k != key
    ensures var out := Probed(ex, usable, info, f, key, command);
      Untouched(info, out, k) && forall g :: g != f ==> Get(out, g) == Get(info, g)
  {
    var r := ex.Answer(usable, command, None);
    if Hit(r) {
      RecordOthers(info, f, r.output, key, Plain(r, command), k);
    }
  }

  /** A waterfall changes only its own field and its own entry. */
  lemma WaterfallOthers(ex: RemoteExecutor, usable: bool, info: RemoteInfo, f: Field, key: string,
                        probes: seq<Labelled>, strip: bool, k: string)
    requires k != key
    ensures var out := Waterfall(ex, usable, info, f, key, probes, strip);
      Untouched(info, out, k) && forall g :: g != f ==> Get(out, g) == Get(info, g)
  {
    var rs := Replies(ex, usable, probes);
    match FirstHit(rs, 0)
    case None =>
    case Some(j) =>
      var v := if strip then Strip(rs[j].output) else rs[j].output;
      var e := RemoteEvidence(rs[j].sshCommand, probes[j].command, rs[j].output, Some(probes[j].via), None);
      RecordOthers(info, f, v, key, e, k);
  }

  /** Setting one field and one evidence entry leaves every other field and entry alone. */
  lemma RecordOthers(info: RemoteInfo, f: Field, v: string, key: string, e: RemoteEvidence, k: string)
    requires k != key
    ensures var out := Set(info, f, v).(evidence := info.evidence[key := e]);
      Untouched(info, out, k) && forall g :: g != f ==> Get(out, g) == Get(info, g)
  {
  }

  /** The line scan touches only the OS and the version. */
  lemma {:induction false} ScanWindowsKeeps(lines: seq<string>, info: RemoteInfo)
    ensures var r := ScanWindows(lines, info);
      r.Some? ==> (r.value.kernel == info.kernel && r.value.cpu == info.cpu
        && r.value.architecture == info.architecture && r.value.hostname == info.hostname
        && r.value.evidence == info.evidence)
  {
    if lines != [] {
      ScanWindowsKeeps(lines[..|lines| - 1], info);
    }
  }

  /**
   * The routines leave kernel, architecture and hostname at "Unknown" and write
   * only their own evidence keys.
   */
  lemma RoutedShape(ex: RemoteExecutor, usable: bool)
    ensures var r := Routed(ex, usable);
      r.Some? ==>
        && r.value.kernel == "Unknown" && r.value.architecture == "Unknown" && r.value.hostname == "Unknown"
        && r.value.evidence.Keys <= RoutingKeys
  {
    var r := ex.Answer(usable, "uname -s", None);
    if Hit(r) {
      var info := AfterOsType(r);
      var osType := AsciiLower(Strip(r.output));
      if osType == "darwin" {
        var i1 := info.(os := "macOS");
        ProbedKeepsTail(ex, usable, i1, Version, "version", "sw_vers -productVersion");
        var i2 := Probed(ex, usable, i1, Version, "version", "sw_vers -productVersion");
        ProbedKeepsTail(ex, usable, i2, Cpu, "cpu", "sysctl -n machdep.cpu.brand_string");
      } else if osType == "linux" {
        var i1 := info.(os := "Linux");
        WaterfallKeepsTail(ex, usable, i1, Os, "os_name", DistroProbes, true);
        var i2 := Waterfall(ex, usable, i1, Os, "os_name", DistroProbes, true);
        WaterfallKeepsTail(ex, usable, i2, Version, "version", LinuxVersionProbes, false);
        var i3 := Waterfall(ex, usable, i2, Version, "version", LinuxVersionProbes, false);
        ProbedKeepsTail(ex, usable, i3, Cpu, "cpu", LinuxCpuCommand);
      } else {
        ProbedKeepsTail(ex, usable, info.(os := "Unix"), Version, "version", "uname -v");
      }
    } else {
      var o := ex.Answer(usable, WindowsCommand, None);
      if Hit(o) {
        ScanWindowsKeeps(SplitOn(o.output, "\n"), InitialInfo);
      }
    }
  }

  /** A final probe's field changes only on a hit of its own probe, recorded under its own key. */
  predicate TailField(ex: RemoteExecutor, usable: bool, info: RemoteInfo, value: string, key: string, command: string) {
    var r := ex.Answer(usable, command, None);
    && (key in info.evidence <==> Hit(r))
    && (Hit(r) ==> value == r.output && info.evidence[key] == Plain(r, command))
    && (!Hit(r) ==> value == "Unknown")
  }

  /**
   * The final probes on a routine's result: each of kernel, architecture and
   * hostname is set, with its entry, exactly on a hit of its own probe; the OS,
   * version and CPU and every entry the routine wrote are kept.
   */
  lemma TailSpec(ex: RemoteExecutor, usable: bool, info: RemoteInfo)
    requires info.kernel == "Unknown" && info.architecture == "Unknown" && info.hostname == "Unknown"
    requires info.evidence.Keys !! TailKeys
    ensures var out := Tail(ex, usable, info);
      && TailField(ex, usable, out, out.kernel, "kernel", "uname -r")
      && TailField(ex, usable, out, out.architecture, "architecture", "uname -m")
      && TailField(ex, usable, out, out.hostname, "hostname", "hostname")
      && out.os == info.os && out.version == info.version && out.cpu == info.cpu
      && (forall k :: k in info.evidence ==> k in out.evidence && out.evidence[k] == info.evidence[k])
      && out.evidence.Keys <= info.evidence.Keys + TailKeys
  {
    var i1 := Probed(ex, usable, info, Kernel, "kernel", "uname -r");
    var i2 := Probed(ex, usable, i1, Architecture, "architecture", "uname -m");
    var i3 := Probed(ex, usable, i2, Hostname, "hostname", "hostname");
    assert Tail(ex, usable, info) == i3;
    assert "kernel" != "architecture" && "kernel" != "hostname" && "architecture" != "hostname";
    ProbedSpec(ex, usable, info, Kernel, "kernel", "uname -r");
    ProbedSpec(ex, usable, i1, Architecture, "architecture", "uname -m");
    ProbedSpec(ex, usable, i2, Hostname, "hostname", "hostname");
  }

  /** One probe: on a hit its field takes the output and its key the entry; on a miss nothing changes. */
  lemma ProbedSpec(ex: RemoteExecutor, usable: bool, info: RemoteInfo, f: Field, key: string, command: string)
    ensures var out := Probed(ex, usable, info, f, key, command);
      var r := ex.Answer(usable, command, None);
      && (Hit(r) ==> Get(out, f) == r.output && out.evidence == info.evidence[key := Plain(r, command)])
      && (!Hit(r) ==> out == info)
      && (forall g :: g != f ==> Get(out, g) == Get(info, g))
  {
  }

  /**
   * Kernel, architecture and hostname each change only on a hit of their own
   * probe, and then the evidence entry under the field's own key holds the raw
   * output the field took; otherwise the field stays "Unknown" with no entry.
   */
  lemma TailFieldsNeedEvidence(ex: RemoteExecutor, usable: bool)
    requires SystemInfoOf(ex, usable).Success?
    ensures var info := SystemInfoOf(ex, usable).value;
      && TailField(ex, usable, info, info.kernel, "kernel", "uname -r")
      && TailField(ex, usable, info, info.architecture, "architecture", "uname -m")
      && TailField(ex, usable, info, info.hostname, "hostname", "hostname")
  {
    RoutedShape(ex, usable);
    RoutingTailDisjoint();
    TailSpec(ex, usable, Routed(ex, usable).value);
  }

  lemma RoutingTailDisjoint()
    ensures RoutingKeys !! TailKeys
  {
    assert |"kernel"| == 6 && |"hostname"| == 8 && |"architecture"| == 12;
  }

  /**
   * After a hit of `uname -s` the routine keeps the `os_type` entry, and its OS
   * is "macOS" on "darwin", "Linux" or the recorded stripped distribution on
   * "linux", and "Unix" otherwise.
   */
  lemma RoutedAfterHit(ex: RemoteExecutor, usable: bool)
    requires Hit(ex.Answer(usable, "uname -s", None))
    ensures var r := ex.Answer(usable, "uname -s", None);
      var osType := AsciiLower(Strip(r.output));
      var info := Routed(ex, usable);
      && info.Some? && "os_type" in info.value.evidence && info.value.evidence["os_type"] == Plain(r, "uname -s")
      && (osType == "darwin" ==> info.value.os == "macOS")
      && (osType == "linux" ==>
            || (info.value.os == "Linux" && "os_name" !in info.value.evidence)
            || ("os_name" in info.value.evidence && info.value.os == Strip(info.value.evidence["os_name"].rawOutput)))
      && (osType != "darwin" && osType != "linux" ==> info.value.os == "Unix")
  {
    var r := ex.Answer(usable, "uname -s", None);
    var info := AfterOsType(r);
    var osType := AsciiLower(Strip(r.output));
    if osType == "darwin" {
      assert Routed(ex, usable) == Some(DarwinInfo(ex, usable, info));
      DarwinKeepsOsType(ex, usable, info);
    } else if osType == "linux" {
      assert Routed(ex, usable) == Some(LinuxInfo(ex, usable, info));
      LinuxKeepsOsType(ex, usable, info);
      LinuxOsName(ex, usable, info);
    } else {
      assert Routed(ex, usable) == Some(UnixInfo(ex, usable, info));
      UnixKeepsOsType(ex, usable, info);
    }
  }

  /** After a failed or empty `uname -s` the Windows routine runs, and it writes no `os_type` entry. */
  lemma RoutedAfterMiss(ex: RemoteExecutor, usable: bool)
    requires !Hit(ex.Answer(usable, "uname -s", None))
    ensures var info := Routed(ex, usable);
      info == WindowsInfo(ex, usable, InitialInfo)
      && (info.Some? ==> info.value.evidence.Keys <= {"os_info"})
  {
    var o := ex.Answer(usable, WindowsCommand, None);
    if Hit(o) {
      ScanWindowsKeeps(SplitOn(o.output, "\n"), InitialInfo);
    }
  }

  lemma DarwinKeepsOsType(ex: RemoteExecutor, usable: bool, info: RemoteInfo)
    ensures var out := DarwinInfo(ex, usable, info);
      Untouched(info, out, "os_type") && out.os == "macOS"
  {
    assert "os_type" != "version" && "os_type" != "cpu";
    var i1 := info.(os := "macOS");
    ProbedOthers(ex, usable, i1, Version, "version", "sw_vers -productVersion", "os_type");
    var i2 := Probed(ex, usable, i1, Version, "version", "sw_vers -productVersion");
    ProbedOthers(ex, usable, i2, Cpu, "cpu", "sysctl -n machdep.cpu.brand_string", "os_type");
    assert Get(i2, Os) == "macOS";
  }

  lemma LinuxKeepsOsType(ex: RemoteExecutor, usable: bool, info: RemoteInfo)
    ensures Untouched(info, LinuxInfo(ex, usable, info), "os_type")
  {
    assert "os_type" != "version" && "os_type" != "cpu" && "os_type" != "os_name";
    var i1 := info.(os := "Linux");
    WaterfallOthers(ex, usable, i1, Os, "os_name", DistroProbes, true, "os_type");
    var i2 := Waterfall(ex, usable, i1, Os, "os_name", DistroProbes, true);
    WaterfallOthers(ex, usable, i2, Version, "version", LinuxVersionProbes, false, "os_type");
    var i3 := Waterfall(ex, usable, i2, Version, "version", LinuxVersionProbes, false);
    ProbedOthers(ex, usable, i3, Cpu, "cpu", LinuxCpuCommand, "os_type");
  }

  lemma UnixKeepsOsType(ex: RemoteExecutor, usable: bool, info: RemoteInfo)
    ensures var out := UnixInfo(ex, usable, info);
      Untouched(info, out, "os_type") && out.os == "Unix"
  {
    assert "os_type" != "version";
    var i1 := info.(os := "Unix");
    ProbedOthers(ex, usable, i1, Version, "version", "uname -v", "os_type");
    assert Get(i1, Os) == "Unix";
  }

  /**
   * Routing on the lower-cased, stripped `uname -s`, as the routine left it
   * and the final probes keep it: "darwin" gives macOS, "linux" gives "Linux"
   * or the stripped distribution name it recorded, anything else Unix, each with
   * the `os_type` evidence; a failed or empty probe takes the Windows routine,
   * with no `os_type`.
   */
  lemma Routing(ex: RemoteExecutor, usable: bool)
    ensures var r := ex.Answer(usable, "uname -s", None);
      var osType := AsciiLower(Strip(r.output));
      var s := SystemInfoOf(ex, usable);
      && (Hit(r) ==> s.Success? && "os_type" in s.value.evidence && s.value.evidence["os_type"] == Plain(r, "uname -s"))
      && (Hit(r) && osType == "darwin" ==> s.value.os == "macOS")
      && (Hit(r) && osType == "linux" ==>
            || (s.value.os == "Linux" && "os_name" !in s.value.evidence)
            || ("os_name" in s.value.evidence && s.value.os == Strip(s.value.evidence["os_name"].rawOutput)))
      && (Hit(r) && osType != "darwin" && osType != "linux" ==> s.value.os == "Unix")
      && (!Hit(r) && s.Success? ==> "os_type" !in s.value.evidence)
  {
    RoutedShape(ex, usable);
    if Hit(ex.Answer(usable, "uname -s", None)) {
      RoutedAfterHit(ex, usable);
    } else {
      RoutedAfterMiss(ex, usable);
      assert "os_type" != "os_info";
    }
    RoutingTailDisjoint();
    if Routed(ex, usable).Some? {
      TailSpec(ex, usable, Routed(ex, usable).value);
    }
  }

  /** The Linux routine's OS is "Linux" without an `os_name` entry, or the stripped name that entry holds. */
  lemma LinuxOsName(ex: RemoteExecutor, usable: bool, info: RemoteInfo)
    requires "os_name" !in info.evidence
    ensures var out := LinuxInfo(ex, usable, info);
      || (out.os == "Linux" && "os_name" !in out.evidence)
      || ("os_name" in out.evidence && out.os == Strip(out.evidence["os_name"].rawOutput))
  {
    var i1 := info.(os := "Linux");
    var i2 := Waterfall(ex, usable, i1, Os, "os_name", DistroProbes, true);
    assert || (i2.os == "Linux" && "os_name" !in i2.evidence)
           || ("os_name" in i2.evidence && i2.os == Strip(i2.evidence["os_name"].rawOutput));
    assert "version" != "os_name" && "cpu" != "os_name";
    WaterfallOthers(ex, usable, i2, Version, "version", LinuxVersionProbes, false, "os_name");
    var i3 := Waterfall(ex, usable, i2, Version, "version", LinuxVersionProbes, false);
    ProbedOthers(ex, usable, i3, Cpu, "cpu", LinuxCpuCommand, "os_name");
    assert Get(i3, Os) == Get(i2, Os);
  }

  /** An executor that cannot connect reports every field "Unknown", with no evidence. */
  lemma UnreachableHostUnknown(ex: RemoteExecutor)
    ensures SystemInfoOf(ex, false) == Success(InitialInfo)
  {
  }

  /**
   * The Linux distribution waterfall: the `os_name` entry names os-release exactly
   * when that probe hit, and lsb_release exactly when only the second one did;
   * with no hit the OS stays "Linux" and there is no entry.
   */
  lemma LinuxDistroOrder(ex: RemoteExecutor, usable: bool, info: RemoteInfo)
    requires "os_name" !in info.evidence
    ensures var out := Waterfall(ex, usable, info.(os := "Linux"), Os, "os_name", DistroProbes, true);
      var first := ex.Answer(usable, DistroProbes[0].command, None);
      var second := ex.Answer(usable, DistroProbes[1].command, None);
      && (Hit(first) ==>
            out.os == Strip(first.output) && "os_name" in out.evidence
            && out.evidence["os_name"].methodUsed == Some("os-release"))
      && (!Hit(first) && Hit(second) ==>
            out.os == Strip(second.output) && "os_name" in out.evidence
            && out.evidence["os_name"].methodUsed == Some("lsb_release"))
      && (!Hit(first) && !Hit(second) ==> out.os == "Linux" && "os_name" !in out.evidence)
  {
    var rs := Replies(ex, usable, DistroProbes);
    FirstHitStep(rs, 0);
    FirstHitStep(rs, 1);
    assert FirstHit(rs, 2) == None;
    if Hit(rs[0]) {
      assert FirstHit(rs, 0) == Some(0);
    } else if Hit(rs[1]) {
      assert FirstHit(rs, 0) == Some(1);
    } else {
      assert FirstHit(rs, 0) == None;
    }
  }

  /** A scan that raised stays raised whatever lines follow. */
  lemma {:induction false} ScanWindowsStuck(lines: seq<string>, info: RemoteInfo, n: nat)
    requires n <= |lines| && ScanWindows(lines[..n], info).None?
    ensures ScanWindows(lines, info).None?
    decreases |lines| - n
  {
    if n < |lines| {
      assert lines[..n + 1][..n] == lines[..n];
      ScanWindowsStuck(lines, info, n + 1);
    } else {
      assert lines[..n] == lines;
    }
  }

  /** The line loop of `_detect_windows_system`; `None` where a line raises. */
  method ScanLines(lines: seq<string>, info: RemoteInfo) returns (out: Option<RemoteInfo>)
    ensures out == ScanWindows(lines, info)
  {
    var cur := info;
    var i := 0;
    while i < |lines|
      invariant 0 <= i <= |lines|
      invariant ScanWindows(lines[..i], info) == Some(cur)
    {
      assert lines[..i + 1][..i] == lines[..i];
      var line := lines[i];
      if Contains(line, "OS Name") {
        var rest := AfterFirst(line, ':');
        if rest.None? {
          ScanWindowsStuck(lines, info, i + 1);
          return None;
        }
        cur := cur.(os := Strip(rest.value));
      } else if Contains(line, "OS Version") {
        var rest := AfterFirst(line, ':');
        if rest.None? {
          ScanWindowsStuck(lines, info, i + 1);
          return None;
        }
        cur := cur.(version := Strip(rest.value));
      }
      i := i + 1;
    }
    assert lines[..i] == lines;
    out := Some(cur);
  }

  /**
   * The last line naming "OS Name" decides the OS: it holds a ':' and the OS is
   * the stripped text after the first one.
   */
  lemma {:induction false} ScanWindowsLastName(lines: seq<string>, info: RemoteInfo, k: nat)
    requires k < |lines| && Contains(lines[k], "OS Name")
    requires forall j :: k < j < |lines| ==> !Contains(lines[j], "OS Name")
    requires ScanWindows(lines, info).Some?
    ensures AfterFirst(lines[k], ':').Some?
    ensures ScanWindows(lines, info).value.os == Strip(AfterFirst(lines[k], ':').value)
  {
    var init := lines[..|lines| - 1];
    if k == |lines| - 1 {
      assert ScanWindows(lines, info) == ScanLine(lines[k], ScanWindows(init, info).value);
    } else {
      assert forall j :: k < j < |init| ==> init[j] == lines[j];
      ScanWindowsLastName(init, info, k);
      assert !Contains(lines[|lines| - 1], "OS Name");
    }
  }

  /**
   * The last line that names "OS Version" but not "OS Name" decides the version:
   * it holds a ':' and the version is the stripped text after the first one.
   */
  lemma {:induction false} ScanWindowsLastVersion(lines: seq<string>, info: RemoteInfo, k: nat)
    requires k < |lines| && Contains(lines[k], "OS Version") && !Contains(lines[k], "OS Name")
    requires forall j :: k < j < |lines| ==> Contains(lines[j], "OS Name") || !Contains(lines[j], "OS Version")
    requires ScanWindows(lines, info).Some?
    ensures AfterFirst(lines[k], ':').Some?
    ensures ScanWindows(lines, info).value.version == Strip(AfterFirst(lines[k], ':').value)
  {
    var init := lines[..|lines| - 1];
    if k == |lines| - 1 {
      assert ScanWindows(lines, info) == ScanLine(lines[k], ScanWindows(init, info).value);
    } else {
      assert forall j :: k < j < |init| ==> init[j] == lines[j];
      ScanWindowsLastVersion(init, info, k);
      var last := lines[|lines| - 1];
      assert Contains(last, "OS Name") || !Contains(last, "OS Version");
    }
  }

  /** Without a line naming "OS Name", the scan leaves the OS as it was. */
  lemma {:induction false} ScanWindowsNoName(lines: seq<string>, info: RemoteInfo)
    requires forall j :: 0 <= j < |lines| ==> !Contains(lines[j], "OS Name")
    requires ScanWindows(lines, info).Some?
    ensures ScanWindows(lines, info).value.os == info.os
  {
    if lines != [] {
      var init := lines[..|lines| - 1];
      assert forall j :: 0 <= j < |init| ==> init[j] == lines[j];
      ScanWindowsNoName(init, info);
    }
  }

  // ---------------------------------------------------------------- remote software detection

  /** `(found, detection_output, version, evidence)` of `detect_software`. */
  datatype RemoteDetection = RemoteDetection(found: bool, output: string, version: Option<string>,
                                             evidence: map<string, RemoteEvidence>)

  /**
   * `detect_software(detection_cmd, version_cmd)`, with `versionCmd` "" when
   * not given: the detection entry is always recorded; a version probe runs,
   * and is recorded, only after a detection hit.
   */
  function DetectionOf(ex: RemoteExecutor, usable: bool, detectionCmd: string, versionCmd: string): RemoteDetection {
    var r := ex.Answer(usable, detectionCmd, None);
    var evidence := map["detection" := RemoteEvidence(r.sshCommand, detectionCmd, r.output, None, Some(r.success))];
    if !Hit(r) then RemoteDetection(false, "", None, evidence)
    else if versionCmd == "" then RemoteDetection(true, r.output, None, evidence)
    else
      var command := SoftwareDetection.VersionProbe(versionCmd, r.output);
      var v := ex.Answer(usable, command, None);
      RemoteDetection(true, r.output, if Hit(v) then Some(Strip(v.output)) else None,
        evidence["version" := RemoteEvidence(v.sshCommand, command, v.output, None, Some(v.success))])
  }

  /**
   * The detection entry is always present with the probe's outcome; a miss
   * gives no output and no version; the version entry exists exactly when a
   * version command was given and detection hit; a version is the stripped
   * output of a version probe that hit.
   */
  lemma DetectionSpec(ex: RemoteExecutor, usable: bool, detectionCmd: string, versionCmd: string)
    ensures var d := DetectionOf(ex, usable, detectionCmd, versionCmd);
      var r := ex.Answer(usable, detectionCmd, None);
      && "detection" in d.evidence
      && d.evidence["detection"] == RemoteEvidence(r.sshCommand, detectionCmd, r.output, None, Some(r.success))
      && (d.found <==> Hit(r))
      && (!d.found ==> d.output == "" && d.version.None? && d.evidence.Keys == {"detection"})
      && ("version" in d.evidence <==> d.found && versionCmd != "")
      && (d.version.Some? ==>
            var v := ex.Answer(usable, d.evidence["version"].remoteCommand, None);
            Hit(v) && d.version.value == Strip(v.output))
      && ("version" in d.evidence ==>
            && d.evidence["version"].remoteCommand == SoftwareDetection.VersionProbe(versionCmd, r.output)
            && (d.version.Some? <==> Hit(ex.Answer(usable, d.evidence["version"].remoteCommand, None))))
  {
    assert "version"[0] != "detection"[0];
  }

  // ---------------------------------------------------------------- the fingerprinter

  /** `RemoteFingerprinter`: the routines as methods on the executor. */
  class RemoteFingerprinter {
    const executor: RemoteExecutor

    constructor(executor: RemoteExecutor)
      ensures this.executor == executor
    {
      this.executor := executor;
    }

    /** `self.executor.execute_command(command)`: the reply, and the log only grows. */
    method Ask(command: string) returns (r: SshReply)
      modifies executor, executor.client
      ensures r == executor.Answer(old(executor.Usable()), command, None)
      ensures executor.connected == old(executor.Usable())
      ensures old(executor.client.sent) <= executor.client.sent
    {
      r := executor.ExecuteCommand(command, None);
    }

    /** One probe into one field, the pattern every routine repeats. */
    method ProbeInto(info: RemoteInfo, f: Field, key: string, command: string) returns (out: RemoteInfo)
      modifies executor, executor.client
      ensures out == Probed(executor, old(executor.Usable()), info, f, key, command)
      ensures executor.connected == old(executor.Usable())
      ensures old(executor.client.sent) <= executor.client.sent
    {
      var r := Ask(command);
      out := info;
      if r.success && r.output != "" {
        out := Set(info, f, r.output).(evidence := info.evidence[key := Plain(r, command)]);
      }
    }

    /** One probe of a waterfall: its reply, and where that leaves the search for the first hit. */
    method Probe(probes: seq<Labelled>, i: nat, ghost usable: bool) returns (r: SshReply)
      requires i < |probes| && executor.Usable() == usable
      modifies executor, executor.client
      ensures var rs := Replies(executor, usable, probes);
        && r == rs[i]
        && (Hit(r) ==> FirstHit(rs, i) == Some(i))
        && (!Hit(r) ==> FirstHit(rs, i) == FirstHit(rs, i + 1))
      ensures executor.Usable() == usable && executor.connected == usable
      ensures old(executor.client.sent) <= executor.client.sent
    {
      r := Ask(probes[i].command);
      ProbeStep(executor, usable, probes, i, r);
    }

    /**
     * The probe loop of a waterfall: sends the candidates in order until one hits,
     * and returns its index and reply.
     */
    method FirstAnswered(probes: seq<Labelled>) returns (k: Option<nat>, r: SshReply)
      modifies executor, executor.client
      ensures k == FirstHit(Replies(executor, old(executor.Usable()), probes), 0)
      ensures k.Some? ==> r == Replies(executor, old(executor.Usable()), probes)[k.value]
      ensures executor.connected == old(executor.Usable()) || (probes == [] && executor.connected == old(executor.connected))
      ensures old(executor.client.sent) <= executor.client.sent
    {
      ghost var usable := old(executor.Usable());
      ghost var rs := Replies(executor, usable, probes);
      k, r := None, SshReply(false, "", "");
      var i := 0;
      while i < |probes|
        invariant 0 <= i <= |probes|
        invariant FirstHit(rs, 0) == FirstHit(rs, i)
        invariant executor.Usable() == usable
        invariant i > 0 ==> executor.connected == usable
        invariant i == 0 ==> executor.connected == old(executor.connected)
        invariant old(executor.client.sent) <= executor.client.sent
      {
        r := Probe(probes, i, usable);
        if Hit(r) {
          return Some(i), r;
        }
        i := i + 1;
      }
    }

    /** A waterfall: the first candidate that hits sets the field and its evidence. */
    method RunWaterfall(info: RemoteInfo, f: Field, key: string, probes: seq<Labelled>, strip: bool)
      returns (out: RemoteInfo)
      modifies executor, executor.client
      ensures out == Waterfall(executor, old(executor.Usable()), info, f, key, probes, strip)
      ensures executor.connected == old(executor.Usable()) || (probes == [] && executor.connected == old(executor.connected))
      ensures old(executor.client.sent) <= executor.client.sent
    {
      var k, r := FirstAnswered(probes);
      out := info;
      if k.Some? {
        out := Set(info, f, if strip then Strip(r.output) else r.output)
          .(evidence := info.evidence[key := RemoteEvidence(r.sshCommand, probes[k.value].command, r.output, Some(probes[k.value].via), None)]);
      }
    }

    /** `_detect_darwin_system` */
    method DetectDarwin(info: RemoteInfo) returns (out: RemoteInfo)
      modifies executor, executor.client
      ensures out == DarwinInfo(executor, old(executor.Usable()), info)
      ensures executor.connected == old(executor.Usable())
      ensures old(executor.client.sent) <= executor.client.sent
    {
      out := info.(os := "macOS");
      out := ProbeInto(out, Version, "version", "sw_vers -productVersion");
      out := ProbeInto(out, Cpu, "cpu", "sysctl -n machdep.cpu.brand_string");
    }

    /** `_detect_linux_system` */
    method DetectLinux(info: RemoteInfo) returns (out: RemoteInfo)
      modifies executor, executor.client
      ensures out == LinuxInfo(executor, old(executor.Usable()), info)
      ensures executor.connected == old(executor.Usable())
      ensures old(executor.client.sent) <= executor.client.sent
    {
      out := info.(os := "Linux");
      out := RunWaterfall(out, Os, "os_name", DistroProbes, true);
      out := RunWaterfall(out, Version, "version", LinuxVersionProbes, false);
      out := ProbeInto(out, Cpu, "cpu", LinuxCpuCommand);
    }

    /** `_detect_generic_unix_system` */
    method DetectGenericUnix(info: RemoteInfo) returns (out: RemoteInfo)
      modifies executor, executor.client
      ensures out == UnixInfo(executor, old(executor.Usable()), info)
      ensures executor.connected == old(executor.Usable())
      ensures old(executor.client.sent) <= executor.client.sent
    {
      out := ProbeInto(info.(os := "Unix"), Version, "version", "uname -v");
    }

    /** `_detect_windows_system`; `None` where a line's `split(':', 1)[1]` raises. */
    method DetectWindows(info: RemoteInfo) returns (out: Option<RemoteInfo>)
      modifies executor, executor.client
      ensures out == WindowsInfo(executor, old(executor.Usable()), info)
      ensures executor.connected == old(executor.Usable())
      ensures old(executor.client.sent) <= executor.client.sent
    {
      var r := Ask(WindowsCommand);
      if !(r.success && r.output != "") {
        return Some(info);
      }
      var scanned := ScanLines(SplitOn(r.output, "\n"), info);
      if scanned.None? {
        return None;
      }
      var cur := scanned.value;
      out := Some(cur.(evidence := cur.evidence["os_info" := Plain(r, "systeminfo")]));
    }

    /** The routing part of `detect_system_info`; `None` where the Windows scan raises. */
    method Route() returns (r: Option<RemoteInfo>)
      modifies executor, executor.client
      ensures r == Routed(executor, old(executor.Usable()))
      ensures executor.connected == old(executor.Usable())
      ensures old(executor.client.sent) <= executor.client.sent
    {
      var o := Ask("uname -s");
      var info := InitialInfo;
      if o.success && o.output != "" {
        var osType := AsciiLower(Strip(o.output));
        info := info.(evidence := info.evidence["os_type" := Plain(o, "uname -s")]);
        assert info == AfterOsType(o);
        if osType == "darwin" {
          info := DetectDarwin(info);
        } else if osType == "linux" {
          info := DetectLinux(info);
        } else {
          info := DetectGenericUnix(info);
        }
        r := Some(info);
      } else {
        r := DetectWindows(info);
      }
    }

    /** The kernel, architecture and hostname probes that end `detect_system_info`. */
    method ProbeTail(info: RemoteInfo) returns (out: RemoteInfo)
      modifies executor, executor.client
      ensures out == Tail(executor, old(executor.Usable()), info)
      ensures executor.connected == old(executor.Usable())
      ensures old(executor.client.sent) <= executor.client.sent
    {
      out := ProbeInto(info, Kernel, "kernel", "uname -r");
      out := ProbeInto(out, Architecture, "architecture", "uname -m");
      out := ProbeInto(out, Hostname, "hostname", "hostname");
    }

    /** `detect_system_info`: route on `uname -s`, then kernel, architecture and hostname. */
    method DetectSystemInfo() returns (r: Result<RemoteInfo>)
      modifies executor, executor.client
      ensures r == SystemInfoOf(executor, old(executor.Usable()))
      ensures executor.connected == old(executor.Usable())
      ensures old(executor.client.sent) <= executor.client.sent
    {
      var routed := Route();
      if routed.None? {
        return Failure("list index out of range");
      }
      var info := ProbeTail(routed.value);
      r := Success(info);
    }

    /** `detect_software(detection_cmd, version_cmd)` */
    method DetectSoftware(detectionCmd: string, versionCmd: string) returns (d: RemoteDetection)
      modifies executor, executor.client
      ensures d == DetectionOf(executor, old(executor.Usable()), detectionCmd, versionCmd)
      ensures executor.connected == old(executor.Usable())
      ensures old(executor.client.sent) <= executor.client.sent
    {
      var r := Ask(detectionCmd);
      var evidence := map["detection" := RemoteEvidence(r.sshCommand, detectionCmd, r.output, None, Some(r.success))];
      if !r.success || r.output == "" {
        return RemoteDetection(false, "", None, evidence);
      }
      var version: Option<string> := None;
      if versionCmd != "" {
        var command := SoftwareDetection.VersionProbe(versionCmd, r.output);
        var v := Ask(command);
        evidence := evidence["version" := RemoteEvidence(v.sshCommand, command, v.output, None, Some(v.success))];
        if v.success && v.output != "" {
          version := Some(Strip(v.output));
        }
      }
      d := RemoteDetection(true, r.output, version, evidence);
    }
  }
}
