/**
 * The helpers every detector goes through (utils.py): the product-family
 * enumeration, evidence records, the local and the SSH command runners with the
 * process itself as an oracle, the platform key, whitespace collapsing and the
 * report envelope.
 */
module Utils {
  import opened Wrappers
  import opened Text

  // ---------------------------------------------------------------- ProductFamily

  /** The standardized product families. */
  datatype ProductFamily =
    | IDE | Browser | Virtualization | Communication | ProgrammingLanguage
    | VersionControl | Database | Runtime | Container | CloudTools
    | Security | Monitoring | Other | Unknown
  {
    /** The string value of the enum member. */
    function Value(): string {
      match this
      case IDE => "IDE"
      case Browser => "Browser"
      case Virtualization => "Virtualization"
      case Communication => "Communication"
      case ProgrammingLanguage => "Programming Language"
      case VersionControl => "Version Control"
      case Database => "Database"
      case Runtime => "Runtime"
      case Container => "Container"
      case CloudTools => "Cloud Tools"
      case Security => "Security"
      case Monitoring => "Monitoring"
      case Other => "Other"
      case Unknown => "Unknown"
    }
  }

  /** Every value of the enumeration. */
  const FamilyValues: set<string> :=
    {"IDE", "Browser", "Virtualization", "Communication", "Programming Language",
     "Version Control", "Database", "Runtime", "Container", "Cloud Tools",
     "Security", "Monitoring", "Other", "Unknown"}

  /** `ProductFamily(value)`: the member with that value, `None` where Python raises ValueError. */
  function FamilyFromValue(value: string): (r: Option<ProductFamily>)
    ensures r.Some? <==> value in FamilyValues
    ensures r.Some? ==> r.value.Value() == value
  {
    match value
    case "IDE" => Some(IDE)
    case "Browser" => Some(Browser)
    case "Virtualization" => Some(Virtualization)
    case "Communication" => Some(Communication)
    case "Programming Language" => Some(ProgrammingLanguage)
    case "Version Control" => Some(VersionControl)
    case "Database" => Some(Database)
    case "Runtime" => Some(Runtime)
    case "Container" => Some(Container)
    case "Cloud Tools" => Some(CloudTools)
    case "Security" => Some(Security)
    case "Monitoring" => Some(Monitoring)
    case "Other" => Some(Other)
    case "Unknown" => Some(Unknown)
    case _ => None
  }

  /** Looking a member up by its own value finds that member: values are distinct. */
  lemma FamilyValueRoundTrip(f: ProductFamily)
    ensures f.Value() in FamilyValues
    ensures FamilyFromValue(f.Value()) == Some(f)
  {
  }

  // ---------------------------------------------------------------- Evidence

  /** The command that produced a piece of data and its raw output. */
  datatype Evidence = Evidence(command: string, rawOutput: string) {
    /** `Evidence.to_dict` */
    function ToDict(): map<string, string> {
      map["command_run" := command, "raw_output" := rawOutput]
    }
  }

  /** Reads an evidence record back from its dictionary form. */
  function EvidenceFromDict(d: map<string, string>): Option<Evidence> {
    if "command_run" in d && "raw_output" in d then Some(Evidence(d["command_run"], d["raw_output"]))
    else None
  }

  /** `to_dict` loses nothing: the dictionary has exactly two keys and reads back to the same record. */
  lemma EvidenceDictRoundTrip(e: Evidence, d: map<string, string>)
    ensures e.ToDict().Keys == {"command_run", "raw_output"}
    ensures EvidenceFromDict(e.ToDict()) == Some(e)
    ensures d.Keys == {"command_run", "raw_output"} && EvidenceFromDict(d) == Some(e) ==> e.ToDict() == d
  {
  }

  // ---------------------------------------------------------------- running a process

  /** What `subprocess.run` did: finished, timed out, or raised before finishing. */
  datatype ProcessOutcome =
    | Completed(returncode: int, stdout: string, stderr: string)
    | TimedOut
    | Raised(clientMissing: bool, message: string)

  /** The local shell as an oracle: what running a command line gives. */
  type Shell = string -> ProcessOutcome

  /** The default `timeout` of `execute_command` and `execute_ssh_command`. */
  const DefaultTimeout := 30

  /** `(success, output)` of `execute_command`. */
  datatype Reply = Reply(success: bool, output: string)

  /** How `execute_command` turns the process outcome into its reply. */
  function LocalReply(o: ProcessOutcome, timeout: int): Reply
  {
    match o
    case Completed(rc, out, err) =>
      var output := Strip(out);
      var output := if output == "" && err != "" then Strip(err) else output;
      Reply(rc == 0, output)
    case TimedOut => Reply(false, "Command timed out after " + IntToString(timeout) + " seconds")
    case Raised(_, message) => Reply(false, "Error executing command: " + message)
  }

  /**
   * The reply's meaning: success exactly on exit code 0; the stripped stdout, or
   * the stripped stderr when stdout is blank; fixed messages otherwise.
   */
  lemma LocalReplySpec(o: ProcessOutcome, timeout: int)
    ensures var r := LocalReply(o, timeout);
      && (r.success <==> o.Completed? && o.returncode == 0)
      && (o.Completed? ==>
            && IsStripped(r.output)
            && (!AllSpace(o.stdout) ==> r.output == Strip(o.stdout))
            && (AllSpace(o.stdout) ==> r.output == Strip(o.stderr)))
      && (o.TimedOut? ==> r.output == "Command timed out after " + IntToString(timeout) + " seconds")
      && (o.Raised? ==> r.output == "Error executing command: " + o.message)
  {
  }

  /** `execute_command(command)` on the local shell. */
  function ExecuteCommand(shell: Shell, command: string): Reply {
    LocalReply(shell(command), DefaultTimeout)
  }

  /** A successful reply with output has no surrounding whitespace and is not blank. */
  lemma HitIsStripped(shell: Shell, command: string)
    ensures var r := ExecuteCommand(shell, command);
      r.success && r.output != "" ==> IsStripped(r.output) && !AllSpace(r.output)
  {
  }

  // ---------------------------------------------------------------- the ssh argument vector

  /** The fixed options, up to the last `-o`. */
  const SshOptions: seq<string> :=
    ["ssh", "-o", "BatchMode=yes", "-o", "StrictHostKeyChecking=no",
     "-o", "UserKnownHostsFile=/dev/null", "-o"]

  /** `user@host` when a user name is given, `host` otherwise. */
  function SshTarget(host: string, username: string): string {
    if username != "" then username + "@" + host else host
  }

  /**
   * The argument vector of `execute_ssh_command`. `username` and `keyFile` are ""
   * when not given.
   */
  function SshArgv(host: string, command: string, username: string, port: int, keyFile: string,
                   timeout: int): seq<string>
  {
    SshOptions + ["ConnectTimeout=" + IntToString(timeout)]
    + (if port != 22 then ["-p", IntToString(port)] else [])
    + (if keyFile != "" then ["-i", keyFile] else [])
    + [SshTarget(host, username), command]
  }

  /**
   * The shape of the argument vector: `ssh` with the fixed `-o` options, the
   * connect timeout, `-p <port>` only off port 22, `-i <key>` only with a key
   * file, then the target and the command.
   */
  lemma SshArgvShape(host: string, command: string, username: string, port: int, keyFile: string,
                     timeout: int)
    ensures var argv := SshArgv(host, command, username, port, keyFile, timeout);
      && |argv| == 11 + (if port != 22 then 2 else 0) + (if keyFile != "" then 2 else 0)
      && argv[..8] == SshOptions && argv[8] == "ConnectTimeout=" + IntToString(timeout)
      && (port != 22 ==> argv[9..11] == ["-p", IntToString(port)])
      && (keyFile != "" ==> argv[|argv| - 4..|argv| - 2] == ["-i", keyFile])
      && (|argv| > 11 ==> argv[9] == (if port != 22 then "-p" else "-i"))
      && argv[|argv| - 2] == SshTarget(host, username)
      && argv[|argv| - 1] == command
  {
  }

  /** The command is the last argument. */
  lemma SshArgvLast(host: string, command: string, username: string, port: int, keyFile: string,
                    timeout: int)
    ensures var argv := SshArgv(host, command, username, port, keyFile, timeout);
      |argv| > 0 && argv[|argv| - 1] == command
  {
  }

  /** Builds the argument vector part by part, as `execute_ssh_command` does. */
  method BuildSshArgv(host: string, command: string, username: string, port: int, keyFile: string,
                      timeout: int) returns (argv: seq<string>)
    ensures argv == SshArgv(host, command, username, port, keyFile, timeout)
  {
    var opts := ["-o", "BatchMode=yes", "-o", "StrictHostKeyChecking=no",
                 "-o", "UserKnownHostsFile=/dev/null", "-o", "ConnectTimeout=" + IntToString(timeout)];
    argv := ["ssh"];
    argv := argv + opts;
    assert argv == SshOptions + ["ConnectTimeout=" + IntToString(timeout)];
    var portPart: seq<string> := [];
    if port != 22 {
      portPart := ["-p", IntToString(port)];
      argv := argv + portPart;
    }
    var keyPart: seq<string> := [];
    if keyFile != "" {
      keyPart := ["-i", keyFile];
      argv := argv + keyPart;
    }
    if username != "" {
      argv := argv + [username + "@" + host];
    } else {
      argv := argv + [host];
    }
    argv := argv + [command];
    assert argv == SshOptions + ["ConnectTimeout=" + IntToString(timeout)] + portPart + keyPart
      + [SshTarget(host, username), command];
  }

  // ---------------------------------------------------------------- shaping the ssh output

  /** The lines kept from stderr: those that do not start with `Warning:`, in order. */
  function DropWarnings(lines: seq<string>): seq<string>
  {
    if lines == [] then []
    else
      var last := lines[|lines| - 1];
      DropWarnings(lines[..|lines| - 1]) + (if StartsWith(last, "Warning:") then [] else [last])
  }

  /** The kept lines are exactly the input lines that are not warnings, and no more of them. */
  lemma {:induction false} DropWarningsKeeps(lines: seq<string>)
    ensures var kept := DropWarnings(lines);
      && |kept| <= |lines|
      && (forall l :: l in kept ==> l in lines && !StartsWith(l, "Warning:"))
      && (forall l :: l in lines && !StartsWith(l, "Warning:") ==> l in kept)
  {
    if lines != [] {
      var last := lines[|lines| - 1];
      assert lines == lines[..|lines| - 1] + [last];
      DropWarningsKeeps(lines[..|lines| - 1]);
    }
  }

  /** Filtering the lines of two blocks is filtering each block: the order is kept. */
  lemma {:induction false} DropWarningsAppend(a: seq<string>, b: seq<string>)
    ensures DropWarnings(a + b) == DropWarnings(a) + DropWarnings(b)
    decreases |b|
  {
    if b == [] {
      assert a + b == a;
    } else {
      var last := b[|b| - 1];
      assert (a + b)[..|a + b| - 1] == a + b[..|b| - 1];
      DropWarningsAppend(a, b[..|b| - 1]);
    }
  }

  /**
   * The output `execute_ssh_command` returns for a finished process: stripped
   * stdout, or, when that is empty and stderr is not, the stderr lines that are
   * not SSH warnings.
   */
  function SshOutput(stdout: string, stderr: string): string {
    var output := Strip(stdout);
    if output == "" && stderr != "" then
      var kept := DropWarnings(SplitOn(Strip(stderr), "\n"));
      if kept != [] then Join(kept, "\n") else output
    else output
  }

  /**
   * Stderr is read only when stdout is blank; then the output is empty when every
   * stderr line is a warning, and otherwise its lines are exactly the non-warning
   * stderr lines, in order.
   */
  lemma SshOutputFallback(stdout: string, stderr: string)
    ensures !AllSpace(stdout) ==> SshOutput(stdout, stderr) == Strip(stdout)
    ensures AllSpace(stdout) ==>
      var out := SshOutput(stdout, stderr);
      var kept := DropWarnings(SplitOn(Strip(stderr), "\n"));
      && (kept == [] ==> out == "")
      && (kept != [] ==> SplitOn(out, "\n") == kept)
      && forall line :: line in SplitOn(out, "\n") ==> !StartsWith(line, "Warning:")
  {
    if AllSpace(stdout) {
      var lines := SplitOn(Strip(stderr), "\n");
      var kept := DropWarnings(lines);
      DropWarningsKeeps(lines);
      SplitOnPiecesFree(Strip(stderr), "\n");
      forall i | 0 <= i < |kept|
        ensures '\n' !in kept[i]
      {
        assert kept[i] in lines;
        var j :| 0 <= j < |lines| && lines[j] == kept[i];
        ContainsChar(lines[j], '\n');
      }
      if kept != [] {
        SplitOnJoin(kept, '\n');
      } else {
        assert SplitOn("", "\n") == [""];
      }
    }
  }

  /** `(success, output, ssh_command)` of `execute_ssh_command`. */
  datatype SshReply = SshReply(success: bool, output: string, sshCommand: string)

  /** How `execute_ssh_command` turns the process outcome into its reply. */
  function SshReplyOf(o: ProcessOutcome, timeout: int, sshCommand: string): (r: SshReply)
    ensures r.sshCommand == sshCommand
    ensures r.success <==> o.Completed? && o.returncode == 0
    ensures o.Completed? ==> r.output == SshOutput(o.stdout, o.stderr)
    ensures o.TimedOut? ==> r.output == "SSH command timed out after " + IntToString(timeout) + " seconds"
    ensures o.Raised? && o.clientMissing ==> r.output == "SSH client not found. Install OpenSSH."
    ensures o.Raised? && !o.clientMissing ==> r.output == "SSH error: " + o.message
  {
    match o
    case Completed(rc, out, err) => SshReply(rc == 0, SshOutput(out, err), sshCommand)
    case TimedOut => SshReply(false, "SSH command timed out after " + IntToString(timeout) + " seconds", sshCommand)
    case Raised(missing, message) =>
      if missing then SshReply(false, "SSH client not found. Install OpenSSH.", sshCommand)
      else SshReply(false, "SSH error: " + message, sshCommand)
  }

  /** The ssh client program as an oracle: the outcome for an argument vector. */
  type SshResponder = seq<string> -> ProcessOutcome

  /** The reply of `execute_ssh_command` as a value. */
  function SshCall(respond: SshResponder, host: string, command: string, username: string, port: int,
                   keyFile: string, timeout: int): (r: SshReply)
    ensures r.sshCommand == Join(SshArgv(host, command, username, port, keyFile, timeout), " ")
    ensures var o := respond(SshArgv(host, command, username, port, keyFile, timeout));
      r.success <==> o.Completed? && o.returncode == 0
  {
    var argv := SshArgv(host, command, username, port, keyFile, timeout);
    SshReplyOf(respond(argv), timeout, Join(argv, " "))
  }

  /** The ssh client: answers are given, and every argument vector it is run with is logged. */
  class SshClient {
    const respond: SshResponder
    var sent: seq<seq<string>>

    constructor(respond: SshResponder)
      ensures this.respond == respond && sent == []
    {
      this.respond := respond;
      sent := [];
    }

    method Run(argv: seq<string>) returns (o: ProcessOutcome)
      modifies this
      ensures o == respond(argv)
      ensures sent == old(sent) + [argv]
    {
      o := respond(argv);
      sent := sent + [argv];
    }
  }

  /** The loop of `execute_ssh_command` that drops the `Warning:` lines of stderr. */
  method KeepNonWarnings(lines: seq<string>) returns (kept: seq<string>)
    ensures kept == DropWarnings(lines)
  {
    kept := [];
    var i := 0;
    while i < |lines|
      invariant 0 <= i <= |lines|
      invariant kept == DropWarnings(lines[..i])
    {
      assert lines[..i + 1][..i] == lines[..i];
      if !StartsWith(lines[i], "Warning:") {
        kept := kept + [lines[i]];
      }
      i := i + 1;
    }
    assert lines[..i] == lines;
  }

  /** `execute_ssh_command`: build the argument vector, run it once, shape the reply. */
  method ExecuteSshCommand(client: SshClient, host: string, command: string, username: string, port: int,
                           keyFile: string, timeout: int) returns (r: SshReply)
    modifies client
    ensures client.sent == old(client.sent) + [SshArgv(host, command, username, port, keyFile, timeout)]
    ensures r == SshCall(client.respond, host, command, username, port, keyFile, timeout)
  {
    var argv := BuildSshArgv(host, command, username, port, keyFile, timeout);
    var sshCommand := Join(argv, " ");
    var o := client.Run(argv);
    match o {
      case Completed(rc, out, err) =>
        var output := Strip(out);
        if output == "" && err != "" {
          var lines := SplitOn(Strip(err), "\n");
          var kept := KeepNonWarnings(lines);
          if kept != [] {
            output := Join(kept, "\n");
          }
        }
        r := SshReply(rc == 0, output, sshCommand);
      case TimedOut =>
        r := SshReply(false, "SSH command timed out after " + IntToString(timeout) + " seconds", sshCommand);
      case Raised(missing, message) =>
        if missing {
          r := SshReply(false, "SSH client not found. Install OpenSSH.", sshCommand);
        } else {
          r := SshReply(false, "SSH error: " + message, sshCommand);
        }
    }
  }

  // ---------------------------------------------------------------- small pure helpers

  /** `get_platform_key` for the value `platform.system()` returned. */
  function PlatformKey(system: string): (key: string)
    ensures key in {"darwin", "linux", "windows"}
    ensures key == "darwin" <==> AsciiLower(system) == "darwin"
    ensures key == "windows" <==> AsciiLower(system) == "windows"
  {
    var lowered := AsciiLower(system);
    if lowered == "darwin" then "darwin"
    else if lowered == "linux" then "linux"
    else if lowered == "windows" then "windows"
    else "linux"
  }

  /**
   * `clean_output`: the words of the text joined by single blanks; no whitespace
   * at either end, no run of two blanks, and the same words as the input.
   */
  function CleanOutput(output: string): (r: string)
    ensures IsStripped(r) && SingleSpaced(r)
    ensures Words(r) == Words(output)
  {
    var ws := Words(output);
    JoinWordsSingleSpaced(ws);
    WordsOfJoin(ws);
    Join(ws, " ")
  }

  /** Cleaning twice is cleaning once. */
  lemma CleanOutputIdempotent(output: string)
    ensures CleanOutput(CleanOutput(output)) == CleanOutput(output)
  {
  }

  // ---------------------------------------------------------------- the report

  /** The system facts of a report; `E` is the shape of one evidence entry. */
  datatype SystemInfo<E> = SystemInfo(
    os: string, version: string, kernel: string, cpu: string, architecture: string, hostname: string,
    evidence: map<string, E>)

  /**
   * One entry of a software inventory; `E` is the shape of one evidence entry
   * (the local detector and the remote fingerprinter record different fields).
   */
  datatype SoftwareRecord<E> = SoftwareRecord(
    productName: string, versionNumber: string, architecture: string, productFamily: string,
    vendor: string, installPath: string, evidence: map<string, E>)

  /** `format_report`: the three parts of a report under fixed names. */
  datatype Report<M, S, R> = Report(agentMetadata: M, systemInfo: S, softwareInventory: seq<R>)
}
