# Fingerprint agent, modelled in Dafny

This project models the core of a host-fingerprinting agent. The agent
inventories a machine, either the local one or a remote one reached over
SSH. It reports the operating system, version, kernel, CPU,
architecture and hostname, and it lists the installed software products
named in a JSON configuration. Every value in the report carries
*evidence*: the command that produced it and the raw output it printed.

The model follows the agent's own modules:

| file | module | models |
|---|---|---|
| `wrappers.dfy` | `Wrappers` | `Option` and `Result`, which stand for Python's `None` and raised exceptions |
| `text.dfy` | `Text` | the parts of Python's `str` that the agent relies on: `strip`, `split`, `split(sep)`, `replace`, `in`, `lower`, `' '.join` |
| `versions.dfy` | `Versions` | the two version regular expressions, as explicit scanners |
| `utils.dfy` | `Utils` | the product families, evidence records, local and SSH command execution, the platform key and output cleaning |
| `software_detector.dfy` | `SoftwareDetection` | configuration loading, local detection of one target and of all targets, family normalisation, custom detection |
| `system_detector.dfy` | `SystemDetection` | local system detection: the probe waterfalls with their fallbacks, and the evidence map |
| `remote_executor.dfy` | `RemoteExecution` | the SSH executor with its connection flag, the remote system routines, and remote software detection |
| `main.dfy` | `Agent` | the scan metadata, the local and remote scans, remote software inventory and the export file name |

The outside world enters the model as values:

- **Local commands.** The shell is a function `Shell` from a command line
  to a `ProcessOutcome`: completed with a return code, stdout and stderr;
  timed out; or raised.
- **Remote commands.** The SSH client is a `SshClient` object. It holds a
  responder (argv to outcome) and the list of argument vectors it has sent
  so far. The executor's methods state exactly which argv they add.
- **Platform facts.** The values of `platform.system()`,
  `platform.version()`, `platform.mac_ver()`, `platform.release()`,
  `platform.processor()`, `platform.machine()` and `platform.node()` are
  the fields of `PlatformFacts`.
- **Scan context.** The timestamp, agent id and scan duration form a
  `ScanContext`.

Where the source mutates objects, the model is imperative:

- `SoftwareDetector`, `SystemDetector`, `RemoteExecutor`,
  `RemoteFingerprinter` and `FingerprintAgent` are classes.
- Their loops are `while` loops with invariants.
- Each method is proved equal to a specification function over the inputs
  and the old state. The properties are then proved as lemmas about that
  function.

## Model

| member | source | states |
|---|---|---|
| Utils.FamilyFromValue | utils.py:14-29 | a string is accepted as a product family exactly when it is one of the fourteen enum values, and the member found carries that value |
| Utils.FamilyValueRoundTrip | utils.py:14-29 | every family's value is a valid value, and looking that value up gives the same family back |
| Utils.EvidenceDictRoundTrip | utils.py:32-44 | the evidence dictionary has exactly the keys `command_run` and `raw_output`; reading the dictionary back gives the same evidence, and a two-key dictionary that reads as some evidence is that evidence's dictionary |
| Utils.LocalReplySpec | utils.py:47-76 | success exactly when the process completed with return code 0; the output is stripped stdout, or stripped stderr when stdout is blank; a timeout or an exception gives the fixed message with the number of seconds or the error |
| Utils.HitIsStripped | utils.py:67-72 | a successful local command with output gives output that is not blank and has no leading or trailing whitespace |
| Utils.SshArgvShape | utils.py:97-122 | the argv is `ssh` with the fixed `-o` options, then `ConnectTimeout=<t>`, then `-p <port>` only when the port is not 22, then `-i <key>` only when a key is given, then the target (`user@host` or the host), then the command; its length is 11, plus 2 for each optional pair |
| Utils.BuildSshArgv | utils.py:97-122 | builds the argv step by step, as the source does, and the result equals `SshArgv` |
| Utils.DropWarningsKeeps | utils.py:140-142 | the kept lines are exactly the input lines that do not start with `Warning:`, and there are no more of them than input lines |
| Utils.DropWarningsAppend | utils.py:140-142 | dropping warnings from two concatenated blocks is the same as dropping them from each block |
| Utils.SshOutputFallback | utils.py:136-146 | a non-blank stdout gives the stripped stdout; a blank stdout gives exactly the non-warning stderr lines, in order, or the empty output when every stderr line is a warning |
| Utils.SshReplyOf | utils.py:128-153 | the reply carries the joined ssh command line; success exactly when the return code is 0; the timeout, missing-client and other-error messages are as in the source |
| Utils.SshCall | utils.py:79-153 | the ssh command line is the argv joined by spaces, and the reply is the responder's outcome for that argv |
| Utils.SshClient.Run | utils.py:128-134 | runs one argv through the responder and appends it to the sent list |
| Utils.KeepNonWarnings | utils.py:140-142 | the stderr line filter, written as a loop, keeps exactly what `DropWarnings` keeps |
| Utils.ExecuteSshCommand | utils.py:79-153 | sends exactly the argv of `SshArgv` and returns `SshCall`'s reply |
| Utils.PlatformKey | utils.py:156-171 | the key is one of `darwin`, `linux`, `windows`; `darwin` and `windows` are chosen exactly for those system names in any letter case, and every other system is `linux` |
| Utils.CleanOutput | utils.py:194-204 | the result is stripped, has single spaces between words, and has the same words as the input |
| Utils.CleanOutputIdempotent | utils.py:194-204 | cleaning twice is cleaning once |
| Versions.ExtractVersionScan | utils.py:207-231 | the loop over the three patterns returns what `ExtractVersion` returns |
| Versions.ExtractVersionPicks | utils.py:218-229 | the leftmost four-part number wins; if there is none, the leftmost three-part number; if there is none, the leftmost two-part number |
| Versions.ExtractVersionPriority | utils.py:218-229 | a four-part match anywhere beats every three-part match, and a three-part match beats every two-part match |
| Versions.ExtractVersionExample | utils.py:218-229 | in `1.2 3.4.5.6` the later four-part number is chosen over the earlier two-part one |
| Versions.ExtractVersionShape | utils.py:218-229 | a returned version occurs in the output and is 2, 3 or 4 digit runs separated by dots |
| Versions.ExtractVersionNone | utils.py:218-231 | no version is found exactly when the output has no digit, dot, digit sequence |
| Versions.ExtractVersionIdempotent | utils.py:207-231 | extracting again from an extracted version gives the same version |
| Versions.BoundedVersionShape | software_detector.py:151-157 | the word-bounded pattern returns a 3- or 4-part dotted number that occurs in the output with no word character on either side |
| Versions.BoundedVersionNeedsTwoDots | software_detector.py:151-157 | an output with fewer than two dots gives no version |
| Versions.BoundedVersionIdempotent | software_detector.py:151-157 | the bounded extraction is stable on its own result |
| SoftwareDetection.LoadConfig | software_detector.py:29-41 | a missing file or invalid JSON gives no targets; a JSON value that is not an object, or an unreadable file, raises; otherwise the `software_targets` list is returned |
| SoftwareDetection.NormalizeProductFamily | software_detector.py:177-213 | the result is always one of the enum values; a value of the enum maps to itself; anything else maps to `Other` |
| SoftwareDetection.NormalizeIdempotent | software_detector.py:177-213 | normalising twice is normalising once |
| SoftwareDetection.CustomIsOther | software_detector.py:204-213 | the family `Custom` normalises to `Other` |
| SoftwareDetection.VersionProbe | software_detector.py:159-163 | the version command with every `{app_path}` replaced by the first line of the detection output, and unchanged when it has no placeholder |
| SoftwareDetection.VersionProbeHoldsPath | software_detector.py:161-163 | after the replacement the command contains the application path |
| SoftwareDetection.VersionFromCommand | software_detector.py:147-175 | with a version command, a version is found exactly when the probe succeeds with output; it is then non-empty and is that output up to its first line break |
| SoftwareDetection.VersionNeverEmpty | software_detector.py:136-175 | a version that is found is never the empty string |
| SoftwareDetection.DetectSoftwareNone | software_detector.py:74-134 | nothing is reported exactly when the platform has no configuration, its configuration is not an object, its command is empty, or the command fails or prints nothing |
| SoftwareDetection.HitFirstLine | software_detector.py:100-124 | a successful command with output has a non-empty first line |
| SoftwareDetection.DetectSoftwareRecord | software_detector.py:106-130 | a record carries the configured name (or `Unknown`), the non-empty first output line as install path, the version or `Unknown`, the configured family (default `Unknown`) normalised to an enum value, the configured vendor (or `Unknown`) and the machine's architecture |
| SoftwareDetection.DetectSoftwareEvidence | software_detector.py:125-127 | a record's evidence is exactly the `detection` entry, in its `to_dict` form, with the detection command of the platform's configuration and its output |
| SoftwareDetection.DetectCustomSoftware | software_detector.py:225-272 | a record exists exactly when the detection command succeeds with output; the record has a `detection` entry and no keys other than `detection` and `version` |
| SoftwareDetection.CustomRecord | software_detector.py:254-272 | the assembled record has the given name, vendor and architecture, the given family normalised to an enum value, the first output line as install path, the detection evidence, and only the `detection` and `version` keys |
| SoftwareDetection.DetectCustomSoftwareVersion | software_detector.py:245-270 | there is a `version` entry exactly when the version command succeeds with output; its output is then the version, and otherwise the version is `Unknown` |
| SoftwareDetection.InventoryAppend | software_detector.py:55-59 | the inventory of two target lists concatenated is the two inventories concatenated |
| SoftwareDetection.InventoryMembers | software_detector.py:55-59 | the inventory has at most one record per target, and every record is the result of some target |
| SoftwareDetection.SoftwareDetector.constructor | software_detector.py:17-27 | stores the shell and the loaded targets, the platform key computed from the system name, and the machine architecture |
| SoftwareDetection.SoftwareDetector.DetectAll | software_detector.py:43-72 | the loop returns the inventory of all targets in order and counts the targets whose detection raised |
| SoftwareDetection.InventoryAsWrittenRaises | software_detector.py:55-65 | as written, the whole run raises exactly when some target is not an object; otherwise it returns the inventory |
| SoftwareDetection.CorrectedKeepsLaterTargets | software_detector.py:55-65 | after a target that is not an object, the corrected loop still detects the next target and counts one failure, while the as-written loop raises |
| SystemDetection.Waterfall | system_detector.py:107-146 | a fallback that records evidence, or a probe that hit before, always leaves evidence |
| SystemDetection.WaterfallMiss | system_detector.py:68-79 | a probe that fails or prints nothing is skipped, leaving no evidence |
| SystemDetection.WaterfallReject | system_detector.py:239-249 | a probe that hits but whose output has no second line still writes its evidence, and the waterfall goes on to the next probe or the fallback |
| SystemDetection.WaterfallSettle | system_detector.py:68-79 | an accepted hit gives the shaped output as the value and its own evidence |
| SystemDetection.Chain | system_detector.py:62-88 | a fallback that records evidence, or a probe that hit before, always leaves evidence, for any replies in which no hit is blank |
| SystemDetection.ChainFirstSettles | system_detector.py:62-88 | for any replies, the first one whose output is accepted decides the value and the evidence |
| SystemDetection.ChainNoneSettles | system_detector.py:62-88 | for any replies with none accepted, the fallback's value is used, with its own evidence when it records one |
| SystemDetection.WaterfallFirstSettles | system_detector.py:62-88 | the first probe whose output is accepted decides the value and the evidence |
| SystemDetection.WaterfallNoneSettles | system_detector.py:62-88 | when no probe is accepted, the fallback's value is used |
| SystemDetection.OsOutcome | system_detector.py:51-60 | Darwin is reported as `macOS` and Windows as `Windows`, neither with evidence; any other system except Linux is reported under its own name |
| SystemDetection.DistroHit | system_detector.py:62-86 | the first of os-release, lsb_release and /etc/issue that succeeds with output names the distribution (its first word, or the stripped output for lsb_release) and is recorded under `linux_distro` |
| SystemDetection.DistroDefault | system_detector.py:81-88 | with no probe succeeding, the distribution is `Linux` with no evidence |
| SystemDetection.LinuxVersionSource | system_detector.py:120-141 | the first of os-release, lsb_release and `uname -r` that succeeds gives the Linux version and its evidence |
| SystemDetection.LinuxVersionFallback | system_detector.py:143-146 | when no probe succeeds, the version is `platform.version()` and is recorded as such |
| SystemDetection.KernelSpec | system_detector.py:162-184 | the kernel is `uname -r` on macOS and Linux and `ver` on Windows when that command succeeds, and `platform.release()` otherwise (always on other systems), with evidence either way |
| SystemDetection.CpuUnknown | system_detector.py:186-249 | on every platform, when no CPU probe is accepted and `platform.processor()` is empty, the CPU is `Unknown` with the empty processor recorded |
| SystemDetection.WindowsCpu | system_detector.py:236-249 | on Windows the CPU is the stripped second line of `wmic cpu get name` when its output has one; otherwise the processor fallback overwrites the `wmic` evidence |
| SystemDetection.EvidenceKeys | system_detector.py:25-49 | the evidence keys are the starting keys plus `os_version`, `kernel`, `cpu`, `architecture` and `hostname`, plus `linux_distro` exactly when a distribution probe hit, which happens only on Linux |
| SystemDetection.SystemDetector.constructor | system_detector.py:16-23 | records the shell, the platform facts and the three platform tests, and starts with no evidence |
| SystemDetection.SystemDetector.Attempt | system_detector.py:68-79 | runs one probe, and records its evidence when it hits |
| SystemDetection.SystemDetector.DetectLinuxDistro | system_detector.py:62-88 | returns the distribution outcome and records its evidence |
| SystemDetection.SystemDetector.DetectOs | system_detector.py:51-60 | returns the OS outcome and records its evidence |
| SystemDetection.SystemDetector.ProbeOrFallback | system_detector.py:162-184 | one probe with a recorded fallback |
| SystemDetection.SystemDetector.DetectDarwinVersion | system_detector.py:107-118 | returns the macOS version outcome and records it |
| SystemDetection.SystemDetector.DetectLinuxVersion | system_detector.py:120-146 | returns the Linux version outcome and records it |
| SystemDetection.SystemDetector.DetectWindowsVersion | system_detector.py:148-160 | returns the Windows version outcome and records it |
| SystemDetection.SystemDetector.DetectOsVersion | system_detector.py:90-105 | dispatches on the platform and returns the version outcome |
| SystemDetection.SystemDetector.DetectKernelVersion | system_detector.py:162-184 | returns the kernel outcome and records it |
| SystemDetection.SystemDetector.ProcessorFallbackValue | system_detector.py:197-201 | `platform.processor()`, or `Unknown` when it is empty, recorded as evidence |
| SystemDetection.SystemDetector.DetectDarwinCpu | system_detector.py:203-214 | returns the macOS CPU outcome and records it |
| SystemDetection.SystemDetector.DetectLinuxCpu | system_detector.py:216-234 | returns the Linux CPU outcome and records it |
| SystemDetection.SystemDetector.DetectWindowsCpu | system_detector.py:236-249 | returns the Windows CPU outcome and records it |
| SystemDetection.SystemDetector.DetectCpu | system_detector.py:186-201 | dispatches on the platform and returns the CPU outcome |
| SystemDetection.SystemDetector.DetectArchitecture | system_detector.py:251-272 | returns the architecture outcome and records it |
| SystemDetection.SystemDetector.DetectHostname | system_detector.py:274-286 | returns the hostname outcome and records it |
| SystemDetection.SystemDetector.EvidenceAsDicts | system_detector.py:44-46 | the copy has the same keys as the evidence map, and each entry is that evidence's dictionary |
| SystemDetection.SystemDetector.DetectAll | system_detector.py:25-49 | the info returned and the evidence map left behind are the specification's, for the detector's shell and facts |
| RemoteExecution.RemoteExecutor.constructor | remote_executor.py:15-36 | stores the connection parameters and starts disconnected |
| RemoteExecution.RemoteExecutor.Connect | remote_executor.py:38-69 | sends the `SSH_TEST_OK` probe once; it succeeds exactly when the host answers with the mark; the executor is connected afterwards if it was before or this attempt succeeded |
| RemoteExecution.RemoteExecutor.ExecuteCommand | remote_executor.py:71-105 | a disconnected executor first tries to connect, and fails with `Cannot connect to remote host` and no ssh command if that fails; otherwise it runs the command with the given timeout or the executor's own |
| RemoteExecution.RemoteExecutor.Enter | remote_executor.py:107-110 | tries to connect and returns the executor itself |
| RemoteExecution.RemoteExecutor.Exit | remote_executor.py:112-114 | marks the executor disconnected and changes nothing else |
| RemoteExecution.SendsSpec | remote_executor.py:82-101 | a connected executor sends only the command; a disconnected one sends the connection probe first, then the command only if the probe succeeded |
| RemoteExecution.AnswerUnusable | remote_executor.py:85-86 | a command on an executor that cannot connect fails with an empty ssh command line |
| RemoteExecution.CreateRemoteExecutor | remote_executor.py:358-377 | returns a connected executor exactly when the connection probe succeeds, after sending exactly that probe with a 30-second timeout |
| RemoteExecution.Set | remote_executor.py:139-147 | writing one field of the system info changes that field and nothing else |
| RemoteExecution.FirstHit | remote_executor.py:237-247 | the first hit it finds lies within the probes searched |
| RemoteExecution.FirstHitIsFirst | remote_executor.py:237-247 | the probe found succeeded with output and no earlier one did; with none found, no probe did |
| RemoteExecution.ProbedKeepsTail | remote_executor.py:203-225 | an OS-routine probe does not touch kernel, architecture, hostname or their evidence |
| RemoteExecution.WaterfallKeepsTail | remote_executor.py:227-265 | the Linux waterfalls do not touch kernel, architecture, hostname or their evidence |
| RemoteExecution.ProbedSpec | remote_executor.py:203-225 | one probe: on a hit its field takes the output and its key records the probe; on a miss nothing changes; other fields never change |
| RemoteExecution.ProbedOthers | remote_executor.py:203-225 | a probe writes no evidence key other than its own |
| RemoteExecution.WaterfallOthers | remote_executor.py:227-265 | a waterfall writes no evidence key other than its own |
| RemoteExecution.ScanWindowsKeeps | remote_executor.py:297-302 | the Windows line scan changes only the OS and the version |
| RemoteExecution.RoutedShape | remote_executor.py:149-169 | after routing, kernel, architecture and hostname are still `Unknown`, and only the routines' own evidence keys exist |
| RemoteExecution.TailSpec | remote_executor.py:171-199 | kernel, architecture and hostname each take their command's output on a hit, with evidence under their own key, and stay `Unknown` with no entry otherwise; everything else is kept |
| RemoteExecution.TailFieldsNeedEvidence | remote_executor.py:129-201 | in the final info, kernel, architecture and hostname differ from `Unknown` only with matching evidence |
| RemoteExecution.RoutingTailDisjoint | remote_executor.py:149-199 | the routing evidence keys and the kernel, architecture and hostname keys are distinct |
| RemoteExecution.RoutedAfterHit | remote_executor.py:150-166 | after a successful `uname -s`, its evidence is kept under `os_type`, and Darwin, Linux and other systems are routed to `macOS`, the distribution name or `Linux`, and `Unix` |
| RemoteExecution.RoutedAfterMiss | remote_executor.py:167-169 | after a failed `uname -s`, the Windows routine runs and writes at most `os_info` |
| RemoteExecution.DarwinKeepsOsType | remote_executor.py:203-225 | the macOS routine keeps the `os_type` evidence |
| RemoteExecution.LinuxKeepsOsType | remote_executor.py:227-276 | the Linux routine keeps the `os_type` evidence |
| RemoteExecution.UnixKeepsOsType | remote_executor.py:278-290 | the generic Unix routine keeps the `os_type` evidence |
| RemoteExecution.Routing | remote_executor.py:129-201 | the remote system info: `os_type` evidence exactly after a successful `uname -s`, with the OS routed as above, and no `os_type` entry otherwise |
| RemoteExecution.LinuxOsName | remote_executor.py:227-276 | the Linux OS is `Linux` with no `os_name` entry, or the stripped name recorded in that entry |
| RemoteExecution.UnreachableHostUnknown | remote_executor.py:139-147 | a host that cannot be reached gives every field `Unknown` and no evidence |
| RemoteExecution.LinuxDistroOrder | remote_executor.py:232-247 | os-release wins when it answers; otherwise lsb_release when it answers; otherwise the OS stays `Linux`, and the entry names the method used |
| RemoteExecution.ScanWindowsStuck | remote_executor.py:297-302 | once the line scan has raised, the rest of the lines do not matter |
| RemoteExecution.ScanWindowsLastName | remote_executor.py:297-302 | when the scan succeeds, the OS is the text after the first colon of the last `OS Name` line, stripped |
| RemoteExecution.ScanWindowsNoName | remote_executor.py:297-302 | with no `OS Name` line the OS is unchanged |
| RemoteExecution.ScanWindowsLastVersion | remote_executor.py:297-302 | when the scan succeeds, the version is the text after the first colon of the last line naming `OS Version` but not `OS Name`, stripped |
| RemoteExecution.DetectionSpec | remote_executor.py:310-355 | the `detection` entry always records the command and its reply; found exactly when the command succeeds with output; a miss has no output, no version and only that entry; a `version` entry exists exactly when found with a version command; a version is the stripped output of a successful version command; when a version probe ran, its command is the version command with `{app_path}` replaced, and a version is found exactly when that probe succeeds with output |
| RemoteExecution.RemoteFingerprinter.constructor | remote_executor.py:117-127 | wraps the given executor |
| RemoteExecution.RemoteFingerprinter.Ask | remote_executor.py:71-105 | one `execute_command` call through the fingerprinter's executor: the reply the executor gives, and afterwards the executor is connected exactly when it was usable |
| RemoteExecution.RemoteFingerprinter.ProbeInto | remote_executor.py:203-225 | runs one probe and returns the specification's info |
| RemoteExecution.RemoteFingerprinter.FirstAnswered | remote_executor.py:237-247 | the `for … break` loop stops at the first probe that succeeds with output, and returns its index and reply; it returns no index when none does |
| RemoteExecution.RemoteFingerprinter.RunWaterfall | remote_executor.py:237-265 | a waterfall sets the field and its evidence from the first probe that hits, and returns the specification's info |
| RemoteExecution.RemoteFingerprinter.DetectDarwin | remote_executor.py:203-225 | the macOS routine, equal to its specification |
| RemoteExecution.RemoteFingerprinter.DetectLinux | remote_executor.py:227-276 | the Linux routine, equal to its specification |
| RemoteExecution.RemoteFingerprinter.DetectGenericUnix | remote_executor.py:278-290 | the generic Unix routine, equal to its specification |
| RemoteExecution.ScanLines | remote_executor.py:297-302 | the Windows line loop computes `ScanWindows`, including the raise on a colon-less line |
| RemoteExecution.RemoteFingerprinter.DetectWindows | remote_executor.py:292-308 | the Windows routine, equal to its specification: unchanged info on a miss, otherwise the scanned info with the `os_info` entry |
| RemoteExecution.RemoteFingerprinter.Route | remote_executor.py:149-169 | the routing on `uname -s`, equal to its specification |
| RemoteExecution.RemoteFingerprinter.ProbeTail | remote_executor.py:171-199 | the kernel, architecture and hostname probes, equal to their specification |
| RemoteExecution.RemoteFingerprinter.DetectSystemInfo | remote_executor.py:129-201 | the whole remote system detection, equal to `SystemInfoOf`, whose properties are the lemmas above |
| RemoteExecution.RemoteFingerprinter.DetectSoftware | remote_executor.py:310-355 | remote software detection, equal to `DetectionOf`, whose properties are `DetectionSpec` |
| Agent.RemoteRecordFields | main.py:195-212 | name, family and vendor are the configured strings, or `Unknown` where missing; a non-empty found version is kept; the architecture is the stripped `uname -m` answer when it succeeded, else `Unknown`; the install path is the stripped detection output up to its first line break |
| Agent.TryPlatformsSkip | main.py:179-188 | a platform with no configuration, an empty command, or a miss is skipped |
| Agent.TryPlatformsHit | main.py:191-212 | a platform whose detection finds the software gives the record built from that detection |
| Agent.TryPlatformsFirstFind | main.py:179-212 | the first platform, in the order darwin, linux, windows, whose detection finds the software gives the record |
| Agent.TryPlatformsNone | main.py:179-193 | when every platform is skipped there is no record |
| Agent.TryPlatformsRaise | main.py:179-216 | a platform configuration that is not an object, reached before any find, raises inside the `try` and drops the target |
| Agent.ConfigFailureEmpty | main.py:162-168 | a configuration that cannot be loaded gives an empty remote inventory |
| Agent.RemoteInventoryAppend | main.py:172-216 | the remote inventory of concatenated target lists is the concatenation of the inventories |
| Agent.RemoteInventoryMembers | main.py:172-216 | at most one record per target, each the result of some target |
| Agent.RemoteFamilyIsRaw | main.py:204 | the remote scan reports the configured family as is, so `Custom` stays `Custom`, whereas a record the local detector finds for the same target reports `Other` |
| Agent.RemoteInventoryAsWrittenRaises | main.py:172-216 | as written, the remote inventory raises exactly when some target is not an object |
| Agent.CorrectedRemoteKeepsLaterTargets | main.py:172-216 | after a target that is not an object, the corrected loop still detects the next target, while the as-written loop raises |
| Agent.LocalReportSpec | main.py:39-82 | with the corrected `detect_all`, a local scan produces a report exactly when the configuration loads; the report is of type `local`, names the local hostname, and has system evidence for version, kernel, CPU, architecture and hostname |
| Agent.LocalReportAsWrittenRaises | main.py:39-82 | as written, the local scan raises exactly when the configuration does not load or holds an element that is not an object; otherwise its report is the corrected scan's |
| Agent.RemoteReportSpec | main.py:84-147 | after connecting, and with the corrected software loop, a remote scan fails only when remote system detection raises; otherwise the report is of type `remote`, names the host, holds the remote system info, and has at most one record per target |
| Agent.RemoteReportAsWrittenNone | main.py:84-147 | as written, a connected remote scan gives no report exactly when remote system detection raises or a target is not an object; otherwise its report is the corrected scan's |
| Agent.ExportFileName | main.py:231-234 | the default export file name contains no colon and no space |
| Agent.ExportFileNameChars | main.py:231-234 | the name is `fingerprint_`, then the timestamp with every colon turned into a dash and every space into an underscore, then `.json` |
| Agent.ExportPath | main.py:220-245 | a path is returned exactly when the report was written; it is the given file, or the default name |
| Agent.FingerprintAgent.constructor | main.py:27-37 | stores the mode and the configuration, with no executor yet |
| Agent.FingerprintAgent.DetectTarget | main.py:172-216 | the loop over the three platforms returns what `TryPlatforms` specifies for one target |
| Agent.FingerprintAgent.DetectEntry | main.py:172-181 | an element that is not a target, or whose detection is not a table, gives no record; any other gives the record `TryPlatforms` specifies, and the executor stays usable exactly as before |
| Agent.FingerprintAgent.DetectRemoteSoftware | main.py:149-218 | the loop over the targets returns `RemoteInventory` of the configured targets |
| Agent.FingerprintAgent.RunRemoteScan | main.py:84-147 | creates and stores a fresh executor for the host; an unreachable host gives no report after one connection probe; otherwise the report is `RemoteReportOf` |
| Agent.FingerprintAgent.RunLocalScan | main.py:39-82 | the local scan returns `LocalReportOf` for the shell, the platform facts and the configuration |

## Left out

- Processes, SSH and time are not run. They are inputs: the `Shell` function, the `SshClient` responder, `PlatformFacts` and `ScanContext`. The 30-second default timeouts appear only in messages and argv.
- The responder is a function, so a host answers the same command the same way every time. A host that goes down during a scan is not modelled.
- `log_message`, `get_timestamp`, `generate_agent_id` and the console messages have no effect on results and are left out. The timestamp, agent id and duration are fields of `ScanContext`.
- The command-line entry point (`main()` and argument parsing) is left out. `FingerprintAgent` is built directly with a mode and a configuration.
- Reading the JSON configuration is left out. A `ConfigDocument` stands for the outcome: targets, missing file, invalid JSON, a JSON value that is not an object, or an unreadable file.
- Configuration values of a non-string type are left out, and so is a `software_targets` value that is not a list.
- Writing the report to disk and `json.dump` are left out. `ExportPath` takes a flag saying whether the write succeeded.
- Dictionary key order, and so the order of keys in the JSON output, is not modelled. Maps are unordered.
- `format_report` is the `Report` datatype. It builds nothing beyond assembling its three parts.
- `detect_software_inventory` and `detect_system_info` in the detector modules are one-line wrappers that build a detector and run it. `RunLocalScan` does the same directly.
- `\d`, `\b`, `\w` and `str.lower` are modelled on ASCII digits, letters and underscore; their Unicode categories are not. `str.strip` and `str.split()` use the full set of characters `str.isspace` accepts.
- `execute_ssh_command` never raises, because it catches every exception itself. The `except` branches of `connect` and `execute_command` are therefore never reached and are not modelled.
- The remote system info is passed by value between the routines instead of being one dictionary mutated in place. No other reference to it exists, so nothing observable is lost.
- RemoteExecution.DetectionSpec: a version command whose output is only whitespace gives the version `""`. This follows the source (`v_output.strip()` after a truthiness test on the unstripped output). `RemoteRecordOf` then reports it as `Unknown`.
- Agent.FingerprintAgent.DetectRemoteSoftware: requires the agent's stored executor to be the fingerprinter's executor, which is how `run_remote_scan` builds them.
- Agent.FingerprintAgent.DetectTarget: requires the same as `DetectRemoteSoftware`, for the same reason.
- Agent.FingerprintAgent.DetectEntry: requires the same as `DetectRemoteSoftware`, for the same reason.
- LocalReportSpec: states the local scan with the corrected `detect_all`, which skips an element of `software_targets` that is not an object; as written the scan raises there, which `LocalReportAsWrittenRaises` states.
- LocalReportOf: uses the corrected `detect_all`; `LocalReportAsWritten` is the scan as written.
- RunLocalScan: returns `LocalReportOf`, so a target that is not an object gives a report where the source raises.
- RemoteReportSpec: states the remote scan with the corrected software loop; as written a target that is not an object makes `run_remote_scan` return `None`, which `RemoteReportAsWrittenNone` states.
- RemoteReportOf: uses the corrected software loop; `RemoteReportAsWritten` is the scan as written.
- RunRemoteScan: returns `RemoteReportOf` once connected, so a target that is not an object gives a report where the source returns `None`.
- A local scan's target host defaults to `localhost`, which the local scan never contacts. Only `RunRemoteScan` uses an SSH client.
- `_get_architecture` returns `platform.machine()`, which is the `machine` field of `PlatformFacts`.

## Findings

| source | as written | input that shows it | evidently intended | confidence | as-written member | corrected member |
|---|---|---|---|---|---|---|
| software_detector.py:55-65 | `detect_software` reads `target.get('name')` at line 84, outside its own `try`, so a target that is not an object raises into `detect_all`; the handler there calls `target.get` again at line 62, which raises once more and ends the whole run | a `software_targets` list whose first element is a string, followed by a valid target | count the failure and go on with the remaining targets, as the handler's comment and the docstring say ("returns partial results") | not executed | SoftwareDetection.InventoryAsWrittenRaises | SoftwareDetection.CorrectedKeepsLaterTargets |
| main.py:172-216 | the remote loop calls `target.get` at line 174 inside the `try`, and the handler calls `target.get` again at line 215, so a target that is not an object raises out of `_detect_remote_software` and the remote scan loses every other target | a remote configuration whose first target is a string, followed by a valid target | log the bad target and go on with the others | not executed | Agent.RemoteInventoryAsWrittenRaises | Agent.CorrectedRemoteKeepsLaterTargets |
