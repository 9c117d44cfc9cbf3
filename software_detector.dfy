/**
 * The local software detector (software_detector.py): per-target detection on
 * one platform key, version extraction, product-family normalisation and the
 * inventory loop. The loaded configuration is an input; the shell is an oracle.
 */
module SoftwareDetection {
  import opened Wrappers
  import opened Text
  import opened Utils
  import opened Versions

  // ---------------------------------------------------------------- configuration

  /**
   * The value stored under a platform key of a target's `detection` table:
   * a dictionary (with "" for a missing or empty `command` / `version_command`)
   * or some other JSON value, on which `.get` raises.
   */
  datatype PlatformEntry = Config(command: string, versionCommand: string) | NotAnObject

  /**
   * A target's `detection` value: a table by platform key (a missing, null or
   * empty entry is simply absent) or a value that is not a dictionary.
   */
  datatype Detection = Table(platforms: map<string, PlatformEntry>) | NotATable

  /** A software target; `None` stands for a missing key. */
  datatype Target = Target(name: Option<string>, vendor: Option<string>, family: Option<string>,
                           detection: Detection)

  /** One element of `software_targets`: a dictionary or some other JSON value. */
  datatype ConfigEntry = Entry(target: Target) | NotATarget

  /** What reading the configuration file gave. */
  datatype ConfigDocument =
    | Targets(entries: seq<ConfigEntry>)
    | FileMissing
    | BadJson
    | NotADict
    | Unreadable

  /**
   * `_load_config`: a missing file or invalid JSON gives no targets; any other
   * failure escapes from the constructor.
   */
  function LoadConfig(doc: ConfigDocument): (r: Result<seq<ConfigEntry>>)
    ensures r.Failure? <==> doc.NotADict? || doc.Unreadable?
    ensures doc.Targets? ==> r == Success(doc.entries)
    ensures doc.FileMissing? || doc.BadJson? ==> r == Success([])
  {
    match doc
    case Targets(entries) => Success(entries)
    case FileMissing => Success([])
    case BadJson => Success([])
    case NotADict => Failure("'software_targets' read from a value that is not a dictionary")
    case Unreadable => Failure("configuration file could not be read")
  }

  // ---------------------------------------------------------------- _normalize_product_family

  /** The variations `_normalize_product_family` maps explicitly. */
  const FamilyMapping: map<string, ProductFamily> := map[
    "IDE" := IDE, "Browser" := Browser, "Virtualization" := Virtualization,
    "Communication" := Communication, "Programming Language" := ProgrammingLanguage,
    "Version Control" := VersionControl, "Database" := Database, "Runtime" := Runtime,
    "Container" := Container, "Cloud Tools" := CloudTools, "Security" := Security,
    "Monitoring" := Monitoring]

  /**
   * `_normalize_product_family`: a family that is a value of the enumeration is
   * kept, anything else becomes "Other".
   */
  function NormalizeProductFamily(family: string): (r: string)
    ensures r in FamilyValues
    ensures family in FamilyValues ==> r == family
    ensures family !in FamilyValues ==> r == "Other"
  {
    if family in FamilyMapping then FamilyMapping[family].Value()
    else
      match FamilyFromValue(family)
      case Some(_) => family
      case None => Other.Value()
  }

  /** Normalising a normalised family changes nothing. */
  lemma NormalizeIdempotent(family: string)
    ensures NormalizeProductFamily(NormalizeProductFamily(family)) == NormalizeProductFamily(family)
  {
  }

  /** The default family of custom software is not a member value, so it is reported as "Other". */
  lemma CustomIsOther()
    ensures NormalizeProductFamily("Custom") == "Other"
  {
    assert forall v | v in FamilyValues :: |v| != 6;
    assert "Custom" !in FamilyMapping.Keys;
  }

  // ---------------------------------------------------------------- _extract_version

  /** The placeholder a version command may hold. */
  const AppPath := "{app_path}"

  /**
   * The version command after the placeholder step: when it holds `{app_path}`,
   * every occurrence is replaced by the first line of the detection output. The
   * guard is redundant: replacing a pattern that does not occur changes nothing.
   */
  function VersionProbe(versionCommand: string, detectionOutput: string): (cmd: string)
    ensures cmd == Join(SplitOn(versionCommand, AppPath), FirstLine(detectionOutput))
    ensures !Contains(versionCommand, AppPath) ==> cmd == versionCommand
  {
    if Contains(versionCommand, AppPath) then ReplaceAll(versionCommand, AppPath, FirstLine(detectionOutput))
    else
      ReplaceAbsent(versionCommand, AppPath, FirstLine(detectionOutput));
      versionCommand
  }

  /** A command holding the placeholder is run with the detected path in it. */
  lemma VersionProbeHoldsPath(versionCommand: string, detectionOutput: string)
    requires Contains(versionCommand, AppPath)
    ensures Contains(VersionProbe(versionCommand, detectionOutput), FirstLine(detectionOutput))
  {
    ReplacePresent(versionCommand, AppPath, FirstLine(detectionOutput));
  }

  /**
   * `_extract_version`: without a version command, the first word-bounded
   * three- or four-component number of the detection output; with one, the first
   * line of its output when it succeeds with output, else `None`.
   */
  function VersionFromConfig(shell: Shell, versionCommand: string, detectionOutput: string): Option<string>
  {
    if versionCommand == "" then BoundedVersion(detectionOutput)
    else
      var reply := ExecuteCommand(shell, VersionProbe(versionCommand, detectionOutput));
      if reply.success && reply.output != "" then Some(FirstLine(reply.output)) else None
  }

  /**
   * With a version command, a version is found exactly when the probe succeeds
   * with output, and it is that output up to its first line break.
   */
  lemma VersionFromCommand(shell: Shell, versionCommand: string, detectionOutput: string)
    requires versionCommand != ""
    ensures var reply := ExecuteCommand(shell, VersionProbe(versionCommand, detectionOutput));
      var v := VersionFromConfig(shell, versionCommand, detectionOutput);
      && (v.Some? <==> reply.success && reply.output != "")
      && (v.Some? ==>
            && v.value != "" && v.value <= reply.output && '\n' !in v.value
            && (|v.value| < |reply.output| ==> reply.output[|v.value|] == '\n'))
  {
    var reply := ExecuteCommand(shell, VersionProbe(versionCommand, detectionOutput));
    if reply.success && reply.output != "" {
      HitIsStripped(shell, VersionProbe(versionCommand, detectionOutput));
      assert Strip(reply.output) == reply.output;
    }
  }

  /** A version found either way is never empty, so "Unknown" stands exactly for `None`. */
  lemma VersionNeverEmpty(shell: Shell, versionCommand: string, detectionOutput: string)
    ensures var v := VersionFromConfig(shell, versionCommand, detectionOutput);
      v.Some? ==> v.value != ""
  {
    if versionCommand == "" {
      BoundedVersionShape(detectionOutput);
    } else {
      var reply := ExecuteCommand(shell, VersionProbe(versionCommand, detectionOutput));
      if reply.success && reply.output != "" {
        HitIsStripped(shell, VersionProbe(versionCommand, detectionOutput));
        assert Strip(reply.output) == reply.output;
      }
    }
  }

  // ---------------------------------------------------------------- detect_software

  /** A local inventory entry: evidence entries are `Evidence.to_dict` dictionaries. */
  type LocalRecord = SoftwareRecord<map<string, string>>

  /** The platform entry `detect_software` would probe, if any. */
  function ProbeConfig(platformKey: string, t: Target): Option<PlatformEntry> {
    match t.detection
    case NotATable => None
    case Table(m) => if platformKey in m then Some(m[platformKey]) else None
  }

  /**
   * `detect_software(target)` on platform `platformKey`, with `architecture` the
   * value of `platform.machine()`.
   */
  function DetectSoftware(shell: Shell, platformKey: string, architecture: string, t: Target): Option<LocalRecord> {
    match ProbeConfig(platformKey, t)
    case None => None
    case Some(NotAnObject) => None
    case Some(Config(command, versionCommand)) =>
      if command == "" then None
      else
        var reply := ExecuteCommand(shell, command);
        if !reply.success || reply.output == "" then None
        else
          var version := VersionFromConfig(shell, versionCommand, reply.output);
          Some(SoftwareRecord(
            t.name.GetOr("Unknown"),
            if version.Some? && version.value != "" then version.value else "Unknown",
            architecture,
            NormalizeProductFamily(t.family.GetOr("Unknown")),
            t.vendor.GetOr("Unknown"),
            FirstLine(reply.output),
            map["detection" := Evidence(command, reply.output).ToDict()]))
  }

  /**
   * `detect_software` returns nothing exactly when the platform has no usable
   * configuration, the command is empty, or the probe fails or prints nothing.
   */
  lemma DetectSoftwareNone(shell: Shell, platformKey: string, architecture: string, t: Target)
    ensures DetectSoftware(shell, platformKey, architecture, t).None? <==>
      || ProbeConfig(platformKey, t).None?
      || ProbeConfig(platformKey, t) == Some(NotAnObject)
      || ProbeConfig(platformKey, t).value.command == ""
      || !ExecuteCommand(shell, ProbeConfig(platformKey, t).value.command).success
      || ExecuteCommand(shell, ProbeConfig(platformKey, t).value.command).output == ""
  {
  }

  /** A probe that succeeds with output has a non-empty first line. */
  lemma HitFirstLine(shell: Shell, command: string)
    ensures var reply := ExecuteCommand(shell, command);
      reply.success && reply.output != "" ==> FirstLine(reply.output) != ""
  {
    var reply := ExecuteCommand(shell, command);
    HitIsStripped(shell, command);
    if reply.success && reply.output != "" {
      assert Strip(reply.output) == reply.output;
    }
  }

  /**
   * A detected record: the install path is the (non-empty) first line of the
   * output, the version is the extracted one or "Unknown", the family is the
   * configured one normalised to a value of the enumeration, the vendor is the
   * configured one or "Unknown", and the architecture is the machine's.
   */
  lemma DetectSoftwareRecord(shell: Shell, platformKey: string, architecture: string, t: Target)
    requires DetectSoftware(shell, platformKey, architecture, t).Some?
    ensures var r := DetectSoftware(shell, platformKey, architecture, t).value;
      var cfg := ProbeConfig(platformKey, t).value;
      var out := ExecuteCommand(shell, cfg.command).output;
      var version := VersionFromConfig(shell, cfg.versionCommand, out);
      && r.productName == t.name.GetOr("Unknown")
      && r.installPath == FirstLine(out) && r.installPath != ""
      && r.versionNumber == (if version.Some? then version.value else "Unknown")
      && r.productFamily == NormalizeProductFamily(t.family.GetOr("Unknown"))
      && r.productFamily in FamilyValues
      && r.vendor == t.vendor.GetOr("Unknown")
      && r.architecture == architecture
  {
    var cfg := ProbeConfig(platformKey, t).value;
    var out := ExecuteCommand(shell, cfg.command).output;
    VersionNeverEmpty(shell, cfg.versionCommand, out);
    HitFirstLine(shell, cfg.command);
  }

  /**
   * The only evidence of a detected record is the detection command with its
   * output, in `Evidence.to_dict` form (which `EvidenceDictRoundTrip` reads back).
   */
  lemma DetectSoftwareEvidence(shell: Shell, platformKey: string, architecture: string, t: Target)
    requires DetectSoftware(shell, platformKey, architecture, t).Some?
    ensures ProbeConfig(platformKey, t).Some? && ProbeConfig(platformKey, t).value.Config?
    ensures var cfg := ProbeConfig(platformKey, t).value;
      DetectSoftware(shell, platformKey, architecture, t).value.evidence
      == map["detection" := Evidence(cfg.command, ExecuteCommand(shell, cfg.command).output).ToDict()]
  {
  }

  // ---------------------------------------------------------------- detect_custom_software

  /**
   * `detect_custom_software`; `versionCommand` is "" when not given, and the
   * family defaults to "Custom" at the call site. A record exists exactly when
   * the detection probe succeeds with output, and its evidence always holds that
   * probe.
   */
  function DetectCustomSoftware(shell: Shell, architecture: string, name: string, detectionCommand: string,
                                versionCommand: string, family: string, vendor: string): (r: Option<LocalRecord>)
    ensures var d := ExecuteCommand(shell, detectionCommand);
      r.Some? <==> d.success && d.output != ""
    ensures r.Some? ==>
      && r.value.evidence.Keys <= {"detection", "version"}
      && "detection" in r.value.evidence
      && EvidenceFromDict(r.value.evidence["detection"])
         == Some(Evidence(detectionCommand, ExecuteCommand(shell, detectionCommand).output))
  {
    var reply := ExecuteCommand(shell, detectionCommand);
    if !reply.success || reply.output == "" then None
    else
      var v := if versionCommand != "" then ExecuteCommand(shell, versionCommand) else Reply(false, "");
      EvidenceDictRoundTrip(Evidence(detectionCommand, reply.output), map[]);
      Some(CustomRecord(architecture, name, detectionCommand, reply.output, versionCommand, v, family, vendor))
  }

  /**
   * The record `detect_custom_software` builds once the detection probe has hit:
   * the given name, vendor and architecture, the family normalised to a value of
   * the enumeration, and the first output line as install path.
   */
  function CustomRecord(architecture: string, name: string, detectionCommand: string, output: string,
                        versionCommand: string, v: Reply, family: string, vendor: string): (r: LocalRecord)
    ensures r.productName == name && r.vendor == vendor && r.architecture == architecture
    ensures r.productFamily == NormalizeProductFamily(family) && r.productFamily in FamilyValues
    ensures r.installPath == FirstLine(output)
    ensures "detection" in r.evidence && r.evidence["detection"] == Evidence(detectionCommand, output).ToDict()
    ensures r.evidence.Keys <= {"detection", "version"}
  {
    assert "version"[0] != "detection"[0];
    var hit := versionCommand != "" && v.success && v.output != "";
    var evidence := map["detection" := Evidence(detectionCommand, output).ToDict()];
    SoftwareRecord(
      name,
      if hit then Strip(v.output) else "Unknown",
      architecture,
      NormalizeProductFamily(family),
      vendor,
      FirstLine(output),
      if hit then evidence["version" := Evidence(versionCommand, v.output).ToDict()] else evidence)
  }

  /**
   * A "version" evidence entry exists exactly when a version command was given
   * and its probe succeeded with output; the version is then that output, and
   * otherwise it stays "Unknown".
   */
  lemma DetectCustomSoftwareVersion(shell: Shell, architecture: string, name: string, detectionCommand: string,
                                    versionCommand: string, family: string, vendor: string)
    requires DetectCustomSoftware(shell, architecture, name, detectionCommand, versionCommand, family, vendor).Some?
    ensures var r := DetectCustomSoftware(shell, architecture, name, detectionCommand, versionCommand, family, vendor).value;
      var v := ExecuteCommand(shell, versionCommand);
      var hit := versionCommand != "" && v.success && v.output != "";
      && ("version" in r.evidence <==> hit)
      && (hit ==> r.versionNumber == v.output && EvidenceFromDict(r.evidence["version"]) == Some(Evidence(versionCommand, v.output)))
      && (!hit ==> r.versionNumber == "Unknown")
  {
    var d := ExecuteCommand(shell, detectionCommand);
    var v := ExecuteCommand(shell, versionCommand);
    var v' := if versionCommand != "" then v else Reply(false, "");
    var r := CustomRecord(architecture, name, detectionCommand, d.output, versionCommand, v', family, vendor);
    assert DetectCustomSoftware(shell, architecture, name, detectionCommand, versionCommand, family, vendor) == Some(r);
    HitIsStripped(shell, versionCommand);
    assert "version"[0] != "detection"[0];
    if versionCommand != "" && v.success && v.output != "" {
      assert Strip(v.output) == v.output;
      EvidenceDictRoundTrip(Evidence(versionCommand, v.output), map[]);
    }
  }

  // ---------------------------------------------------------------- detect_all

  /** What one element of `software_targets` contributes: a record, or nothing. */
  function EntryResult(shell: Shell, platformKey: string, architecture: string, e: ConfigEntry): Option<LocalRecord> {
    match e
    case Entry(t) => DetectSoftware(shell, platformKey, architecture, t)
    case NotATarget => None
  }

  function ResultList(r: Option<LocalRecord>): seq<LocalRecord> {
    if r.Some? then [r.value] else []
  }

  /** The inventory `detect_all` collects: the records, in configuration order. */
  function Inventory(shell: Shell, platformKey: string, architecture: string, entries: seq<ConfigEntry>): seq<LocalRecord> {
    if entries == [] then []
    else
      Inventory(shell, platformKey, architecture, entries[..|entries| - 1])
      + ResultList(EntryResult(shell, platformKey, architecture, entries[|entries| - 1]))
  }

  /** The number of entries whose detection raised. */
  function FailureCount(entries: seq<ConfigEntry>): nat {
    if entries == [] then 0
    else FailureCount(entries[..|entries| - 1]) + (if entries[|entries| - 1].NotATarget? then 1 else 0)
  }

  /** One more entry adds its own record, if any, and its own failure, if any. */
  lemma InventoryStep(shell: Shell, platformKey: string, architecture: string, entries: seq<ConfigEntry>, i: nat)
    requires i < |entries|
    ensures Inventory(shell, platformKey, architecture, entries[..i + 1])
         == Inventory(shell, platformKey, architecture, entries[..i])
            + ResultList(EntryResult(shell, platformKey, architecture, entries[i]))
    ensures FailureCount(entries[..i + 1]) == FailureCount(entries[..i]) + (if entries[i].NotATarget? then 1 else 0)
  {
    assert entries[..i + 1][..i] == entries[..i];
  }

  /** The inventory of two runs of targets is the two inventories, one after the other. */
  lemma {:induction false} InventoryAppend(shell: Shell, platformKey: string, architecture: string,
                                           a: seq<ConfigEntry>, b: seq<ConfigEntry>)
    ensures Inventory(shell, platformKey, architecture, a + b)
         == Inventory(shell, platformKey, architecture, a) + Inventory(shell, platformKey, architecture, b)
    decreases |b|
  {
    if b == [] {
      assert a + b == a;
    } else {
      assert (a + b)[..|a + b| - 1] == a + b[..|b| - 1];
      InventoryAppend(shell, platformKey, architecture, a, b[..|b| - 1]);
    }
  }

  /** One entry per detected target at most, and each record comes from a target that was detected. */
  lemma {:induction false} InventoryMembers(shell: Shell, platformKey: string, architecture: string,
                                            entries: seq<ConfigEntry>)
    ensures |Inventory(shell, platformKey, architecture, entries)| <= |entries|
    ensures forall r :: r in Inventory(shell, platformKey, architecture, entries) ==>
      exists e :: e in entries && EntryResult(shell, platformKey, architecture, e) == Some(r)
  {
    if entries != [] {
      var init := entries[..|entries| - 1];
      InventoryMembers(shell, platformKey, architecture, init);
      forall r | r in Inventory(shell, platformKey, architecture, entries)
        ensures exists e :: e in entries && EntryResult(shell, platformKey, architecture, e) == Some(r)
      {
        if r in Inventory(shell, platformKey, architecture, init) {
          var e :| e in init && EntryResult(shell, platformKey, architecture, e) == Some(r);
          assert e in entries;
        } else {
          assert entries[|entries| - 1] in entries;
        }
      }
    }
  }

  /** The detector: the platform key and the machine are fixed at construction, the targets loaded. */
  class SoftwareDetector {
    const shell: Shell
    const platformKey: string
    const architecture: string
    var softwareTargets: seq<ConfigEntry>

    /** `SoftwareDetector(config_path)` once the configuration has loaded. */
    constructor(shell: Shell, system: string, machine: string, targets: seq<ConfigEntry>)
      ensures this.shell == shell && platformKey == PlatformKey(system) && architecture == machine
      ensures softwareTargets == targets
    {
      this.shell := shell;
      platformKey := PlatformKey(system);
      architecture := machine;
      softwareTargets := targets;
    }

    /**
     * `detect_all`, with the handler corrected: an entry whose detection raises is
     * counted and skipped, and the loop goes on with the next entry.
     */
    method DetectAll() returns (detected: seq<LocalRecord>, failedCount: nat)
      ensures detected == Inventory(shell, platformKey, architecture, softwareTargets)
      ensures failedCount == FailureCount(softwareTargets)
    {
      detected := [];
      failedCount := 0;
      var i := 0;
      while i < |softwareTargets|
        invariant 0 <= i <= |softwareTargets|
        invariant detected == Inventory(shell, platformKey, architecture, softwareTargets[..i])
        invariant failedCount == FailureCount(softwareTargets[..i])
      {
        InventoryStep(shell, platformKey, architecture, softwareTargets, i);
        match softwareTargets[i] {
          case NotATarget =>
            failedCount := failedCount + 1;
          case Entry(t) =>
            var info := DetectSoftware(shell, platformKey, architecture, t);
            if info.Some? {
              detected := detected + [info.value];
            }
        }
        i := i + 1;
      }
      assert softwareTargets[..i] == softwareTargets;
    }
  }

  // ---------------------------------------------------------------- detect_all as written

  /**
   * `detect_all` as written: `detect_software` reads the name of an entry outside
   * its own `try`, so an entry that is not a dictionary raises into the loop's
   * handler, which reads the name the same way and raises again, ending the scan.
   */
  function InventoryAsWritten(shell: Shell, platformKey: string, architecture: string,
                              entries: seq<ConfigEntry>): Result<seq<LocalRecord>>
  {
    if entries == [] then Success([])
    else
      match InventoryAsWritten(shell, platformKey, architecture, entries[..|entries| - 1])
      case Failure(e) => Failure(e)
      case Success(records) =>
        match entries[|entries| - 1]
        case NotATarget => Failure("'get' called on an entry that is not a dictionary")
        case Entry(t) => Success(records + ResultList(DetectSoftware(shell, platformKey, architecture, t)))
  }

  /**
   * As written, one entry that is not a dictionary makes the whole scan raise,
   * whatever the other targets would have given; without such entries it agrees
   * with the corrected loop.
   */
  lemma {:induction false} InventoryAsWrittenRaises(shell: Shell, platformKey: string, architecture: string,
                                                    entries: seq<ConfigEntry>)
    ensures NotATarget in entries <==> InventoryAsWritten(shell, platformKey, architecture, entries).Failure?
    ensures NotATarget !in entries ==>
      InventoryAsWritten(shell, platformKey, architecture, entries) == Success(Inventory(shell, platformKey, architecture, entries))
  {
    if entries != [] {
      var init := entries[..|entries| - 1];
      InventoryAsWrittenRaises(shell, platformKey, architecture, init);
      assert entries == init + [entries[|entries| - 1]];
      assert NotATarget in entries <==> NotATarget in init || entries[|entries| - 1] == NotATarget;
    }
  }

  /** The corrected loop keeps the records of the targets after a bad entry. */
  lemma CorrectedKeepsLaterTargets(shell: Shell, platformKey: string, architecture: string, t: Target)
    ensures var entries := [NotATarget, Entry(t)];
      && InventoryAsWritten(shell, platformKey, architecture, entries).Failure?
      && Inventory(shell, platformKey, architecture, entries) == ResultList(DetectSoftware(shell, platformKey, architecture, t))
      && FailureCount(entries) == 1
  {
    var entries := [NotATarget, Entry(t)];
    assert entries[..1] == [NotATarget];
    assert entries[..1][..0] == [];
    assert Inventory(shell, platformKey, architecture, entries[..1]) == [];
    assert FailureCount(entries[..1]) == 1;
  }
}
