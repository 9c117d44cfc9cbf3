/**
 * The agent (main.py): the local and the remote scan, the remote software loop
 * over platform keys, the report's metadata and the default export file name.
 * The agent identifier, the timestamp and the measured duration are inputs, as
 * is what reading the configuration file gives.
 */
module Agent {
  import opened Wrappers
  import opened Text
  import opened Utils
  import SoftwareDetection
  import SystemDetection
  import RemoteExecution

  type ConfigDocument = SoftwareDetection.ConfigDocument
  type ConfigEntry = SoftwareDetection.ConfigEntry
  type Target = SoftwareDetection.Target
  type PlatformEntry = SoftwareDetection.PlatformEntry
  type RemoteExecutor = RemoteExecution.RemoteExecutor
  type RemoteDetection = RemoteExecution.RemoteDetection

  const AgentVersion := "2.0.0"

  /** What the clock, the identifier generator and the duration measurement give for one scan. */
  datatype ScanContext = ScanContext(agentId: string, timestamp: string, scanDurationMs: int)

  /** The `agent_metadata` dictionary. */
  datatype AgentMetadata = AgentMetadata(
    agentId: string, timestamp: string, scanType: string, targetHost: string,
    agentVersion: string, scanDurationMs: int)

  /** The metadata both scans assemble; only the scan type and the target host differ. */
  function Metadata(scanType: string, targetHost: string, ctx: ScanContext): (m: AgentMetadata)
    ensures m.scanType == scanType && m.targetHost == targetHost && m.agentVersion == AgentVersion
    ensures m.agentId == ctx.agentId && m.timestamp == ctx.timestamp && m.scanDurationMs == ctx.scanDurationMs
  {
    AgentMetadata(ctx.agentId, ctx.timestamp, scanType, targetHost, AgentVersion, ctx.scanDurationMs)
  }

  // ---------------------------------------------------------------- remote software detection

  /** The platform keys `_detect_remote_software` tries, in order. */
  const PlatformOrder: seq<string> := ["darwin", "linux", "windows"]

  /** A remote inventory entry, with the remote fingerprinter's evidence entries. */
  type RemoteRecord = SoftwareRecord<RemoteExecution.RemoteEvidence>

  /** The targets `_detect_remote_software` reads: any failure to load the file gives none. */
  function RemoteTargets(doc: ConfigDocument): seq<ConfigEntry> {
    if doc.Targets? then doc.entries else []
  }

  /**
   * The record built after a detection hit: the raw family and vendor, "Unknown"
   * for a missing or empty version, the first line of the detection output as
   * install path, and the stripped `uname -m` answer as architecture.
   */
  function RemoteRecordOf(t: Target, d: RemoteDetection, arch: SshReply): (r: RemoteRecord)
    ensures r.versionNumber != ""
    ensures r.versionNumber == "Unknown" <==> d.version.None? || d.version.value in {"", "Unknown"}
    ensures r.installPath <= Strip(d.output) && '\n' !in r.installPath
    ensures r.architecture == "Unknown" || arch.success
    ensures r.evidence == d.evidence
  {
    SoftwareRecord(
      t.name.GetOr("Unknown"),
      if d.version.Some? && d.version.value != "" then d.version.value else "Unknown",
      if arch.success then Strip(arch.output) else "Unknown",
      t.family.GetOr("Unknown"),
      t.vendor.GetOr("Unknown"),
      FirstLine(d.output),
      d.evidence)
  }

  /**
   * Every field of the record: name, family and vendor as configured, "Unknown"
   * where missing; the version found unless missing or empty; the stripped
   * `uname -m` answer when it succeeded; and the stripped detection output up to
   * its first line break.
   */
  lemma RemoteRecordFields(t: Target, d: RemoteDetection, arch: SshReply)
    ensures var r := RemoteRecordOf(t, d, arch);
      && (t.name.Some? ==> r.productName == t.name.value) && (t.name.None? ==> r.productName == "Unknown")
      && (t.family.Some? ==> r.productFamily == t.family.value) && (t.family.None? ==> r.productFamily == "Unknown")
      && (t.vendor.Some? ==> r.vendor == t.vendor.value) && (t.vendor.None? ==> r.vendor == "Unknown")
      && (d.version.Some? && d.version.value != "" ==> r.versionNumber == d.version.value)
      && (arch.success ==> r.architecture == Strip(arch.output))
      && (!arch.success ==> r.architecture == "Unknown")
      && '\n' !in r.installPath
      && (r.installPath == Strip(d.output) || r.installPath + "\n" <= Strip(d.output))
  {
    var path := FirstLine(d.output);
    var stripped := Strip(d.output);
    if |path| < |stripped| {
      assert stripped[..|path| + 1] == path + "\n";
    }
  }

  /** A platform key the loop moves past: absent, an empty command, or a detection miss. */
  predicate Skips(ex: RemoteExecutor, usable: bool, m: map<string, PlatformEntry>, key: string) {
    key !in m ||
    (m[key].Config? &&
     (m[key].command == "" || !RemoteExecution.DetectionOf(ex, usable, m[key].command, m[key].versionCommand).found))
  }

  /** A platform key whose detection command hits. */
  predicate Finds(ex: RemoteExecutor, usable: bool, m: map<string, PlatformEntry>, key: string) {
    key in m && m[key].Config? && m[key].command != ""
    && RemoteExecution.DetectionOf(ex, usable, m[key].command, m[key].versionCommand).found
  }

  /**
   * The platform loop from position `i`: skip keys with no entry or an empty
   * command, stop at the first detection hit, and give up on the target when an
   * entry is not a dictionary (its `.get` raises into the target's handler).
   */
  function TryPlatforms(ex: RemoteExecutor, usable: bool, t: Target, m: map<string, PlatformEntry>, i: nat)
    : Option<RemoteRecord>
    requires i <= |PlatformOrder|
    decreases |PlatformOrder| - i
  {
    if i == |PlatformOrder| then None
    else
      var key := PlatformOrder[i];
      if key !in m then TryPlatforms(ex, usable, t, m, i + 1)
      else
        match m[key]
        case NotAnObject => None
        case Config(command, versionCommand) =>
          if command == "" then TryPlatforms(ex, usable, t, m, i + 1)
          else
            var d := RemoteExecution.DetectionOf(ex, usable, command, versionCommand);
            if d.found then Some(RemoteRecordOf(t, d, ex.Answer(usable, "uname -m", None)))
            else TryPlatforms(ex, usable, t, m, i + 1)
  }

  /** A platform key that is skipped leaves the target to the next key. */
  lemma TryPlatformsSkip(ex: RemoteExecutor, usable: bool, t: Target, m: map<string, PlatformEntry>, i: nat)
    requires i < |PlatformOrder| && Skips(ex, usable, m, PlatformOrder[i])
    ensures TryPlatforms(ex, usable, t, m, i) == TryPlatforms(ex, usable, t, m, i + 1)
  {
  }

  /** An entry that is not a dictionary ends the target with no record. */
  lemma TryPlatformsInvalid(ex: RemoteExecutor, usable: bool, t: Target, m: map<string, PlatformEntry>, i: nat)
    requires i < |PlatformOrder| && PlatformOrder[i] in m && m[PlatformOrder[i]].NotAnObject?
    ensures TryPlatforms(ex, usable, t, m, i).None?
  {
  }

  /** A platform key whose detection hits gives the target's record. */
  lemma TryPlatformsHit(ex: RemoteExecutor, usable: bool, t: Target, m: map<string, PlatformEntry>, i: nat)
    requires i < |PlatformOrder| && Finds(ex, usable, m, PlatformOrder[i])
    ensures var e := m[PlatformOrder[i]];
      TryPlatforms(ex, usable, t, m, i)
        == Some(RemoteRecordOf(t, RemoteExecution.DetectionOf(ex, usable, e.command, e.versionCommand),
                               ex.Answer(usable, "uname -m", None)))
  {
  }

  /** The first platform key that finds the software gives the target's one record. */
  lemma {:induction false} TryPlatformsFirstFind(ex: RemoteExecutor, usable: bool, t: Target,
                                                 m: map<string, PlatformEntry>, i: nat, k: nat)
    requires i <= k < |PlatformOrder| && Finds(ex, usable, m, PlatformOrder[k])
    requires forall j :: i <= j < k ==> Skips(ex, usable, m, PlatformOrder[j])
    ensures var e := m[PlatformOrder[k]];
      TryPlatforms(ex, usable, t, m, i)
        == Some(RemoteRecordOf(t, RemoteExecution.DetectionOf(ex, usable, e.command, e.versionCommand),
                               ex.Answer(usable, "uname -m", None)))
    decreases k - i
  {
    if i < k {
      TryPlatformsSkip(ex, usable, t, m, i);
      TryPlatformsFirstFind(ex, usable, t, m, i + 1, k);
    } else {
      TryPlatformsHit(ex, usable, t, m, i);
    }
  }

  /** When every platform key is skipped the target gives no record. */
  lemma {:induction false} TryPlatformsNone(ex: RemoteExecutor, usable: bool, t: Target,
                                            m: map<string, PlatformEntry>, i: nat)
    requires i <= |PlatformOrder|
    requires forall j :: i <= j < |PlatformOrder| ==> Skips(ex, usable, m, PlatformOrder[j])
    ensures TryPlatforms(ex, usable, t, m, i) == None
    decreases |PlatformOrder| - i
  {
    if i < |PlatformOrder| {
      TryPlatformsNone(ex, usable, t, m, i + 1);
    }
  }

  /** An entry that is not a dictionary, reached before any hit, ends the target with no record. */
  lemma {:induction false} TryPlatformsRaise(ex: RemoteExecutor, usable: bool, t: Target,
                                             m: map<string, PlatformEntry>, i: nat, k: nat)
    requires i <= k < |PlatformOrder| && PlatformOrder[k] in m && m[PlatformOrder[k]].NotAnObject?
    requires forall j :: i <= j < k ==> Skips(ex, usable, m, PlatformOrder[j])
    ensures TryPlatforms(ex, usable, t, m, i) == None
    decreases k - i
  {
    if i < k {
      TryPlatformsRaise(ex, usable, t, m, i + 1, k);
    }
  }

  /**
   * What one element of `software_targets` contributes, with the handler
   * corrected: an element that is not a dictionary is skipped.
   */
  function RemoteEntryResult(ex: RemoteExecutor, usable: bool, e: ConfigEntry): Option<RemoteRecord> {
    match e
    case NotATarget => None
    case Entry(t) =>
      match t.detection
      case NotATable => None
      case Table(m) => TryPlatforms(ex, usable, t, m, 0)
  }

  /** The inventory `_detect_remote_software` collects: the records, in configuration order. */
  function RemoteInventory(ex: RemoteExecutor, usable: bool, entries: seq<ConfigEntry>): seq<RemoteRecord> {
    if entries == [] then []
    else
      RemoteInventory(ex, usable, entries[..|entries| - 1])
      + OptionList(RemoteEntryResult(ex, usable, entries[|entries| - 1]))
  }

  function OptionList<T>(r: Option<T>): seq<T> {
    if r.Some? then [r.value] else []
  }

  /** The inventory of the first `i + 1` elements extends that of the first `i` by element `i`'s record, if any. */
  lemma RemoteInventoryStep(ex: RemoteExecutor, usable: bool, entries: seq<ConfigEntry>, i: nat)
    requires i < |entries|
    ensures RemoteInventory(ex, usable, entries[..i + 1])
      == RemoteInventory(ex, usable, entries[..i]) + OptionList(RemoteEntryResult(ex, usable, entries[i]))
  {
    assert entries[..i + 1][..i] == entries[..i];
  }

  /** A configuration that did not load gives an empty remote inventory. */
  lemma ConfigFailureEmpty(ex: RemoteExecutor, usable: bool, doc: ConfigDocument)
    requires !doc.Targets?
    ensures RemoteInventory(ex, usable, RemoteTargets(doc)) == []
  {
  }

  /** The inventory of two runs of targets is the two inventories, one after the other. */
  lemma {:induction false} RemoteInventoryAppend(ex: RemoteExecutor, usable: bool, a: seq<ConfigEntry>, b: seq<ConfigEntry>)
    ensures RemoteInventory(ex, usable, a + b) == RemoteInventory(ex, usable, a) + RemoteInventory(ex, usable, b)
    decreases |b|
  {
    if b == [] {
      assert a + b == a;
    } else {
      assert (a + b)[..|a + b| - 1] == a + b[..|b| - 1];
      RemoteInventoryAppend(ex, usable, a, b[..|b| - 1]);
    }
  }

  /** At most one record per target, each from a target whose platform loop produced it. */
  lemma {:induction false} RemoteInventoryMembers(ex: RemoteExecutor, usable: bool, entries: seq<ConfigEntry>)
    ensures |RemoteInventory(ex, usable, entries)| <= |entries|
    ensures forall r :: r in RemoteInventory(ex, usable, entries) ==>
      exists e :: e in entries && RemoteEntryResult(ex, usable, e) == Some(r)
  {
    if entries != [] {
      var init := entries[..|entries| - 1];
      RemoteInventoryMembers(ex, usable, init);
      forall r | r in RemoteInventory(ex, usable, entries)
        ensures exists e :: e in entries && RemoteEntryResult(ex, usable, e) == Some(r)
      {
        if r in RemoteInventory(ex, usable, init) {
          var e :| e in init && RemoteEntryResult(ex, usable, e) == Some(r);
          assert e in entries;
        } else {
          assert entries[|entries| - 1] in entries;
        }
      }
    }
  }

  /**
   * The remote record keeps the configured family as written, where the local
   * detector normalises it: "Custom" stays "Custom" remotely and becomes "Other" locally.
   */
  lemma RemoteFamilyIsRaw(t: Target, d: RemoteDetection, arch: SshReply,
                          shell: Shell, platformKey: string, architecture: string)
    requires t.family == Some("Custom")
    ensures RemoteRecordOf(t, d, arch).productFamily == "Custom"
    ensures SoftwareDetection.NormalizeProductFamily(t.family.value) == "Other"
    ensures var local := SoftwareDetection.DetectSoftware(shell, platformKey, architecture, t);
      local.Some? ==> local.value.productFamily == "Other"
  {
    SoftwareDetection.CustomIsOther();
    if SoftwareDetection.DetectSoftware(shell, platformKey, architecture, t).Some? {
      SoftwareDetection.DetectSoftwareRecord(shell, platformKey, architecture, t);
    }
  }

  // ---------------------------------------------------------------- the remote loop as written

  /**
   * `_detect_remote_software` as written: an element of `software_targets` that
   * is not a dictionary raises in the loop's handler, whose message reads the
   * element's name the same way, so the exception leaves the function.
   */
  function RemoteInventoryAsWritten(ex: RemoteExecutor, usable: bool, entries: seq<ConfigEntry>)
    : Result<seq<RemoteRecord>>
  {
    if entries == [] then Success([])
    else
      match RemoteInventoryAsWritten(ex, usable, entries[..|entries| - 1])
      case Failure(e) => Failure(e)
      case Success(records) =>
        match entries[|entries| - 1]
        case NotATarget => Failure("'get' called on an entry that is not a dictionary")
        case Entry(_) => Success(records + OptionList(RemoteEntryResult(ex, usable, entries[|entries| - 1])))
  }

  /**
   * As written, one element that is not a dictionary makes the whole remote
   * inventory raise; without such elements it agrees with the corrected loop.
   */
  lemma {:induction false} RemoteInventoryAsWrittenRaises(ex: RemoteExecutor, usable: bool, entries: seq<ConfigEntry>)
    ensures SoftwareDetection.NotATarget in entries <==> RemoteInventoryAsWritten(ex, usable, entries).Failure?
    ensures SoftwareDetection.NotATarget !in entries ==>
      RemoteInventoryAsWritten(ex, usable, entries) == Success(RemoteInventory(ex, usable, entries))
  {
    if entries != [] {
      var init := entries[..|entries| - 1];
      RemoteInventoryAsWrittenRaises(ex, usable, init);
      assert entries == init + [entries[|entries| - 1]];
      assert SoftwareDetection.NotATarget in entries
        <==> SoftwareDetection.NotATarget in init || entries[|entries| - 1] == SoftwareDetection.NotATarget;
    }
  }

  /** The corrected loop keeps the record of a target that follows a bad element. */
  lemma CorrectedRemoteKeepsLaterTargets(ex: RemoteExecutor, usable: bool, t: Target)
    ensures var entries := [SoftwareDetection.NotATarget, SoftwareDetection.Entry(t)];
      && RemoteInventoryAsWritten(ex, usable, entries).Failure?
      && RemoteInventory(ex, usable, entries) == OptionList(RemoteEntryResult(ex, usable, SoftwareDetection.Entry(t)))
  {
    var entries := [SoftwareDetection.NotATarget, SoftwareDetection.Entry(t)];
    assert entries[..1] == [SoftwareDetection.NotATarget];
    assert entries[..1][..0] == [];
    assert RemoteInventory(ex, usable, entries[..1]) == [];
  }

  // ---------------------------------------------------------------- reports

  type LocalReport = Report<AgentMetadata, SystemDetection.LocalInfo, SoftwareDetection.LocalRecord>
  type RemoteReport = Report<AgentMetadata, RemoteExecution.RemoteInfo, RemoteRecord>

  /**
   * `run_local_scan` with the corrected `detect_all`: the system facts, then the
   * software inventory; a configuration that fails to load other than by being
   * missing or invalid JSON makes the scan raise.
   */
  function LocalReportOf(shell: Shell, facts: SystemDetection.PlatformFacts, doc: ConfigDocument, ctx: ScanContext)
    : Result<LocalReport>
  {
    var info := SystemDetection.SystemInfoOf(shell, facts, map[]);
    match SoftwareDetection.LoadConfig(doc)
    case Failure(e) => Failure(e)
    case Success(entries) =>
      Success(Report(
        Metadata("local", info.hostname, ctx),
        info,
        SoftwareDetection.Inventory(shell, PlatformKey(facts.system), facts.machine, entries)))
  }

  /**
   * A local report exists exactly when the configuration loads; it is of scan
   * type "local", names the detected hostname as target, and its evidence holds
   * the five entries every detection run leaves.
   */
  lemma LocalReportSpec(shell: Shell, facts: SystemDetection.PlatformFacts, doc: ConfigDocument, ctx: ScanContext)
    ensures var r := LocalReportOf(shell, facts, doc, ctx);
      && (r.Success? <==> !doc.NotADict? && !doc.Unreadable?)
      && (r.Success? ==>
            && r.value.agentMetadata.scanType == "local"
            && r.value.agentMetadata.targetHost == SystemDetection.HostnameOutcome(shell, facts).value
            && r.value.agentMetadata.agentVersion == AgentVersion
            && {"os_version", "kernel", "cpu", "architecture", "hostname"} <= r.value.systemInfo.evidence.Keys)
  {
    SystemDetection.EvidenceKeys(shell, facts, map[]);
  }

  /**
   * The remote scan once connected, with the corrected software loop: `None`
   * where the system facts raise, otherwise the report with the given host as target.
   */
  function RemoteReportOf(ex: RemoteExecutor, host: string, doc: ConfigDocument, ctx: ScanContext): Option<RemoteReport> {
    match RemoteExecution.SystemInfoOf(ex, true)
    case Failure(_) => None
    case Success(info) =>
      Some(Report(Metadata("remote", host, ctx), info, RemoteInventory(ex, true, RemoteTargets(doc))))
  }

  /**
   * A remote report names the scanned host as target with scan type "remote",
   * and is missing exactly when the system facts raise.
   */
  lemma RemoteReportSpec(ex: RemoteExecutor, host: string, doc: ConfigDocument, ctx: ScanContext)
    ensures var r := RemoteReportOf(ex, host, doc, ctx);
      && (r.None? <==> RemoteExecution.SystemInfoOf(ex, true).Failure?)
      && (r.Some? ==>
            && r.value.agentMetadata.scanType == "remote"
            && r.value.agentMetadata.targetHost == host
            && r.value.agentMetadata.agentVersion == AgentVersion
            && r.value.systemInfo == RemoteExecution.SystemInfoOf(ex, true).value
            && |r.value.softwareInventory| <= |RemoteTargets(doc)|)
  {
    RemoteInventoryMembers(ex, true, RemoteTargets(doc));
  }

  /**
   * `run_local_scan` as written: `detect_all` raises on an element of
   * `software_targets` that is not a dictionary, and the scan raises with it.
   */
  function LocalReportAsWritten(shell: Shell, facts: SystemDetection.PlatformFacts, doc: ConfigDocument, ctx: ScanContext)
    : Result<LocalReport>
  {
    var info := SystemDetection.SystemInfoOf(shell, facts, map[]);
    match SoftwareDetection.LoadConfig(doc)
    case Failure(e) => Failure(e)
    case Success(entries) =>
      match SoftwareDetection.InventoryAsWritten(shell, PlatformKey(facts.system), facts.machine, entries)
      case Failure(e) => Failure(e)
      case Success(inventory) => Success(Report(Metadata("local", info.hostname, ctx), info, inventory))
  }

  /**
   * As written, the local scan raises exactly when the configuration does not
   * load or holds an element that is not a dictionary; otherwise it gives the
   * same report as the corrected scan.
   */
  lemma LocalReportAsWrittenRaises(shell: Shell, facts: SystemDetection.PlatformFacts, doc: ConfigDocument, ctx: ScanContext)
    ensures var r := LocalReportAsWritten(shell, facts, doc, ctx);
      && (r.Failure? <==>
            doc.NotADict? || doc.Unreadable? || (doc.Targets? && SoftwareDetection.NotATarget in doc.entries))
      && (r.Success? ==> r == LocalReportOf(shell, facts, doc, ctx))
  {
    if doc.Targets? {
      SoftwareDetection.InventoryAsWrittenRaises(shell, PlatformKey(facts.system), facts.machine, doc.entries);
    }
  }

  /**
   * `run_remote_scan` once connected, as written: the exception the software
   * loop raises on an element that is not a dictionary is caught by the scan's
   * handler, which returns `None`.
   */
  function RemoteReportAsWritten(ex: RemoteExecutor, host: string, doc: ConfigDocument, ctx: ScanContext)
    : Option<RemoteReport>
  {
    match RemoteExecution.SystemInfoOf(ex, true)
    case Failure(_) => None
    case Success(info) =>
      match RemoteInventoryAsWritten(ex, true, RemoteTargets(doc))
      case Failure(_) => None
      case Success(inventory) => Some(Report(Metadata("remote", host, ctx), info, inventory))
  }

  /**
   * As written, a connected remote scan gives no report exactly when the system
   * facts raise or the loaded targets hold an element that is not a dictionary;
   * otherwise it gives the same report as the corrected scan.
   */
  lemma RemoteReportAsWrittenNone(ex: RemoteExecutor, host: string, doc: ConfigDocument, ctx: ScanContext)
    ensures var r := RemoteReportAsWritten(ex, host, doc, ctx);
      && (r.None? <==>
            RemoteExecution.SystemInfoOf(ex, true).Failure? || SoftwareDetection.NotATarget in RemoteTargets(doc))
      && (r.Some? ==> r == RemoteReportOf(ex, host, doc, ctx))
  {
    RemoteInventoryAsWrittenRaises(ex, true, RemoteTargets(doc));
  }

  // ---------------------------------------------------------------- export

  /** The character the default file name puts in place of one of the timestamp. */
  function SafeChar(c: char): char {
    if c == ':' then '-' else if c == ' ' then '_' else c
  }

  /** `export_report`'s default file name for a report stamped `timestamp`. */
  function ExportFileName(timestamp: string): (name: string)
    ensures ':' !in name && ' ' !in name
  {
    var noColons := ReplaceAll(timestamp, ":", "-");
    ReplaceCharRemoves(timestamp, ':', "-");
    ReplaceKeepsOut(noColons, " ", "_", ':');
    ReplaceCharRemoves(noColons, ' ', "_");
    "fingerprint_" + ReplaceAll(noColons, " ", "_") + ".json"
  }

  /**
   * The default file name is the timestamp character by character, with every
   * colon turned into a dash and every space into an underscore, between
   * "fingerprint_" and ".json".
   */
  lemma ExportFileNameChars(timestamp: string)
    ensures ExportFileName(timestamp) == "fingerprint_" + seq(|timestamp|, i requires 0 <= i < |timestamp| => SafeChar(timestamp[i])) + ".json"
  {
    var noColons := ReplaceAll(timestamp, ":", "-");
    ReplaceCharByChar(timestamp, ':', '-');
    ReplaceCharByChar(noColons, ' ', '_');
    var middle := ReplaceAll(noColons, " ", "_");
    assert middle == seq(|timestamp|, i requires 0 <= i < |timestamp| => SafeChar(timestamp[i]));
  }

  /**
   * `export_report`: the path written, or `None` when writing failed; with no
   * path given, the default name built from the report's timestamp.
   */
  function ExportPath(timestamp: string, outputFile: Option<string>, written: bool): (r: Option<string>)
    ensures r.Some? <==> written
    ensures r.Some? && outputFile.Some? ==> r.value == outputFile.value
    ensures r.Some? && outputFile.None? ==> ':' !in r.value && ' ' !in r.value
    ensures r.Some? && outputFile.None? ==> r.value == ExportFileName(timestamp)
  {
    var path := if outputFile.None? then ExportFileName(timestamp) else outputFile.value;
    if written then Some(path) else None
  }

  // ---------------------------------------------------------------- the agent

  /** `FingerprintAgent`: the configuration it reads and the executor of its last remote scan. */
  class FingerprintAgent {
    const mode: string
    const config: ConfigDocument
    var remoteExecutor: RemoteExecution.RemoteExecutor?

    constructor(mode: string, config: ConfigDocument)
      ensures this.mode == mode && this.config == config && remoteExecutor == null
    {
      this.mode := mode;
      this.config := config;
      remoteExecutor := null;
    }

    /**
     * One target of `_detect_remote_software`: the platform keys in order, moving
     * past missing entries, empty commands and misses, stopping at the first hit.
     */
    method DetectTarget(fingerprinter: RemoteExecution.RemoteFingerprinter, t: Target, m: map<string, PlatformEntry>)
      returns (r: Option<RemoteRecord>)
      requires remoteExecutor == fingerprinter.executor
      modifies fingerprinter.executor, fingerprinter.executor.client
      ensures r == TryPlatforms(fingerprinter.executor, old(fingerprinter.executor.Usable()), t, m, 0)
      ensures fingerprinter.executor.Usable() == old(fingerprinter.executor.Usable())
      ensures old(fingerprinter.executor.client.sent) <= fingerprinter.executor.client.sent
    {
      var ex := remoteExecutor;
      ghost var usable := ex.Usable();
      var k := 0;
      while k < |PlatformOrder|
        invariant 0 <= k <= |PlatformOrder|
        invariant TryPlatforms(ex, usable, t, m, k) == TryPlatforms(ex, usable, t, m, 0)
        invariant ex.Usable() == usable
        invariant old(ex.client.sent) <= ex.client.sent
      {
        var key := PlatformOrder[k];
        if key !in m {
          TryPlatformsSkip(ex, usable, t, m, k);
          k := k + 1;
          continue;
        }
        var entry := m[key];
        if entry.NotAnObject? {
          TryPlatformsInvalid(ex, usable, t, m, k);
          return None;
        }
        if entry.command == "" {
          TryPlatformsSkip(ex, usable, t, m, k);
          k := k + 1;
          continue;
        }
        var d := fingerprinter.DetectSoftware(entry.command, entry.versionCommand);
        if d.found {
          TryPlatformsHit(ex, usable, t, m, k);
          var a := fingerprinter.Ask("uname -m");
          return Some(RemoteRecordOf(t, d, a));
        }
        TryPlatformsSkip(ex, usable, t, m, k);
        k := k + 1;
      }
      r := None;
    }

    /** One element of the remote configuration: a target with a platform table is tried, anything else gives nothing. */
    method DetectEntry(fingerprinter: RemoteExecution.RemoteFingerprinter, e: ConfigEntry) returns (r: Option<RemoteRecord>)
      requires remoteExecutor == fingerprinter.executor
      modifies fingerprinter.executor, fingerprinter.executor.client
      ensures r == RemoteEntryResult(fingerprinter.executor, old(fingerprinter.executor.Usable()), e)
      ensures fingerprinter.executor.Usable() == old(fingerprinter.executor.Usable())
      ensures old(fingerprinter.executor.client.sent) <= fingerprinter.executor.client.sent
    {
      r := None;
      match e {
        case NotATarget =>
        case Entry(t) =>
          match t.detection {
            case NotATable =>
            case Table(m) =>
              r := DetectTarget(fingerprinter, t, m);
          }
      }
    }

    /**
     * `_detect_remote_software`, with the handler corrected: the targets of the
     * configuration in order, each contributing at most one record.
     */
    method DetectRemoteSoftware(fingerprinter: RemoteExecution.RemoteFingerprinter) returns (detected: seq<RemoteRecord>)
      requires remoteExecutor == fingerprinter.executor
      modifies fingerprinter.executor, fingerprinter.executor.client
      ensures detected == RemoteInventory(fingerprinter.executor, old(fingerprinter.executor.Usable()), RemoteTargets(config))
      ensures fingerprinter.executor.Usable() == old(fingerprinter.executor.Usable())
      ensures old(fingerprinter.executor.client.sent) <= fingerprinter.executor.client.sent
    {
      if !config.Targets? {
        return [];
      }
      var entries := config.entries;
      var ex := remoteExecutor;
      ghost var usable := ex.Usable();
      detected := [];
      var i := 0;
      while i < |entries|
        invariant 0 <= i <= |entries|
        invariant detected == RemoteInventory(ex, usable, entries[..i])
        invariant ex.Usable() == usable
        invariant old(ex.client.sent) <= ex.client.sent
      {
        RemoteInventoryStep(ex, usable, entries, i);
        var r := DetectEntry(fingerprinter, entries[i]);
        if r.Some? {
          detected := detected + [r.value];
        }
        i := i + 1;
      }
      assert entries[..i] == entries;
    }

    /**
     * `run_remote_scan`: a fresh executor with the default timeout; when the
     * connection probe fails, no other command is sent and there is no report.
     */
    method RunRemoteScan(client: SshClient, host: string, username: string, keyFile: string, port: int, ctx: ScanContext)
      returns (r: Option<RemoteReport>)
      modifies this, client
      ensures remoteExecutor != null && fresh(remoteExecutor)
      ensures remoteExecutor.client == client && remoteExecutor.host == host && remoteExecutor.port == port
      ensures remoteExecutor.timeout == RemoteExecution.CreateTimeout
      ensures !remoteExecutor.Reachable() ==>
        r.None? && client.sent == old(client.sent) + [SshArgv(host, RemoteExecution.Sentinel, username, port, keyFile, RemoteExecution.CreateTimeout)]
      ensures remoteExecutor.Reachable() ==> r == RemoteReportOf(remoteExecutor, host, config, ctx)
    {
      var ex := new RemoteExecution.RemoteExecutor(client, host, username, keyFile, port, RemoteExecution.CreateTimeout);
      remoteExecutor := ex;
      var ok := ex.Connect();
      if !ok {
        return None;
      }
      var fingerprinter := new RemoteExecution.RemoteFingerprinter(ex);
      var info := fingerprinter.DetectSystemInfo();
      if info.Failure? {
        return None;
      }
      var inventory := DetectRemoteSoftware(fingerprinter);
      r := Some(Report(Metadata("remote", host, ctx), info.value, inventory));
    }

    /** `run_local_scan`: system facts first, then the software inventory of the loaded configuration. */
    method RunLocalScan(shell: Shell, facts: SystemDetection.PlatformFacts, ctx: ScanContext)
      returns (r: Result<LocalReport>)
      ensures r == LocalReportOf(shell, facts, config, ctx)
    {
      var systemDetector := new SystemDetection.SystemDetector(shell, facts);
      var info := systemDetector.DetectAll();
      var loaded := SoftwareDetection.LoadConfig(config);
      if loaded.Failure? {
        return Failure(loaded.error);
      }
      var softwareDetector := new SoftwareDetection.SoftwareDetector(shell, facts.system, facts.machine, loaded.value);
      var inventory, _ := softwareDetector.DetectAll();
      r := Success(Report(Metadata("local", info.hostname, ctx), info, inventory));
    }
  }
}
