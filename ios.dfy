/**
 * The iOS pipeline of builder/ios.go. `IOSBuilder` keeps the configuration
 * and the workspace and project paths it detected; each of its operations
 * either fails before running anything or runs `xcodebuild`, `xcrun`,
 * `pod` or `carthage` through the host, which records the effect and reports
 * whether it failed. Every operation is specified by a function returning
 * a `Stage`: the effects it performs, the artifact path it returns and the
 * error it reports.
 *
 * Command lines are kept structured: leading words, then option pairs
 * (`-scheme App`), then `KEY=value` build settings. `Argv` renders them as
 * the argument vector the program receives.
 */
module IOS {
  import opened Wrappers
  import opened GoStrings
  import FilePath
  import opened Host
  import opened Configuration

  // ---- Command lines ----

  /** The options of the `xcodebuild` and `xcrun altool` command lines that take a value. */
  datatype Flag =
    | Workspace | Project | Scheme | BuildConfiguration | Sdk | Destination | ArchivePath
    | ExportPath | ExportOptionsPlist | UploadType | UploadFile | ApiKey | ApiIssuer | Username | Password

  function FlagName(f: Flag): string {
    match f
    case Workspace => "-workspace"
    case Project => "-project"
    case Scheme => "-scheme"
    case BuildConfiguration => "-configuration"
    case Sdk => "-sdk"
    case Destination => "-destination"
    case ArchivePath => "-archivePath"
    case ExportPath => "-exportPath"
    case ExportOptionsPlist => "-exportOptionsPlist"
    case UploadType => "--type"
    case UploadFile => "--file"
    case ApiKey => "--apiKey"
    case ApiIssuer => "--apiIssuer"
    case Username => "--username"
    case Password => "--password"
  }

  /** The code-signing build settings `getCodeSigningArgs` can emit. */
  datatype SettingKey =
    | CodeSignStyle | DevelopmentTeam | ProductBundleIdentifier | CodeSignIdentity | ProvisioningProfileSpecifier

  function SettingName(k: SettingKey): string {
    match k
    case CodeSignStyle => "CODE_SIGN_STYLE"
    case DevelopmentTeam => "DEVELOPMENT_TEAM"
    case ProductBundleIdentifier => "PRODUCT_BUNDLE_IDENTIFIER"
    case CodeSignIdentity => "CODE_SIGN_IDENTITY"
    case ProvisioningProfileSpecifier => "PROVISIONING_PROFILE_SPECIFIER"
  }

  /** A command line: leading words, option pairs, then build settings. */
  datatype Invocation = Invocation(
    words: seq<string>, options: seq<(Flag, string)>, settings: seq<(SettingKey, string)>)

  function Pairs(options: seq<(Flag, string)>): (r: seq<string>)
    ensures |r| == 2 * |options|
  {
    if options == [] then [] else [FlagName(options[0].0), options[0].1] + Pairs(options[1..])
  }

  function Settings(settings: seq<(SettingKey, string)>): (r: seq<string>)
    ensures |r| == |settings|
  {
    if settings == [] then [] else [SettingName(settings[0].0) + "=" + settings[0].1] + Settings(settings[1..])
  }

  /** The argument vector the program receives. */
  function Argv(inv: Invocation): seq<string> {
    inv.words + Pairs(inv.options) + Settings(inv.settings)
  }

  /** The index of the first pair whose key is `key`, or the length when there is none. */
  function FirstIndex<K(==)>(pairs: seq<(K, string)>, key: K): (k: nat)
    ensures k <= |pairs|
    ensures k < |pairs| ==> pairs[k].0 == key
    ensures forall j :: 0 <= j < k ==> pairs[j].0 != key
  {
    if pairs == [] then 0
    else if pairs[0].0 == key then 0
    else 1 + FirstIndex(pairs[1..], key)
  }

  /** The value given for `key`: that of its first pair. */
  function Value<K(==)>(pairs: seq<(K, string)>, key: K): (r: Option<string>)
    ensures r.None? <==> forall j :: 0 <= j < |pairs| ==> pairs[j].0 != key
  {
    var k := FirstIndex(pairs, key);
    if k < |pairs| then Some(pairs[k].1) else None
  }

  function Or(a: Option<string>, b: Option<string>): Option<string> {
    if a.Some? then a else b
  }

  /** `Some(v)` for a non-empty `v`. */
  function NonEmpty(v: string): Option<string> {
    if v == "" then None else Some(v)
  }

  /** The pair `(key, v)`, omitted when `v` is empty. */
  function Optional<K>(key: K, v: string): seq<(K, string)> {
    if v == "" then [] else [(key, v)]
  }

  // ---- detectPaths ----

  /** The workspace and project paths the builder works with. */
  datatype Paths = Paths(workspace: string, project: string)

  /**
   * `detectPaths`: the configured paths; when both are empty, the first
   * workspace match, else the first project match.
   */
  function Detected(i: IOSConfig, workspaces: seq<string>, projects: seq<string>): (r: Paths)
    ensures i.workspacePath != "" || i.projectPath != "" ==> r == Paths(i.workspacePath, i.projectPath)
    ensures i.workspacePath == "" && i.projectPath == "" ==> r.workspace == "" || r.project == ""
  {
    if i.workspacePath != "" || i.projectPath != "" then Paths(i.workspacePath, i.projectPath)
    else if |workspaces| > 0 then Paths(workspaces[0], "")
    else if |projects| > 0 then Paths("", projects[0])
    else Paths("", "")
  }

  const WorkspaceSuffix: string := ".xcworkspace"
  const ProjectSuffix: string := ".xcodeproj"

  // ---- getCodeSigningArgs ----

  /** The signing settings: the style first, then only the non-empty fields of that style, in a fixed order. */
  function SigningArgs(i: IOSConfig): seq<(SettingKey, string)> {
    if i.automaticSigning then
      [(CodeSignStyle, "Automatic")]
      + Optional(DevelopmentTeam, i.teamId)
      + Optional(ProductBundleIdentifier, i.bundleId)
    else
      [(CodeSignStyle, "Manual")]
      + Optional(CodeSignIdentity, i.codeSignIdentity)
      + Optional(ProvisioningProfileSpecifier, i.provisioningProfile)
      + Optional(DevelopmentTeam, i.teamId)
  }

  /** The position a setting takes in the fixed order of its signing style. */
  function SigningRank(automatic: bool, k: SettingKey): nat {
    match k
    case CodeSignStyle => 0
    case CodeSignIdentity => 1
    case ProvisioningProfileSpecifier => 2
    case DevelopmentTeam => if automatic then 1 else 3
    case ProductBundleIdentifier => 2
  }

  /** The keys a signing style may emit. */
  predicate StyleKey(automatic: bool, k: SettingKey) {
    if automatic then k in {CodeSignStyle, DevelopmentTeam, ProductBundleIdentifier}
    else k in {CodeSignStyle, CodeSignIdentity, ProvisioningProfileSpecifier, DevelopmentTeam}
  }

  // ---- Build, Test, Archive ----

  const NoTargetMessage: string := "no workspace or project file found"

  /** The `-workspace` or `-project` option; `None` when neither path is set. */
  function Target(p: Paths): (r: Option<seq<(Flag, string)>>)
    ensures r.None? <==> p.workspace == "" && p.project == ""
  {
    if p.workspace != "" then Some([(Workspace, p.workspace)])
    else if p.project != "" then Some([(Project, p.project)])
    else None
  }

  function BuildInvocation(i: IOSConfig, target: seq<(Flag, string)>): Invocation {
    Invocation(["build"],
      target + [(Scheme, i.scheme)] + Optional(BuildConfiguration, i.configuration) + Optional(Sdk, i.sdk),
      SigningArgs(i))
  }

  const SimulatorSdk: string := "iphonesimulator"
  const SimulatorDestination: string := "platform=iOS Simulator,name=iPhone 15"

  /** Whether `Test` runs on the simulator: the SDK is unset or is the simulator SDK. */
  predicate SimulatorTests(i: IOSConfig) {
    i.sdk == SimulatorSdk || i.sdk == ""
  }

  function TestInvocation(i: IOSConfig, target: seq<(Flag, string)>): Invocation {
    Invocation(["test"],
      target + [(Scheme, i.scheme)]
      + (if SimulatorTests(i) then [(Sdk, SimulatorSdk), (Destination, SimulatorDestination)] else []),
      [])
  }

  /** The SDK `Archive` passes: the configured one, `iphoneos` by default. */
  function ArchiveSdk(i: IOSConfig): string {
    if i.sdk == "" then "iphoneos" else i.sdk
  }

  function ArchiveInvocation(i: IOSConfig, target: seq<(Flag, string)>, archivePath: string): Invocation {
    Invocation(["archive"],
      target + [(Scheme, i.scheme)] + Optional(BuildConfiguration, i.configuration)
      + [(Sdk, ArchiveSdk(i)), (ArchivePath, archivePath)],
      SigningArgs(i))
  }

  /** Where the archive goes: the configured path, or `app.xcarchive` in the temporary directory. */
  function ArchivePathOf(i: IOSConfig, env: map<string, string>): (r: string)
    ensures r != ""
    ensures i.archivePath != "" ==> r == i.archivePath
  {
    if i.archivePath != "" then i.archivePath else FilePath.Join(TempDirOf(env), "app.xcarchive")
  }

  // ---- Stages ----

  /** What an operation did: its effects in order, the path it returned (`""` on error) and its error. */
  datatype Stage = Stage(effects: seq<Effect>, artifact: string, err: Option<string>)

  /** The error an effect reports, wrapped with the operation's context as `fmt.Errorf("...: %w")` does. */
  function Wrapped(h: Host, e: Effect, context: string): (r: Option<string>)
    ensures r.None? <==> h.Outcome(e).None?
  {
    if h.Outcome(e).Some? then Some(context + h.Outcome(e).value) else None
  }

  /** One `xcodebuild` run, or the missing-target error with no effect at all. */
  function XcodebuildStage(h: Host, inv: Option<Invocation>, context: string): (r: Stage)
    ensures inv.None? ==> r == Stage([], "", Some(NoTargetMessage))
    ensures inv.Some? ==> r.effects == [Exec("xcodebuild", Argv(inv.value))]
    ensures inv.Some? ==> r.err == Wrapped(h, Exec("xcodebuild", Argv(inv.value)), context)
  {
    if inv.None? then Stage([], "", Some(NoTargetMessage))
    else
      var e := Exec("xcodebuild", Argv(inv.value));
      Stage([e], "", Wrapped(h, e, context))
  }

  function BuildStage(i: IOSConfig, p: Paths, h: Host): Stage {
    var target := Target(p);
    XcodebuildStage(h, if target.None? then None else Some(BuildInvocation(i, target.value)), "build failed: ")
  }

  function TestStage(i: IOSConfig, p: Paths, h: Host): Stage {
    var target := Target(p);
    XcodebuildStage(h, if target.None? then None else Some(TestInvocation(i, target.value)), "tests failed: ")
  }

  /** `Archive`: create the archive's directory, then run `xcodebuild archive`. */
  function ArchiveStage(i: IOSConfig, p: Paths, h: Host, cwd: string, env: map<string, string>): Stage {
    var path := ArchivePathOf(i, env);
    var mkdir := MakeDirs(AbsFrom(cwd, FilePath.Dir(path)));
    var target := Target(p);
    if Wrapped(h, mkdir, "failed to create archive directory: ").Some? then
      Stage([mkdir], "", Wrapped(h, mkdir, "failed to create archive directory: "))
    else if target.None? then
      Stage([mkdir], "", Some(NoTargetMessage))
    else
      var run := Exec("xcodebuild", Argv(ArchiveInvocation(i, target.value, path)));
      if Wrapped(h, run, "archive failed: ").Some? then Stage([mkdir, run], "", Wrapped(h, run, "archive failed: "))
      else Stage([mkdir, run], path, None)
  }

  // ---- ExportIPA and createExportOptions ----

  function ExportMethodOf(i: IOSConfig): (r: string)
    ensures i.exportMethod == "" ==> r == "app-store"
    ensures i.exportMethod != "" ==> r == i.exportMethod
  {
    if i.exportMethod == "" then "app-store" else i.exportMethod
  }

  /** The team written to the export options: the iOS team, else the App Store Connect team. */
  function ExportTeamOf(i: IOSConfig, a: AppStoreConnectConfig): (r: string)
    ensures i.teamId != "" ==> r == i.teamId
    ensures i.teamId == "" ==> r == a.teamId
  {
    if i.teamId == "" then a.teamId else i.teamId
  }

  const PlistBeforeMethod: string :=
    "<?xml version=\"1.0\" encoding=\"UTF-8\"?>\n"
    + "<!DOCTYPE plist PUBLIC \"-//Apple//DTD PLIST 1.0//EN\" \"http://www.apple.com/DTDs/PropertyList-1.0.dtd\">\n"
    + "<plist version=\"1.0\">\n<dict>\n    <key>method</key>\n    <string>"
  const CloseString: string := "</string>"
  const PlistBeforeTeam: string := CloseString + "\n    <key>teamID</key>\n    <string>"
  const PlistAfterTeam: string :=
    CloseString + "\n    <key>uploadBitcode</key>\n    <false/>\n    <key>uploadSymbols</key>\n    <true/>\n"
    + "    <key>compileBitcode</key>\n    <false/>\n</dict>\n</plist>"

  /** The `ExportOptions.plist` document for an export method and a team. */
  function ExportOptions(exportMethod: string, teamID: string): string {
    PlistBeforeMethod + exportMethod + PlistBeforeTeam + teamID + PlistAfterTeam
  }

  /** The text of an XML element: everything up to the next `<`. */
  function ElementText(s: string): (r: string)
    ensures HasPrefix(s, r) && '<' !in r
  {
    if s == [] || s[0] == '<' then [] else [s[0]] + ElementText(s[1..])
  }

  function ExportInvocation(archivePath: string, exportPath: string, plist: string): Invocation {
    Invocation(["-exportArchive"],
      [(ArchivePath, archivePath), (ExportPath, exportPath), (ExportOptionsPlist, plist)], [])
  }

  const IPASuffix: string := ".ipa"

  /** Where the export goes: the configured path, or the working directory. */
  function ExportPathOf(i: IOSConfig, cwd: string): string {
    if i.exportPath == "" then cwd else i.exportPath
  }

  /** The index of the first name ending in `suffix`, or the length when there is none. */
  function FirstWithSuffix(names: seq<string>, suffix: string): (k: nat)
    ensures k <= |names|
    ensures k < |names| ==> HasSuffix(names[k], suffix)
    ensures forall j :: 0 <= j < k ==> !HasSuffix(names[j], suffix)
  {
    if names == [] then 0
    else if HasSuffix(names[0], suffix) then 0
    else 1 + FirstWithSuffix(names[1..], suffix)
  }

  /**
   * The IPA `ExportIPA` reports: `<exportPath>/<name>.ipa` when the project
   * has a name and that file exists, else the first `.ipa` in the export
   * directory's listing, else none.
   */
  function FoundIPA(h: Host, cwd: string, exportPath: string, name: string): (r: Option<string>)
    ensures r.Some? ==> r.value != ""
  {
    var exact := FilePath.Join(exportPath, name + IPASuffix);
    if name != "" && h.ExistsAt(cwd, exact) then Some(exact)
    else match h.ReadDirAt(cwd, exportPath)
      case None => None
      case Some(names) =>
        var k := FirstWithSuffix(names, IPASuffix);
        if k < |names| then Some(FilePath.Join(exportPath, names[k])) else None
  }

  /** `ExportIPA`: make the export directory, write the options, export, then look for the IPA. */
  function ExportStage(i: IOSConfig, a: AppStoreConnectConfig, name: string, archivePath: string,
                       h: Host, cwd: string): Stage
  {
    var exportPath := ExportPathOf(i, cwd);
    var run := ExportRun(i, a, exportPath, archivePath, h, cwd);
    if run.err.Some? then run
    else match FoundIPA(h, cwd, exportPath, name)
      case None => Stage(run.effects, "", Some("could not find IPA file in export directory: " + exportPath))
      case Some(ipa) => Stage(run.effects, ipa, None)
  }

  /** The part of `ExportIPA` with effects: make the directory, write the options, run the export. */
  function ExportRun(i: IOSConfig, a: AppStoreConnectConfig, exportPath: string, archivePath: string,
                     h: Host, cwd: string): (r: Stage)
    ensures r.artifact == ""
  {
    var mkdir := MakeDirs(AbsFrom(cwd, exportPath));
    var plist := FilePath.Join(exportPath, "ExportOptions.plist");
    var write := Effect.WriteFile(AbsFrom(cwd, plist), ExportOptions(ExportMethodOf(i), ExportTeamOf(i, a)));
    var run := Exec("xcodebuild", Argv(ExportInvocation(archivePath, exportPath, plist)));
    if Wrapped(h, mkdir, "failed to create export directory: ").Some? then
      Stage([mkdir], "", Wrapped(h, mkdir, "failed to create export directory: "))
    else if Wrapped(h, write, "failed to create export options: ").Some? then
      Stage([mkdir, write], "", Wrapped(h, write, "failed to create export options: "))
    else
      Stage([mkdir, write, run], "", Wrapped(h, run, "export failed: "))
  }

  // ---- UploadToTestFlight ----

  datatype Credential = ApiKeyCredential | AppleIdCredential

  /** The credential `UploadToTestFlight` authenticates with: an API key first, then an Apple ID. */
  function UploadCredential(a: AppStoreConnectConfig): (r: Option<Credential>)
    ensures r == Some(ApiKeyCredential) <==> a.apiKeyId != ""
    ensures r == Some(AppleIdCredential) <==> a.apiKeyId == "" && a.appleId != ""
    ensures r.None? <==> a.apiKeyId == "" && a.appleId == ""
  {
    if a.apiKeyId != "" then Some(ApiKeyCredential)
    else if a.appleId != "" then Some(AppleIdCredential)
    else None
  }

  function UploadInvocation(a: AppStoreConnectConfig, ipaPath: string, c: Credential): Invocation {
    Invocation(["altool", "--upload-app"],
      [(UploadType, "ios"), (UploadFile, ipaPath)]
      + (match c
         case ApiKeyCredential => [(ApiKey, a.apiKeyId), (ApiIssuer, a.apiIssuerId)]
         case AppleIdCredential => [(Username, a.appleId), (Password, a.appSpecificPassword)]),
      [])
  }

  const NoCredentialsMessage: string := "no valid " + "App Store Connect credentials provided"

  function UploadStage(a: AppStoreConnectConfig, ipaPath: string, h: Host): Stage {
    match UploadCredential(a)
    case None => Stage([], "", Some(NoCredentialsMessage))
    case Some(c) =>
      var run := Exec("xcrun", Argv(UploadInvocation(a, ipaPath, c)));
      Stage([run], "", Wrapped(h, run, "TestFlight upload failed: "))
  }

  // ---- InstallDependencies ----

  datatype DependencyManager = CocoaPods | SwiftPackages | Carthage

  /** The dependency manager in use: a `Podfile` first, then `Package.swift`, then a `Cartfile`. */
  function DependencyManagerOf(h: Host, cwd: string): (r: Option<DependencyManager>)
    ensures r == Some(CocoaPods) <==> h.ExistsAt(cwd, "Podfile")
    ensures r == Some(SwiftPackages) <==> !h.ExistsAt(cwd, "Podfile") && h.ExistsAt(cwd, "Package.swift")
    ensures r == Some(Carthage) <==>
      !h.ExistsAt(cwd, "Podfile") && !h.ExistsAt(cwd, "Package.swift") && h.ExistsAt(cwd, "Cartfile")
  {
    if h.ExistsAt(cwd, "Podfile") then Some(CocoaPods)
    else if h.ExistsAt(cwd, "Package.swift") then Some(SwiftPackages)
    else if h.ExistsAt(cwd, "Cartfile") then Some(Carthage)
    else None
  }

  /** `InstallDependencies`: CocoaPods and Carthage run a tool; Swift packages are left to `xcodebuild`. */
  function InstallStage(h: Host, cwd: string): Stage {
    match DependencyManagerOf(h, cwd)
    case Some(CocoaPods) =>
      var run := Exec("pod", ["install"]);
      Stage([run], "", Wrapped(h, run, "pod install failed: "))
    case Some(Carthage) =>
      var run := Exec("carthage", ["update", "--platform", "iOS"]);
      Stage([run], "", Wrapped(h, run, "carthage update failed: "))
    case _ => Stage([], "", None)
  }

  // ---- The builder ----

  class IOSBuilder {
    const config: Config
    var workspacePath: string
    var projectPath: string

    /** `NewIOSBuilder`: keeps the configuration and detects the paths in the working directory. */
    constructor (config: Config, h: Host)
      ensures this.config == config
      ensures Paths(workspacePath, projectPath)
           == Detected(config.ios, h.Glob(WorkspaceSuffix), h.Glob(ProjectSuffix))
    {
      this.config := config;
      workspacePath := "";
      projectPath := "";
      new;
      DetectPaths(h);
    }

    function PathsOf(): Paths
      reads this
    {
      Paths(workspacePath, projectPath)
    }

    /** `detectPaths`. */
    method DetectPaths(h: Host)
      modifies this`workspacePath, this`projectPath
      ensures PathsOf() == Detected(config.ios, h.Glob(WorkspaceSuffix), h.Glob(ProjectSuffix))
    {
      workspacePath := config.ios.workspacePath;
      projectPath := config.ios.projectPath;
      if workspacePath == "" && projectPath == "" {
        var matches := h.Glob(WorkspaceSuffix);
        if |matches| > 0 {
          workspacePath := matches[0];
          return;
        }
        matches := h.Glob(ProjectSuffix);
        if |matches| > 0 {
          projectPath := matches[0];
          return;
        }
      }
    }

    /** `Build`. */
    method Build(h: Host) returns (err: Option<string>)
      modifies h`trace
      ensures h.trace == old(h.trace) + BuildStage(config.ios, PathsOf(), h).effects
      ensures err == BuildStage(config.ios, PathsOf(), h).err
    {
      var target := Target(PathsOf());
      if target.None? {
        return Some(NoTargetMessage);
      }
      var failure := h.Exec("xcodebuild", Argv(BuildInvocation(config.ios, target.value)));
      if failure.Some? {
        return Some("build failed: " + failure.value);
      }
      return None;
    }

    /** `Test`. */
    method Test(h: Host) returns (err: Option<string>)
      modifies h`trace
      ensures h.trace == old(h.trace) + TestStage(config.ios, PathsOf(), h).effects
      ensures err == TestStage(config.ios, PathsOf(), h).err
    {
      var target := Target(PathsOf());
      if target.None? {
        return Some(NoTargetMessage);
      }
      var failure := h.Exec("xcodebuild", Argv(TestInvocation(config.ios, target.value)));
      if failure.Some? {
        return Some("tests failed: " + failure.value);
      }
      return None;
    }

    /** `Archive`: the archive path on success, `""` with the error otherwise. */
    method Archive(h: Host) returns (archivePath: string, err: Option<string>)
      modifies h`trace
      ensures h.trace == old(h.trace) + ArchiveStage(config.ios, PathsOf(), h, h.cwd, h.env).effects
      ensures archivePath == ArchiveStage(config.ios, PathsOf(), h, h.cwd, h.env).artifact
      ensures err == ArchiveStage(config.ios, PathsOf(), h, h.cwd, h.env).err
    {
      var path := config.ios.archivePath;
      if path == "" {
        path := FilePath.Join(TempDirOf(h.env), "app.xcarchive");
      }
      var failure := h.MkdirAll(FilePath.Dir(path));
      if failure.Some? {
        return "", Some("failed to create archive directory: " + failure.value);
      }
      var target := Target(PathsOf());
      if target.None? {
        return "", Some(NoTargetMessage);
      }
      failure := h.Exec("xcodebuild", Argv(ArchiveInvocation(config.ios, target.value, path)));
      if failure.Some? {
        return "", Some("archive failed: " + failure.value);
      }
      return path, None;
    }

    /** `createExportOptions`. */
    method CreateExportOptions(h: Host, path: string) returns (err: Option<string>)
      modifies h`trace
      ensures h.trace == old(h.trace)
        + [Effect.WriteFile(h.Abs(path), ExportOptions(ExportMethodOf(config.ios), ExportTeamOf(config.ios, config.appStoreConnect)))]
      ensures err == h.Outcome(Effect.WriteFile(h.Abs(path),
        ExportOptions(ExportMethodOf(config.ios), ExportTeamOf(config.ios, config.appStoreConnect))))
    {
      var exportMethod := config.ios.exportMethod;
      if exportMethod == "" {
        exportMethod := "app-store";
      }
      var teamID := config.ios.teamId;
      if teamID == "" {
        teamID := config.appStoreConnect.teamId;
      }
      err := h.WriteFile(path, ExportOptions(exportMethod, teamID));
    }

    /** `ExportIPA`: the IPA path on success, `""` with the error otherwise. */
    method ExportIPA(h: Host, archivePath: string) returns (ipaPath: string, err: Option<string>)
      modifies h`trace
      ensures h.trace == old(h.trace)
        + ExportStage(config.ios, config.appStoreConnect, config.project.name, archivePath, h, h.cwd).effects
      ensures ipaPath == ExportStage(config.ios, config.appStoreConnect, config.project.name, archivePath, h, h.cwd).artifact
      ensures err == ExportStage(config.ios, config.appStoreConnect, config.project.name, archivePath, h, h.cwd).err
    {
      var exportPath := config.ios.exportPath;
      if exportPath == "" {
        exportPath := h.cwd;
      }
      err := RunExport(h, exportPath, archivePath);
      if err.Some? {
        return "", err;
      }
      ipaPath := ResolveIPA(h, exportPath, config.project.name);
      if ipaPath == "" {
        return "", Some("could not find IPA file in export directory: " + exportPath);
      }
      return ipaPath, None;
    }

    /** The steps of `ExportIPA` up to the export itself. */
    method RunExport(h: Host, exportPath: string, archivePath: string) returns (err: Option<string>)
      modifies h`trace
      ensures h.trace == old(h.trace) + ExportRun(config.ios, config.appStoreConnect, exportPath, archivePath, h, h.cwd).effects
      ensures err == ExportRun(config.ios, config.appStoreConnect, exportPath, archivePath, h, h.cwd).err
    {
      var failure := h.MkdirAll(exportPath);
      if failure.Some? {
        return Some("failed to create export directory: " + failure.value);
      }
      var plist := FilePath.Join(exportPath, "ExportOptions.plist");
      failure := CreateExportOptions(h, plist);
      if failure.Some? {
        return Some("failed to create export options: " + failure.value);
      }
      failure := h.Exec("xcodebuild", Argv(ExportInvocation(archivePath, exportPath, plist)));
      if failure.Some? {
        return Some("export failed: " + failure.value);
      }
      return None;
    }

    /** `UploadToTestFlight`. */
    method UploadToTestFlight(h: Host, ipaPath: string) returns (err: Option<string>)
      modifies h`trace
      ensures h.trace == old(h.trace) + UploadStage(config.appStoreConnect, ipaPath, h).effects
      ensures err == UploadStage(config.appStoreConnect, ipaPath, h).err
    {
      var a := config.appStoreConnect;
      var failure;
      if a.apiKeyId != "" {
        failure := h.Exec("xcrun", Argv(UploadInvocation(a, ipaPath, ApiKeyCredential)));
      } else if a.appleId != "" {
        failure := h.Exec("xcrun", Argv(UploadInvocation(a, ipaPath, AppleIdCredential)));
      } else {
        return Some(NoCredentialsMessage);
      }
      if failure.Some? {
        return Some("TestFlight upload failed: " + failure.value);
      }
      return None;
    }

    /** `InstallDependencies`. */
    method InstallDependencies(h: Host) returns (err: Option<string>)
      modifies h`trace
      ensures h.trace == old(h.trace) + InstallStage(h, h.cwd).effects
      ensures err == InstallStage(h, h.cwd).err
    {
      if h.Exists("Podfile") {
        var failure := h.Exec("pod", ["install"]);
        if failure.Some? {
          return Some("pod install failed: " + failure.value);
        }
        return None;
      }
      if h.Exists("Package.swift") {
        return None;
      }
      if h.Exists("Cartfile") {
        var failure := h.Exec("carthage", ["update", "--platform", "iOS"]);
        if failure.Some? {
          return Some("carthage update failed: " + failure.value);
        }
        return None;
      }
      return None;
    }
  }

  /** The IPA search of `ExportIPA`: the exact name first, then the listing; `""` when neither finds one. */
  method ResolveIPA(h: Host, exportPath: string, name: string) returns (ipaPath: string)
    ensures FoundIPA(h, h.cwd, exportPath, name).None? ==> ipaPath == ""
    ensures FoundIPA(h, h.cwd, exportPath, name).Some? ==> ipaPath == FoundIPA(h, h.cwd, exportPath, name).value
  {
    ipaPath := "";
    if name != "" {
      var possiblePath := FilePath.Join(exportPath, name + IPASuffix);
      if h.Exists(possiblePath) {
        ipaPath := possiblePath;
      }
    }
    if ipaPath == "" {
      var files := h.ReadDir(exportPath);
      if files.Some? {
        ipaPath := SearchIPA(files.value, exportPath);
      }
    }
  }

  /** The listing loop of `ExportIPA`: the first entry ending in `.ipa`, joined onto the directory, or `""`. */
  method SearchIPA(names: seq<string>, dir: string) returns (ipaPath: string)
    ensures var k := FirstWithSuffix(names, IPASuffix);
      ipaPath == if k < |names| then FilePath.Join(dir, names[k]) else ""
  {
    ipaPath := "";
    for k := 0 to |names|
      invariant forall j :: 0 <= j < k ==> !HasSuffix(names[j], IPASuffix)
      invariant ipaPath == ""
    {
      if HasSuffix(names[k], IPASuffix) {
        FirstWithSuffixAt(names, IPASuffix, k);
        ipaPath := FilePath.Join(dir, names[k]);
        break;
      }
    }
    if ipaPath == "" {
      FirstWithSuffixNone(names, IPASuffix);
    }
  }

  // ---- Lemmas ----

  /** The first index is the one holding the first match. */
  lemma {:induction false} FirstWithSuffixAt(names: seq<string>, suffix: string, k: nat)
    requires k < |names| && HasSuffix(names[k], suffix)
    requires forall j :: 0 <= j < k ==> !HasSuffix(names[j], suffix)
    ensures FirstWithSuffix(names, suffix) == k
  {
    if k > 0 {
      FirstWithSuffixAt(names[1..], suffix, k - 1);
    }
  }

  lemma FirstWithSuffixNone(names: seq<string>, suffix: string)
    requires forall j :: 0 <= j < |names| ==> !HasSuffix(names[j], suffix)
    ensures FirstWithSuffix(names, suffix) == |names|
  {
  }

  // ---- Option lookup ----

  lemma {:induction false} FirstIndexAppend<K>(a: seq<(K, string)>, b: seq<(K, string)>, key: K)
    ensures FirstIndex(a + b, key)
         == if FirstIndex(a, key) < |a| then FirstIndex(a, key) else |a| + FirstIndex(b, key)
  {
    if a == [] {
      assert a + b == b;
    } else {
      assert (a + b)[0] == a[0];
      assert (a + b)[1..] == a[1..] + b;
      if a[0].0 != key {
        FirstIndexAppend(a[1..], b, key);
      }
    }
  }

  /** The value of a key in a concatenation comes from the first part that gives it. */
  lemma ValueAppend<K>(a: seq<(K, string)>, b: seq<(K, string)>, key: K)
    ensures Value(a + b, key) == Or(Value(a, key), Value(b, key))
  {
    FirstIndexAppend(a, b, key);
    var k := FirstIndex(a, key);
    if k < |a| {
      assert (a + b)[k] == a[k];
    } else {
      var m := FirstIndex(b, key);
      if m < |b| {
        assert (a + b)[|a| + m] == b[m];
      }
    }
  }

  lemma ValueOptional<K>(k: K, v: string, key: K)
    ensures Value(Optional(k, v), key) == if k == key then NonEmpty(v) else None
  {
    if v != "" {
      assert Optional(k, v) == [(k, v)];
    }
  }

  lemma ValueSingle<K>(k: K, v: string, key: K)
    ensures Value([(k, v)], key) == if k == key then Some(v) else None
  {
  }

  // ---- getCodeSigningArgs ----

  /** The signing settings begin with exactly one style entry, the one `AutomaticSigning` selects. */
  lemma SigningStyleFirst(i: IOSConfig)
    ensures |SigningArgs(i)| >= 1
    ensures SigningArgs(i)[0] == (CodeSignStyle, if i.automaticSigning then "Automatic" else "Manual")
    ensures forall k :: 1 <= k < |SigningArgs(i)| ==> SigningArgs(i)[k].0 != CodeSignStyle
  {
  }

  /** Every signing entry has a non-empty value and belongs to the selected style. */
  lemma SigningEntries(i: IOSConfig)
    ensures forall k :: 0 <= k < |SigningArgs(i)| ==>
      SigningArgs(i)[k].1 != "" && StyleKey(i.automaticSigning, SigningArgs(i)[k].0)
  {
  }

  /** Each signing field appears exactly when it is set and the selected style uses it. */
  lemma SigningFields(i: IOSConfig)
    ensures Value(SigningArgs(i), DevelopmentTeam) == NonEmpty(i.teamId)
    ensures Value(SigningArgs(i), ProductBundleIdentifier)
         == if i.automaticSigning then NonEmpty(i.bundleId) else None
    ensures Value(SigningArgs(i), CodeSignIdentity)
         == if i.automaticSigning then None else NonEmpty(i.codeSignIdentity)
    ensures Value(SigningArgs(i), ProvisioningProfileSpecifier)
         == if i.automaticSigning then None else NonEmpty(i.provisioningProfile)
  {
    SigningFieldValue(i, DevelopmentTeam);
    SigningFieldValue(i, ProductBundleIdentifier);
    SigningFieldValue(i, CodeSignIdentity);
    SigningFieldValue(i, ProvisioningProfileSpecifier);
  }

  /** The field a setting key carries under a signing style, when that style uses the key. */
  function StyleField(i: IOSConfig, key: SettingKey): Option<string> {
    match key
    case CodeSignStyle => Some(if i.automaticSigning then "Automatic" else "Manual")
    case DevelopmentTeam => NonEmpty(i.teamId)
    case ProductBundleIdentifier => if i.automaticSigning then NonEmpty(i.bundleId) else None
    case CodeSignIdentity => if i.automaticSigning then None else NonEmpty(i.codeSignIdentity)
    case ProvisioningProfileSpecifier => if i.automaticSigning then None else NonEmpty(i.provisioningProfile)
  }

  lemma SigningFieldValue(i: IOSConfig, key: SettingKey)
    requires key != CodeSignStyle
    ensures Value(SigningArgs(i), key) == StyleField(i, key)
  {
    SigningValue(i, key);
    ValueOptional(DevelopmentTeam, i.teamId, key);
    ValueOptional(ProductBundleIdentifier, i.bundleId, key);
    ValueOptional(CodeSignIdentity, i.codeSignIdentity, key);
    ValueOptional(ProvisioningProfileSpecifier, i.provisioningProfile, key);
  }

  /** The value of one setting key, part by part. */
  lemma SigningValue(i: IOSConfig, key: SettingKey)
    requires key != CodeSignStyle
    ensures Value(SigningArgs(i), key)
         == if i.automaticSigning then
              Or(Value(Optional(DevelopmentTeam, i.teamId), key), Value(Optional(ProductBundleIdentifier, i.bundleId), key))
            else
              Or(Or(Value(Optional(CodeSignIdentity, i.codeSignIdentity), key),
                    Value(Optional(ProvisioningProfileSpecifier, i.provisioningProfile), key)),
                 Value(Optional(DevelopmentTeam, i.teamId), key))
  {
    var style := [(CodeSignStyle, if i.automaticSigning then "Automatic" else "Manual")];
    ValueSingle(CodeSignStyle, style[0].1, key);
    if i.automaticSigning {
      ValueAppend(style + Optional(DevelopmentTeam, i.teamId), Optional(ProductBundleIdentifier, i.bundleId), key);
      ValueAppend(style, Optional(DevelopmentTeam, i.teamId), key);
    } else {
      var a := style + Optional(CodeSignIdentity, i.codeSignIdentity);
      ValueAppend(a + Optional(ProvisioningProfileSpecifier, i.provisioningProfile), Optional(DevelopmentTeam, i.teamId), key);
      ValueAppend(a, Optional(ProvisioningProfileSpecifier, i.provisioningProfile), key);
      ValueAppend(style, Optional(CodeSignIdentity, i.codeSignIdentity), key);
    }
  }

  /** The signing entries follow the fixed order of their style. */
  lemma SigningOrder(i: IOSConfig)
    ensures forall k :: 0 <= k < |SigningArgs(i)| - 1 ==>
      SigningRank(i.automaticSigning, SigningArgs(i)[k].0) < SigningRank(i.automaticSigning, SigningArgs(i)[k + 1].0)
  {
  }

  // ---- Build, Test, Archive command lines ----

  /** The target option: `-workspace` whenever a workspace is set, `-project` only without one. */
  lemma TargetValues(p: Paths, key: Flag)
    requires Target(p).Some?
    ensures Value(Target(p).value, key)
         == if key == Workspace then NonEmpty(p.workspace)
            else if key == Project && p.workspace == "" then Some(p.project)
            else None
  {
  }

  /** The first three words of a command line with one leading word. */
  lemma ArgvHead(inv: Invocation)
    requires |inv.words| == 1 && inv.options != []
    ensures |Argv(inv)| >= 3
    ensures Argv(inv)[..3] == inv.words + [FlagName(inv.options[0].0), inv.options[0].1]
  {
    var pairs := Pairs(inv.options);
    assert pairs[..2] == [FlagName(inv.options[0].0), inv.options[0].1];
    assert Argv(inv) == inv.words + pairs + Settings(inv.settings);
  }

  /** The target option, then a fixed list: the target decides the `-workspace` and `-project` values. */
  lemma TargetFirst(p: Paths, rest: seq<(Flag, string)>, key: Flag)
    requires Target(p).Some?
    requires key in {Workspace, Project} ==> Value(rest, key).None?
    ensures Value(Target(p).value + rest, key) == Or(Value(Target(p).value, key), Value(rest, key))
    ensures key in {Workspace, Project} ==> Value(Target(p).value + rest, key) == Value(Target(p).value, key)
  {
    ValueAppend(Target(p).value, rest, key);
  }

  /**
   * `Build`: the action, then `-workspace` in preference to `-project`, the
   * scheme, `-configuration` and `-sdk` only when set, then the signing settings.
   */
  lemma BuildArguments(i: IOSConfig, p: Paths)
    requires Target(p).Some?
    ensures var inv := BuildInvocation(i, Target(p).value);
      && Argv(inv)[..3] == ["build"] + (if p.workspace != "" then ["-workspace", p.workspace] else ["-project", p.project])
      && Value(inv.options, Workspace) == NonEmpty(p.workspace)
      && Value(inv.options, Project) == (if p.workspace == "" then Some(p.project) else None)
      && Value(inv.options, Scheme) == Some(i.scheme)
      && Value(inv.options, BuildConfiguration) == NonEmpty(i.configuration)
      && Value(inv.options, Sdk) == NonEmpty(i.sdk)
      && inv.settings == SigningArgs(i)
  {
    var t := Target(p).value;
    var inv := BuildInvocation(i, t);
    ArgvHead(inv);
    var rest := [(Scheme, i.scheme)] + Optional(BuildConfiguration, i.configuration) + Optional(Sdk, i.sdk);
    assert inv.options == t + rest;
    forall key: Flag
      ensures Value(rest, key)
           == Or(Or(Value([(Scheme, i.scheme)], key), Value(Optional(BuildConfiguration, i.configuration), key)),
                 Value(Optional(Sdk, i.sdk), key))
    {
      ValueAppend([(Scheme, i.scheme)] + Optional(BuildConfiguration, i.configuration), Optional(Sdk, i.sdk), key);
      ValueAppend([(Scheme, i.scheme)], Optional(BuildConfiguration, i.configuration), key);
    }
    BuildOption(i, p, rest, Workspace);
    BuildOption(i, p, rest, Project);
    BuildOption(i, p, rest, Scheme);
    BuildOption(i, p, rest, BuildConfiguration);
    BuildOption(i, p, rest, Sdk);
  }

  lemma BuildOption(i: IOSConfig, p: Paths, rest: seq<(Flag, string)>, key: Flag)
    requires Target(p).Some?
    requires rest == [(Scheme, i.scheme)] + Optional(BuildConfiguration, i.configuration) + Optional(Sdk, i.sdk)
    requires Value(rest, key)
          == Or(Or(Value([(Scheme, i.scheme)], key), Value(Optional(BuildConfiguration, i.configuration), key)),
                Value(Optional(Sdk, i.sdk), key))
    ensures Value(Target(p).value + rest, key)
         == match key
            case Workspace => NonEmpty(p.workspace)
            case Project => if p.workspace == "" then Some(p.project) else None
            case Scheme => Some(i.scheme)
            case BuildConfiguration => NonEmpty(i.configuration)
            case Sdk => NonEmpty(i.sdk)
            case _ => None
  {
    ValueSingle(Scheme, i.scheme, key);
    ValueOptional(BuildConfiguration, i.configuration, key);
    ValueOptional(Sdk, i.sdk, key);
    TargetValues(p, key);
    TargetFirst(p, rest, key);
  }

  /**
   * `Test`: the action and target as in `Build`, the scheme, and the
   * simulator SDK with the fixed iPhone 15 destination only for an unset or
   * simulator SDK; no configuration and no signing settings.
   */
  lemma TestArguments(i: IOSConfig, p: Paths)
    requires Target(p).Some?
    ensures var inv := TestInvocation(i, Target(p).value);
      && Argv(inv)[..3] == ["test"] + (if p.workspace != "" then ["-workspace", p.workspace] else ["-project", p.project])
      && Value(inv.options, Workspace) == NonEmpty(p.workspace)
      && Value(inv.options, Project) == (if p.workspace == "" then Some(p.project) else None)
      && Value(inv.options, Scheme) == Some(i.scheme)
      && Value(inv.options, Sdk) == (if SimulatorTests(i) then Some("iphonesimulator") else None)
      && Value(inv.options, Destination)
         == (if SimulatorTests(i) then Some("platform=iOS Simulator,name=iPhone 15") else None)
      && Value(inv.options, BuildConfiguration) == None
      && inv.settings == []
  {
    var t := Target(p).value;
    var inv := TestInvocation(i, t);
    ArgvHead(inv);
    var simulator: seq<(Flag, string)> :=
      if SimulatorTests(i) then [(Sdk, SimulatorSdk), (Destination, SimulatorDestination)] else [];
    var rest := [(Scheme, i.scheme)] + simulator;
    assert inv.options == t + rest;
    TestOption(i, p, simulator, rest, Workspace);
    TestOption(i, p, simulator, rest, Project);
    TestOption(i, p, simulator, rest, Scheme);
    TestOption(i, p, simulator, rest, Sdk);
    TestOption(i, p, simulator, rest, Destination);
    TestOption(i, p, simulator, rest, BuildConfiguration);
  }

  lemma TestOption(i: IOSConfig, p: Paths, simulator: seq<(Flag, string)>, rest: seq<(Flag, string)>, key: Flag)
    requires Target(p).Some?
    requires simulator == if SimulatorTests(i) then [(Sdk, SimulatorSdk), (Destination, SimulatorDestination)] else []
    requires rest == [(Scheme, i.scheme)] + simulator
    ensures Value(Target(p).value + rest, key)
         == match key
            case Workspace => NonEmpty(p.workspace)
            case Project => if p.workspace == "" then Some(p.project) else None
            case Scheme => Some(i.scheme)
            case Sdk => if SimulatorTests(i) then Some(SimulatorSdk) else None
            case Destination => if SimulatorTests(i) then Some(SimulatorDestination) else None
            case _ => None
  {
    ValueAppend([(Scheme, i.scheme)], simulator, key);
    ValueSingle(Scheme, i.scheme, key);
    if SimulatorTests(i) {
      ValueAppend([(Sdk, SimulatorSdk)], [(Destination, SimulatorDestination)], key);
      ValueSingle(Sdk, SimulatorSdk, key);
      ValueSingle(Destination, SimulatorDestination, key);
    }
    TargetValues(p, key);
    TargetFirst(p, rest, key);
  }

  /**
   * `Archive`: the action and target as in `Build`, the scheme, the
   * configuration only when set, always an SDK (`iphoneos` by default), the
   * archive path, then the signing settings.
   */
  lemma ArchiveArguments(i: IOSConfig, p: Paths, archivePath: string)
    requires Target(p).Some?
    ensures var inv := ArchiveInvocation(i, Target(p).value, archivePath);
      && Argv(inv)[..3] == ["archive"] + (if p.workspace != "" then ["-workspace", p.workspace] else ["-project", p.project])
      && Value(inv.options, Workspace) == NonEmpty(p.workspace)
      && Value(inv.options, Project) == (if p.workspace == "" then Some(p.project) else None)
      && Value(inv.options, Scheme) == Some(i.scheme)
      && Value(inv.options, BuildConfiguration) == NonEmpty(i.configuration)
      && Value(inv.options, Sdk) == Some(if i.sdk == "" then "iphoneos" else i.sdk)
      && Value(inv.options, ArchivePath) == Some(archivePath)
      && inv.settings == SigningArgs(i)
  {
    var t := Target(p).value;
    var inv := ArchiveInvocation(i, t, archivePath);
    ArgvHead(inv);
    var tail := [(Sdk, ArchiveSdk(i)), (ArchivePath, archivePath)];
    var rest := [(Scheme, i.scheme)] + Optional(BuildConfiguration, i.configuration) + tail;
    assert inv.options == t + rest;
    ArchiveOption(i, p, archivePath, tail, rest, Workspace);
    ArchiveOption(i, p, archivePath, tail, rest, Project);
    ArchiveOption(i, p, archivePath, tail, rest, Scheme);
    ArchiveOption(i, p, archivePath, tail, rest, BuildConfiguration);
    ArchiveOption(i, p, archivePath, tail, rest, Sdk);
    ArchiveOption(i, p, archivePath, tail, rest, ArchivePath);
  }

  lemma ArchiveOption(i: IOSConfig, p: Paths, archivePath: string, tail: seq<(Flag, string)>,
                      rest: seq<(Flag, string)>, key: Flag)
    requires Target(p).Some?
    requires tail == [(Sdk, ArchiveSdk(i)), (ArchivePath, archivePath)]
    requires rest == [(Scheme, i.scheme)] + Optional(BuildConfiguration, i.configuration) + tail
    ensures Value(Target(p).value + rest, key)
         == match key
            case Workspace => NonEmpty(p.workspace)
            case Project => if p.workspace == "" then Some(p.project) else None
            case Scheme => Some(i.scheme)
            case BuildConfiguration => NonEmpty(i.configuration)
            case Sdk => Some(ArchiveSdk(i))
            case ArchivePath => Some(archivePath)
            case _ => None
  {
    ValueAppend([(Scheme, i.scheme)] + Optional(BuildConfiguration, i.configuration), tail, key);
    ValueAppend([(Scheme, i.scheme)], Optional(BuildConfiguration, i.configuration), key);
    ValueAppend([(Sdk, ArchiveSdk(i))], [(ArchivePath, archivePath)], key);
    ValueSingle(Scheme, i.scheme, key);
    ValueOptional(BuildConfiguration, i.configuration, key);
    ValueSingle(Sdk, ArchiveSdk(i), key);
    ValueSingle(ArchivePath, archivePath, key);
    TargetValues(p, key);
    TargetFirst(p, rest, key);
  }

  /** Without a workspace or a project, `Build` and `Test` fail before any effect and `Archive` runs no tool. */
  lemma NoTargetNoTool(i: IOSConfig, p: Paths, h: Host, cwd: string, env: map<string, string>)
    requires p.workspace == "" && p.project == ""
    ensures BuildStage(i, p, h) == Stage([], "", Some(NoTargetMessage))
    ensures TestStage(i, p, h) == Stage([], "", Some(NoTargetMessage))
    ensures forall e :: e in ArchiveStage(i, p, h, cwd, env).effects ==> !e.Exec?
    ensures ArchiveStage(i, p, h, cwd, env).err.Some? && ArchiveStage(i, p, h, cwd, env).artifact == ""
  {
  }

  // ---- Detection and default paths ----

  /** The first entry the suffix filter keeps is the first entry with the suffix. */
  lemma {:induction false} FilterFirst(names: seq<string>, suffix: string)
    ensures FilterSuffix(names, suffix) == [] <==> FirstWithSuffix(names, suffix) == |names|
    ensures FilterSuffix(names, suffix) != [] ==> FilterSuffix(names, suffix)[0] == names[FirstWithSuffix(names, suffix)]
  {
    if names != [] && !HasSuffix(names[0], suffix) {
      FilterFirst(names[1..], suffix);
      assert FilterSuffix(names, suffix) == FilterSuffix(names[1..], suffix);
    }
  }

  /**
   * `detectPaths` over the working directory's listing: configured paths are
   * kept; otherwise the first workspace entry wins with no project, a project
   * entry is taken only when there is no workspace entry, and with neither
   * both stay empty.
   */
  lemma DetectionPriority(i: IOSConfig, h: Host, cwd: string)
    ensures var listing := if cwd in h.listings then h.listings[cwd] else [];
      var d := Detected(i, h.GlobAt(cwd, WorkspaceSuffix), h.GlobAt(cwd, ProjectSuffix));
      var w := FirstWithSuffix(listing, WorkspaceSuffix);
      var p := FirstWithSuffix(listing, ProjectSuffix);
      && (i.workspacePath != "" || i.projectPath != "" ==> d == Paths(i.workspacePath, i.projectPath))
      && (i.workspacePath == "" && i.projectPath == "" ==>
            && (w < |listing| ==> d == Paths(listing[w], ""))
            && (w == |listing| && p < |listing| ==> d == Paths("", listing[p]))
            && (w == |listing| && p == |listing| ==> d == Paths("", "")))
  {
    var listing := if cwd in h.listings then h.listings[cwd] else [];
    FilterFirst(listing, WorkspaceSuffix);
    FilterFirst(listing, ProjectSuffix);
  }

  /** With no configured archive path, the archive is `app.xcarchive` directly inside the temporary directory. */
  lemma ArchiveDefaultPath(i: IOSConfig, env: map<string, string>)
    requires i.archivePath == ""
    ensures FilePath.Dir(ArchivePathOf(i, env)) == TempDirOf(env)
    ensures FilePath.Base(ArchivePathOf(i, env)) == "app.xcarchive"
  {
    FilePath.DirJoin(TempDirOf(env), "app.xcarchive");
  }

  /**
   * `Archive` returns a path exactly when it succeeds; that path is the
   * archive path, whose directory was created first and which is the one
   * handed to `xcodebuild` as `-archivePath`.
   */
  lemma ArchiveResult(i: IOSConfig, p: Paths, h: Host, cwd: string, env: map<string, string>)
    ensures var s := ArchiveStage(i, p, h, cwd, env);
      && (s.err.None? <==> s.artifact != "")
      && (s.err.None? ==>
            && s.artifact == ArchivePathOf(i, env)
            && Target(p).Some?
            && s.effects == [MakeDirs(AbsFrom(cwd, FilePath.Dir(s.artifact))),
                             Exec("xcodebuild", Argv(ArchiveInvocation(i, Target(p).value, s.artifact)))]
            && Value(ArchiveInvocation(i, Target(p).value, s.artifact).options, ArchivePath) == Some(s.artifact))
  {
    if ArchiveStage(i, p, h, cwd, env).err.None? {
      ArchiveArguments(i, p, ArchivePathOf(i, env));
    }
  }

  // ---- Export options ----

  /**
   * Reads two element texts back out of a document laid out as `before`,
   * the first text, `between`, the second text, then exactly `after`.
   */
  function ReadElements(doc: string, before: string, between: string, after: string): (r: Option<(string, string)>)
    ensures r.Some? ==> '<' !in r.value.0 && '<' !in r.value.1
  {
    if !HasPrefix(doc, before) then None
    else
      var rest := doc[|before|..];
      var first := ElementText(rest);
      var tail := rest[|first|..];
      if !HasPrefix(tail, between) then None
      else
        var second := ElementText(tail[|between|..]);
        if tail[|between| + |second|..] == after then Some((first, second)) else None
  }

  /** Reads the method and the team back out of an export-options document. */
  function ReadExportOptions(doc: string): (r: Option<(string, string)>)
    ensures r.Some? ==> '<' !in r.value.0 && '<' !in r.value.1
  {
    ReadElements(doc, PlistBeforeMethod, PlistBeforeTeam, PlistAfterTeam)
  }

  /** The text of an element is read back up to the tag that closes it. */
  lemma {:induction false} ElementTextOf(a: string, b: string)
    requires '<' !in a
    requires b == [] || b[0] == '<'
    ensures ElementText(a + b) == a
  {
    if a == [] {
      assert a + b == b;
    } else {
      assert (a + b)[1..] == a[1..] + b;
      ElementTextOf(a[1..], b);
    }
  }

  /** The document written for a method and a team reads back as that method and team. */
  lemma ExportOptionsRoundTrip(m: string, t: string)
    requires '<' !in m && '<' !in t
    ensures ReadExportOptions(ExportOptions(m, t)) == Some((m, t))
  {
    TagsOpen();
    ElementsRoundTrip(PlistBeforeMethod, m, PlistBeforeTeam, t, PlistAfterTeam);
  }

  /** Texts free of `<`, each followed by a tag, are read back as written. */
  lemma ElementsRoundTrip(before: string, m: string, between: string, t: string, after: string)
    requires '<' !in m && '<' !in t
    requires between != [] && between[0] == '<' && after != [] && after[0] == '<'
    ensures ReadElements(before + m + between + t + after, before, between, after) == Some((m, t))
  {
    var tail := between + (t + after);
    assert before + m + between + t + after == before + (m + tail);
    Parts(before, m + tail);
    Parts(m, tail);
    Parts(between, t + after);
    Parts(t, after);
    ElementTextOf(m, tail);
    ElementTextOf(t, after);
    assert tail[|between| + |t|..] == after;
  }

  lemma TagsOpen()
    ensures PlistBeforeTeam[0] == '<' && PlistAfterTeam[0] == '<'
  {
  }

  lemma Parts(a: string, b: string)
    ensures (a + b)[..|a|] == a && (a + b)[|a|..] == b
  {
  }

  /**
   * `createExportOptions` writes the configured export method, `app-store`
   * by default, and the iOS team, falling back to the App Store Connect team.
   */
  lemma ExportOptionsContent(i: IOSConfig, a: AppStoreConnectConfig)
    requires '<' !in i.exportMethod && '<' !in i.teamId && '<' !in a.teamId
    ensures ReadExportOptions(ExportOptions(ExportMethodOf(i), ExportTeamOf(i, a)))
         == Some((if i.exportMethod == "" then "app-store" else i.exportMethod,
                  if i.teamId != "" then i.teamId else a.teamId))
  {
    assert '<' !in "app-store";
    ExportOptionsRoundTrip(ExportMethodOf(i), ExportTeamOf(i, a));
  }

  // ---- IPA resolution ----

  lemma SuffixOf(s: string, suffix: string)
    ensures HasSuffix(s + suffix, suffix)
  {
    assert (s + suffix)[|s|..] == suffix;
  }

  /**
   * The IPA `ExportIPA` reports: the exact `<name>.ipa` whenever it exists;
   * otherwise one exists exactly when the export directory lists an entry
   * ending in `.ipa`, and it is the first such entry. Every result ends in `.ipa`.
   */
  lemma IPAResolution(h: Host, cwd: string, exportPath: string, name: string)
    ensures var exact := FilePath.Join(exportPath, name + IPASuffix);
      var r := FoundIPA(h, cwd, exportPath, name);
      && (r.Some? ==> HasSuffix(r.value, IPASuffix))
      && (name != "" && h.ExistsAt(cwd, exact) ==> r == Some(exact))
      && (!(name != "" && h.ExistsAt(cwd, exact)) ==>
            && (r.Some? <==>
                  (h.ReadDirAt(cwd, exportPath).Some? && exists n :: n in h.ReadDirAt(cwd, exportPath).value && HasSuffix(n, IPASuffix)))
            && (h.ReadDirAt(cwd, exportPath).Some? ==>
                  var names := h.ReadDirAt(cwd, exportPath).value;
                  forall k :: 0 <= k < |names| && HasSuffix(names[k], IPASuffix)
                    && (forall j :: 0 <= j < k ==> !HasSuffix(names[j], IPASuffix))
                    ==> r == Some(FilePath.Join(exportPath, names[k]))))
  {
    var exact := FilePath.Join(exportPath, name + IPASuffix);
    SuffixOf(name, IPASuffix);
    FilePath.JoinSuffix(exportPath, name + IPASuffix, IPASuffix);
    if !(name != "" && h.ExistsAt(cwd, exact)) && h.ReadDirAt(cwd, exportPath).Some? {
      var names := h.ReadDirAt(cwd, exportPath).value;
      var k := FirstWithSuffix(names, IPASuffix);
      if k < |names| {
        FilePath.JoinSuffix(exportPath, names[k], IPASuffix);
      } else {
        assert forall n :: n in names ==> !HasSuffix(n, IPASuffix);
      }
      forall k' | 0 <= k' < |names| && HasSuffix(names[k'], IPASuffix)
          && (forall j :: 0 <= j < k' ==> !HasSuffix(names[j], IPASuffix))
        ensures k' == k
      {
        FirstWithSuffixAt(names, IPASuffix, k');
      }
    }
  }

  /**
   * `ExportIPA` returns a path exactly when it succeeds. On success it made
   * the export directory, wrote the options next to it and exported the
   * given archive with them, and the path is the resolved IPA; when nothing
   * is found the error names the export directory.
   */
  lemma ExportResult(i: IOSConfig, a: AppStoreConnectConfig, name: string, archivePath: string, h: Host, cwd: string)
    ensures var s := ExportStage(i, a, name, archivePath, h, cwd);
      var exportPath := ExportPathOf(i, cwd);
      var plist := FilePath.Join(exportPath, "ExportOptions.plist");
      var inv := ExportInvocation(archivePath, exportPath, plist);
      && (s.err.None? <==> s.artifact != "")
      && (s.err.None? ==>
            && s.effects == [MakeDirs(AbsFrom(cwd, exportPath)),
                             Effect.WriteFile(AbsFrom(cwd, plist), ExportOptions(ExportMethodOf(i), ExportTeamOf(i, a))),
                             Exec("xcodebuild", Argv(inv))]
            && Value(inv.options, ArchivePath) == Some(archivePath)
            && Value(inv.options, ExportOptionsPlist) == Some(plist)
            && Some(s.artifact) == FoundIPA(h, cwd, exportPath, name)
            && HasSuffix(s.artifact, IPASuffix))
      && (ExportRun(i, a, exportPath, archivePath, h, cwd).err.None? && FoundIPA(h, cwd, exportPath, name).None? ==>
            s.err == Some("could not find IPA file in export directory: " + exportPath))
  {
    var exportPath := ExportPathOf(i, cwd);
    var plist := FilePath.Join(exportPath, "ExportOptions.plist");
    IPAResolution(h, cwd, exportPath, name);
    ExportOption(archivePath, exportPath, plist, ArchivePath);
    ExportOption(archivePath, exportPath, plist, ExportOptionsPlist);
  }

  lemma ExportOption(archivePath: string, exportPath: string, plist: string, key: Flag)
    ensures Value(ExportInvocation(archivePath, exportPath, plist).options, key)
         == match key
            case ArchivePath => Some(archivePath)
            case ExportPath => Some(exportPath)
            case ExportOptionsPlist => Some(plist)
            case _ => None
  {
    ValueAppend([(ArchivePath, archivePath)], [(ExportPath, exportPath), (ExportOptionsPlist, plist)], key);
    ValueAppend([(ExportPath, exportPath)], [(ExportOptionsPlist, plist)], key);
    assert ExportInvocation(archivePath, exportPath, plist).options
        == [(ArchivePath, archivePath)] + ([(ExportPath, exportPath)] + [(ExportOptionsPlist, plist)]);
  }

  // ---- Upload and install ----

  /**
   * `UploadToTestFlight`: with neither an API key nor an Apple ID it fails
   * without running a tool; otherwise it runs `xcrun altool` once on the
   * given IPA, with the API key and issuer whenever a key is set (even
   * beside an Apple ID), else with the Apple ID and its password.
   */
  lemma UploadArguments(a: AppStoreConnectConfig, ipaPath: string, h: Host)
    ensures var s := UploadStage(a, ipaPath, h);
      && s.artifact == ""
      && (a.apiKeyId == "" && a.appleId == "" ==> s == Stage([], "", Some(NoCredentialsMessage)))
      && (a.apiKeyId != "" || a.appleId != "" ==>
            var inv := UploadInvocation(a, ipaPath, UploadCredential(a).value);
            && s.effects == [Exec("xcrun", Argv(inv))]
            && inv.words == ["altool", "--upload-app"]
            && Value(inv.options, UploadType) == Some("ios")
            && Value(inv.options, UploadFile) == Some(ipaPath)
            && Value(inv.options, ApiKey) == (if a.apiKeyId != "" then Some(a.apiKeyId) else None)
            && Value(inv.options, ApiIssuer) == (if a.apiKeyId != "" then Some(a.apiIssuerId) else None)
            && Value(inv.options, Username) == (if a.apiKeyId == "" then Some(a.appleId) else None)
            && Value(inv.options, Password) == (if a.apiKeyId == "" then Some(a.appSpecificPassword) else None))
  {
    if a.apiKeyId != "" || a.appleId != "" {
      var c := UploadCredential(a).value;
      UploadOption(a, ipaPath, c, UploadType);
      UploadOption(a, ipaPath, c, UploadFile);
      UploadOption(a, ipaPath, c, ApiKey);
      UploadOption(a, ipaPath, c, ApiIssuer);
      UploadOption(a, ipaPath, c, Username);
      UploadOption(a, ipaPath, c, Password);
    }
  }

  lemma UploadOption(a: AppStoreConnectConfig, ipaPath: string, c: Credential, key: Flag)
    ensures Value(UploadInvocation(a, ipaPath, c).options, key)
         == match key
            case UploadType => Some("ios")
            case UploadFile => Some(ipaPath)
            case ApiKey => if c == ApiKeyCredential then Some(a.apiKeyId) else None
            case ApiIssuer => if c == ApiKeyCredential then Some(a.apiIssuerId) else None
            case Username => if c == AppleIdCredential then Some(a.appleId) else None
            case Password => if c == AppleIdCredential then Some(a.appSpecificPassword) else None
            case _ => None
  {
    var auth: seq<(Flag, string)> := match c
      case ApiKeyCredential => [(ApiKey, a.apiKeyId), (ApiIssuer, a.apiIssuerId)]
      case AppleIdCredential => [(Username, a.appleId), (Password, a.appSpecificPassword)];
    ValueAppend([(UploadType, "ios"), (UploadFile, ipaPath)], auth, key);
    ValueAppend([(UploadType, "ios")], [(UploadFile, ipaPath)], key);
    ValueAppend([auth[0]], [auth[1]], key);
    assert [(UploadType, "ios"), (UploadFile, ipaPath)] == [(UploadType, "ios")] + [(UploadFile, ipaPath)];
    assert auth == [auth[0]] + [auth[1]];
  }

  /**
   * `InstallDependencies`: a `Podfile` runs `pod install` whatever else is
   * present; Swift packages run nothing; a `Cartfile` alone runs `carthage
   * update --platform iOS`; an error only ever comes from the one tool run.
   */
  lemma InstallPolicy(h: Host, cwd: string)
    ensures var s := InstallStage(h, cwd);
      && s.artifact == ""
      && (h.ExistsAt(cwd, "Podfile") ==> s.effects == [Exec("pod", ["install"])])
      && (!h.ExistsAt(cwd, "Podfile") && h.ExistsAt(cwd, "Package.swift") ==> s == Stage([], "", None))
      && (!h.ExistsAt(cwd, "Podfile") && !h.ExistsAt(cwd, "Package.swift") && h.ExistsAt(cwd, "Cartfile") ==>
            s.effects == [Exec("carthage", ["update", "--platform", "iOS"])])
      && (!h.ExistsAt(cwd, "Podfile") && !h.ExistsAt(cwd, "Package.swift") && !h.ExistsAt(cwd, "Cartfile") ==> s == Stage([], "", None))
      && (s.err.Some? <==> |s.effects| == 1 && h.Outcome(s.effects[0]).Some?)
  {
  }
}
