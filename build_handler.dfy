/**
 * The build command of handlers/build.go. `HandleBuild` validates the
 * configuration, enters the project directory (restoring the original one
 * on the way out), exports the configured environment variables and then
 * runs either the iOS stage machine or the standard install-and-build
 * sequence. Console output is summarised by the reports the handlers
 * return; the line typed at the upload prompt and the default build
 * command of the language are parameters.
 */
module BuildHandler {
  import opened Wrappers
  import opened GoStrings
  import FilePath
  import opened Host
  import opened Configuration
  import Validator
  import GitAuth
  import opened IOS
  import Runner

  // ---- handleIOSBuild ----

  /** `hasCredentials`: enough App Store Connect credentials to offer an upload. */
  predicate HasCredentials(a: AppStoreConnectConfig) {
    (a.apiKeyId != "" && a.apiIssuerId != "") || a.appleId != ""
  }

  /**
   * What `fmt.Scanln(&response)` stores from the typed line: its first
   * space-separated word, or nothing when the line is blank. Further words
   * make `Scanln` report an error, which the handler ignores.
   */
  function ScannedWord(line: string): (w: string)
    ensures NoSpace(w)
  {
    var t := TrimLeftSpace(line);
    t[..WordLength(t)]
  }

  /** The stored word is the first of the line's `strings.Fields`, or nothing for a blank line. */
  lemma ScannedFirstField(line: string)
    ensures ScannedWord(line) == if Fields(line) == [] then "" else Fields(line)[0]
  {
  }

  /** The line typed at the prompt says yes: the stored word is `y` once trimmed and lower-cased. */
  predicate Confirms(answer: string) {
    ToLower(TrimSpace(ScannedWord(answer))) == "y"
  }

  /** Only the first word of the typed line is read: a word followed by white space is what is stored. */
  lemma ScannedFirstWord(w: string, rest: string)
    requires w != "" && NoSpace(w) && (rest == "" || IsSpace(rest[0]))
    ensures ScannedWord(w + rest) == w
  {
    var s := w + rest;
    assert TrimLeftSpace(s) == s;
    WordLengthOf(w, rest);
    assert s[..|w|] == w;
  }

  /** Typing `y n` confirms the upload, since `Scanln` stores only `y`. */
  lemma YesThenMore()
    ensures Confirms("y n")
  {
    ScannedFirstWord("y", " n");
    assert "y" + " n" == "y n";
    assert TrimLeftSpace("y") == "y";
    assert TrimSpace("y") == "y";
    assert ToLower("y")[0] == 'y';
  }

  /** Typing `n y` declines: the words after the first are never read. */
  lemma NoThenYes()
    ensures !Confirms("n y")
  {
    ScannedFirstWord("n", " y");
    assert "n" + " y" == "n y";
    assert TrimLeftSpace("n") == "n";
    assert TrimSpace("n") == "n";
    assert ToLower("n")[0] == 'n';
  }

  /** How the upload step ends when every earlier stage succeeded. */
  datatype UploadDecision = UploadDisabled | MissingCredentials | Declined | UploadConfirmed

  /** The upload gate: the flag, then the credentials, then the answer. */
  function UploadDecisionOf(i: IOSConfig, a: AppStoreConnectConfig, answer: string): (r: UploadDecision)
    ensures r == UploadConfirmed <==> i.uploadToTestFlight && HasCredentials(a) && Confirms(answer)
  {
    if !i.uploadToTestFlight then UploadDisabled
    else if !HasCredentials(a) then MissingCredentials
    else if !Confirms(answer) then Declined
    else UploadConfirmed
  }

  /** Where the iOS pipeline stopped, with the error or the IPA it produced. */
  datatype IOSOutcome =
    | BuildFailed(err: string)
    | ArchiveFailed(err: string)
    | ExportFailed(err: string)
    | Built(ipaPath: string, decision: UploadDecision, uploadErr: Option<string>)

  /** The effects of a pipeline run, the install warning it printed, and how it ended. */
  datatype IOSRun = IOSRun(effects: seq<Effect>, installWarning: Option<string>, outcome: IOSOutcome)

  /**
   * The stage machine of `handleIOSBuild` over the stages' results: install
   * (a failure only warns), build, archive, export (each failure ends the
   * run), then the upload when the gate's decision lets it through.
   */
  function Pipeline(install: Stage, build: Stage, archive: Stage, exportRun: Stage,
                    decision: UploadDecision, upload: Stage): IOSRun
  {
    var built := install.effects + build.effects;
    if build.err.Some? then IOSRun(built, install.err, BuildFailed(build.err.value))
    else
      var archived := built + archive.effects;
      if archive.err.Some? then IOSRun(archived, install.err, ArchiveFailed(archive.err.value))
      else
        var exported := archived + exportRun.effects;
        if exportRun.err.Some? then IOSRun(exported, install.err, ExportFailed(exportRun.err.value))
        else if decision != UploadConfirmed then IOSRun(exported, install.err, Built(exportRun.artifact, decision, None))
        else IOSRun(exported + upload.effects, install.err, Built(exportRun.artifact, decision, upload.err))
  }

  /** The targets `detectPaths` finds in directory `cwd`. */
  function DetectedIn(i: IOSConfig, h: Host, cwd: string): Paths {
    Detected(i, h.GlobAt(cwd, WorkspaceSuffix), h.GlobAt(cwd, ProjectSuffix))
  }

  /** `handleIOSBuild` in directory `cwd` with environment `env`: the archive feeds the export, the export the upload. */
  function IOSPipeline(i: IOSConfig, a: AppStoreConnectConfig, name: string, h: Host, cwd: string,
                       env: map<string, string>, answer: string): IOSRun
  {
    var p := DetectedIn(i, h, cwd);
    var archive := ArchiveStage(i, p, h, cwd, env);
    var exportRun := ExportStage(i, a, name, archive.artifact, h, cwd);
    Pipeline(InstallStage(h, cwd), BuildStage(i, p, h), archive, exportRun,
             UploadDecisionOf(i, a, answer), UploadStage(a, exportRun.artifact, h))
  }

  /** `handleIOSBuild`, with `answer` the line typed at the upload prompt. */
  method HandleIOSBuild(c: Config, h: Host, answer: string) returns (installWarning: Option<string>, outcome: IOSOutcome)
    modifies h`trace
    ensures var run := IOSPipeline(c.ios, c.appStoreConnect, c.project.name, h, h.cwd, h.env, answer);
      h.trace == old(h.trace) + run.effects && installWarning == run.installWarning && outcome == run.outcome
  {
    ghost var t0 := h.trace;
    var builder := new IOSBuilder(c, h);
    ghost var p := builder.PathsOf();
    assert p == DetectedIn(c.ios, h, h.cwd);
    installWarning := builder.InstallDependencies(h);
    ghost var install := InstallStage(h, h.cwd);
    var err := builder.Build(h);
    ghost var build := BuildStage(c.ios, p, h);
    AppendAssoc(t0, install.effects, build.effects);
    ghost var built := install.effects + build.effects;
    if err.Some? {
      return installWarning, BuildFailed(err.value);
    }
    var archivePath;
    archivePath, err := builder.Archive(h);
    ghost var archive := ArchiveStage(c.ios, p, h, h.cwd, h.env);
    AppendAssoc(t0, built, archive.effects);
    ghost var archived := built + archive.effects;
    if err.Some? {
      return installWarning, ArchiveFailed(err.value);
    }
    var ipaPath;
    ipaPath, err := builder.ExportIPA(h, archivePath);
    ghost var exportRun := ExportStage(c.ios, c.appStoreConnect, c.project.name, archivePath, h, h.cwd);
    AppendAssoc(t0, archived, exportRun.effects);
    if err.Some? {
      return installWarning, ExportFailed(err.value);
    }
    var decision;
    decision, err := OfferUpload(builder, h, ipaPath, answer);
    ghost var exported := archived + exportRun.effects;
    if decision == UploadConfirmed {
      AppendAssoc(t0, exported, UploadStage(c.appStoreConnect, ipaPath, h).effects);
      assert h.trace == t0 + (exported + UploadStage(c.appStoreConnect, ipaPath, h).effects);
    } else {
      assert h.trace == t0 + exported;
    }
    outcome := Built(ipaPath, decision, err);
  }

  /** Step 5 of `handleIOSBuild`: the upload gate, then the upload itself when it lets it through. */
  method OfferUpload(builder: IOSBuilder, h: Host, ipaPath: string, answer: string)
    returns (decision: UploadDecision, err: Option<string>)
    modifies h`trace
    ensures decision == UploadDecisionOf(builder.config.ios, builder.config.appStoreConnect, answer)
    ensures decision == UploadConfirmed ==>
      var upload := UploadStage(builder.config.appStoreConnect, ipaPath, h);
      h.trace == old(h.trace) + upload.effects && err == upload.err
    ensures decision != UploadConfirmed ==> h.trace == old(h.trace) + [] && err.None?
  {
    var a := builder.config.appStoreConnect;
    if !builder.config.ios.uploadToTestFlight {
      return UploadDisabled, None;
    }
    var hasCredentials := (a.apiKeyId != "" && a.apiIssuerId != "") || a.appleId != "";
    if !hasCredentials {
      return MissingCredentials, None;
    }
    var response := ScannedWord(answer);
    if ToLower(TrimSpace(response)) != "y" {
      return Declined, None;
    }
    err := builder.UploadToTestFlight(h, ipaPath);
    return UploadConfirmed, err;
  }

  // ---- handleStandardBuild ----

  /** What `RunCommand` does: nothing but an error for a blank command, else one process. */
  function CommandStage(h: Host, command: string): (r: Stage)
    ensures r.artifact == ""
  {
    match Runner.CommandExec(command)
    case None => Stage([], "", Some("empty command"))
    case Some(e) => Stage([e], "", h.Outcome(e))
  }

  /** What `AutoInstallDependencies` does in directory `cwd`. */
  function AutoInstallStage(h: Host, cwd: string, language: string): (r: Stage)
    ensures r.artifact == ""
  {
    match Runner.InstallCommand(language, h, cwd)
    case Err(msg) => Stage([], "", Some(msg))
    case Ok(None) => Stage([], "", None)
    case Ok(Some(command)) => CommandStage(h, command)
  }

  datatype StandardOutcome = InstallFailed(err: string) | BuildCommandFailed(err: string) | StandardBuilt

  datatype StandardRun = StandardRun(effects: seq<Effect>, installWarning: Option<string>, outcome: StandardOutcome)

  /** The build command run: the configured one, else the language's default. */
  function BuildCommandOf(b: BuildConfig, defaultBuildCommand: string): string {
    if b.buildCommand == "" then defaultBuildCommand else b.buildCommand
  }

  /**
   * `handleStandardBuild` in directory `cwd`: the configured install command
   * (its failure ends the run) or the automatic install (its failure only
   * warns), then the build command.
   */
  function StandardPipeline(b: BuildConfig, h: Host, cwd: string, defaultBuildCommand: string): StandardRun {
    var explicit := b.installCommand != "";
    var install := if explicit then CommandStage(h, b.installCommand) else AutoInstallStage(h, cwd, b.language);
    if explicit && install.err.Some? then StandardRun(install.effects, None, InstallFailed(install.err.value))
    else
      var build := CommandStage(h, BuildCommandOf(b, defaultBuildCommand));
      StandardRun(install.effects + build.effects, if explicit then None else install.err,
                  if build.err.Some? then BuildCommandFailed(build.err.value) else StandardBuilt)
  }

  /** `handleStandardBuild`, with `defaultBuildCommand` what `GetDefaultBuildCommand` gives for the language. */
  method HandleStandardBuild(c: Config, h: Host, defaultBuildCommand: string)
    returns (installWarning: Option<string>, outcome: StandardOutcome)
    modifies h`trace
    ensures var run := StandardPipeline(c.build, h, h.cwd, defaultBuildCommand);
      h.trace == old(h.trace) + run.effects && installWarning == run.installWarning && outcome == run.outcome
  {
    ghost var t0 := h.trace;
    ghost var install := if c.build.installCommand != "" then CommandStage(h, c.build.installCommand)
                         else AutoInstallStage(h, h.cwd, c.build.language);
    installWarning := None;
    if c.build.installCommand != "" {
      var err := Runner.RunCommand(h, c.build.installCommand);
      if err.Some? {
        return None, InstallFailed(err.value);
      }
    } else {
      installWarning := Runner.AutoInstallDependencies(h, c.build.language);
    }
    assert h.trace == t0 + install.effects;
    var buildCommand := c.build.buildCommand;
    if buildCommand == "" {
      buildCommand := defaultBuildCommand;
    }
    var err := Runner.RunCommand(h, buildCommand);
    AppendAssoc(t0, install.effects, CommandStage(h, buildCommand).effects);
    if err.Some? {
      return installWarning, BuildCommandFailed(err.value);
    }
    return installWarning, StandardBuilt;
  }

  // ---- HandleBuild ----

  /** How `HandleBuild` ended: an early abort, or the report of the pipeline it ran. */
  datatype BuildReport =
    | ValidationFailed(err: string)
    | NoProjectDirectory
    | ProjectDirectoryMissing(path: string)
    | ChdirFailed(err: string)
    | IOSBuild(installWarning: Option<string>, iosOutcome: IOSOutcome)
    | StandardBuild(installWarning: Option<string>, standardOutcome: StandardOutcome)

  /** `fullProjectPath`: the directory name joined onto the original directory, unless it is absolute. */
  function ProjectPath(originalDir: string, projectDir: string): string {
    if FilePath.IsAbs(projectDir) then projectDir else FilePath.Join(originalDir, projectDir)
  }

  /** The effects of the environment loop: one `os.Setenv` per variable, each once, in some order. */
  predicate SetsAll(effects: seq<Effect>, vars: map<string, string>) {
    SetsSome(effects, vars, vars.Keys)
  }

  /** One `os.Setenv` for each of the variables `done`, and nothing else. */
  predicate SetsSome(effects: seq<Effect>, vars: map<string, string>, done: set<string>) {
    && |effects| == |done|
    && (forall e :: e in effects ==> e.SetEnv? && e.key in done && e.key in vars && vars[e.key] == e.value)
    && (forall k :: k in done ==> k in vars && SetEnv(k, vars[k]) in effects)
  }

  /** The pipeline the language selects, run in directory `cwd` with environment `env`. */
  function Dispatched(b: BuildConfig, i: IOSConfig, a: AppStoreConnectConfig, name: string, h: Host, cwd: string,
                      env: map<string, string>, answer: string, defaultBuildCommand: string): (r: (seq<Effect>, BuildReport))
    ensures r.1.IOSBuild? <==> IsIOSLanguage(b.language)
    ensures r.1.StandardBuild? <==> !IsIOSLanguage(b.language)
  {
    if IsIOSLanguage(b.language) then
      var run := IOSPipeline(i, a, name, h, cwd, env, answer);
      (run.effects, IOSBuild(run.installWarning, run.outcome))
    else
      var run := StandardPipeline(b, h, cwd, defaultBuildCommand);
      (run.effects, StandardBuild(run.installWarning, run.outcome))
  }

  /**
   * `HandleBuild` on a loaded configuration. The aborts before the `chdir`
   * leave the host as it was; after a successful `chdir` the run is the
   * environment loop, the selected pipeline in the project directory with
   * the new environment, and the deferred `chdir` back to the original
   * directory, whatever the pipeline's outcome.
   */
  method HandleBuild(c: Config, h: Host, answer: string, defaultBuildCommand: string)
    returns (report: BuildReport, ghost sets: seq<Effect>)
    modifies h`trace, h`cwd, h`env
    ensures var invalid := old(Validator.ValidationError(c.git, c.project, c.build, c.ios, c.appStoreConnect, h));
      var dir := GitAuth.GetProjectDirName(c.git.repoUrl);
      var full := ProjectPath(old(h.cwd), dir);
      var project := AbsFrom(old(h.cwd), full);
      && (invalid.Some? ==> report == ValidationFailed(invalid.value))
      && (invalid.None? && dir == "" ==> report == NoProjectDirectory)
      && (invalid.None? && dir != "" && !h.ExistsAt(old(h.cwd), full) ==> report == ProjectDirectoryMissing(full))
      && (invalid.None? && dir != "" && h.ExistsAt(old(h.cwd), full) && h.Outcome(ChangeDir(project)).Some? ==>
            report == ChdirFailed(h.Outcome(ChangeDir(project)).value))
      && (report.ValidationFailed? || report.NoProjectDirectory? || report.ProjectDirectoryMissing? ==>
            h.trace == old(h.trace) && h.cwd == old(h.cwd) && h.env == old(h.env))
      && (report.ChdirFailed? ==>
            h.trace == old(h.trace) + [ChangeDir(project)] && h.cwd == old(h.cwd) && h.env == old(h.env))
      && (invalid.None? && dir != "" && h.ExistsAt(old(h.cwd), full) && h.Outcome(ChangeDir(project)).None? ==>
            Entered(c, h, old(h.trace), old(h.cwd), old(h.env), project, answer, defaultBuildCommand, sets, report))
  {
    var err := Validator.Validate(c, h);
    if err.Some? {
      return ValidationFailed(err.value), [];
    }
    var projectDir := GitAuth.GetProjectDirName(c.git.repoUrl);
    if projectDir == "" {
      return NoProjectDirectory, [];
    }
    var originalDir := h.cwd;
    var fullProjectPath := projectDir;
    if !FilePath.IsAbs(projectDir) {
      fullProjectPath := FilePath.Join(originalDir, projectDir);
    }
    if !h.Exists(fullProjectPath) {
      return ProjectDirectoryMissing(fullProjectPath), [];
    }
    err := h.Chdir(fullProjectPath);
    if err.Some? {
      return ChdirFailed(err.value), [];
    }
    report, sets := BuildInProject(c, h, answer, defaultBuildCommand, originalDir);
  }

  /**
   * The part of `HandleBuild` after entering the project directory: the
   * environment loop, the pipeline of the language, and the deferred
   * `chdir` back to `originalDir`.
   */
  method BuildInProject(c: Config, h: Host, answer: string, defaultBuildCommand: string, originalDir: string)
    returns (report: BuildReport, ghost sets: seq<Effect>)
    modifies h`trace, h`cwd, h`env
    ensures var d := Dispatched(c.build, c.ios, c.appStoreConnect, c.project.name, h, old(h.cwd),
                                old(h.env) + Settable(c.variables), answer, defaultBuildCommand);
      var back := ChangeDir(AbsFrom(old(h.cwd), originalDir));
      && SetsAll(sets, c.variables) && |sets| == |c.variables|
      && h.trace == old(h.trace) + sets + d.0 + [back]
      && report == d.1
      && h.env == old(h.env) + Settable(c.variables)
      && h.cwd == (if h.Outcome(back).None? then AbsFrom(old(h.cwd), originalDir) else old(h.cwd))
  {
    ghost var t1 := h.trace;
    sets := ExportVariables(c.variables, h);
    ghost var d := Dispatched(c.build, c.ios, c.appStoreConnect, c.project.name, h, h.cwd, h.env,
                              answer, defaultBuildCommand);
    report := RunDispatched(c, h, answer, defaultBuildCommand);
    AppendAssoc(t1, sets, d.0);
    ghost var t2 := h.trace;
    assert t2 == old(h.trace) + sets + d.0;
    assert h.cwd == old(h.cwd);
    var _ := h.Chdir(originalDir);
    assert h.trace == t2 + [ChangeDir(AbsFrom(old(h.cwd), originalDir))];
  }

  /** The language switch of `HandleBuild`: the iOS pipeline for Swift and Objective-C, the standard one otherwise. */
  method RunDispatched(c: Config, h: Host, answer: string, defaultBuildCommand: string) returns (report: BuildReport)
    modifies h`trace
    ensures var d := Dispatched(c.build, c.ios, c.appStoreConnect, c.project.name, h, h.cwd, h.env,
                                answer, defaultBuildCommand);
      h.trace == old(h.trace) + d.0 && report == d.1
  {
    if IsIOSLanguage(c.build.language) {
      ghost var run := IOSPipeline(c.ios, c.appStoreConnect, c.project.name, h, h.cwd, h.env, answer);
      var warning, outcome := HandleIOSBuild(c, h, answer);
      report := IOSBuild(warning, outcome);
    } else {
      ghost var run := StandardPipeline(c.build, h, h.cwd, defaultBuildCommand);
      var warning, outcome := HandleStandardBuild(c, h, defaultBuildCommand);
      report := StandardBuild(warning, outcome);
    }
  }

  /**
   * The run after entering `project` from `original`: the trace grew by the
   * `chdir`, one `os.Setenv` per variable, the dispatched pipeline and the
   * `chdir` back; the environment holds the variables `os.Setenv` accepts; the working
   * directory is the original one again unless that last `chdir` failed.
   */
  ghost predicate Entered(c: Config, h: Host, trace0: seq<Effect>, original: string, env0: map<string, string>,
                          project: string, answer: string, defaultBuildCommand: string, sets: seq<Effect>,
                          report: BuildReport)
    reads c, h
  {
    var d := Dispatched(c.build, c.ios, c.appStoreConnect, c.project.name, h, project, env0 + Settable(c.variables),
                        answer, defaultBuildCommand);
    var back := ChangeDir(AbsFrom(project, original));
    && report == d.1
    && SetsAll(sets, c.variables) && |sets| == |c.variables|
    && h.trace == trace0 + [ChangeDir(project)] + sets + d.0 + [back]
    && h.env == env0 + Settable(c.variables)
    && h.cwd == (if h.Outcome(back).None? then AbsFrom(project, original) else project)
  }

  /**
   * The environment loop of `HandleBuild`: `os.Setenv` for every variable,
   * in map order, its error ignored, so a refused pair is simply not set.
   */
  method ExportVariables(vars: map<string, string>, h: Host) returns (ghost exported: seq<Effect>)
    modifies h`trace, h`env
    ensures h.env == old(h.env) + Settable(vars)
    ensures h.trace == old(h.trace) + exported && |exported| == |vars| && SetsAll(exported, vars)
  {
    var remaining := vars.Keys;
    ghost var done: set<string> := {};
    exported := [];
    while remaining != {}
      invariant done !! remaining && done + remaining == vars.Keys
      invariant h.env == Overlay(old(h.env), vars, done)
      invariant h.trace == old(h.trace) + exported
      invariant SetsSome(exported, vars, done)
      decreases |remaining|
    {
      var k :| k in remaining;
      SetsStep(exported, vars, done, k);
      OverlayStep(old(h.env), vars, done, k);
      AppendAssoc(old(h.trace), exported, [SetEnv(k, vars[k])]);
      var _ := h.Setenv(k, vars[k]);
      exported := exported + [SetEnv(k, vars[k])];
      done := done + {k};
      remaining := remaining - {k};
    }
    OverlayAll(old(h.env), vars, done);
    assert |vars.Keys| == |vars|;
  }

  /** The environment once `os.Setenv` has been called for the variables `done`. */
  function Overlay(env: map<string, string>, vars: map<string, string>, done: set<string>): map<string, string>
    requires done <= vars.Keys
  {
    env + map k | k in done && SettableEnv(k, vars[k]) :: vars[k]
  }

  lemma SetsStep(effects: seq<Effect>, vars: map<string, string>, done: set<string>, k: string)
    requires SetsSome(effects, vars, done) && k in vars && k !in done
    ensures SetsSome(effects + [SetEnv(k, vars[k])], vars, done + {k})
  {
    assert |done + {k}| == |done| + 1;
  }

  lemma OverlayStep(env: map<string, string>, vars: map<string, string>, done: set<string>, k: string)
    requires done <= vars.Keys && k in vars
    ensures (if SettableEnv(k, vars[k]) then Overlay(env, vars, done)[k := vars[k]] else Overlay(env, vars, done))
            == Overlay(env, vars, done + {k})
  {
  }

  lemma OverlayAll(env: map<string, string>, vars: map<string, string>, done: set<string>)
    requires done == vars.Keys
    ensures Overlay(env, vars, done) == env + Settable(vars)
  {
  }

  // ---- Lemmas ----

  /** Some effect runs `program`. */
  predicate Runs(effects: seq<Effect>, program: string) {
    exists e :: e in effects && e.Exec? && e.program == program
  }

  lemma RunsAppend(a: seq<Effect>, b: seq<Effect>, program: string)
    ensures Runs(a + b, program) <==> Runs(a, program) || Runs(b, program)
  {
    if Runs(a + b, program) {
      var e :| e in a + b && e.Exec? && e.program == program;
      assert e in a || e in b;
    }
    if Runs(a, program) {
      var e :| e in a && e.Exec? && e.program == program;
      assert e in a + b;
    }
    if Runs(b, program) {
      var e :| e in b && e.Exec? && e.program == program;
      assert e in a + b;
    }
  }

  /**
   * A failed install only warns: its error is the warning and the build
   * stage runs after it all the same; the build alone decides whether the
   * run stops there. A failed build, archive or export ends the run with
   * that stage's effects, so no later stage runs.
   */
  lemma PipelineStages(install: Stage, build: Stage, archive: Stage, exportRun: Stage,
                       decision: UploadDecision, upload: Stage)
    ensures var run := Pipeline(install, build, archive, exportRun, decision, upload);
      var built := install.effects + build.effects;
      && run.installWarning == install.err
      && built <= run.effects
      && (run.outcome.BuildFailed? <==> build.err.Some?)
      && (run.outcome.BuildFailed? ==> run.effects == built)
      && (run.outcome.ArchiveFailed? <==> build.err.None? && archive.err.Some?)
      && (run.outcome.ArchiveFailed? ==> run.effects == built + archive.effects)
      && (run.outcome.ExportFailed? <==> build.err.None? && archive.err.None? && exportRun.err.Some?)
      && (run.outcome.ExportFailed? ==> run.effects == built + archive.effects + exportRun.effects)
      && (run.outcome.Built? <==> build.err.None? && archive.err.None? && exportRun.err.None?)
  {
    var run := Pipeline(install, build, archive, exportRun, decision, upload);
    if build.err.None? && archive.err.None? && exportRun.err.None? && decision == UploadConfirmed {
      assert install.effects + build.effects + archive.effects + exportRun.effects + upload.effects
          == install.effects + build.effects + (archive.effects + exportRun.effects + upload.effects);
    } else if build.err.None? && archive.err.None? {
      assert install.effects + build.effects + archive.effects + exportRun.effects
          == install.effects + build.effects + (archive.effects + exportRun.effects);
    }
  }

  /**
   * When no stage before the upload runs `xcrun` and the upload stage does,
   * `xcrun` runs exactly when every stage succeeded and the decision was to
   * upload.
   */
  lemma PipelineUploads(install: Stage, build: Stage, archive: Stage, exportRun: Stage,
                        decision: UploadDecision, upload: Stage)
    requires !Runs(install.effects, "xcrun") && !Runs(build.effects, "xcrun")
    requires !Runs(archive.effects, "xcrun") && !Runs(exportRun.effects, "xcrun")
    ensures var run := Pipeline(install, build, archive, exportRun, decision, upload);
      Runs(run.effects, "xcrun") <==> run.outcome.Built? && decision == UploadConfirmed && Runs(upload.effects, "xcrun")
  {
    var built := install.effects + build.effects;
    RunsAppend(install.effects, build.effects, "xcrun");
    RunsAppend(built, archive.effects, "xcrun");
    RunsAppend(built + archive.effects, exportRun.effects, "xcrun");
    RunsAppend(built + archive.effects + exportRun.effects, upload.effects, "xcrun");
  }

  lemma InstallNoUpload(h: Host, cwd: string)
    ensures !Runs(InstallStage(h, cwd).effects, "xcrun")
  {
  }

  lemma BuildNoUpload(i: IOSConfig, p: Paths, h: Host)
    ensures !Runs(BuildStage(i, p, h).effects, "xcrun")
  {
  }

  lemma ArchiveNoUpload(i: IOSConfig, p: Paths, h: Host, cwd: string, env: map<string, string>)
    ensures !Runs(ArchiveStage(i, p, h, cwd, env).effects, "xcrun")
  {
  }

  lemma ExportNoUpload(i: IOSConfig, a: AppStoreConnectConfig, name: string, archivePath: string, h: Host, cwd: string)
    ensures !Runs(ExportStage(i, a, name, archivePath, h, cwd).effects, "xcrun")
  {
  }

  /** With credentials at hand the upload stage runs `xcrun`. */
  lemma UploadRuns(a: AppStoreConnectConfig, ipaPath: string, h: Host)
    requires HasCredentials(a)
    ensures Runs(UploadStage(a, ipaPath, h).effects, "xcrun")
  {
    var e := Exec("xcrun", Argv(UploadInvocation(a, ipaPath, UploadCredential(a).value)));
    assert e in UploadStage(a, ipaPath, h).effects;
  }

  /**
   * The upload gate of `handleIOSBuild`: `xcrun` runs exactly when every
   * stage succeeded, the upload flag is set, credentials are present and
   * the answer is yes.
   */
  lemma UploadGate(i: IOSConfig, a: AppStoreConnectConfig, name: string, h: Host, cwd: string,
                   env: map<string, string>, answer: string)
    ensures var run := IOSPipeline(i, a, name, h, cwd, env, answer);
      Runs(run.effects, "xcrun") <==>
        run.outcome.Built? && i.uploadToTestFlight && HasCredentials(a) && Confirms(answer)
  {
    var p := DetectedIn(i, h, cwd);
    var archive := ArchiveStage(i, p, h, cwd, env);
    var exportRun := ExportStage(i, a, name, archive.artifact, h, cwd);
    InstallNoUpload(h, cwd);
    BuildNoUpload(i, p, h);
    ArchiveNoUpload(i, p, h, cwd, env);
    ExportNoUpload(i, a, name, archive.artifact, h, cwd);
    PipelineUploads(InstallStage(h, cwd), BuildStage(i, p, h), archive, exportRun,
                    UploadDecisionOf(i, a, answer), UploadStage(a, exportRun.artifact, h));
    if HasCredentials(a) {
      UploadRuns(a, exportRun.artifact, h);
    }
  }

  /**
   * Artifacts pass from stage to stage: a completed run archived to
   * `ArchivePathOf`, exported exactly that archive, reports the IPA the
   * export found, and uploads exactly that IPA.
   */
  lemma ArtifactHandOff(i: IOSConfig, a: AppStoreConnectConfig, name: string, h: Host, cwd: string,
                        env: map<string, string>, answer: string)
    ensures var run := IOSPipeline(i, a, name, h, cwd, env, answer);
      var archivePath := ArchivePathOf(i, env);
      var exportPath := ExportPathOf(i, cwd);
      run.outcome.Built? ==>
        && ArchiveStage(i, DetectedIn(i, h, cwd), h, cwd, env).artifact == archivePath
        && run.outcome.ipaPath == ExportStage(i, a, name, archivePath, h, cwd).artifact
        && run.outcome.ipaPath != ""
        && Exec("xcodebuild", Argv(ExportInvocation(archivePath, exportPath,
                                                   FilePath.Join(exportPath, "ExportOptions.plist")))) in run.effects
        && (run.outcome.decision == UploadConfirmed ==>
              Exec("xcrun", Argv(UploadInvocation(a, run.outcome.ipaPath, UploadCredential(a).value))) in run.effects)
  {
    var run := IOSPipeline(i, a, name, h, cwd, env, answer);
    var p := DetectedIn(i, h, cwd);
    var archive := ArchiveStage(i, p, h, cwd, env);
    var exportRun := ExportStage(i, a, name, archive.artifact, h, cwd);
    var upload := UploadStage(a, exportRun.artifact, h);
    var decision := UploadDecisionOf(i, a, answer);
    PipelineStages(InstallStage(h, cwd), BuildStage(i, p, h), archive, exportRun, decision, upload);
    if run.outcome.Built? {
      ArchiveResult(i, p, h, cwd, env);
      ExportResult(i, a, name, ArchivePathOf(i, env), h, cwd);
      var prefix := InstallStage(h, cwd).effects + BuildStage(i, p, h).effects + archive.effects;
      if decision == UploadConfirmed {
        assert run.effects == prefix + exportRun.effects + upload.effects;
      } else {
        assert run.effects == prefix + exportRun.effects;
      }
    }
  }

  /**
   * Validation guards the upload: once the configuration of an iOS project
   * with the upload enabled has validated, the handler sees credentials and
   * the upload never takes its no-credentials branch.
   */
  lemma ValidatedUploadHasCredentials(g: GitConfig, p: ProjectConfig, b: BuildConfig, i: IOSConfig,
                                      a: AppStoreConnectConfig, h: Host, ipaPath: string)
    requires Validator.ValidationError(g, p, b, i, a, h).None?
    requires IsIOSLanguage(b.language) && i.uploadToTestFlight
    ensures HasCredentials(a)
    ensures UploadCredential(a).Some?
    ensures |UploadStage(a, ipaPath, h).effects| == 1
    ensures UploadStage(a, ipaPath, h).err != Some(NoCredentialsMessage)
  {
    assert Validator.IOSValid(i, a, h);
    var stage := UploadStage(a, ipaPath, h);
    if stage.err.Some? {
      assert stage.err.value[0] == 'T';
      assert NoCredentialsMessage[0] == 'n';
    }
  }

  /**
   * The standard install policy: an explicit install command that fails ends
   * the run before the build command, an automatic install only warns, and
   * otherwise the build command runs after the install.
   */
  lemma StandardInstallPolicy(b: BuildConfig, h: Host, cwd: string, defaultBuildCommand: string)
    ensures var run := StandardPipeline(b, h, cwd, defaultBuildCommand);
      var explicit := b.installCommand != "";
      var install := if explicit then CommandStage(h, b.installCommand) else AutoInstallStage(h, cwd, b.language);
      && (run.outcome.InstallFailed? <==> explicit && install.err.Some?)
      && (run.outcome.InstallFailed? ==> run.effects == install.effects)
      && run.installWarning == (if explicit then None else install.err)
      && (!run.outcome.InstallFailed? ==>
            run.effects == install.effects + CommandStage(h, BuildCommandOf(b, defaultBuildCommand)).effects
            && (run.outcome.BuildCommandFailed? <==> CommandStage(h, BuildCommandOf(b, defaultBuildCommand)).err.Some?))
  {
  }

  /**
   * The project directory: a named directory is joined onto the (absolute)
   * original directory, so the handler enters `original/dir` and the
   * deferred `chdir` goes back to exactly `original`.
   */
  lemma ProjectDirectory(originalDir: string, repoUrl: string)
    requires FilePath.IsAbs(originalDir)
    ensures var dir := GitAuth.GetProjectDirName(repoUrl);
      var full := ProjectPath(originalDir, dir);
      dir != "" ==>
        && full == FilePath.Join(originalDir, dir)
        && FilePath.IsAbs(full) && FilePath.Dir(full) == originalDir && FilePath.Base(full) == dir
        && AbsFrom(originalDir, full) == full
        && AbsFrom(full, originalDir) == originalDir
  {
    var dir := GitAuth.GetProjectDirName(repoUrl);
    if dir != "" {
      assert dir[0] in dir;
      assert !FilePath.IsAbs(dir);
      FilePath.JoinAbs(originalDir, dir);
      FilePath.DirJoin(originalDir, dir);
    }
  }
}
