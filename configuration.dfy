/**
 * The configuration of config/config.go: one record per section, and the
 * `Config` object whose `ExpandPaths` rewrites every string field and every
 * environment-variable value in place with `ExpandEnvVars`.
 */
module Configuration {
  import opened Expand

  datatype GitConfig = GitConfig(
    provider: string, repoUrl: string, authType: string, userName: string,
    password: string, branch: string, token: string, sshKeyPath: string)

  datatype ProjectConfig = ProjectConfig(name: string, projectType: string, description: string)

  datatype BuildConfig = BuildConfig(
    language: string, installCommand: string, buildCommand: string,
    testCommand: string, outputDir: string)

  datatype AzureConfig = AzureConfig(
    subscriptionId: string, resourceGroup: string, appName: string,
    deploymentType: string, region: string)

  datatype IOSConfig = IOSConfig(
    workspacePath: string, projectPath: string, scheme: string, configuration: string,
    sdk: string, exportMethod: string, bundleId: string, teamId: string,
    provisioningProfile: string, codeSignIdentity: string, automaticSigning: bool,
    archivePath: string, exportPath: string, uploadToTestFlight: bool)

  datatype AppStoreConnectConfig = AppStoreConnectConfig(
    appleId: string, appSpecificPassword: string, apiKeyId: string,
    apiIssuerId: string, apiKeyPath: string, teamId: string)

  /** The languages that select the iOS pipeline and the iOS checks. */
  predicate IsIOSLanguage(language: string) {
    language == "swift" || language == "objective-c" || language == "objc"
  }

  /** Text that variable and tilde expansion leave alone. */
  predicate Plain(s: string) {
    '$' !in s && '~' !in s
  }

  function ExpandedGit(g: GitConfig, env: map<string, string>): GitConfig {
    GitConfig(ExpandEnvVars(g.provider, env), ExpandEnvVars(g.repoUrl, env), ExpandEnvVars(g.authType, env),
              ExpandEnvVars(g.userName, env), ExpandEnvVars(g.password, env), ExpandEnvVars(g.branch, env),
              ExpandEnvVars(g.token, env), ExpandEnvVars(g.sshKeyPath, env))
  }

  function ExpandedProject(p: ProjectConfig, env: map<string, string>): ProjectConfig {
    ProjectConfig(ExpandEnvVars(p.name, env), ExpandEnvVars(p.projectType, env), ExpandEnvVars(p.description, env))
  }

  function ExpandedBuild(b: BuildConfig, env: map<string, string>): BuildConfig {
    BuildConfig(ExpandEnvVars(b.language, env), ExpandEnvVars(b.installCommand, env),
                ExpandEnvVars(b.buildCommand, env), ExpandEnvVars(b.testCommand, env),
                ExpandEnvVars(b.outputDir, env))
  }

  function ExpandedAzure(a: AzureConfig, env: map<string, string>): AzureConfig {
    AzureConfig(ExpandEnvVars(a.subscriptionId, env), ExpandEnvVars(a.resourceGroup, env),
                ExpandEnvVars(a.appName, env), ExpandEnvVars(a.deploymentType, env), ExpandEnvVars(a.region, env))
  }

  /** The iOS section with every string field expanded; the two flags are kept. */
  function ExpandedIOS(i: IOSConfig, env: map<string, string>): IOSConfig {
    IOSConfig(ExpandEnvVars(i.workspacePath, env), ExpandEnvVars(i.projectPath, env), ExpandEnvVars(i.scheme, env),
              ExpandEnvVars(i.configuration, env), ExpandEnvVars(i.sdk, env), ExpandEnvVars(i.exportMethod, env),
              ExpandEnvVars(i.bundleId, env), ExpandEnvVars(i.teamId, env),
              ExpandEnvVars(i.provisioningProfile, env), ExpandEnvVars(i.codeSignIdentity, env),
              i.automaticSigning, ExpandEnvVars(i.archivePath, env), ExpandEnvVars(i.exportPath, env),
              i.uploadToTestFlight)
  }

  function ExpandedAppStoreConnect(a: AppStoreConnectConfig, env: map<string, string>): AppStoreConnectConfig {
    AppStoreConnectConfig(ExpandEnvVars(a.appleId, env), ExpandEnvVars(a.appSpecificPassword, env),
                          ExpandEnvVars(a.apiKeyId, env), ExpandEnvVars(a.apiIssuerId, env),
                          ExpandEnvVars(a.apiKeyPath, env), ExpandEnvVars(a.teamId, env))
  }

  /** A loaded configuration file (`*config.Config`). */
  class Config {
    var git: GitConfig
    var project: ProjectConfig
    var build: BuildConfig
    var ios: IOSConfig
    var appStoreConnect: AppStoreConnectConfig
    var azure: AzureConfig
    /** `Environment.Variables`. */
    var variables: map<string, string>

    constructor (git: GitConfig, project: ProjectConfig, build: BuildConfig, ios: IOSConfig,
                 appStoreConnect: AppStoreConnectConfig, azure: AzureConfig, variables: map<string, string>)
      ensures this.git == git && this.project == project && this.build == build && this.ios == ios
      ensures this.appStoreConnect == appStoreConnect && this.azure == azure && this.variables == variables
    {
      this.git := git;
      this.project := project;
      this.build := build;
      this.ios := ios;
      this.appStoreConnect := appStoreConnect;
      this.azure := azure;
      this.variables := variables;
    }

    /**
     * `ExpandPaths`, with `env` the process environment: every string field
     * becomes `ExpandEnvVars` of its old value, the variable map keeps its
     * keys and has each value expanded, and the boolean flags stay.
     */
    method ExpandPaths(env: map<string, string>)
      modifies this
      ensures git == ExpandedGit(old(git), env)
      ensures project == ExpandedProject(old(project), env)
      ensures build == ExpandedBuild(old(build), env)
      ensures azure == ExpandedAzure(old(azure), env)
      ensures ios == ExpandedIOS(old(ios), env)
      ensures ios.automaticSigning == old(ios.automaticSigning)
      ensures ios.uploadToTestFlight == old(ios.uploadToTestFlight)
      ensures appStoreConnect == ExpandedAppStoreConnect(old(appStoreConnect), env)
      ensures variables.Keys == old(variables).Keys
      ensures forall k :: k in variables ==> variables[k] == ExpandEnvVars(old(variables)[k], env)
    {
      var g := git;
      g := g.(provider := ExpandEnvVars(g.provider, env));
      g := g.(repoUrl := ExpandEnvVars(g.repoUrl, env));
      g := g.(authType := ExpandEnvVars(g.authType, env));
      g := g.(userName := ExpandEnvVars(g.userName, env));
      g := g.(password := ExpandEnvVars(g.password, env));
      g := g.(branch := ExpandEnvVars(g.branch, env));
      g := g.(token := ExpandEnvVars(g.token, env));
      g := g.(sshKeyPath := ExpandEnvVars(g.sshKeyPath, env));
      git := g;

      var p := project;
      p := p.(name := ExpandEnvVars(p.name, env));
      p := p.(projectType := ExpandEnvVars(p.projectType, env));
      p := p.(description := ExpandEnvVars(p.description, env));
      project := p;

      var b := build;
      b := b.(language := ExpandEnvVars(b.language, env));
      b := b.(installCommand := ExpandEnvVars(b.installCommand, env));
      b := b.(buildCommand := ExpandEnvVars(b.buildCommand, env));
      b := b.(testCommand := ExpandEnvVars(b.testCommand, env));
      b := b.(outputDir := ExpandEnvVars(b.outputDir, env));
      build := b;

      var a := azure;
      a := a.(subscriptionId := ExpandEnvVars(a.subscriptionId, env));
      a := a.(resourceGroup := ExpandEnvVars(a.resourceGroup, env));
      a := a.(appName := ExpandEnvVars(a.appName, env));
      a := a.(deploymentType := ExpandEnvVars(a.deploymentType, env));
      a := a.(region := ExpandEnvVars(a.region, env));
      azure := a;

      var i := ios;
      i := i.(workspacePath := ExpandEnvVars(i.workspacePath, env));
      i := i.(projectPath := ExpandEnvVars(i.projectPath, env));
      i := i.(scheme := ExpandEnvVars(i.scheme, env));
      i := i.(configuration := ExpandEnvVars(i.configuration, env));
      i := i.(sdk := ExpandEnvVars(i.sdk, env));
      i := i.(exportMethod := ExpandEnvVars(i.exportMethod, env));
      i := i.(bundleId := ExpandEnvVars(i.bundleId, env));
      i := i.(teamId := ExpandEnvVars(i.teamId, env));
      i := i.(provisioningProfile := ExpandEnvVars(i.provisioningProfile, env));
      i := i.(codeSignIdentity := ExpandEnvVars(i.codeSignIdentity, env));
      i := i.(archivePath := ExpandEnvVars(i.archivePath, env));
      i := i.(exportPath := ExpandEnvVars(i.exportPath, env));
      ios := i;

      var asc := appStoreConnect;
      asc := asc.(appleId := ExpandEnvVars(asc.appleId, env));
      asc := asc.(appSpecificPassword := ExpandEnvVars(asc.appSpecificPassword, env));
      asc := asc.(apiKeyId := ExpandEnvVars(asc.apiKeyId, env));
      asc := asc.(apiIssuerId := ExpandEnvVars(asc.apiIssuerId, env));
      asc := asc.(apiKeyPath := ExpandEnvVars(asc.apiKeyPath, env));
      asc := asc.(teamId := ExpandEnvVars(asc.teamId, env));
      appStoreConnect := asc;

      ExpandVariables(env);
    }

    /** The closing loop of `ExpandPaths`: each value of the variable map, key by key. */
    method ExpandVariables(env: map<string, string>)
      modifies this
      ensures git == old(git) && project == old(project) && build == old(build)
      ensures ios == old(ios) && appStoreConnect == old(appStoreConnect) && azure == old(azure)
      ensures variables.Keys == old(variables).Keys
      ensures forall k :: k in variables ==> variables[k] == ExpandEnvVars(old(variables)[k], env)
    {
      var pending := variables.Keys;
      while pending != {}
        invariant pending <= variables.Keys
        invariant variables.Keys == old(variables).Keys
        invariant forall k :: k in variables && k !in pending ==> variables[k] == ExpandEnvVars(old(variables)[k], env)
        invariant forall k :: k in pending ==> variables[k] == old(variables)[k]
        invariant git == old(git) && project == old(project) && build == old(build)
        invariant ios == old(ios) && appStoreConnect == old(appStoreConnect) && azure == old(azure)
        decreases pending
      {
        var key :| key in pending;
        variables := variables[key := ExpandEnvVars(variables[key], env)];
        pending := pending - {key};
      }
    }
  }

  // ---- Lemmas: text without `$` or `~` is a fixed point of expansion ----

  lemma GitPlain(g: GitConfig, env: map<string, string>)
    requires Plain(g.provider) && Plain(g.repoUrl) && Plain(g.authType) && Plain(g.userName)
    requires Plain(g.password) && Plain(g.branch) && Plain(g.token) && Plain(g.sshKeyPath)
    ensures ExpandedGit(g, env) == g
  {
    ExpandEnvVarsPlain(g.provider, env);
    ExpandEnvVarsPlain(g.repoUrl, env);
    ExpandEnvVarsPlain(g.authType, env);
    ExpandEnvVarsPlain(g.userName, env);
    ExpandEnvVarsPlain(g.password, env);
    ExpandEnvVarsPlain(g.branch, env);
    ExpandEnvVarsPlain(g.token, env);
    ExpandEnvVarsPlain(g.sshKeyPath, env);
  }

  lemma IOSPlain(i: IOSConfig, env: map<string, string>)
    requires Plain(i.workspacePath) && Plain(i.projectPath) && Plain(i.scheme) && Plain(i.configuration)
    requires Plain(i.sdk) && Plain(i.exportMethod) && Plain(i.bundleId) && Plain(i.teamId)
    requires Plain(i.provisioningProfile) && Plain(i.codeSignIdentity)
    requires Plain(i.archivePath) && Plain(i.exportPath)
    ensures ExpandedIOS(i, env) == i
  {
    ExpandEnvVarsPlain(i.workspacePath, env);
    ExpandEnvVarsPlain(i.projectPath, env);
    ExpandEnvVarsPlain(i.scheme, env);
    ExpandEnvVarsPlain(i.configuration, env);
    ExpandEnvVarsPlain(i.sdk, env);
    ExpandEnvVarsPlain(i.exportMethod, env);
    ExpandEnvVarsPlain(i.bundleId, env);
    ExpandEnvVarsPlain(i.teamId, env);
    ExpandEnvVarsPlain(i.provisioningProfile, env);
    ExpandEnvVarsPlain(i.codeSignIdentity, env);
    ExpandEnvVarsPlain(i.archivePath, env);
    ExpandEnvVarsPlain(i.exportPath, env);
  }

  lemma AppStoreConnectPlain(a: AppStoreConnectConfig, env: map<string, string>)
    requires Plain(a.appleId) && Plain(a.appSpecificPassword) && Plain(a.apiKeyId)
    requires Plain(a.apiIssuerId) && Plain(a.apiKeyPath) && Plain(a.teamId)
    ensures ExpandedAppStoreConnect(a, env) == a
  {
    ExpandEnvVarsPlain(a.appleId, env);
    ExpandEnvVarsPlain(a.appSpecificPassword, env);
    ExpandEnvVarsPlain(a.apiKeyId, env);
    ExpandEnvVarsPlain(a.apiIssuerId, env);
    ExpandEnvVarsPlain(a.apiKeyPath, env);
    ExpandEnvVarsPlain(a.teamId, env);
  }

  lemma ProjectBuildAzurePlain(p: ProjectConfig, b: BuildConfig, a: AzureConfig, env: map<string, string>)
    requires Plain(p.name) && Plain(p.projectType) && Plain(p.description)
    requires Plain(b.language) && Plain(b.installCommand) && Plain(b.buildCommand)
    requires Plain(b.testCommand) && Plain(b.outputDir)
    requires Plain(a.subscriptionId) && Plain(a.resourceGroup) && Plain(a.appName)
    requires Plain(a.deploymentType) && Plain(a.region)
    ensures ExpandedProject(p, env) == p && ExpandedBuild(b, env) == b && ExpandedAzure(a, env) == a
  {
    ExpandEnvVarsPlain(p.name, env);
    ExpandEnvVarsPlain(p.projectType, env);
    ExpandEnvVarsPlain(p.description, env);
    ExpandEnvVarsPlain(b.language, env);
    ExpandEnvVarsPlain(b.installCommand, env);
    ExpandEnvVarsPlain(b.buildCommand, env);
    ExpandEnvVarsPlain(b.testCommand, env);
    ExpandEnvVarsPlain(b.outputDir, env);
    ExpandEnvVarsPlain(a.subscriptionId, env);
    ExpandEnvVarsPlain(a.resourceGroup, env);
    ExpandEnvVarsPlain(a.appName, env);
    ExpandEnvVarsPlain(a.deploymentType, env);
    ExpandEnvVarsPlain(a.region, env);
  }

}
