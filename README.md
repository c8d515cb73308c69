# automate-life build core, modelled in Dafny

automate-life is a command-line tool that clones a repository, reads a JSON
configuration, and builds the project. It has two pipelines:

- iOS projects (Swift or Objective-C) go through `xcodebuild` build, archive
  and export, followed by an optional TestFlight upload with `xcrun altool`;
- other languages run an install command and a build command.

This project models the decision logic of that tool and proves what it does:

- the configuration validator;
- the Git authentication helpers;
- variable, tilde and path expansion;
- the in-place expansion of a loaded configuration;
- the language dispatch tables;
- Go test discovery over a file tree;
- the `IOSBuilder` command lines and stages;
- the build handler that chains them.

The operating system is a `Host` object (host.dfy). Its fixed parts are:

- the set of existing files;
- the ordered directory listings;
- the effects that fail, with their error text.

Its mutable parts are the working directory, the environment, and a trace of
every effect performed in order: process runs, directory creation, file
writes, directory changes and environment writes. So "no tool runs" is a
statement about the trace. Each stage of the iOS pipeline is a pure `Stage`
function: its effects, the path it returns, and its error. Each `IOSBuilder`
method is proved to append exactly that stage's effects to the trace and to
return its path and error. The handler methods are proved against the
pipeline functions `IOSPipeline`, `StandardPipeline` and `Dispatched`.
Lemmas state the source's promises about those functions:

- failure policy;
- artifact hand-off;
- the upload gate;
- credential sufficiency after validation.

Modules follow the source files:

| module | file | models |
|---|---|---|
| `GoStrings`, `FilePath`, `Base64` | go_strings.dfy, filepath.dfy, base64.dfy | the parts of Go's `strings`, `path/filepath` and `encoding/base64` packages that the core uses |
| `Host` | host.dfy | the injected operating system |
| `Configuration` | configuration.dfy | config/config.go |
| `Expand` | expand.dfy | utils/expand.go |
| `PathExpand` | path_expand.dfy | utils/path.go |
| `Validator` | validator.dfy | config/validator.go |
| `GitAuth` | git_auth.dfy | git/auth.go |
| `Runner` | runner.dfy | builder/runner.go |
| `TestDiscovery` | test_discovery.dfy | builder/test_discovery.go |
| `IOS` | ios.dfy | builder/ios.go |
| `BuildHandler` | build_handler.dfy | handlers/build.go |

Where the code and its own tests or comments disagree, the model follows the
code, with two exceptions:

- `BuildAuthURL` (git/auth.go:12-20) has a `switch` whose first branch lacks
  its `case` label, so the file does not compile as written. The model routes
  `token` and `basic` to `buildBasicTokenURL`, as git/auth_test.go:20-60
  expects.
- `GetDefaultTestCommand` gives `go test ./...` for Go (builder/runner.go:63-64).
  The model keeps that, although builder/runner_test.go:65-69 expects
  `go test`.

The root of a test-discovery walk is subject to the same skip rule as every
other directory, as with Go's `filepath.Walk`. So a root named `vendor`, or one
starting with `.`, yields nothing.

## Model

| member | source | states |
|---|---|---|
| `Configuration.Config.constructor` | config/config.go:12-83 | A loaded configuration holds exactly the sections and the variable map it was given. |
| `Configuration.Config.ExpandPaths` | config/config.go:145-201 | Every listed string field of the Git, project, build, Azure, iOS and App Store Connect sections becomes `ExpandEnvVars` of its old value. The two iOS flags are untouched. The variable map keeps its key set, and each value becomes the expansion of its old value. |
| `Configuration.Config.ExpandVariables` | config/config.go:198-200 | The loop over the variable map rewrites every value in place. It keeps the key set and leaves every other section unchanged. |
| `Configuration.GitPlain` | config/config.go:147-154 | Git fields free of `$` and `~` are left as they are by expansion. |
| `Configuration.IOSPlain` | config/config.go:176-187 | The same holds for the iOS section, flags included. |
| `Configuration.AppStoreConnectPlain` | config/config.go:190-195 | The same holds for the App Store Connect section. |
| `Configuration.ProjectBuildAzurePlain` | config/config.go:157-173 | The same holds for the project, build and Azure sections. |
| `Expand.ExpandEnvVars` | utils/expand.go:12-28 | An empty input stays empty. Without a home directory, only variables are expanded. |
| `Expand.ExpandEnvNoDollar` | utils/expand.go:19 | Text without `$` passes variable expansion unchanged. |
| `Expand.ExpandEnvBraced` | utils/expand.go:19 | `${NAME}` becomes the variable's value, and an unset variable becomes the empty string. |
| `Expand.ExpandEnvPlain` | utils/expand.go:19 | `$NAME` becomes the variable's value; the name ends at the first character that is not a letter, digit or `_`. |
| `Expand.ExpandEnvLoneDollar` | utils/expand.go:19 | A `$` followed by nothing that starts a name is kept. |
| `Expand.ExpandEnvVarsPlain` | utils/expand.go:12-28 | Text with neither `$` nor `~` is unchanged. |
| `Expand.ExpandEnvVarsOrder` | utils/expand.go:19-25 | Variables are expanded before tildes, so a value that starts with `~/` reaches the home directory. |
| `Expand.VarsThenTildes` | utils/expand.go:12-28 | For every input, the result is tilde expansion applied to the variable-expanded text. The `~` test only skips tilde expansion where it would change nothing. |
| `Expand.TildesIdle` | utils/expand.go:31-55 | Tilde expansion leaves text without `~` unchanged, with or without a home directory. |
| `Expand.ExpandAllTildes` | utils/expand.go:31-55 | Without a home directory the input is returned unchanged, and `~` alone becomes the home directory. |
| `Expand.LeadingTilde` | utils/expand.go:41-45 | A leading `~/rest` becomes `Join(home, rest)`. |
| `Expand.CommandTilde` | utils/expand.go:47-52 | Every ` ~/` after the first word becomes ` <home>/`. |
| `Expand.ExpandTilde` | utils/expand.go:58-79 | Input not starting with `~`, or with no home directory, is unchanged. `~` gives the home directory and `~/rest` gives `Join(home, rest)`. `~user` is unchanged. |
| `Expand.TildeExpansionsAgree` | utils/expand.go:31-79 | For a single path without spaces, the two tilde expanders agree. |
| `PathExpand.ExpandSinglePath` | utils/path.go:34-52 | An empty path stays empty. |
| `PathExpand.HomeReplaced` | utils/path.go:40-42 | Every `$HOME`, anywhere in the path, becomes the home directory. |
| `PathExpand.LeadingTilde` | utils/path.go:45-49 | `~` becomes the home directory, and a leading `~/rest` becomes `Join(home, rest)`. |
| `PathExpand.Untouched` | utils/path.go:34-51 | A path with neither `$HOME` nor a leading `~` is returned as it is. |
| `PathExpand.ExpandEach` | utils/path.go:24-26 | Each field is expanded in its own position. |
| `PathExpand.ExpandedPath` | utils/path.go:11-31 | An empty input, or an unset or empty `HOME`, gives the input back. |
| `PathExpand.ExpandPath` | utils/path.go:11-31 | The method returns what `ExpandedPath` specifies for the path and environment. |
| `PathExpand.ExpandFields` | utils/path.go:22-28 | The in-place loop over the fields gives each field's expansion, in order. |
| `PathExpand.CommandFields` | utils/path.go:22-28 | Two words separated by white space are expanded one by one and rejoined with a single space. |
| `Validator.AppStoreConnectError` | config/validator.go:115-139 | The error is absent exactly when the API-key triple or the Apple ID and app-specific password pair is complete and, when the triple is complete, its expanded key file exists. A complete triple whose key file is missing is an error even beside a complete Apple pair. |
| `Validator.SigningError` | config/validator.go:59-66 | Manual signing needs a provisioning profile and a code-sign identity. The profile is checked first. |
| `Validator.ValuesError` | config/validator.go:69-103 | The error is absent exactly when the configuration is empty, `Debug` or `Release`, the SDK is empty or one of three values, and the export method is empty or one of four values. |
| `Validator.IOSConfigError` | config/validator.go:49-113 | The error is absent exactly when the iOS rules hold: scheme, signing, values, then credentials when upload is enabled. The manual-signing profile message comes first. |
| `Validator.AuthError` | config/validator.go:17-37 | The error is absent exactly when the authentication rules hold. `token` needs a token, and `basic` needs a username and a password. `ssh` needs a key path that exists after expansion. Any other type fails. |
| `Validator.ValidationError` | config/validator.go:9-47 | The error is absent exactly when the configuration is valid. Checks run in order and the first failure wins: repository URL, then project type, then authentication. |
| `Validator.IsOneOf` | config/validator.go:77-87 | The `isValid` search loop answers membership in the allowed list. |
| `Validator.CheckValues` | config/validator.go:69-103 | The checks, with their loops, give `ValuesError`. |
| `Validator.ValidateIOSConfig` | config/validator.go:49-113 | The method gives `IOSConfigError` for the loaded configuration. |
| `Validator.Validate` | config/validator.go:9-47 | The method gives `ValidationError` for the loaded configuration. |
| `Validator.OtherLanguagesIgnoreIOS` | config/validator.go:40-44 | For a language other than `swift`, `objective-c` or `objc`, the iOS and App Store Connect sections cannot change the verdict. |
| `Validator.CredentialsOnlyForUpload` | config/validator.go:106-110 | With upload disabled, the App Store Connect section cannot change the iOS verdict. |
| `GitAuth.BuildBasicTokenURL` | git/auth.go:22-30 | Success iff the URL starts with `http://` or `https://`, returning the URL unchanged. An empty URL gives "repo_url is empty". |
| `GitAuth.BuildAuthURL` | git/auth.go:12-20 | `ssh` returns the URL unchanged. `token` and `basic` succeed iff the URL is HTTP(S). Any other type gives the "unsupported auth type" error. A success is always the URL itself. |
| `GitAuth.BuildTokenAuthHeader` | git/auth.go:46-55 | The function fails iff the token is empty. |
| `GitAuth.BuildBasicAuthHeader` | git/auth.go:57-66 | The function fails iff the username or the password is empty. |
| `GitAuth.GetAuthHeader` | git/auth.go:32-44 | `ssh` gives `""`. The function fails iff the token is missing for `token`, the username or password is missing for `basic`, or the type is unknown; an unknown type gives its message. |
| `GitAuth.HeaderDecodes` | git/auth.go:51-65 | A header starts with `http.extraheader=AUTHORIZATION: Basic `, and what follows decodes back to the UTF-8 bytes of `token:` or `user:password`. |
| `GitAuth.GetProjectDirName` | git/auth.go:86-94 | The directory name never contains `/`. |
| `GitAuth.ProjectDirNameIsLastSegment` | git/auth.go:88-91 | The name is exactly what follows the last `/` once one `.git` is removed. |
| `GitAuth.ProjectDirNameEmpty` | git/auth.go:86-94 | An empty URL, or one ending in `/`, names no directory. |
| `GitAuth.ProjectDirNamePlain` | git/auth.go:86-94 | A bare name is its own directory name. |
| `GitAuth.ProjectDirNameDropsGit` | git/auth.go:88 | One trailing `.git` is dropped. |
| `Base64.DecodeEncode` | git/auth.go:52 | Standard base64 (section 4 of RFC 4648) decodes back to every byte sequence it encodes. |
| `Base64.EncodeAlphabet` | git/auth.go:52 | An encoding uses only the 64-character alphabet and `=`. |
| `Base64.Encode` | git/auth.go:52 | The output has four characters for every started group of three bytes. |
| `Runner.ToolchainOf` | builder/runner.go:61-80 | Each alias group is recognised exactly when the lower-cased language is one of its names. |
| `Runner.CommandExec` | builder/runner.go:12-17 | There is no process iff the command has no fields; otherwise the program and its arguments are exactly the fields. |
| `Runner.RunCommand` | builder/runner.go:10-23 | A blank command fails with "empty command" and runs nothing. Otherwise it runs one process and reports that process's error. |
| `Runner.BlankCommand` | builder/runner.go:12-15 | A white-space-only command runs nothing. |
| `Runner.TwoWordCommand` | builder/runner.go:12-17 | A command of two words runs the first with the second as its only argument. |
| `Runner.InstallCommand` | builder/runner.go:25-59 | The error names the language iff it has no install rule, which includes Java. Go, Node and Ruby run nothing without their marker file. Python runs nothing without `requirements.txt` or `Pipfile` and prefers `requirements.txt`. Node prefers yarn when `yarn.lock` exists. |
| `Runner.AutoInstallDependencies` | builder/runner.go:25-59 | The method reports the rule's error or runs nothing, or else runs exactly the chosen command once. It keeps the working directory and the environment. |
| `Runner.InstallCommandsRun` | builder/runner.go:25-59 | Every install command is non-empty, so a process is started for it. |
| `Runner.DefaultTestCommand` | builder/runner.go:61-80 | Each toolchain's test command, with `go test ./...` for Go. An unknown language gives the echo message with the language as given. |
| `Runner.CaseInsensitive` | builder/runner.go:62 | Lower-casing the language changes neither the toolchain, nor the test command, nor whether an install rule exists. |
| `Runner.UpperCasePython` | builder/runner.go:62-70 | `PYTHON` gives `pytest`. |
| `Runner.InstallImpliesTestCommand` | builder/runner.go:25-80 | Every language with an install rule has a test command. Java has a test command but no install rule. |
| `TestDiscovery.Head` | builder/test_discovery.go:63-65 | The function reads at most 512 characters, taken from the start of the file. |
| `TestDiscovery.LineName` | builder/test_discovery.go:68-77 | A name is returned iff the trimmed line starts with `package `, and the name is the line's second field. |
| `TestDiscovery.LineNames` | builder/test_discovery.go:68-77 | Each line's declared name is kept in its own position. |
| `TestDiscovery.ExtractPackageName` | builder/test_discovery.go:55-80 | The early-return line loop gives the name from the first package line within 512 bytes, or `""`. |
| `TestDiscovery.FirstPackageIsFirst` | builder/test_discovery.go:68-77 | The first package line decides the name. |
| `TestDiscovery.FirstPackageNone` | builder/test_discovery.go:68-79 | The name is `""` exactly when no line is a package line. |
| `TestDiscovery.PackageLineHasName` | builder/test_discovery.go:70-74 | A package line always has the word `package` and a second field. |
| `TestDiscovery.PackageClause` | builder/test_discovery.go:55-80 | A file that starts with `package <name>` has that package. |
| `TestDiscovery.OnlyHeadRead` | builder/test_discovery.go:63-65 | Nothing past the first 512 bytes affects the result. |
| `TestDiscovery.Discovered` | builder/test_discovery.go:20-52 | A test file is reported with its path, package and relative path. A skipped directory reports nothing. |
| `TestDiscovery.DiscoverTests` | builder/test_discovery.go:20-52 | The walk from the root collects what `Discovered` specifies for the tree. |
| `TestDiscovery.Walk` | builder/test_discovery.go:23-49 | The walk callback appends the entry's test files, in walk order, to what was found before. |
| `TestDiscovery.WalkChildren` | builder/test_discovery.go:23-49 | Walking a directory's entries appends their test files in listing order. |
| `TestDiscovery.DiscoveredAllSnoc` | builder/test_discovery.go:23-49 | One more entry adds exactly that entry's test files at the end. |
| `TestDiscovery.DiscoveredPaths` | builder/test_discovery.go:38-46 | Every reported path ends in `_test.go`. |
| `TestDiscovery.DiscoveredAllPaths` | builder/test_discovery.go:38-46 | The same holds under every entry of a directory. |
| `TestDiscovery.DiscoveredBound` | builder/test_discovery.go:38-46 | The walk reports at most as many test files as the tree holds files. |
| `TestDiscovery.SkippedSubtree` | builder/test_discovery.go:29-35 | `vendor`, `node_modules` and dot-directories hide their whole subtree, the root included. |
| `TestDiscovery.TopLevelTestFile` | builder/test_discovery.go:38-46 | A test file under the root is reported with its name as its relative path. |
| `TestDiscovery.DestinationKeepsLayout` | builder/test_discovery.go:102-103 | A copied file lands in `<base>/.unified_tests/<relative path>`, keeping its directory. |
| `IOS.Detected` | builder/ios.go:28-55 | Configured paths are kept as they are. Otherwise at most one of the two paths is set. |
| `IOS.DetectionPriority` | builder/ios.go:34-54 | With no configured path, the first `.xcworkspace` wins. A `.xcodeproj` is used only without a workspace, and with neither both paths stay empty. |
| `IOS.IOSBuilder.constructor` | builder/ios.go:21-25 | A new builder keeps the configuration and holds the detected paths. |
| `IOS.IOSBuilder.DetectPaths` | builder/ios.go:28-55 | The method writes the detected paths into the builder. |
| `IOS.SigningStyleFirst` | builder/ios.go:103-135 | The signing settings begin with exactly one `CODE_SIGN_STYLE` entry, `Automatic` or `Manual` as configured. No other style entry appears. |
| `IOS.SigningEntries` | builder/ios.go:110-131 | No entry has an empty value, and every key belongs to the selected style. |
| `IOS.SigningFields` | builder/ios.go:106-131 | Each signing field appears exactly when it is set and its style uses it. |
| `IOS.SigningOrder` | builder/ios.go:106-131 | The entries follow the fixed order of their style. |
| `IOS.Target` | builder/ios.go:64-70 | There is no target exactly when both paths are empty. |
| `IOS.TargetValues` | builder/ios.go:64-70 | `-workspace` takes priority over `-project`. |
| `IOS.BuildArguments` | builder/ios.go:58-100 | The build command line starts with `build` and the target. It passes the scheme, and `-configuration` and `-sdk` only when they are set. The signing settings come last. |
| `IOS.TestArguments` | builder/ios.go:138-174 | The test command line starts with `test` and the target. It adds `-sdk iphonesimulator` and the `iPhone 15` destination only for an empty or simulator SDK, and never `-configuration`. |
| `IOS.ArchiveArguments` | builder/ios.go:193-222 | The archive command line starts with `archive` and the target. It always passes `-sdk`, defaulting to `iphoneos`, and passes the archive path. |
| `IOS.XcodebuildStage` | builder/ios.go:58-100 | With no target the stage fails with "no workspace or project file found" and runs nothing. Otherwise it runs `xcodebuild` once, and fails iff that run fails. |
| `IOS.NoTargetNoTool` | builder/ios.go:64-70 | Without a workspace or a project, build and test fail before any effect, and archive runs no tool and fails. |
| `IOS.ArchivePathOf` | builder/ios.go:180-185 | The archive path is the configured path, and is never empty. |
| `IOS.ArchiveDefaultPath` | builder/ios.go:180-185 | With no configured path, the archive is `app.xcarchive` directly in the temporary directory. |
| `IOS.ArchiveResult` | builder/ios.go:177-237 | Archive succeeds iff it returns a path. The path is the default-or-configured archive path passed as `-archivePath`, after creating its directory. On failure it returns `""`. |
| `IOS.IOSBuilder.Build` | builder/ios.go:58-100 | The method performs the build stage's effects and returns its error. |
| `IOS.IOSBuilder.Test` | builder/ios.go:138-174 | The method performs the test stage's effects and returns its error. |
| `IOS.IOSBuilder.Archive` | builder/ios.go:177-237 | The method performs the archive stage's effects and returns its path and error. |
| `IOS.ExportMethodOf` | builder/ios.go:317-321 | The export method defaults to `app-store`. |
| `IOS.ExportTeamOf` | builder/ios.go:322-325 | The team falls back from the iOS team to the App Store Connect team. |
| `IOS.ExportOptionsRoundTrip` | builder/ios.go:327-342 | The written document reads back as the method and team it was written with. |
| `IOS.ExportOptionsContent` | builder/ios.go:316-345 | The document carries the defaulted method and the fallback team. |
| `IOS.IOSBuilder.CreateExportOptions` | builder/ios.go:316-345 | The method writes that document to the given path and reports the write's error. |
| `IOS.FoundIPA` | builder/ios.go:284-309 | A found IPA path is never empty. |
| `IOS.IPAResolution` | builder/ios.go:284-309 | `<exportPath>/<name>.ipa` is used when the project name is set and that file exists. Otherwise the first listed entry ending in `.ipa` is used. Nothing is found iff there is no such entry or the directory is unreadable. A result always ends in `.ipa`. |
| `IOS.ExportRun` | builder/ios.go:256-281 | The export steps that have effects return no path. |
| `IOS.ExportResult` | builder/ios.go:240-313 | Export succeeds iff it returns a path. On success it creates the export directory, writes `ExportOptions.plist`, and exports the given archive to it. The IPA it returns is the one resolved. Without an IPA the error names the export path. |
| `IOS.IOSBuilder.ExportIPA` | builder/ios.go:240-313 | The method performs the export stage's effects and returns its path and error. |
| `IOS.IOSBuilder.RunExport` | builder/ios.go:256-281 | The method performs the directory, options and export steps. |
| `IOS.ResolveIPA` | builder/ios.go:284-309 | The probe, then the search, gives the resolved IPA, or `""`. |
| `IOS.SearchIPA` | builder/ios.go:295-305 | The loop with `break` returns the first listed `.ipa`, joined onto the directory, or `""`. |
| `IOS.UploadCredential` | builder/ios.go:354-384 | The API key is chosen whenever its ID is set. Otherwise the Apple ID is chosen when set, and otherwise there is none. |
| `IOS.UploadArguments` | builder/ios.go:348-397 | Without credentials the upload fails with "no valid App Store Connect credentials provided" and runs nothing. Otherwise it runs `xcrun altool --upload-app --type ios --file <ipa>` with exactly the chosen credential's options. |
| `IOS.IOSBuilder.UploadToTestFlight` | builder/ios.go:348-397 | The method performs the upload stage's effects and returns its error. |
| `IOS.DependencyManagerOf` | builder/ios.go:400-439 | The manager is CocoaPods if `Podfile` exists; otherwise Swift packages if `Package.swift` exists; otherwise Carthage if `Cartfile` exists. |
| `IOS.InstallPolicy` | builder/ios.go:400-439 | The stage runs `pod install` or `carthage update --platform iOS`, or nothing for Swift packages and for no manager. It fails iff the tool it ran failed. |
| `IOS.IOSBuilder.InstallDependencies` | builder/ios.go:400-439 | The method performs the install stage's effects and returns its error. |
| `BuildHandler.UploadDecisionOf` | handlers/build.go:107-140 | The upload is confirmed iff the flag is set, the credentials are sufficient, and the word read from the typed line is `y` once trimmed and lower-cased. |
| `BuildHandler.ScannedWord` | handlers/build.go:114-115 | `fmt.Scanln` stores a word without white space. |
| `BuildHandler.ScannedFirstField` | handlers/build.go:114-115 | The stored word is the first of the line's `strings.Fields`, and nothing when the line is blank. |
| `BuildHandler.ScannedFirstWord` | handlers/build.go:114-115 | When the line starts with a word followed by white space, that word is what is stored. |
| `BuildHandler.YesThenMore` | handlers/build.go:114-117 | The line `y n` confirms the upload, because only `y` is read. |
| `BuildHandler.NoThenYes` | handlers/build.go:114-117 | The line `n y` declines, because the words after the first are never read. |
| `BuildHandler.OfferUpload` | handlers/build.go:107-140 | The method decides as the gate does, uploads only when confirmed, and otherwise has no effect. |
| `BuildHandler.HandleIOSBuild` | handlers/build.go:69-141 | The handler performs exactly the iOS pipeline's effects, warning and outcome. The archive feeds the export, and the export feeds the upload. |
| `BuildHandler.PipelineStages` | handlers/build.go:74-101 | A failed install only warns, and the build still runs. A build, archive or export failure ends the run, and no later stage has any effect. The run is built iff all three succeed. |
| `BuildHandler.PipelineUploads` | handlers/build.go:103-140 | Nothing is uploaded unless the run is built and the upload is confirmed. |
| `BuildHandler.UploadGate` | handlers/build.go:107-140 | `xcrun` runs iff every stage succeeded, the flag is set, the credentials are sufficient and the answer is yes. |
| `BuildHandler.UploadRuns` | builder/ios.go:354-384 | With sufficient credentials the upload stage runs `xcrun`. |
| `BuildHandler.ArtifactHandOff` | handlers/build.go:89-119 | Archive returns the archive path, and the export receives exactly that path. The IPA the run ends with is the one export returned, and the upload receives exactly it. |
| `BuildHandler.ValidatedUploadHasCredentials` | config/validator.go:106-136 | Once validation passes for an iOS project with upload enabled, the credentials are sufficient, and the upload never takes its "no valid credentials" branch. |
| `BuildHandler.CommandStage` | builder/runner.go:10-23 | Running a command returns no artifact. |
| `BuildHandler.AutoInstallStage` | builder/runner.go:25-59 | Automatic installation returns no artifact. |
| `BuildHandler.HandleStandardBuild` | handlers/build.go:143-178 | The handler performs exactly the standard pipeline's effects, warning and outcome. |
| `BuildHandler.StandardInstallPolicy` | handlers/build.go:145-175 | A failing explicit install command ends the run before the build. A failing automatic install only warns. The build command then runs, and the run fails iff it fails. |
| `BuildHandler.Dispatched` | handlers/build.go:60-66 | The iOS pipeline is chosen iff the language is `swift`, `objective-c` or `objc`. |
| `BuildHandler.HandleBuild` | handlers/build.go:14-67 | Validation, the project-directory name, its existence and the change of directory each abort in turn, with no other effect. Once inside, the variables are set and the chosen pipeline runs, then the original directory is restored. |
| `BuildHandler.BuildInProject` | handlers/build.go:52-66 | `Setenv` is called once per variable, then the chosen pipeline runs in the project directory with the updated environment, then the original directory is restored. The updated environment holds the variables `os.Setenv` accepts. |
| `BuildHandler.RunDispatched` | handlers/build.go:59-66 | Swift, Objective-C and objc projects run the iOS pipeline and every other language the standard one; the trace grows by exactly that pipeline's effects and the report is its result. |
| `BuildHandler.ExportVariables` | handlers/build.go:55-57 | The environment becomes the old one overlaid with the variables `os.Setenv` accepts, with exactly one `Setenv` call per variable. A refused pair leaves the environment as it was, and its error is ignored. |
| `Host.Host.Setenv` | handlers/build.go:55-57 | `os.Setenv` fails exactly for an empty key, a key holding `=` or NUL, or a value holding NUL. On failure the environment is unchanged. Otherwise the variable is set. Either way the call is traced. |
| `Host.Settable` | handlers/build.go:55-57 | The accepted variables are exactly the entries that `os.Setenv` takes, with their values. |
| `Host.SettableAll` | handlers/build.go:55-57 | When every pair is acceptable, every variable is set. |
| `Host.RefusedNames` | handlers/build.go:55-57 | A variable whose name is empty or holds `=` is never set. |
| `BuildHandler.ProjectDirectory` | handlers/build.go:32-52 | A relative name is joined onto the original directory; the result is absolute, lies directly inside it, and going back resolves to the original directory. |

## Left out

- Process execution, file creation and directory changes are effects on the injected host. Streaming output and exit codes beyond success or failure are not modelled.
- The configuration is not loaded from JSON (`config.Load`), and nothing is printed (`ui` package).
- The line typed at the upload prompt is a parameter of the handler. `ScannedWord` takes its first word as `fmt.Scanln` does. It uses Go's `unicode.IsSpace` as the word separator, and `Scanln`'s own separator set is not modelled apart from it.
- `GetDefaultBuildCommand` is not part of this model. Its result is a parameter of the standard pipeline.
- The copying and cleanup of the unified test suite are left out; only its destination paths are modelled. `SetupSSH`, the other handlers and `main.go` are also left out.
- Go's map iteration order is unspecified. `ExportVariables` states the set of `Setenv` calls, each exactly once, but not their order.
- `FilePath.Join` does not clean paths. It joins with one `/` and drops empty elements, and lemmas about it assume no `..` or repeated `/` in the inputs.
- `FilePath.Dir` does not clean either, so `Dir("a//b")` is `a/` where Go gives `a`. A trailing `/` on a first element of `Join` is kept too. For example, macOS's default `$TMPDIR` ends in `/`, so `IOS.ArchivePathOf` gives `<tmp>//app.xcarchive` by default where Go's `filepath.Join` gives `<tmp>/app.xcarchive` (builder/ios.go:184).
- `BuildHandler.HandleBuild`: the error of `os.Getwd` is ignored in the source; the model always knows the original directory.
- `ExportPathOf`: when `os.Getwd` fails, `ExportIPA` falls back to `.`. The model assumes the working directory is always known.
- `GoStrings.ToLower`: lower-casing covers ASCII letters only, and file contents are read one character per byte.
- `Host.Host.ExistsAt`: only "does not exist" is modelled for `os.Stat`. Other stat errors, and walk errors during test discovery, are not modelled.
- The file system is fixed while a run lasts. Files written by one stage are not seen by a later `os.Stat` or `os.ReadDir`.
- `Expand.ExpandEnv` (`os.ExpandEnv`) has no contract of its own; its behaviour is stated by the `ExpandEnv*` lemmas.
- `GitAuth.GetProjectDirName`: its contract states only that no `/` remains; the lemmas beside it state the rest.
