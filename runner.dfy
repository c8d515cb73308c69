/**
 * Language dispatch of builder/runner.go: a command line split into a
 * program and its arguments, the dependency-install rule chosen by the
 * language and by which marker files exist, and the default test command.
 * The language is matched case-insensitively against alias groups; the two
 * tables share the groups but not their coverage (`java` has a test command
 * and no install rule).
 */
module Runner {
  import opened Wrappers
  import opened GoStrings
  import opened Host

  /** The alias groups the `switch strings.ToLower(language)` statements recognise. */
  datatype Toolchain = Go | Node | Python | DotNet | Rust | Ruby | Java

  /** The toolchain a language name denotes, ignoring letter case. */
  function ToolchainOf(language: string): (r: Option<Toolchain>)
    ensures r == Some(Go) <==> ToLower(language) in {"go", "golang"}
    ensures r == Some(Node) <==> ToLower(language) in {"node", "nodejs", "javascript", "typescript"}
    ensures r == Some(Python) <==> ToLower(language) == "python"
    ensures r == Some(DotNet) <==> ToLower(language) in {"dotnet", "c#", "csharp"}
    ensures r == Some(Rust) <==> ToLower(language) == "rust"
    ensures r == Some(Ruby) <==> ToLower(language) == "ruby"
    ensures r == Some(Java) <==> ToLower(language) == "java"
  {
    match ToLower(language)
    case "go" => Some(Go)
    case "golang" => Some(Go)
    case "node" => Some(Node)
    case "nodejs" => Some(Node)
    case "javascript" => Some(Node)
    case "typescript" => Some(Node)
    case "python" => Some(Python)
    case "dotnet" => Some(DotNet)
    case "c#" => Some(DotNet)
    case "csharp" => Some(DotNet)
    case "rust" => Some(Rust)
    case "ruby" => Some(Ruby)
    case "java" => Some(Java)
    case _ => None
  }

  // ---- RunCommand ----

  /** The process a command line starts: its first field run with the other fields as arguments. */
  function CommandExec(command: string): (r: Option<Effect>)
    ensures r.None? <==> Fields(command) == []
    ensures r.Some? ==> r.value.Exec? && [r.value.program] + r.value.args == Fields(command)
  {
    var parts := Fields(command);
    if parts == [] then None else Some(Effect.Exec(parts[0], parts[1..]))
  }

  /** `RunCommand`: an empty command fails before anything runs; otherwise one process runs. */
  method RunCommand(h: Host, command: string) returns (err: Option<string>)
    modifies h`trace
    ensures CommandExec(command).None? ==> err == Some("empty command") && h.trace == old(h.trace)
    ensures CommandExec(command).Some? ==>
      h.trace == old(h.trace) + [CommandExec(command).value] && err == h.Outcome(CommandExec(command).value)
    ensures h.cwd == old(h.cwd) && h.env == old(h.env)
  {
    var parts := Fields(command);
    if |parts| == 0 {
      return Some("empty command");
    }
    err := h.Exec(parts[0], parts[1..]);
  }

  // ---- AutoInstallDependencies ----

  /**
   * The install command `AutoInstallDependencies` runs in directory `cwd`: `Ok(None)` when the marker file is absent and nothing
   * is to be installed, an error for a language without an install rule.
   */
  function InstallCommand(language: string, h: Host, cwd: string): (r: Result<Option<string>>)
    ensures r.Err? <==> ToolchainOf(language) in {None, Some(Java)}
    ensures r.Err? ==> r.msg == "could not determine how to install dependencies for language: " + language
    ensures ToolchainOf(language) in {Some(Go), Some(Node), Some(Ruby)} ==>
      (r == Ok(None) <==> !h.ExistsAt(cwd, MarkerOf(ToolchainOf(language).value)))
    ensures ToolchainOf(language) == Some(Python) ==>
      (r == Ok(None) <==> !h.ExistsAt(cwd, "requirements.txt") && !h.ExistsAt(cwd, "Pipfile"))
    ensures ToolchainOf(language) == Some(Node) && h.ExistsAt(cwd, "package.json") ==>
      r == Ok(Some(if h.ExistsAt(cwd, "yarn.lock") then "yarn install" else "npm install"))
    ensures ToolchainOf(language) == Some(Python) && h.ExistsAt(cwd, "requirements.txt") ==>
      r == Ok(Some("pip install -r requirements.txt"))
    ensures ToolchainOf(language) in {Some(DotNet), Some(Rust)} ==> r.Ok? && r.value.Some?
  {
    match ToolchainOf(language)
    case Some(Go) => Ok(if h.ExistsAt(cwd, "go.mod") then Some("go mod download") else None)
    case Some(Node) =>
      if !h.ExistsAt(cwd, "package.json") then Ok(None)
      else if h.ExistsAt(cwd, "yarn.lock") then Ok(Some("yarn install"))
      else Ok(Some("npm install"))
    case Some(Python) =>
      if h.ExistsAt(cwd, "requirements.txt") then Ok(Some("pip install -r requirements.txt"))
      else if h.ExistsAt(cwd, "Pipfile") then Ok(Some("pipenv install"))
      else Ok(None)
    case Some(DotNet) => Ok(Some("dotnet restore"))
    case Some(Rust) => Ok(Some("cargo fetch"))
    case Some(Ruby) => Ok(if h.ExistsAt(cwd, "Gemfile") then Some("bundle install") else None)
    case _ => Err("could not determine how to install dependencies for language: " + language)
  }

  /** The marker file whose presence makes a Go, Node or Ruby install necessary. */
  function MarkerOf(t: Toolchain): string {
    match t
    case Go => "go.mod"
    case Node => "package.json"
    case Ruby => "Gemfile"
    case _ => ""
  }

  /** `AutoInstallDependencies`: runs the chosen install command, if any. */
  method AutoInstallDependencies(h: Host, language: string) returns (err: Option<string>)
    modifies h`trace
    ensures old(InstallCommand(language, h, h.cwd)).Err? ==>
      err == Some(old(InstallCommand(language, h, h.cwd)).msg) && h.trace == old(h.trace)
    ensures old(InstallCommand(language, h, h.cwd)) == Ok(None) ==> err == None && h.trace == old(h.trace)
    ensures old(InstallCommand(language, h, h.cwd)).Ok? && old(InstallCommand(language, h, h.cwd)).value.Some? ==>
      var c := CommandExec(old(InstallCommand(language, h, h.cwd)).value.value);
      c.Some? && h.trace == old(h.trace) + [c.value] && err == h.Outcome(c.value)
    ensures h.cwd == old(h.cwd) && h.env == old(h.env)
  {
    var plan := InstallCommand(language, h, h.cwd);
    match plan
    case Err(msg) =>
      return Some(msg);
    case Ok(None) =>
      return None;
    case Ok(Some(command)) =>
      InstallCommandsRun(language, h, h.cwd);
      err := RunCommand(h, command);
  }

  // ---- GetDefaultTestCommand ----

  /** `GetDefaultTestCommand`: the test command of the language's toolchain. */
  function DefaultTestCommand(language: string): (r: string)
    ensures ToolchainOf(language).None? ==>
      r == "echo 'No default test command for language: " + language + "'"
    ensures ToolchainOf(language) == Some(Go) ==> r == "go test ./..."
    ensures ToolchainOf(language) == Some(Node) ==> r == "npm test"
    ensures ToolchainOf(language) == Some(Python) ==> r == "pytest"
    ensures ToolchainOf(language) == Some(DotNet) ==> r == "dotnet test"
    ensures ToolchainOf(language) == Some(Rust) ==> r == "cargo test"
    ensures ToolchainOf(language) == Some(Ruby) ==> r == "bundle exec rspec"
    ensures ToolchainOf(language) == Some(Java) ==> r == "mvn test"
  {
    match ToolchainOf(language)
    case Some(Go) => "go test ./..."
    case Some(Node) => "npm test"
    case Some(Python) => "pytest"
    case Some(DotNet) => "dotnet test"
    case Some(Rust) => "cargo test"
    case Some(Ruby) => "bundle exec rspec"
    case Some(Java) => "mvn test"
    case None => "echo 'No default test command for language: " + language + "'"
  }

  // ---- Lemmas ----

  /** Every install command is a non-empty command line, so `RunCommand` starts a process for it. */
  lemma InstallCommandsRun(language: string, h: Host, cwd: string)
    requires InstallCommand(language, h, cwd).Ok? && InstallCommand(language, h, cwd).value.Some?
    ensures CommandExec(InstallCommand(language, h, cwd).value.value).Some?
  {
    var c := InstallCommand(language, h, cwd).value.value;
    assert c[0] != ' ' && !IsSpace(c[0]);
    FieldsEmpty(c);
  }

  /** A white-space-only command runs nothing. */
  lemma BlankCommand(command: string)
    requires AllSpace(command)
    ensures CommandExec(command).None?
  {
    FieldsEmpty(command);
  }

  /** A command of two words runs the first with the second as its only argument. */
  lemma TwoWordCommand(program: string, sp: string, arg: string)
    requires program != [] && NoSpace(program) && arg != [] && NoSpace(arg)
    requires sp != [] && AllSpace(sp)
    ensures CommandExec(program + sp + arg) == Some(Effect.Exec(program, [arg]))
  {
    FieldsTwo(program, sp, arg);
    assert [program, arg][1..] == [arg];
  }

  /** Language names are matched without regard to letter case. */
  lemma CaseInsensitive(language: string, h: Host, cwd: string)
    ensures ToolchainOf(ToLower(language)) == ToolchainOf(language)
    ensures ToolchainOf(language).Some? ==> DefaultTestCommand(ToLower(language)) == DefaultTestCommand(language)
    ensures InstallCommand(ToLower(language), h, cwd).Ok? <==> InstallCommand(language, h, cwd).Ok?
  {
    ToLowerIdempotent(language);
  }

  /** `PYTHON` selects the Python test command. */
  lemma UpperCasePython()
    ensures DefaultTestCommand("PYTHON") == "pytest"
  {
    assert ToLower("PYTHON") == "python";
  }

  /** Every language with an install rule also has a default test command; Java is the one the converse misses. */
  lemma InstallImpliesTestCommand(language: string, h: Host, cwd: string)
    requires InstallCommand(language, h, cwd).Ok?
    ensures ToolchainOf(language).Some? && ToolchainOf(language) != Some(Java)
    ensures InstallCommand("java", h, cwd).Err? && DefaultTestCommand("java") == "mvn test"
  {
    assert ToLower("java") == "java";
  }
}
