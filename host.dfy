/**
 * The operating system as the pipeline sees it: a working directory, an
 * environment, the paths `os.Stat` finds, the ordered directory listings
 * `os.ReadDir` and `filepath.Glob` return, and which side effects fail and
 * with what error text. Every side effect is appended to `trace`, so a
 * contract can say which external tools ran, in which order, and that none
 * ran at all.
 */
module Host {
  import opened Wrappers
  import opened GoStrings
  import FilePath

  /** A side effect the pipeline performs on the operating system. */
  datatype Effect =
    | Exec(program: string, args: seq<string>)
    | MakeDirs(path: string)
    | WriteFile(path: string, content: string)
    | ChangeDir(path: string)
    | SetEnv(key: string, value: string)

  /** `os.Getenv` over an environment: an unset variable reads as the empty string. */
  function Lookup(env: map<string, string>, key: string): (v: string)
    ensures key !in env ==> v == ""
    ensures key in env ==> v == env[key]
  {
    if key in env then env[key] else ""
  }

  /** The home directory: `$HOME` when it is set and non-empty (`os.UserHomeDir` on Unix). */
  function HomeOf(env: map<string, string>): (h: Option<string>)
    ensures h.Some? <==> Lookup(env, "HOME") != ""
    ensures h.Some? ==> h.value == Lookup(env, "HOME")
  {
    if Lookup(env, "HOME") != "" then Some(Lookup(env, "HOME")) else None
  }

  /** `os.TempDir` on Unix: `$TMPDIR`, or `/tmp` when it is empty. */
  function TempDirOf(env: map<string, string>): (d: string)
    ensures d != ""
    ensures Lookup(env, "TMPDIR") != "" ==> d == Lookup(env, "TMPDIR")
    ensures Lookup(env, "TMPDIR") == "" ==> d == "/tmp"
  {
    if Lookup(env, "TMPDIR") != "" then Lookup(env, "TMPDIR") else "/tmp"
  }

  /** A path as the OS resolves it from directory `dir`: relative paths are joined onto `dir`. */
  function AbsFrom(dir: string, p: string): (r: string)
    ensures FilePath.IsAbs(p) ==> r == p
    ensures !FilePath.IsAbs(p) ==> r == FilePath.Join(dir, p)
  {
    if FilePath.IsAbs(p) then p else FilePath.Join(dir, p)
  }

  /**
   * Whether `os.Setenv` accepts the pair on Unix: Go answers EINVAL for an
   * empty key, a key holding `=` or NUL, and a value holding NUL.
   */
  predicate SettableEnv(key: string, value: string) {
    key != "" && '=' !in key && '\0' !in key && '\0' !in value
  }

  /** The entries of `vars` that `os.Setenv` accepts. */
  function Settable(vars: map<string, string>): (r: map<string, string>)
    ensures forall k :: k in r <==> k in vars && SettableEnv(k, vars[k])
    ensures forall k :: k in r ==> r[k] == vars[k]
  {
    map k | k in vars && SettableEnv(k, vars[k]) :: vars[k]
  }

  /** When every pair is accepted, all the variables are set. */
  lemma SettableAll(vars: map<string, string>)
    requires forall k :: k in vars ==> SettableEnv(k, vars[k])
    ensures Settable(vars) == vars
  {
  }

  /** A variable with an empty name, or a name holding `=`, is never set. */
  lemma RefusedNames(vars: map<string, string>, k: string)
    requires k in vars && (k == "" || '=' in k)
    ensures k !in Settable(vars)
  {
  }

  class Host {
    /** Absolute paths for which `os.Stat` succeeds. */
    const files: set<string>
    /** Entry names of a directory (absolute path), in `os.ReadDir` order. */
    const listings: map<string, seq<string>>
    /** The effects that fail, with the text of the error they report. */
    const failures: map<Effect, string>
    var cwd: string
    var env: map<string, string>
    var trace: seq<Effect>

    constructor (files: set<string>, listings: map<string, seq<string>>, failures: map<Effect, string>,
                 cwd: string, env: map<string, string>)
      ensures this.files == files && this.listings == listings && this.failures == failures
      ensures this.cwd == cwd && this.env == env && trace == []
    {
      this.files := files;
      this.listings := listings;
      this.failures := failures;
      this.cwd := cwd;
      this.env := env;
      trace := [];
    }

    /** `os.Stat(p)` from directory `dir` returns no error. */
    predicate ExistsAt(dir: string, p: string) {
      AbsFrom(dir, p) in files
    }

    /** `os.ReadDir(p)` from directory `dir`: the entry names, or `None` for an unreadable directory. */
    function ReadDirAt(dir: string, p: string): (r: Option<seq<string>>)
      ensures r.Some? <==> AbsFrom(dir, p) in listings
      ensures r.Some? ==> r.value == listings[AbsFrom(dir, p)]
    {
      if AbsFrom(dir, p) in listings then Some(listings[AbsFrom(dir, p)]) else None
    }

    /** `filepath.Glob("*" + suffix)` in directory `dir`: its entry names ending in `suffix`. */
    function GlobAt(dir: string, suffix: string): (r: seq<string>)
      ensures forall i :: 0 <= i < |r| ==> HasSuffix(r[i], suffix)
      ensures dir !in listings ==> r == []
      ensures dir in listings ==> forall n :: n in listings[dir] && HasSuffix(n, suffix) ==> n in r
    {
      if dir in listings then FilterSuffix(listings[dir], suffix) else []
    }

    /** A path resolved against the working directory. */
    function Abs(p: string): string
      reads this`cwd
    {
      AbsFrom(cwd, p)
    }

    predicate Exists(p: string)
      reads this`cwd
    {
      ExistsAt(cwd, p)
    }

    function ReadDir(p: string): Option<seq<string>>
      reads this`cwd
    {
      ReadDirAt(cwd, p)
    }

    function Glob(suffix: string): seq<string>
      reads this`cwd
    {
      GlobAt(cwd, suffix)
    }

    /** The error an effect reports, or `None` when it succeeds. */
    function Outcome(e: Effect): (r: Option<string>)
      ensures r.Some? <==> e in failures
    {
      if e in failures then Some(failures[e]) else None
    }

    /** Runs an external program (`exec.Command(program, args...).Run()`). */
    method Exec(program: string, args: seq<string>) returns (err: Option<string>)
      modifies this`trace
      ensures trace == old(trace) + [Effect.Exec(program, args)]
      ensures err == Outcome(Effect.Exec(program, args))
      ensures cwd == old(cwd) && env == old(env)
    {
      trace := trace + [Effect.Exec(program, args)];
      err := Outcome(Effect.Exec(program, args));
    }

    /** `os.MkdirAll(p, 0755)`. */
    method MkdirAll(p: string) returns (err: Option<string>)
      modifies this`trace
      ensures trace == old(trace) + [MakeDirs(old(Abs(p)))]
      ensures err == Outcome(MakeDirs(old(Abs(p))))
      ensures cwd == old(cwd) && env == old(env)
    {
      var e := MakeDirs(Abs(p));
      trace := trace + [e];
      err := Outcome(e);
    }

    /** `os.WriteFile(p, content, 0644)`. */
    method WriteFile(p: string, content: string) returns (err: Option<string>)
      modifies this`trace
      ensures trace == old(trace) + [Effect.WriteFile(old(Abs(p)), content)]
      ensures err == Outcome(Effect.WriteFile(old(Abs(p)), content))
      ensures cwd == old(cwd) && env == old(env)
    {
      var e := Effect.WriteFile(Abs(p), content);
      trace := trace + [e];
      err := Outcome(e);
    }

    /** `os.Chdir(p)`: on success the working directory becomes `p`, resolved. */
    method Chdir(p: string) returns (err: Option<string>)
      modifies this`trace, this`cwd
      ensures trace == old(trace) + [ChangeDir(old(Abs(p)))]
      ensures err == Outcome(ChangeDir(old(Abs(p))))
      ensures cwd == if err.None? then old(Abs(p)) else old(cwd)
      ensures env == old(env)
    {
      var target := Abs(p);
      trace := trace + [ChangeDir(target)];
      err := Outcome(ChangeDir(target));
      if err.None? {
        cwd := target;
      }
    }

    /**
     * `os.Setenv(key, value)`: the variable is set unless Go refuses the
     * pair with EINVAL, in which case the environment is left as it was.
     */
    method Setenv(key: string, value: string) returns (err: Option<string>)
      modifies this`trace, this`env
      ensures err.None? <==> SettableEnv(key, value)
      ensures env == if err.None? then old(env)[key := value] else old(env)
      ensures trace == old(trace) + [SetEnv(key, value)]
      ensures cwd == old(cwd)
    {
      trace := trace + [SetEnv(key, value)];
      if !SettableEnv(key, value) {
        return Some("setenv: invalid argument");
      }
      env := env[key := value];
      err := None;
    }
  }
}
