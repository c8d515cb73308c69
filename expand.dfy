/**
 * Environment-variable and tilde expansion of utils/expand.go.
 * `ExpandEnv` follows the rules of Go's `os.Expand`: `$NAME` takes the
 * longest run of letters, digits and `_`; `${...}` takes everything up to
 * the first `}`; one of `*#$@!?-` or a digit after `$` (or alone in braces)
 * is a one-character name; `${}` and an unclosed `${` are dropped; a `$`
 * followed by anything else, or ending the string, stays as it is.
 */
module Expand {
  import opened Wrappers
  import opened GoStrings
  import FilePath
  import Host

  predicate IsSpecialVar(c: char) {
    c == '*' || c == '#' || c == '$' || c == '@' || c == '!' || c == '?' || c == '-' || ('0' <= c <= '9')
  }

  predicate IsAlphaNum(c: char) {
    c == '_' || ('0' <= c <= '9') || ('a' <= c <= 'z') || ('A' <= c <= 'Z')
  }

  /** Length of the longest prefix of `t` made of letters, digits and `_`. */
  function AlnumPrefix(t: string): (n: nat)
    ensures n <= |t|
    ensures forall j :: 0 <= j < n ==> IsAlphaNum(t[j])
    ensures n < |t| ==> !IsAlphaNum(t[n])
  {
    if t == [] || !IsAlphaNum(t[0]) then 0 else 1 + AlnumPrefix(t[1..])
  }

  /** Index of the first `c` in `t` at or after `from`, or -1 when there is none. */
  function IndexFrom(t: string, c: char, from: nat): (i: int)
    requires from <= |t|
    ensures i == -1 || (from <= i < |t| && t[i] == c)
    ensures forall j :: from <= j < |t| && (i == -1 || j < i) ==> t[j] != c
    decreases |t| - from
  {
    if from == |t| then -1
    else if t[from] == c then from
    else IndexFrom(t, c, from + 1)
  }

  /**
   * The variable name after a `$` and how many characters it spans; an
   * empty name with a positive width is bad syntax, to be dropped.
   */
  function ShellName(t: string): (r: (string, nat))
    requires t != []
    ensures r.1 <= |t|
    ensures r.0 != "" ==> r.1 >= 1
  {
    if t[0] == '{' then
      if |t| > 2 && IsSpecialVar(t[1]) && t[2] == '}' then (t[1..2], 3)
      else
        var close := IndexFrom(t, '}', 1);
        if close == -1 then ("", 1)
        else if close == 1 then ("", 2)
        else (t[1..close], close + 1)
    else if IsSpecialVar(t[0]) then (t[..1], 1)
    else
      var n := AlnumPrefix(t);
      (t[..n], n)
  }

  /** `os.ExpandEnv`: every variable reference replaced by its value in `env`. */
  function ExpandEnv(s: string, env: map<string, string>): string
    decreases |s|
  {
    if s == [] then []
    else if s[0] == '$' && |s| >= 2 then
      var (name, w) := ShellName(s[1..]);
      if name == "" && w > 0 then ExpandEnv(s[1 + w..], env)
      else if name == "" then "$" + ExpandEnv(s[1..], env)
      else Host.Lookup(env, name) + ExpandEnv(s[1 + w..], env)
    else [s[0]] + ExpandEnv(s[1..], env)
  }

  /** `expandAllTildes`: a leading `~/` and every ` ~/` lead to the home directory. */
  function ExpandAllTildes(s: string, home: Option<string>): (r: string)
    ensures home.None? ==> r == s
    ensures home.Some? && s == "~" ==> r == home.value
  {
    match home
    case None => s
    case Some(h) =>
      if s == "~" then h
      else
        var t := if HasPrefix(s, "~/") then FilePath.Join(h, s[2..]) else s;
        ReplaceAll(t, " ~/", " " + h + "/")
  }

  /** `ExpandEnvVars`: variables first, then tildes when the result has one. */
  function ExpandEnvVars(s: string, env: map<string, string>): (r: string)
    ensures s == "" ==> r == ""
    ensures Host.HomeOf(env).None? ==> r == ExpandEnv(s, env)
  {
    if s == "" then s
    else
      var t := ExpandEnv(s, env);
      if Contains(t, "~") then ExpandAllTildes(t, Host.HomeOf(env)) else t
  }

  /** `expandTilde`: only `~` itself or a leading `~/` is rewritten. */
  function ExpandTilde(path: string, home: Option<string>): (r: string)
    ensures !HasPrefix(path, "~") || home.None? ==> r == path
    ensures path != "~" && !HasPrefix(path, "~/") ==> r == path
    ensures home.Some? && path == "~" ==> r == home.value
    ensures home.Some? && HasPrefix(path, "~/") ==> r == FilePath.Join(home.value, path[2..])
  {
    if !HasPrefix(path, "~") then path
    else
      match home
      case None => path
      case Some(h) =>
        if path == "~" then h
        else if HasPrefix(path, "~/") then FilePath.Join(h, path[2..])
        else path
  }

  // ---- Lemmas ----

  /** Text without `$` passes through `os.ExpandEnv` unchanged. */
  lemma {:induction false} ExpandEnvNoDollar(s: string, env: map<string, string>)
    requires '$' !in s
    ensures ExpandEnv(s, env) == s
    decreases |s|
  {
    if s != [] {
      ExpandEnvNoDollar(s[1..], env);
      assert s == [s[0]] + s[1..];
    }
  }

  /** `${name}` expands to the variable's value, the empty string when it is unset. */
  lemma ExpandEnvBraced(name: string, rest: string, env: map<string, string>)
    requires name != "" && '}' !in name
    ensures ExpandEnv("${" + name + "}" + rest, env) == Host.Lookup(env, name) + ExpandEnv(rest, env)
    ensures name !in env ==> ExpandEnv("${" + name + "}" + rest, env) == ExpandEnv(rest, env)
  {
    var s := "${" + name + "}" + rest;
    var t := s[1..];
    assert t == "{" + name + "}" + rest;
    var close := |name| + 1;
    assert t[close] == '}';
    assert forall j :: 1 <= j < close ==> t[j] == name[j - 1];
    if |t| > 2 && IsSpecialVar(t[1]) && t[2] == '}' {
      assert |name| == 1 && t[1..2] == name;
    } else {
      assert IndexFrom(t, '}', 1) == close;
      assert t[1..close] == name;
    }
    assert ShellName(t) == (name, close + 1);
    assert s[1 + close + 1..] == rest;
  }

  /** `$name` for a name starting with a letter or `_` expands to the variable's value. */
  lemma ExpandEnvPlain(name: string, rest: string, env: map<string, string>)
    requires name != [] && name[0] != '$' && !('0' <= name[0] <= '9')
    requires forall j :: 0 <= j < |name| ==> IsAlphaNum(name[j])
    requires rest == [] || !IsAlphaNum(rest[0])
    ensures ExpandEnv("$" + name + rest, env) == Host.Lookup(env, name) + ExpandEnv(rest, env)
  {
    var s := "$" + name + rest;
    var t := s[1..];
    assert t == name + rest;
    assert t[0] == name[0] && !IsSpecialVar(t[0]) && t[0] != '{';
    assert forall j :: 0 <= j < |name| ==> t[j] == name[j];
    assert AlnumPrefix(t) == |name| by {
      AlnumPrefixOf(name, rest);
    }
    assert t[..|name|] == name;
    assert s[1 + |name|..] == rest;
  }

  lemma {:induction false} AlnumPrefixOf(name: string, rest: string)
    requires forall j :: 0 <= j < |name| ==> IsAlphaNum(name[j])
    requires rest == [] || !IsAlphaNum(rest[0])
    ensures AlnumPrefix(name + rest) == |name|
    decreases |name|
  {
    if name != [] {
      AlnumPrefixOf(name[1..], rest);
      assert (name + rest)[1..] == name[1..] + rest;
    } else {
      assert name + rest == rest;
    }
  }

  /** A `$` not followed by a name, a brace or a special character is kept. */
  lemma ExpandEnvLoneDollar(rest: string, env: map<string, string>)
    requires rest != [] && rest[0] != '{' && !IsSpecialVar(rest[0]) && !IsAlphaNum(rest[0])
    ensures ExpandEnv("$" + rest, env) == "$" + ExpandEnv(rest, env)
  {
    var s := "$" + rest;
    assert s[1..] == rest;
    assert ShellName(rest) == ("", 0);
  }

  /** Text with neither `$` nor `~` is unchanged by `ExpandEnvVars`. */
  lemma ExpandEnvVarsPlain(s: string, env: map<string, string>)
    requires '$' !in s && '~' !in s
    ensures ExpandEnvVars(s, env) == s
  {
    if s != "" {
      ExpandEnvNoDollar(s, env);
      NotContainsChar(s, "~", '~');
    }
  }

  /** Variables are expanded before tildes: a value starting `~/` reaches the home directory. */
  lemma ExpandEnvVarsOrder(name: string, env: map<string, string>, rest: string)
    requires name != "" && '}' !in name
    requires Host.Lookup(env, name) == "~/" + rest
    ensures ExpandEnvVars("${" + name + "}", env) == ExpandAllTildes("~/" + rest, Host.HomeOf(env))
  {
    ExpandEnvBraced(name, "", env);
    ExpandEnvNoDollar("", env);
    var t := "~/" + rest;
    assert ExpandEnv("${" + name + "}" + "", env) == t;
    assert "${" + name + "}" + "" == "${" + name + "}";
    assert HasPrefix(t, "~");
  }

  /**
   * Variables are expanded before tildes, for every input: the `Contains`
   * test only skips tilde expansion where it would change nothing.
   */
  lemma VarsThenTildes(s: string, env: map<string, string>)
    ensures ExpandEnvVars(s, env) == ExpandAllTildes(ExpandEnv(s, env), Host.HomeOf(env))
  {
    var t := ExpandEnv(s, env);
    if s == "" || !Contains(t, "~") {
      if s != "" {
        NoTildeChar(t);
      }
      TildesIdle(t, Host.HomeOf(env));
    }
  }

  /** Text in which `strings.Contains` finds no `~` holds no `~` at all. */
  lemma NoTildeChar(t: string)
    requires !Contains(t, "~")
    ensures '~' !in t
  {
  }

  /** Tilde expansion leaves text without `~` as it is. */
  lemma TildesIdle(t: string, home: Option<string>)
    requires '~' !in t
    ensures ExpandAllTildes(t, home) == t
  {
    if home.Some? {
      if t != [] {
        assert t[0] != '~';
      }
      NotContainsChar(t, " ~/", '~');
      ReplaceAllAbsent(t, " ~/", " " + home.value + "/");
    }
  }

  /** A leading `~/` becomes `<home>/...` when no space is involved. */
  lemma LeadingTilde(rest: string, h: string)
    requires ' ' !in rest && ' ' !in h
    ensures ExpandAllTildes("~/" + rest, Some(h)) == FilePath.Join(h, rest)
  {
    var s := "~/" + rest;
    assert HasPrefix(s, "~/") && s[2..] == rest;
    var t := FilePath.Join(h, rest);
    assert ' ' !in t;
    NotContainsChar(t, " ~/", ' ');
    ReplaceAllAbsent(t, " ~/", " " + h + "/");
  }

  /** In a command, ` ~/` after a first word free of spaces and tildes becomes ` <home>/`. */
  lemma CommandTilde(cmd: string, rest: string, h: string)
    requires ' ' !in cmd && '~' !in cmd
    ensures ExpandAllTildes(cmd + " ~/" + rest, Some(h))
         == cmd + " " + h + "/" + ReplaceAll(rest, " ~/", " " + h + "/")
  {
    var s := cmd + " ~/" + rest;
    if |s| >= 2 {
      assert s[0] != '~' by {
        if cmd != [] { assert s[0] == cmd[0]; } else { assert s[0] == ' '; }
      }
      assert s[..2] != "~/";
    }
    assert s != "~";
    ReplaceAllSplice(cmd, rest, " ~/", " " + h + "/");
    assert cmd + " " + h + "/" + ReplaceAll(rest, " ~/", " " + h + "/")
        == cmd + (" " + h + "/") + ReplaceAll(rest, " ~/", " " + h + "/");
  }

  /** For a single path without spaces, the legacy `expandTilde` agrees with `expandAllTildes`. */
  lemma TildeExpansionsAgree(path: string, home: Option<string>)
    requires ' ' !in path && (home.Some? ==> ' ' !in home.value)
    ensures ExpandAllTildes(path, home) == ExpandTilde(path, home)
  {
    match home
    case None =>
    case Some(h) =>
      if path != "~" {
        var t := if HasPrefix(path, "~/") then FilePath.Join(h, path[2..]) else path;
        if HasPrefix(path, "~/") {
          assert forall c :: c in path[2..] ==> c in path;
        }
        assert ' ' !in t;
        NotContainsChar(t, " ~/", ' ');
        ReplaceAllAbsent(t, " ~/", " " + h + "/");
      }
  }
}
