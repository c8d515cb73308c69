/**
 * `$HOME` and `~` expansion of utils/path.go. A single path has every
 * `$HOME` replaced and then a leading `~/` or a lone `~` rewritten; a
 * command with spaces is split into whitespace fields, each field expanded
 * in place, and the fields joined again with single spaces.
 */
module PathExpand {
  import opened GoStrings
  import FilePath
  import Host

  /** `expandSinglePath`. */
  function ExpandSinglePath(path: string, home: string): (r: string)
    ensures path == "" ==> r == ""
  {
    if path == "" then path
    else
      var p := if Contains(path, "$HOME") then ReplaceAll(path, "$HOME", home) else path;
      if HasPrefix(p, "~/") then FilePath.Join(home, p[2..])
      else if p == "~" then home
      else p
  }

  /** Each field expanded, in order. */
  function ExpandEach(parts: seq<string>, home: string): (r: seq<string>)
    ensures |r| == |parts|
    ensures forall i :: 0 <= i < |parts| ==> r[i] == ExpandSinglePath(parts[i], home)
  {
    if parts == [] then [] else [ExpandSinglePath(parts[0], home)] + ExpandEach(parts[1..], home)
  }

  /** What `ExpandPath` returns, for the environment `env`. */
  function ExpandedPath(path: string, env: map<string, string>): (r: string)
    ensures path == "" || Host.Lookup(env, "HOME") == "" ==> r == path
  {
    var home := Host.Lookup(env, "HOME");
    if path == "" || home == "" then path
    else if Contains(path, " ") then Join(ExpandEach(Fields(path), home), " ")
    else ExpandSinglePath(path, home)
  }

  /** `ExpandPath`: the fields of a command are rewritten in place, one by one. */
  method ExpandPath(path: string, env: map<string, string>) returns (r: string)
    ensures r == ExpandedPath(path, env)
  {
    if path == "" {
      return path;
    }
    var home := Host.Lookup(env, "HOME");
    if home == "" {
      return path;
    }
    if Contains(path, " ") {
      var parts := ExpandFields(Fields(path), home);
      return Join(parts, " ");
    }
    return ExpandSinglePath(path, home);
  }

  /** The loop of `ExpandPath`: `parts[i] = expandSinglePath(part, homeDir)` for each field. */
  method ExpandFields(fields: seq<string>, home: string) returns (r: seq<string>)
    ensures r == ExpandEach(fields, home)
  {
    var parts := new string[|fields|](i requires 0 <= i < |fields| => fields[i]);
    for i := 0 to parts.Length
      invariant parts[..i] == ExpandEach(fields[..i], home)
      invariant parts[i..] == fields[i..]
    {
      assert fields[..i + 1] == fields[..i] + [fields[i]];
      ExpandEachAppend(fields[..i], fields[i], home);
      parts[i] := ExpandSinglePath(parts[i], home);
      assert parts[..i + 1] == parts[..i] + [parts[i]];
    }
    assert fields[..|fields|] == fields;
    r := parts[..];
  }

  lemma {:induction false} ExpandEachAppend(parts: seq<string>, p: string, home: string)
    ensures ExpandEach(parts + [p], home) == ExpandEach(parts, home) + [ExpandSinglePath(p, home)]
  {
  }

  // ---- Lemmas ----

  /** Every `$HOME` is replaced, wherever it occurs. */
  lemma HomeReplaced(a: string, b: string, home: string)
    requires '$' !in a
    requires a + home != "" && (a + home)[0] != '~'
    ensures ExpandSinglePath(a + "$HOME" + b, home) == a + home + ReplaceAll(b, "$HOME", home)
  {
    var path := a + "$HOME" + b;
    assert path[|a|..|a| + 5] == "$HOME";
    ContainsAt(path, "$HOME", |a|);
    ReplaceAllSplice(a, b, "$HOME", home);
    var p := a + home + ReplaceAll(b, "$HOME", home);
    assert p[0] == (a + home)[0];
    if |p| >= 2 {
      assert p[..2][0] == p[0];
    }
  }

  /** A leading `~/` becomes the home directory joined with the rest. */
  lemma LeadingTilde(rest: string, home: string)
    requires '$' !in rest
    ensures ExpandSinglePath("~/" + rest, home) == FilePath.Join(home, rest)
    ensures ExpandSinglePath("~", home) == home
  {
    var path := "~/" + rest;
    assert '$' !in path;
    NotContainsChar(path, "$HOME", '$');
    NotContainsChar("~", "$HOME", '$');
    assert HasPrefix(path, "~/") && path[2..] == rest;
  }

  /** A path with neither `$HOME` nor a leading `~` is returned as it is. */
  lemma Untouched(path: string, home: string)
    requires !Contains(path, "$HOME")
    requires !HasPrefix(path, "~")
    ensures ExpandSinglePath(path, home) == path
  {
    assert |path| >= 2 ==> path[..2][0] == path[0];
    assert |path| >= 1 ==> path[..1][0] == path[0];
  }

  /** Two words separated by any run of white space containing a space: each is expanded, then joined by one space. */
  lemma CommandFields(w1: string, sp: string, w2: string, env: map<string, string>)
    requires w1 != [] && NoSpace(w1) && w2 != [] && NoSpace(w2)
    requires sp != [] && AllSpace(sp) && ' ' in sp
    requires Host.Lookup(env, "HOME") != ""
    ensures var home := Host.Lookup(env, "HOME");
            ExpandedPath(w1 + sp + w2, env) == ExpandSinglePath(w1, home) + " " + ExpandSinglePath(w2, home)
  {
    var path := w1 + sp + w2;
    var k :| 0 <= k < |sp| && sp[k] == ' ';
    assert path[|w1| + k..|w1| + k + 1] == " ";
    ContainsAt(path, " ", |w1| + k);
    FieldsTwo(w1, sp, w2);
    var home := Host.Lookup(env, "HOME");
    var e := ExpandEach([w1, w2], home);
    var x, y := ExpandSinglePath(w1, home), ExpandSinglePath(w2, home);
    assert e == [x, y];
    assert [x, y][1..] == [y];
    assert Join([x, y], " ") == x + " " + y;
  }
}
