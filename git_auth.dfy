/**
 * Git authentication helpers of git/auth.go: the URL check and routing by
 * auth type, the `http.extraheader` Basic-authorization header over the
 * standard base64 of the credentials, and the project directory name of a
 * repository URL.
 */
module GitAuth {
  import opened Wrappers
  import opened GoStrings
  import Base64
  import opened Configuration

  const HeaderPrefix: string := "http.extraheader=AUTHORIZATION: Basic "

  predicate IsHttpUrl(url: string) {
    HasPrefix(url, "http://") || HasPrefix(url, "https://")
  }

  /** `buildBasicTokenURL`: the URL must be HTTP(S); it is returned without credentials. */
  function BuildBasicTokenURL(g: GitConfig): (r: Result<string>)
    ensures r.Ok? <==> IsHttpUrl(g.repoUrl)
    ensures r.Ok? ==> r.value == g.repoUrl
    ensures g.repoUrl == "" ==> r == Err("repo_url is empty")
  {
    if |g.repoUrl| == 0 then Err("repo_url is empty")
    else if !IsHttpUrl(g.repoUrl) then Err("repo_url must start with http:// or https:// for token/basic auth")
    else Ok(g.repoUrl)
  }

  /** `BuildAuthURL`, with `token` and `basic` both routed to `buildBasicTokenURL`. */
  function BuildAuthURL(g: GitConfig): (r: Result<string>)
    ensures r.Ok? ==> r.value == g.repoUrl
    ensures g.authType == "ssh" ==> r == Ok(g.repoUrl)
    ensures g.authType in {"token", "basic"} ==> (r.Ok? <==> IsHttpUrl(g.repoUrl))
    ensures g.authType !in {"token", "basic", "ssh"} ==>
      r == Err("unsupported auth type: " + g.authType + " . Use 'token', 'basic' or 'ssh'")
  {
    match g.authType
    case "token" => BuildBasicTokenURL(g)
    case "basic" => BuildBasicTokenURL(g)
    case "ssh" => Ok(g.repoUrl)
    case _ => Err("unsupported auth type: " + g.authType + " . Use 'token', 'basic' or 'ssh'")
  }

  /** The text whose base64 the header carries: `token:` or `user:password`. */
  function Credentials(g: GitConfig): string {
    if g.authType == "token" then g.token + ":" else g.userName + ":" + g.password
  }

  /** `buildTokenAuthHeader`. */
  function BuildTokenAuthHeader(g: GitConfig): (r: Result<string>)
    ensures r.Err? <==> g.token == ""
  {
    if g.token == "" then Err("token is required when auth_type is 'token'")
    else Ok(HeaderPrefix + Base64.EncodeString(g.token + ":"))
  }

  /** `buildBasicAuthHeader`. */
  function BuildBasicAuthHeader(g: GitConfig): (r: Result<string>)
    ensures r.Err? <==> g.userName == "" || g.password == ""
  {
    if g.userName == "" || g.password == "" then
      Err("username and password must not be empty when auth_type is 'basic'")
    else Ok(HeaderPrefix + Base64.EncodeString(g.userName + ":" + g.password))
  }

  /** `GetAuthHeader`: SSH needs no header; an unknown type is an error. */
  function GetAuthHeader(g: GitConfig): (r: Result<string>)
    ensures g.authType == "ssh" ==> r == Ok("")
    ensures r.Err? <==>
      (g.authType == "token" && g.token == "")
      || (g.authType == "basic" && (g.userName == "" || g.password == ""))
      || g.authType !in {"token", "basic", "ssh"}
    ensures g.authType !in {"token", "basic", "ssh"} ==> r == Err("unsupported auth type: " + g.authType)
  {
    match g.authType
    case "token" => BuildTokenAuthHeader(g)
    case "basic" => BuildBasicAuthHeader(g)
    case "ssh" => Ok("")
    case _ => Err("unsupported auth type: " + g.authType)
  }

  /** `GetProjectDirName`: the last `/`-separated piece, after removing one `.git`. */
  function GetProjectDirName(repoUrl: string): (r: string)
    ensures '/' !in r
  {
    var parts := Split(TrimSuffix(repoUrl, ".git"), '/');
    parts[|parts| - 1]
  }

  // ---- Lemmas ----

  /** A successful token or basic header decodes back to the UTF-8 bytes of the credentials. */
  lemma HeaderDecodes(g: GitConfig)
    requires g.authType in {"token", "basic"} && GetAuthHeader(g).Ok?
    ensures var h := GetAuthHeader(g).value;
            HasPrefix(h, HeaderPrefix)
            && Base64.Decode(h[|HeaderPrefix|..]) == Some(Base64.Utf8(Credentials(g)))
  {
    var h := GetAuthHeader(g).value;
    var body := Base64.EncodeString(Credentials(g));
    assert h == HeaderPrefix + body;
    assert h[..|HeaderPrefix|] == HeaderPrefix && h[|HeaderPrefix|..] == body;
    Base64.DecodeEncode(Base64.Utf8(Credentials(g)));
  }

  /** The directory name is what follows the last `/` of the URL without its `.git`. */
  lemma ProjectDirNameIsLastSegment(repoUrl: string)
    ensures AfterLastSep(TrimSuffix(repoUrl, ".git"), GetProjectDirName(repoUrl), '/')
  {
    SplitLast(TrimSuffix(repoUrl, ".git"), '/');
  }

  /** A URL ending in `/` names no directory, and neither does the empty URL. */
  lemma ProjectDirNameEmpty(repoUrl: string)
    requires repoUrl == "" || HasSuffix(repoUrl, "/")
    ensures GetProjectDirName(repoUrl) == ""
  {
    var s := TrimSuffix(repoUrl, ".git");
    var r := GetProjectDirName(repoUrl);
    if repoUrl == "" {
      assert s == "";
    } else {
      assert repoUrl[|repoUrl| - 1] == '/';
      assert |repoUrl| >= 4 ==> repoUrl[|repoUrl| - 4..][3] == '/';
      assert s == repoUrl;
      SplitTrailingSep(s, '/');
    }
  }

  /** A bare name without `/` or `.git` is its own directory name. */
  lemma ProjectDirNamePlain(repoUrl: string)
    requires '/' !in repoUrl && !HasSuffix(repoUrl, ".git")
    ensures GetProjectDirName(repoUrl) == repoUrl
  {
    SplitNoSep(repoUrl, '/');
  }

  /** One trailing `.git` is dropped from a bare name. */
  lemma ProjectDirNameDropsGit(name: string)
    requires '/' !in name && !HasSuffix(name, ".git")
    ensures GetProjectDirName(name + ".git") == name
  {
    var s := name + ".git";
    assert HasSuffix(s, ".git");
    assert TrimSuffix(s, ".git") == name;
    SplitNoSep(name, '/');
  }
}
