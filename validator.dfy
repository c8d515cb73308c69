/**
 * Configuration validation of config/validator.go: a checker that returns
 * the first failing rule's message, over the Git section, the iOS section
 * and the App Store Connect credentials. `os.Stat` is the host's set of
 * existing paths; the key paths are expanded against the host environment.
 */
module Validator {
  import opened Wrappers
  import opened Configuration
  import opened Expand
  import opened Host

  const ValidSDKs: seq<string> := ["iphoneos", "iphonesimulator", "macosx"]
  const ValidExportMethods: seq<string> := ["app-store", "ad-hoc", "development", "enterprise"]

  const ConfigurationMessage: string := "ios.configuration must be 'Debug' or 'Release'"
  const SDKMessage: string := "ios.sdk must be one of: iphoneos, iphonesimulator, macosx"
  const ExportMethodMessage: string := "ios.export_method must be one of: app-store, ad-hoc, development, enterprise"

  // ---- The rules, stated declaratively ----

  predicate AuthValid(g: GitConfig, h: Host)
    reads h
  {
    (g.authType == "token" && g.token != "")
    || (g.authType == "basic" && g.userName != "" && g.password != "")
    || (g.authType == "ssh" && g.sshKeyPath != "" && h.Exists(ExpandEnvVars(g.sshKeyPath, h.env)))
  }

  predicate HasAPIKey(a: AppStoreConnectConfig) {
    a.apiKeyId != "" && a.apiIssuerId != "" && a.apiKeyPath != ""
  }

  predicate HasAppleID(a: AppStoreConnectConfig) {
    a.appleId != "" && a.appSpecificPassword != ""
  }

  predicate AppStoreConnectValid(a: AppStoreConnectConfig, h: Host)
    reads h
  {
    (HasAPIKey(a) || HasAppleID(a))
    && (HasAPIKey(a) ==> h.Exists(ExpandEnvVars(a.apiKeyPath, h.env)))
  }

  predicate IOSValid(i: IOSConfig, a: AppStoreConnectConfig, h: Host)
    reads h
  {
    i.scheme != ""
    && (i.automaticSigning || (i.provisioningProfile != "" && i.codeSignIdentity != ""))
    && i.configuration in {"", "Debug", "Release"}
    && (i.sdk == "" || i.sdk in ValidSDKs)
    && (i.exportMethod == "" || i.exportMethod in ValidExportMethods)
    && (i.uploadToTestFlight ==> AppStoreConnectValid(a, h))
  }

  predicate ConfigValid(g: GitConfig, p: ProjectConfig, b: BuildConfig, i: IOSConfig,
                        a: AppStoreConnectConfig, h: Host)
    reads h
  {
    g.repoUrl != "" && p.projectType != "" && AuthValid(g, h)
    && (IsIOSLanguage(b.language) ==> IOSValid(i, a, h))
  }

  // ---- The checker: the first failing rule's message ----

  /** `validateAppStoreConnect`. */
  function AppStoreConnectError(a: AppStoreConnectConfig, h: Host): (r: Option<string>)
    reads h
    ensures r.None? <==> AppStoreConnectValid(a, h)
  {
    if !HasAPIKey(a) && !HasAppleID(a) then
      Some("app_store_connect credentials required for TestFlight upload. "
           + "Provide either (api_key_id, api_issuer_id, api_key_path) or (apple_id, app_specific_password)")
    else if HasAPIKey(a) && !h.Exists(ExpandEnvVars(a.apiKeyPath, h.env)) then
      Some("App Store Connect API key file not found at: " + ExpandEnvVars(a.apiKeyPath, h.env))
    else None
  }

  /** The manual-signing rules of `validateIOSConfig`: the profile is checked before the identity. */
  function SigningError(i: IOSConfig): (r: Option<string>)
    ensures r.None? <==> i.automaticSigning || (i.provisioningProfile != "" && i.codeSignIdentity != "")
    ensures !i.automaticSigning && i.provisioningProfile == "" ==>
      r == Some("ios.provisioning_profile is required when automatic_signing is false")
  {
    if !i.automaticSigning && i.provisioningProfile == "" then
      Some("ios.provisioning_profile is required when automatic_signing is false")
    else if !i.automaticSigning && i.codeSignIdentity == "" then
      Some("ios.code_sign_identity is required when automatic_signing is false")
    else None
  }

  /** The allowed-values rules of `validateIOSConfig`: configuration, then SDK, then export method. */
  function ValuesError(i: IOSConfig): (r: Option<string>)
    ensures r.None? <==>
      i.configuration in {"", "Debug", "Release"}
      && (i.sdk == "" || i.sdk in ValidSDKs)
      && (i.exportMethod == "" || i.exportMethod in ValidExportMethods)
  {
    if i.configuration != "" && i.configuration != "Debug" && i.configuration != "Release" then
      Some(ConfigurationMessage)
    else if i.sdk != "" && i.sdk !in ValidSDKs then
      Some(SDKMessage)
    else if i.exportMethod != "" && i.exportMethod !in ValidExportMethods then
      Some(ExportMethodMessage)
    else None
  }

  /** `validateIOSConfig`: scheme, signing, allowed values, then the upload credentials. */
  function IOSConfigError(i: IOSConfig, a: AppStoreConnectConfig, h: Host): (r: Option<string>)
    reads h
    ensures r.None? <==> IOSValid(i, a, h)
    ensures i.scheme != "" && !i.automaticSigning && i.provisioningProfile == "" ==>
      r == Some("ios.provisioning_profile is required when automatic_signing is false")
  {
    if i.scheme == "" then Some("ios.scheme is required for iOS projects")
    else if SigningError(i).Some? then SigningError(i)
    else if ValuesError(i).Some? then ValuesError(i)
    else if i.uploadToTestFlight then AppStoreConnectError(a, h)
    else None
  }

  /** The Git authentication rules of `Validate`. */
  function AuthError(g: GitConfig, h: Host): (r: Option<string>)
    reads h
    ensures r.None? <==> AuthValid(g, h)
  {
    match g.authType
    case "token" =>
      if g.token == "" then Some("git.token is required when auth_type is 'token'") else None
    case "basic" =>
      if g.userName == "" || g.password == "" then
        Some("git.username and git.password are required when auth_type is 'basic'")
      else None
    case "ssh" =>
      if g.sshKeyPath == "" then Some("git.ssh_key_path is required when auth_type is 'ssh'")
      else
        var expanded := ExpandEnvVars(g.sshKeyPath, h.env);
        if !h.Exists(expanded) then
          Some("SSH key not found at: " + expanded + " (expanded from: " + g.sshKeyPath + ")")
        else None
    case _ => Some("git.auth_type must be 'token', 'basic', or 'ssh'")
  }

  /** `Validate`: repository URL, then project type, then authentication, then the iOS rules. */
  function ValidationError(g: GitConfig, p: ProjectConfig, b: BuildConfig, i: IOSConfig,
                           a: AppStoreConnectConfig, h: Host): (r: Option<string>)
    reads h
    ensures r.None? <==> ConfigValid(g, p, b, i, a, h)
    ensures g.repoUrl == "" ==> r == Some("git.repo_url is required")
    ensures g.repoUrl != "" && p.projectType == "" ==> r == Some("project.type is required")
    ensures g.repoUrl != "" && p.projectType != "" && !AuthValid(g, h) ==> r == AuthError(g, h)
  {
    if g.repoUrl == "" then Some("git.repo_url is required")
    else if p.projectType == "" then Some("project.type is required")
    else if AuthError(g, h).Some? then AuthError(g, h)
    else if IsIOSLanguage(b.language) then IOSConfigError(i, a, h)
    else None
  }

  // ---- The methods as the source writes them ----

  /** The `isValid` loop: a linear search that stops at the first match. */
  method IsOneOf(value: string, allowed: seq<string>) returns (isValid: bool)
    ensures isValid <==> value in allowed
  {
    isValid := false;
    for k := 0 to |allowed|
      invariant !isValid && value !in allowed[..k]
    {
      if value == allowed[k] {
        isValid := true;
        break;
      }
      assert allowed[..k + 1] == allowed[..k] + [allowed[k]];
    }
    if !isValid {
      assert allowed[..|allowed|] == allowed;
    }
  }

  /** `validateIOSConfig` over the configuration object. */
  method ValidateIOSConfig(c: Config, h: Host) returns (err: Option<string>)
    ensures err == IOSConfigError(c.ios, c.appStoreConnect, h)
  {
    var i := c.ios;
    if i.scheme == "" {
      return Some("ios.scheme is required for iOS projects");
    }
    if !i.automaticSigning {
      if i.provisioningProfile == "" {
        return Some("ios.provisioning_profile is required when automatic_signing is false");
      }
      if i.codeSignIdentity == "" {
        return Some("ios.code_sign_identity is required when automatic_signing is false");
      }
    }
    err := CheckValues(i);
    if err.Some? {
      return;
    }
    if i.uploadToTestFlight {
      err := AppStoreConnectError(c.appStoreConnect, h);
    }
  }

  /** The configuration, SDK and export-method checks, with the `isValid` loops. */
  method CheckValues(i: IOSConfig) returns (err: Option<string>)
    ensures err == ValuesError(i)
  {
    if i.configuration != "" {
      if i.configuration != "Debug" && i.configuration != "Release" {
        return Some(ConfigurationMessage);
      }
    }
    if i.sdk != "" {
      var isValid := IsOneOf(i.sdk, ValidSDKs);
      if !isValid {
        return Some(SDKMessage);
      }
    }
    if i.exportMethod != "" {
      var isValid := IsOneOf(i.exportMethod, ValidExportMethods);
      if !isValid {
        return Some(ExportMethodMessage);
      }
    }
    return None;
  }

  /** `Validate` over the configuration object. */
  method Validate(c: Config, h: Host) returns (err: Option<string>)
    ensures err == ValidationError(c.git, c.project, c.build, c.ios, c.appStoreConnect, h)
  {
    if c.git.repoUrl == "" {
      return Some("git.repo_url is required");
    }
    if c.project.projectType == "" {
      return Some("project.type is required");
    }
    var authErr := AuthError(c.git, h);
    if authErr.Some? {
      return authErr;
    }
    if IsIOSLanguage(c.build.language) {
      var e := ValidateIOSConfig(c, h);
      if e.Some? {
        return e;
      }
    }
    return None;
  }

  // ---- Lemmas ----

  /** The iOS and App Store Connect sections are ignored for other languages. */
  lemma OtherLanguagesIgnoreIOS(g: GitConfig, p: ProjectConfig, b: BuildConfig, i1: IOSConfig, i2: IOSConfig,
                                a1: AppStoreConnectConfig, a2: AppStoreConnectConfig, h: Host)
    requires !IsIOSLanguage(b.language)
    ensures ValidationError(g, p, b, i1, a1, h) == ValidationError(g, p, b, i2, a2, h)
  {
  }

  /** App Store Connect credentials are checked only when upload is enabled. */
  lemma CredentialsOnlyForUpload(i: IOSConfig, a1: AppStoreConnectConfig, a2: AppStoreConnectConfig, h: Host)
    requires !i.uploadToTestFlight
    ensures IOSConfigError(i, a1, h) == IOSConfigError(i, a2, h)
  {
  }
}
