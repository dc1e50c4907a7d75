/** License-key login (src/auth/auth-manager.ts). The saved credentials are a field, the clock
    is a parameter (milliseconds since the epoch), and the usage tracker is the one of
    `UsageTracker`. Keys are classified locally by their prefix; no server is consulted. */
module AuthManager {
  import opened Wrappers
  import opened Strings
  import UsageTracker

  datatype User = User(email: string, plan: UsageTracker.Plan, id: string)

  datatype Limits = Limits(validationsPerMonth: int, currentUsage: int)

  datatype LoginResult = LoginResult(user: User, limits: Limits)

  /** The saved credentials; the two instants are milliseconds since the epoch. */
  datatype AuthData = AuthData(licenseKey: string, user: User, expiresAt: int, lastValidated: int)

  datatype UsageSummary = UsageSummary(current: int, limit: int)

  datatype AuthStatus = AuthStatus(
    authenticated: bool,
    licenseKey: Option<string>,
    user: Option<User>,
    usage: Option<UsageSummary>)

  const Unauthenticated: AuthStatus := AuthStatus(false, None, None, None)

  /** How long a login lasts: 30 days. */
  const LoginLifetimeMs: int := 30 * 24 * 60 * 60 * 1000

  const KeyPrefix: string := "rpl_"
  const FreePrefix: string := "rpl_free_"
  const ProPrefix: string := "rpl_pro_"

  const FormatError: string := "Invalid license key format"
  const KeyError: string := "Invalid license key"
  const LoginFailed: string := "Login failed: "

  /** `isValidLicenseKeyFormat`. */
  predicate IsValidLicenseKeyFormat(licenseKey: string)
  {
    StartsWith(licenseKey, KeyPrefix) && |licenseKey| >= 10
  }

  /** `validateLicenseKey`: the free and pro prefixes are checked first, then any other key
      with the general prefix and more than ten characters is a free demo key. */
  function ValidateLicenseKey(licenseKey: string): Result<LoginResult>
  {
    if StartsWith(licenseKey, FreePrefix) then
      Ok(LoginResult(User("user@example.com", UsageTracker.Free, "user_123"), Limits(50, 0)))
    else if StartsWith(licenseKey, ProPrefix) then
      Ok(LoginResult(User("pro@example.com", UsageTracker.Pro, "user_456"), Limits(-1, 0)))
    else if StartsWith(licenseKey, KeyPrefix) && |licenseKey| > 10 then
      Ok(LoginResult(User("demo@example.com", UsageTracker.Free, "user_demo"), Limits(50, 0)))
    else Err(KeyError)
  }

  /** What `login` returns or throws: the format is checked before validation, and every
      failure is reported with the `Login failed: ` prefix. */
  function LoginOutcome(licenseKey: string): Result<LoginResult>
  {
    if !IsValidLicenseKeyFormat(licenseKey) then Err(LoginFailed + FormatError)
    else match ValidateLicenseKey(licenseKey)
      case Ok(result) => Ok(result)
      case Err(message) => Err(LoginFailed + message)
  }

  /** Both specific prefixes extend the general one. */
  lemma PrefixesExtendKeyPrefix(licenseKey: string)
    ensures StartsWith(licenseKey, FreePrefix) ==> StartsWith(licenseKey, KeyPrefix)
    ensures StartsWith(licenseKey, ProPrefix) ==> StartsWith(licenseKey, KeyPrefix)
  {
    if StartsWith(licenseKey, FreePrefix) {
      assert licenseKey[..4] == licenseKey[..9][..4];
    }
    if StartsWith(licenseKey, ProPrefix) {
      assert licenseKey[..4] == licenseKey[..8][..4];
    }
  }

  /** The key's class: free keys give the free plan with 50 validations, pro keys the pro plan
      without a limit, other keys with the general prefix and more than ten characters the free
      demo plan, and every other key is refused. */
  lemma ValidateLicenseKeySpec(licenseKey: string)
    ensures var r := ValidateLicenseKey(licenseKey);
      (r.Err? <==> !StartsWith(licenseKey, FreePrefix) && !StartsWith(licenseKey, ProPrefix) &&
                   !(StartsWith(licenseKey, KeyPrefix) && |licenseKey| > 10)) &&
      (r.Err? ==> r.error == KeyError) &&
      (r.Ok? ==> StartsWith(licenseKey, KeyPrefix) && r.value.limits.currentUsage == 0) &&
      (r.Ok? && r.value.user.plan == UsageTracker.Pro <==> StartsWith(licenseKey, ProPrefix) && !StartsWith(licenseKey, FreePrefix)) &&
      (r.Ok? ==> (r.value.user.plan == UsageTracker.Pro <==> r.value.limits.validationsPerMonth == -1))
  {
    PrefixesExtendKeyPrefix(licenseKey);
  }

  /** A login succeeds exactly for a well-formed key that validation accepts; a failure always
      carries the `Login failed: ` prefix, and a malformed key fails on its format whatever its
      prefix. */
  lemma LoginOutcomeSpec(licenseKey: string)
    ensures var r := LoginOutcome(licenseKey);
      (r.Ok? <==> IsValidLicenseKeyFormat(licenseKey) && ValidateLicenseKey(licenseKey).Ok?) &&
      (r.Ok? ==> r == ValidateLicenseKey(licenseKey)) &&
      (r.Err? ==> StartsWith(r.error, LoginFailed)) &&
      (!IsValidLicenseKeyFormat(licenseKey) ==> r == Err(LoginFailed + FormatError))
  {
    var r := LoginOutcome(licenseKey);
    if r.Err? {
      assert r.error[..|LoginFailed|] == LoginFailed;
    }
  }

  /** A key of exactly ten characters with the general prefix and neither specific one passes
      the format check and is still refused: the format asks for at least ten characters,
      validation for more than ten. */
  lemma LengthTenGap(licenseKey: string)
    requires |licenseKey| == 10 && StartsWith(licenseKey, KeyPrefix)
    requires !StartsWith(licenseKey, FreePrefix) && !StartsWith(licenseKey, ProPrefix)
    ensures IsValidLicenseKeyFormat(licenseKey)
    ensures LoginOutcome(licenseKey) == Err(LoginFailed + KeyError)
  {
  }

  /** `rpl_abcdef` is such a key. */
  lemma LengthTenExample()
    ensures IsValidLicenseKeyFormat("rpl_abcdef") && LoginOutcome("rpl_abcdef").Err?
  {
    var k := "rpl_abcdef";
    assert k[..4] == KeyPrefix;
    assert k[..8] != ProPrefix by { assert k[4] != ProPrefix[4]; }
    assert k[..9] != FreePrefix by { assert k[4] != FreePrefix[4]; }
    LengthTenGap(k);
  }

  /** The status for saved credentials at time `nowMs`: none, or expired ones, leave the user
      unauthenticated. */
  function StatusOf(auth: Option<AuthData>, nowMs: int, usage: UsageTracker.UsageInfo): AuthStatus
  {
    if auth.None? || auth.value.expiresAt < nowMs then Unauthenticated
    else AuthStatus(true, Some(auth.value.licenseKey), Some(auth.value.user), Some(UsageSummary(usage.current, usage.limit)))
  }

  /** `AuthManager`, holding the credentials it would otherwise keep in its file. */
  class Manager {
    var auth: Option<AuthData>
    const usageTracker: UsageTracker.Tracker

    constructor(month: string, now: string)
      ensures auth.None? && fresh(usageTracker)
      ensures usageTracker.data == UsageTracker.DefaultData(month, now)
    {
      auth := None;
      usageTracker := new UsageTracker.Tracker(month, now);
    }

    /** `login` at time `nowMs`: on success the credentials are saved for 30 days and the
        usage record takes the key's plan and the key; on failure nothing changes. */
    method Login(licenseKey: string, nowMs: int) returns (r: Result<LoginResult>)
      modifies this, usageTracker
      ensures r == LoginOutcome(licenseKey)
      ensures r.Ok? ==> auth == Some(AuthData(licenseKey, r.value.user, nowMs + LoginLifetimeMs, nowMs))
      ensures r.Ok? ==> usageTracker.data == UsageTracker.WithPlan(old(usageTracker.data), r.value.user.plan, Some(licenseKey))
      ensures r.Err? ==> auth == old(auth) && usageTracker.data == old(usageTracker.data)
    {
      if !IsValidLicenseKeyFormat(licenseKey) {
        return Err(LoginFailed + FormatError);
      }
      var validated := ValidateLicenseKey(licenseKey);
      if validated.Err? {
        return Err(LoginFailed + validated.error);
      }
      var result := validated.value;
      auth := Some(AuthData(licenseKey, result.user, nowMs + LoginLifetimeMs, nowMs));
      usageTracker.UpdatePlan(result.user.plan, Some(licenseKey));
      return Ok(result);
    }

    /** `logout`. */
    method Logout()
      modifies this
      ensures auth.None?
    {
      auth := None;
    }

    /** `getStatus` at time `nowMs` in `month`: expired credentials are removed. */
    method GetStatus(nowMs: int, month: string, now: string, resetDate: string) returns (status: AuthStatus)
      modifies this, usageTracker
      ensures auth == (if old(auth).Some? && old(auth).value.expiresAt < nowMs then None else old(auth))
      ensures status == StatusOf(old(auth), nowMs, UsageTracker.UsageOf(usageTracker.data, resetDate))
      ensures status.authenticated ==> usageTracker.data == UsageTracker.InMonth(old(usageTracker.data), month, now)
      ensures !status.authenticated ==> usageTracker.data == old(usageTracker.data)
    {
      if auth.None? {
        return Unauthenticated;
      }
      if auth.value.expiresAt < nowMs {
        Logout();
        return Unauthenticated;
      }
      var usage := usageTracker.GetUsage(month, now, resetDate);
      status := AuthStatus(true, Some(auth.value.licenseKey), Some(auth.value.user), Some(UsageSummary(usage.current, usage.limit)));
    }
  }

  /** Logging in with a key and asking for the status before the 30 days are over reports that
      key and its plan. */
  lemma LoginThenStatus(licenseKey: string, nowMs: int, laterMs: int, usage: UsageTracker.UsageInfo)
    requires LoginOutcome(licenseKey).Ok? && laterMs <= nowMs + LoginLifetimeMs
    ensures var result := LoginOutcome(licenseKey).value;
      var status := StatusOf(Some(AuthData(licenseKey, result.user, nowMs + LoginLifetimeMs, nowMs)), laterMs, usage);
      status.authenticated && status.licenseKey == Some(licenseKey) &&
      status.user.value.plan == (if StartsWith(licenseKey, ProPrefix) && !StartsWith(licenseKey, FreePrefix)
                                 then UsageTracker.Pro else UsageTracker.Free)
  {
    ValidateLicenseKeySpec(licenseKey);
  }
}
