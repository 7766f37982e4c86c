/**
 * The DigitalOcean App Platform client: the app spec `createOpenClawApp`
 * posts, its token precondition and error text, and the fallbacks of the
 * status, restart and log calls. Each HTTP exchange is a parameter holding
 * its outcome; `JSON.stringify` of the instance configuration is a
 * parameter too.
 */
module DigitalOcean {
  import opened Common
  import opened Text
  import opened Schema

  datatype CreateAppParams = CreateAppParams(
    userId: int, userEmail: string, aiRole: string, tier: Tier,
    telegramBotToken: Option<string>, config: InstanceConfig)

  datatype ImageSpec = ImageSpec(registryType: string, repository: string, tag: string)
  datatype EnvVar = EnvVar(key: string, value: string, scope: string)
  datatype ServiceSpec = ServiceSpec(
    name: string, image: ImageSpec, instanceCount: nat, instanceSizeSlug: string,
    envs: seq<EnvVar>, httpPort: nat)
  datatype AppSpec = AppSpec(name: string, region: string, services: seq<ServiceSpec>)

  /** The instance slugs App Platform accepts, smallest first. */
  const ValidSlugs: seq<string> := ["basic-xxs", "basic-xs", "basic-s", "basic-m", "basic-l"]

  /** Instance size by tier: larger tiers get larger instances. */
  function InstanceSize(t: Tier): (slug: string)
    ensures slug == ValidSlugs[0] || slug == ValidSlugs[1] || slug == ValidSlugs[2]
  {
    match t
    case Starter => "basic-xxs"
    case Pro => "basic-xs"
    case Business => "basic-s"
  }

  /** Distinct tiers run on distinct sizes, in the order of `ValidSlugs`. */
  lemma InstanceSizeOrdered()
    ensures InstanceSize(Starter) == ValidSlugs[0]
    ensures InstanceSize(Pro) == ValidSlugs[1]
    ensures InstanceSize(Business) == ValidSlugs[2]
  {
  }

  /** `telegramBotToken || ''`. */
  function TokenOrEmpty(token: Option<string>): (s: string)
    ensures token.Some? ==> s == token.value
    ensures token.None? ==> s == ""
  {
    token.GetOr("")
  }

  const EnvKeys: seq<string> := ["USER_ID", "USER_EMAIL", "AI_ROLE", "TELEGRAM_BOT_TOKEN", "CONFIG_JSON"]

  function AppName(userId: int, nowMs: int): string {
    "openclaw-" + IntToString(userId) + "-" + IntToString(nowMs)
  }

  function Keys(envs: seq<EnvVar>): (keys: seq<string>)
    ensures |keys| == |envs| && forall i :: 0 <= i < |envs| ==> keys[i] == envs[i].key
  {
    seq(|envs|, i requires 0 <= i < |envs| => envs[i].key)
  }

  /** The five run-time variables handed to the container, in order. */
  function Envs(p: CreateAppParams, configJson: string): (envs: seq<EnvVar>)
    ensures Keys(envs) == EnvKeys
    ensures forall i :: 0 <= i < |envs| ==> envs[i].scope == "RUN_TIME"
    ensures envs[0].value == IntToString(p.userId)
    ensures envs[1].value == p.userEmail && envs[2].value == p.aiRole
    ensures envs[3].value == TokenOrEmpty(p.telegramBotToken) && envs[4].value == configJson
  {
    var envs := [ EnvVar("USER_ID", IntToString(p.userId), "RUN_TIME"),
      EnvVar("USER_EMAIL", p.userEmail, "RUN_TIME"),
      EnvVar("AI_ROLE", p.aiRole, "RUN_TIME"),
      EnvVar("TELEGRAM_BOT_TOKEN", TokenOrEmpty(p.telegramBotToken), "RUN_TIME"),
      EnvVar("CONFIG_JSON", configJson, "RUN_TIME")];
    assert Keys(envs) == EnvKeys by {
      assert |Keys(envs)| == |EnvKeys| == 5;
      forall i | 0 <= i < 5 ensures Keys(envs)[i] == EnvKeys[i] {}
    }
    envs
  }

  /** The USER_ID variable reads back as the user's id. */
  lemma UserIdEnvRoundTrip(p: CreateAppParams, configJson: string)
    ensures ParseInt(Envs(p, configJson)[0].value) == Some(p.userId)
  {
    ParseIntOfIntToString(p.userId);
  }

  /** The spec posted to create the app, at clock `nowMs`: one service of the tier's size. */
  function BuildAppSpec(p: CreateAppParams, nowMs: int, configJson: string): (spec: AppSpec)
    ensures spec.name == AppName(p.userId, nowMs) && spec.region == "nyc"
    ensures |spec.services| == 1
    ensures spec.services[0].name == "openclaw-instance"
    ensures spec.services[0].image == ImageSpec("DOCKER_HUB", "alpine/openclaw", "latest")
    ensures spec.services[0].instanceCount == 1 && spec.services[0].httpPort == 8080
    ensures spec.services[0].instanceSizeSlug == InstanceSize(p.tier)
    ensures spec.services[0].envs == Envs(p, configJson)
  {
    AppSpec(AppName(p.userId, nowMs), "nyc", [
      ServiceSpec("openclaw-instance", ImageSpec("DOCKER_HUB", "alpine/openclaw", "latest"), 1,
        InstanceSize(p.tier), Envs(p, configJson), 8080)])
  }

  /** A dash after a run of digits marks where the digits end. */
  lemma SplitAtDash(a1: string, b1: string, a2: string, b2: string)
    requires AllDigits(a1) && AllDigits(a2)
    requires a1 + "-" + b1 == a2 + "-" + b2
    ensures a1 == a2 && b1 == b2
  {
    var x1, x2 := a1 + "-" + b1, a2 + "-" + b2;
    assert x1[|a1|] == '-' && x2[|a2|] == '-';
    assert forall i :: 0 <= i < |a1| ==> x1[i] == a1[i] && IsDigit(x1[i]);
    assert forall i :: 0 <= i < |a2| ==> x2[i] == a2[i] && IsDigit(x2[i]);
    assert |a1| == |a2|;
    assert a1 == x1[..|a1|];
    assert a2 == x2[..|a2|];
    assert b1 == x1[|a1| + 1..];
    assert b2 == x2[|a2| + 1..];
  }

  /**
   * App names tell apart every (user, clock) pair with non-negative
   * numbers: digits hold no '-', so the first '-' after the prefix marks
   * where the user id ends.
   */
  lemma AppNameInjective(u1: nat, t1: nat, u2: nat, t2: nat)
    requires AppName(u1, t1) == AppName(u2, t2)
    ensures u1 == u2 && t1 == t2
  {
    var a1, b1, a2, b2 := NatToString(u1), NatToString(t1), NatToString(u2), NatToString(t2);
    SuffixOfAppName(u1, t1);
    SuffixOfAppName(u2, t2);
    SplitAtDash(a1, b1, a2, b2);
    NatToStringInjective(u1, u2);
    NatToStringInjective(t1, t2);
  }

  /** What follows the fixed prefix of an app name. */
  lemma SuffixOfAppName(u: nat, t: nat)
    ensures AppName(u, t)[|"openclaw-"|..] == NatToString(u) + "-" + NatToString(t)
  {
    var x := NatToString(u) + "-" + NatToString(t);
    assert AppName(u, t) == "openclaw-" + x;
  }

  /** What the failed request carried as `error.response?.data`. */
  datatype ResponseData =
    | NoData                     // no response, or a falsy body
    | TextData(text: string)     // a string body
    | ObjectData(json: string)   // an object body, with its `JSON.stringify` text

  datatype HttpFailure = HttpFailure(data: ResponseData, message: string)

  /** The outcome of `POST /apps`: the created app's id, or the failure. */
  datatype CreateOutcome = Created(appId: string) | RequestFailed(failure: HttpFailure)

  const ProvisionPrefix := "Failed to provision AI instance: "
  const TokenMissing := "DigitalOcean API token is not configured. Please set DO_API_TOKEN."

  /** `response.data || error.message`, stringified when it is an object. */
  function ProvisionErrorMessage(f: HttpFailure): (m: string)
    ensures |m| >= |ProvisionPrefix| && m[..|ProvisionPrefix|] == ProvisionPrefix
    ensures f.data.ObjectData? ==> m[|ProvisionPrefix|..] == f.data.json
    ensures f.data.TextData? && f.data.text != "" ==> m[|ProvisionPrefix|..] == f.data.text
    ensures f.data.NoData? || f.data == TextData("") ==> m[|ProvisionPrefix|..] == f.message
  {
    var detail := match f.data
      case ObjectData(json) => json
      case TextData(text) => if text != "" then text else f.message
      case NoData => f.message;
    ProvisionPrefix + detail
  }

  /** A call of `createOpenClawApp`: the spec it posted, if any, and what it returned or threw. */
  datatype ProvisionCall = ProvisionCall(request: Option<AppSpec>, result: Result<string>)

  /**
   * `createOpenClawApp`: without a token nothing is posted; otherwise the
   * spec is posted and the app id returned, or the failure rethrown with
   * its detail.
   */
  function CreateOpenClawApp(p: CreateAppParams, doToken: string, nowMs: int, configJson: string, outcome: CreateOutcome): (c: ProvisionCall)
    ensures doToken == "" ==> c.request.None? && c.result == Fail(Thrown(TokenMissing))
    ensures doToken != "" ==> c.request == Some(BuildAppSpec(p, nowMs, configJson))
    ensures doToken != "" && outcome.Created? ==> c.result == Ok(outcome.appId)
    ensures doToken != "" && outcome.RequestFailed? ==>
      c.result == Fail(Thrown(ProvisionErrorMessage(outcome.failure)))
  {
    if doToken == "" then ProvisionCall(None, Fail(Thrown(TokenMissing)))
    else
      var spec := BuildAppSpec(p, nowMs, configJson);
      match outcome
      case Created(id) => ProvisionCall(Some(spec), Ok(id))
      case RequestFailed(f) => ProvisionCall(Some(spec), Fail(Thrown(ProvisionErrorMessage(f))))
  }

  /** The outcome of `GET /apps/{id}`: the active deployment's phase when there is one. */
  datatype AppLookup = AppLookupFailed | AppFound(activePhase: Option<string>)

  /** `getDeploymentStatus`: never empty, whatever the lookup gives. */
  function GetDeploymentStatus(lookup: AppLookup): (phase: string)
    ensures phase != ""
    ensures lookup.AppLookupFailed? ==> phase == "error"
    ensures lookup.AppFound? && lookup.activePhase.Some? && lookup.activePhase.value != "" ==>
      phase == lookup.activePhase.value
    ensures lookup.AppFound? && (lookup.activePhase.None? || lookup.activePhase.value == "") ==>
      phase == "unknown"
  {
    match lookup
    case AppLookupFailed => "error"
    case AppFound(Some(ph)) => if ph != "" then ph else "unknown"
    case AppFound(None) => "unknown"
  }

  /** `restartApp`: a failed deployment request is rethrown with a fixed message. */
  function RestartApp(requestSucceeded: bool): (r: Result<Unit>)
    ensures r.Ok? <==> requestSucceeded
    ensures !requestSucceeded ==> r == Fail(Thrown("Failed to restart app"))
  {
    if requestSucceeded then Ok(Unit) else Fail(Thrown("Failed to restart app"))
  }

  /** The outcome of the logs request: the body's `logs` field, which may be absent. */
  datatype LogsResponse = LogsFailed | LogsReceived(logs: Option<seq<string>>)

  /** `getAppLogs`: the logs when the body has them, else no lines. */
  function GetAppLogs(response: LogsResponse): (lines: seq<string>)
    ensures response.LogsReceived? && response.logs.Some? ==> lines == response.logs.value
    ensures response.LogsFailed? || response == LogsReceived(None) ==> lines == []
  {
    match response
    case LogsReceived(Some(logs)) => logs
    case _ => []
  }
}
