/**
 * The configuration page shown after payment: the Telegram bot token
 * format, the channel and service check lists, and the guards of the
 * deploy button. The toasts it shows are returned as messages; the deploy
 * mutation's outcome is a parameter.
 */
module OnboardingConfigure {
  import opened Common
  import opened Text

  // ------------------------------------------------------------ the token format

  /** A character of `[A-Za-z0-9_-]`. */
  predicate IsTokenChar(c: char) {
    'A' <= c <= 'Z' || 'a' <= c <= 'z' || '0' <= c <= '9' || c == '_' || c == '-'
  }

  predicate AllTokenChars(s: string) {
    forall i :: 0 <= i < |s| ==> IsTokenChar(s[i])
  }

  /**
   * The language of `/^\d+:[A-Za-z0-9_-]{20,}$/`: the whole text splits
   * into a non-empty run of digits, a colon, and twenty or more token
   * characters.
   */
  ghost predicate IsBotToken(s: string) {
    exists k :: 0 < k < |s| && AllDigits(s[..k]) && s[k] == ':' && |s| - (k + 1) >= 20 && AllTokenChars(s[k + 1..])
  }

  /** The length of the run of digits that starts `s`. */
  function LeadingDigits(s: string): (n: nat)
    ensures n <= |s| && AllDigits(s[..n])
    ensures n < |s| ==> !IsDigit(s[n])
  {
    if |s| == 0 || !IsDigit(s[0]) then 0
    else
      var n := 1 + LeadingDigits(s[1..]);
      assert s[..n] == [s[0]] + s[1..][..n - 1];
      n
  }

  /** The regular expression's test, as a left-to-right scan. */
  function MatchesBotToken(s: string): (b: bool) {
    var n := LeadingDigits(s);
    0 < n < |s| && s[n] == ':' && |s| - (n + 1) >= 20 && AllTokenChars(s[n + 1..])
  }

  /** The scan accepts exactly the texts of the token language. */
  lemma MatchesBotTokenIff(s: string)
    ensures MatchesBotToken(s) <==> IsBotToken(s)
  {
    var n := LeadingDigits(s);
    if MatchesBotToken(s) {
      assert 0 < n < |s| && AllDigits(s[..n]) && s[n] == ':' && |s| - (n + 1) >= 20 && AllTokenChars(s[n + 1..]);
    }
    if IsBotToken(s) {
      var k :| 0 < k < |s| && AllDigits(s[..k]) && s[k] == ':' && |s| - (k + 1) >= 20 && AllTokenChars(s[k + 1..]);
      assert forall i :: 0 <= i < k ==> IsDigit(s[i]) by {
        forall i | 0 <= i < k ensures IsDigit(s[i]) { assert s[i] == s[..k][i]; }
      }
      assert !IsDigit(s[k]);
      assert forall i :: 0 <= i < n ==> IsDigit(s[i]) by {
        forall i | 0 <= i < n ensures IsDigit(s[i]) { assert s[i] == s[..n][i]; }
      }
      assert n == k;
    }
  }

  // ------------------------------------------------------------ check lists

  /** `list.filter(x => x !== item)`. */
  function Without(list: seq<string>, item: string): (r: seq<string>)
    ensures item !in r
    ensures forall x :: x in r <==> x in list && x != item
    ensures item !in list ==> r == list
  {
    if |list| == 0 then []
    else if list[0] == item then Without(list[1..], item)
    else [list[0]] + Without(list[1..], item)
  }

  /** `toggleChannel` / `toggleService`: drop every copy of a present item, else append it. */
  function Toggle(list: seq<string>, item: string): (r: seq<string>)
    ensures item in r <==> item !in list
    ensures forall x :: x != item ==> (x in r <==> x in list)
    ensures item !in list ==> r == list + [item]
  {
    if item in list then Without(list, item) else list + [item]
  }

  /** Filtering out an item that was appended to a list without it gives the list back. */
  lemma {:induction false} WithoutAppended(list: seq<string>, item: string)
    requires item !in list
    ensures Without(list + [item], item) == list
  {
    if |list| == 0 {
      assert [] + [item] == [item];
      assert [item][1..] == [];
    } else {
      assert (list + [item])[0] == list[0];
      assert (list + [item])[1..] == list[1..] + [item];
      WithoutAppended(list[1..], item);
      assert [list[0]] + list[1..] == list;
    }
  }

  /** Ticking an unticked item and then unticking it restores the list. */
  lemma ToggleTwice(list: seq<string>, item: string)
    requires item !in list
    ensures Toggle(Toggle(list, item), item) == list
  {
    WithoutAppended(list, item);
  }

  // ------------------------------------------------------------ the form

  /** What the page sends to `onboarding.deployInstance`; `None` is a field left undefined. */
  datatype DeployRequest = DeployRequest(
    sessionId: string, userId: int, userEmail: string, aiRole: string,
    telegramBotToken: Option<string>, communicationChannels: seq<string>,
    connectedServices: seq<string>, customApiKey: Option<string>)

  const RoleMissing := "Please describe your AI employee's role"
  const SessionExpired := "Session expired. Please start over."
  const BadTokenFormat := "Invalid Telegram bot token format. Expected format: 123456789:ABCdefGHI_jklMNO-pqrsTUVwxyz"

  /** `x || undefined` on a text field. */
  function NonEmpty(s: string): (r: Option<string>)
    ensures r.None? <==> s == ""
    ensures r.Some? ==> r.value == s
  {
    if s == "" then None else Some(s)
  }

  /** `error.message || "Failed to start deployment"`. */
  function DeployFailureToast(message: string): (t: string)
    ensures t != ""
    ensures message != "" ==> t == message
  {
    if message != "" then message else "Failed to start deployment"
  }

  class ConfigureForm {
    var deploying: bool
    var sessionId: Option<string>
    var userId: Option<int>
    var userEmail: string
    var aiRole: string
    var telegramBotToken: string
    var communicationChannels: seq<string>
    var connectedServices: seq<string>
    var customApiKey: string

    /** The form as the page mounts: Telegram ticked, no service, nothing typed. */
    constructor()
      ensures communicationChannels == ["telegram"] && connectedServices == []
      ensures !deploying && sessionId.None? && userId.None? && userEmail == ""
      ensures aiRole == "" && telegramBotToken == "" && customApiKey == ""
    {
      deploying := false;
      sessionId, userId, userEmail := None, None, "";
      aiRole, telegramBotToken, customApiKey := "", "", "";
      communicationChannels, connectedServices := ["telegram"], [];
    }

    /** The first guard of `handleDeploy` that fails, as its toast, if any. */
    function Refusal(): (t: Option<string>)
      reads this
      ensures aiRole == "" ==> t == Some(RoleMissing)
      ensures aiRole != "" && (userId.None? || userId == Some(0) || userEmail == "" || sessionId.None? || sessionId == Some("")) ==>
        t == Some(SessionExpired)
      ensures (aiRole != "" && userId.Some? && userId.value != 0 && userEmail != "" && sessionId.Some? && sessionId.value != ""
               && telegramBotToken != "" && !IsBotToken(telegramBotToken)) ==> t == Some(BadTokenFormat)
      ensures t.None? <==>
        aiRole != "" && userId.Some? && userId.value != 0 && userEmail != "" && sessionId.Some? && sessionId.value != ""
        && (telegramBotToken == "" || IsBotToken(telegramBotToken))
    {
      MatchesBotTokenIff(telegramBotToken);
      if aiRole == "" then Some(RoleMissing)
      else if userId.None? || userId.value == 0 || userEmail == "" || sessionId.None? || sessionId.value == "" then
        Some(SessionExpired)
      else if telegramBotToken != "" && !MatchesBotToken(telegramBotToken) then Some(BadTokenFormat)
      else None
    }

    /**
     * `handleDeploy`. A failed guard shows its toast and sends nothing;
     * otherwise the request is sent with empty optional texts left out,
     * and `deploying` stays set unless the mutation fails. `outcome` is
     * the mutation's result, with the thrown message on failure.
     */
    method HandleDeploy(outcome: Result<Unit>) returns (sent: Option<DeployRequest>, toast: Option<string>)
      modifies this
      ensures old(Refusal()).Some? ==> sent.None? && toast == old(Refusal()) && deploying == old(deploying)
      ensures old(Refusal()).None? ==>
        && sent == Some(DeployRequest(old(sessionId).value, old(userId).value, old(userEmail), old(aiRole),
                          NonEmpty(old(telegramBotToken)), old(communicationChannels), old(connectedServices),
                          NonEmpty(old(customApiKey))))
        && (outcome.Ok? ==> deploying && toast.None?)
        && (outcome.Fail? ==> !deploying && toast == Some(DeployFailureToast(MessageOf(outcome.failure))))
      ensures sessionId == old(sessionId) && userId == old(userId) && userEmail == old(userEmail)
      ensures aiRole == old(aiRole) && telegramBotToken == old(telegramBotToken) && customApiKey == old(customApiKey)
      ensures communicationChannels == old(communicationChannels) && connectedServices == old(connectedServices)
    {
      sent, toast := None, None;
      if aiRole == "" {
        toast := Some(RoleMissing);
        return;
      }
      if userId.None? || userId.value == 0 || userEmail == "" || sessionId.None? || sessionId.value == "" {
        toast := Some(SessionExpired);
        return;
      }
      if telegramBotToken != "" && !MatchesBotToken(telegramBotToken) {
        toast := Some(BadTokenFormat);
        return;
      }
      deploying := true;
      sent := Some(DeployRequest(sessionId.value, userId.value, userEmail, aiRole, NonEmpty(telegramBotToken),
        communicationChannels, connectedServices, NonEmpty(customApiKey)));
      if outcome.Fail? {
        toast := Some(DeployFailureToast(MessageOf(outcome.failure)));
        deploying := false;
      }
    }

    method ToggleChannel(channel: string)
      modifies this
      ensures communicationChannels == Toggle(old(communicationChannels), channel)
      ensures connectedServices == old(connectedServices) && deploying == old(deploying)
      ensures sessionId == old(sessionId) && userId == old(userId) && userEmail == old(userEmail)
      ensures aiRole == old(aiRole) && telegramBotToken == old(telegramBotToken) && customApiKey == old(customApiKey)
    {
      communicationChannels := Toggle(communicationChannels, channel);
    }

    method ToggleService(service: string)
      modifies this
      ensures connectedServices == Toggle(old(connectedServices), service)
      ensures communicationChannels == old(communicationChannels) && deploying == old(deploying)
      ensures sessionId == old(sessionId) && userId == old(userId) && userEmail == old(userEmail)
      ensures aiRole == old(aiRole) && telegramBotToken == old(telegramBotToken) && customApiKey == old(customApiKey)
    {
      connectedServices := Toggle(connectedServices, service);
    }
  }
}
