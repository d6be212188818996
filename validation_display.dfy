/** What the page shows after a validation (premium.js:233-268, 405-433):
    the fields of a successful answer with their defaults, the user-facing text
    of an error, and the handler that chooses between them. The HTML around
    the text is not modelled. */
module ValidationDisplay {
  import opened Wrappers
  import opened LicenseKey
  import opened ApiClient
  import opened LicenseValidator

  /** downloads_remaining ?? '∞': an absent count shows as unlimited, a present
      one (zero included) as itself. */
  datatype Downloads = Remaining(count: int) | Unlimited

  /** The fields showValidationSuccess prints; the expiry date is left as the
      server sent it. */
  datatype Summary = Summary(plan: string, downloads: Downloads, expiryDate: Option<string>, features: seq<string>)

  const UNKNOWN_PLAN: string := "Unknown"

  /** showValidationSuccess's defaults (premium.js:234-238). */
  function Summarize(data: LicenseData): (s: Summary)
    ensures s.plan == UNKNOWN_PLAN || (data.user.Some? && data.user.value.plan == Some(s.plan))
    ensures data.user.Some? && data.user.value.plan.Some? && data.user.value.plan.value != [] ==>
      s.plan == data.user.value.plan.value
    ensures s.plan != []
    ensures s.downloads == Unlimited <==> data.downloadsRemaining.None?
    ensures data.downloadsRemaining.Some? ==> s.downloads.count == data.downloadsRemaining.value
    ensures s.features == [] <== data.features.None?
    ensures data.features.Some? ==> s.features == data.features.value
    ensures s.expiryDate == data.expiryDate
  {
    var plan := if data.user.Some? then OrElse(data.user.value.plan, UNKNOWN_PLAN) else UNKNOWN_PLAN;
    var downloads := if data.downloadsRemaining.Some? then Remaining(data.downloadsRemaining.value) else Unlimited;
    var features := if data.features.Some? then data.features.value else [];
    Summary(plan, downloads, data.expiryDate, features)
  }

  /** An answer that carries nothing but the validity flag is shown with every
      default: unknown plan, unlimited downloads, no expiry, no features. */
  lemma BareAnswerShowsDefaults(valid: bool, error: Option<string>)
    ensures Summarize(LicenseData(valid, error, None, None, None, None)) == Summary(UNKNOWN_PLAN, Unlimited, None, [])
  {
  }

  /** Unlike the plan, a count of zero is shown as zero and not replaced by the
      default: `??` falls back on an absent value only. */
  lemma NoDownloadsLeftShownAsZero(data: LicenseData)
    requires data.downloadsRemaining == Some(0)
    ensures Summarize(data).downloads == Remaining(0)
  {
  }

  /** An empty plan name falls back to "Unknown", as `||` does. */
  lemma EmptyPlanShownAsUnknown(data: LicenseData)
    requires data.user.Some? && data.user.value.plan == Some([])
    ensures Summarize(data).plan == UNKNOWN_PLAN
  {
  }

  const FALLBACK_PREFIX: string := "Validation failed: "

  /** The errorMessages table of showValidationError (premium.js:256-264). */
  const ERROR_MESSAGES: map<string, string> := map[
    "License not found" := "The license key you entered was not found. Please check your email receipt and try again.",
    "License expired" := "Your license has expired. Please renew your subscription to continue using premium features.",
    "License inactive" := "Your license is not active. Please contact support if you believe this is an error.",
    "Invalid hardware" := "This license is registered to a different hardware. Contact support to transfer your license.",
    "Rate limit exceeded" := "Too many validation attempts. Please wait a moment and try again.",
    "Request timeout" := "The validation request timed out. Please check your internet connection and try again.",
    "Network error" := "Unable to connect to the license server. Please check your internet connection and try again."
  ]

  /** The text showValidationError shows for an error message
      (premium.js:255-268): the table's text for a known error, the error
      behind a fixed prefix otherwise. */
  function ErrorText(error: string): (text: string)
    ensures error in ERROR_MESSAGES ==> text == ERROR_MESSAGES[error]
    ensures error !in ERROR_MESSAGES ==> text == FALLBACK_PREFIX + error
  {
    if error in ERROR_MESSAGES && ERROR_MESSAGES[error] != [] then ERROR_MESSAGES[error] else FALLBACK_PREFIX + error
  }

  /** Two errors of the same kind, both in the table or both outside it,
      are never shown with the same text. */
  lemma ErrorTextInjective(e1: string, e2: string)
    requires (e1 in ERROR_MESSAGES) == (e2 in ERROR_MESSAGES)
    requires ErrorText(e1) == ErrorText(e2)
    ensures e1 == e2
  {
    if e1 !in ERROR_MESSAGES {
      var t := ErrorText(e1);
      assert e1 == t[|FALLBACK_PREFIX|..] == e2;
    }
  }

  /** The two failures the client itself names have table entries, while its
      own format error does not and is shown behind the fallback prefix. */
  lemma ClientErrorsShown()
    ensures NETWORK_ERROR in ERROR_MESSAGES && "Request timeout" in ERROR_MESSAGES
    ensures ErrorText(INVALID_FORMAT) == FALLBACK_PREFIX + INVALID_FORMAT
    ensures ErrorText(INVALID_LICENSE) == FALLBACK_PREFIX + INVALID_LICENSE
  {
  }

  /** What a validation leaves on the page. */
  datatype Outcome = Prompt(message: string) | Valid(summary: Summary) | Invalid(text: string)

  const EMPTY_INPUT: string := "Please enter your license key."

  predicate IsSpace(c: char) {
    c == ' ' || c == '\t' || c == '\n' || c == '\r' || c == '\U{000B}' || c == '\U{000C}'
  }

  /** String.prototype.trim over ASCII white space. */
  function Trim(s: string): (t: string)
    ensures |t| <= |s|
    ensures t == [] <==> forall i :: 0 <= i < |s| ==> IsSpace(s[i])
    ensures t != [] ==> !IsSpace(t[0]) && !IsSpace(t[|t| - 1])
  {
    if s == [] then s
    else if IsSpace(s[0]) then Trim(s[1..])
    else if IsSpace(s[|s| - 1]) then Trim(s[..|s| - 1])
    else s
  }

  /** Trimming removes white space at the two ends and nothing else: the
      result is a slice of the input with only white space around it. */
  lemma {:induction false} TrimInfix(s: string) returns (a: nat, b: nat)
    ensures a <= b <= |s| && Trim(s) == s[a..b]
    ensures forall i :: 0 <= i < a ==> IsSpace(s[i])
    ensures forall i :: b <= i < |s| ==> IsSpace(s[i])
    decreases |s|
  {
    if s == [] {
      a, b := 0, 0;
    } else if IsSpace(s[0]) {
      var a', b' := TrimInfix(s[1..]);
      a, b := a' + 1, b' + 1;
      assert s[1..][a'..b'] == s[a..b];
    } else if IsSpace(s[|s| - 1]) {
      a, b := TrimInfix(s[..|s| - 1]);
      assert s[..|s| - 1][a..b] == s[a..b];
    } else {
      a, b := 0, |s|;
    }
  }

  /** App.handleValidation (premium.js:405-433): an input that is only white
      space prompts for a key; otherwise validate decides between the success
      summary and the error text. */
  function HandleValidation(inputValue: string, validateLicense: string -> ApiResponse<LicenseData>): (o: Outcome)
    ensures o.Prompt? <==> forall i :: 0 <= i < |inputValue| ==> IsSpace(inputValue[i])
    ensures o.Prompt? ==> o.message == EMPTY_INPUT
    ensures var r := Validate(Trim(inputValue), validateLicense);
      && (o.Valid? <==> r.Ok?)
      && (o.Valid? ==> o.summary == Summarize(r.value))
      && (o.Invalid? ==> r.Err? && o.text == ErrorText(r.message))
  {
    var licenseKey := Trim(inputValue);
    if licenseKey == [] then Prompt(EMPTY_INPUT)
    else
      match Validate(licenseKey, validateLicense)
      case Ok(data) => Valid(Summarize(data))
      case Err(message) => Invalid(ErrorText(message))
  }

  /** Every last attempt timing out: the page asks the user to check the
      internet connection. */
  lemma TimeoutShown(inputValue: string, attempts: seq<Attempt<LicenseData>>)
    requires CONFIG.retryAttempts <= |attempts|
    requires IsValidLicenseFormat(FormatLicenseKey(Trim(inputValue)))
    requires forall j :: 0 <= j < CONFIG.retryAttempts ==> attempts[j].Aborted?
    ensures HandleValidation(inputValue, Server(attempts))
      == Invalid("The validation request timed out. Please check your internet connection and try again.")
  {
    TimeoutReported(Trim(inputValue), attempts);
  }
}
