/** LicenseValidator.validate (premium.js:314-336): normalise the key, refuse
    a malformed one locally, ask the server, and turn every way of failing into
    an error message. The thrown Error becomes Err with its message. */
module LicenseValidator {
  import opened Wrappers
  import opened LicenseKey
  import opened ApiClient

  datatype User = User(plan: Option<string>)

  /** The JSON object the validation endpoint answers with; absent fields are None. */
  datatype LicenseData = LicenseData(
    valid: bool,
    error: Option<string>,
    user: Option<User>,
    downloadsRemaining: Option<int>,
    expiryDate: Option<string>,
    features: Option<seq<string>>)

  const INVALID_FORMAT: string := "Invalid license key format. Please check your license key and try again."
  const NETWORK_ERROR: string := "Network error"
  const INVALID_LICENSE: string := "Invalid license"
  /** The TypeError V8 throws when request resolved to undefined and validate
      reads its success field. */
  const NO_RESPONSE: string := "Cannot read properties of undefined (reading 'success')"

  /** JavaScript's `s || fallback` on a string that may be absent: the empty
      string is falsy too. */
  function OrElse(s: Option<string>, fallback: string): (r: string)
    ensures r == fallback || (s.Some? && r == s.value)
    ensures r == fallback <== s.None? || s.value == []
    ensures s.Some? && s.value != [] ==> r == s.value
    ensures r != [] <== fallback != []
  {
    if s.Some? && s.value != [] then s.value else fallback
  }

  /** validate, with the server reached through validateLicense, which is
      handed the normalised key. */
  function Validate(licenseKey: string, validateLicense: string -> ApiResponse<LicenseData>): (r: Result<LicenseData>)
    ensures var key := FormatLicenseKey(licenseKey);
      r.Ok? <==> IsValidLicenseFormat(key) && validateLicense(key).Success? && validateLicense(key).data.valid
    ensures r.Ok? ==> r.value == validateLicense(FormatLicenseKey(licenseKey)).data
    ensures r.Err? ==> r.message != []
  {
    var formattedKey := FormatLicenseKey(licenseKey);
    if !IsValidLicenseFormat(formattedKey) then Err(INVALID_FORMAT)
    else
      var response := validateLicense(formattedKey);
      match response
      case Undefined => Err(NO_RESPONSE)
      case Failure(error, _) => Err(OrElse(Some(error), NETWORK_ERROR))
      case Success(data, _) =>
        if !data.valid then Err(OrElse(data.error, INVALID_LICENSE)) else Ok(data)
  }

  /** A malformed key is refused with the format message whatever the server
      would say, so the server is never consulted. */
  lemma MalformedKeyNeverReachesServer(licenseKey: string, g1: string -> ApiResponse<LicenseData>, g2: string -> ApiResponse<LicenseData>)
    requires !IsValidLicenseFormat(FormatLicenseKey(licenseKey))
    ensures Validate(licenseKey, g1) == Validate(licenseKey, g2) == Err(INVALID_FORMAT)
  {
  }

  /** The server is asked about the normalised key only: two servers that agree
      on it lead to the same result. */
  lemma OnlyFormattedKeyIsSent(licenseKey: string, g1: string -> ApiResponse<LicenseData>, g2: string -> ApiResponse<LicenseData>)
    requires g1(FormatLicenseKey(licenseKey)) == g2(FormatLicenseKey(licenseKey))
    ensures Validate(licenseKey, g1) == Validate(licenseKey, g2)
  {
  }

  /** Entering the key already formatted changes nothing. */
  lemma ValidateNormalised(licenseKey: string, g: string -> ApiResponse<LicenseData>)
    ensures Validate(FormatLicenseKey(licenseKey), g) == Validate(licenseKey, g)
  {
    FormatIdempotent(licenseKey);
  }

  /** A key validate accepts has exactly twenty letters and digits, the first
      four "PECU", once everything else is deleted. */
  lemma AcceptedKeyShape(licenseKey: string, g: string -> ApiResponse<LicenseData>)
    requires Validate(licenseKey, g).Ok?
    ensures |Clean(licenseKey)| == 20 && Clean(licenseKey)[..4] == "PECU"
  {
    FormattedValidIff(licenseKey);
  }

  /** How each failure of a well-formed key is reported (premium.js:323-333). */
  lemma FailureMessages(licenseKey: string, g: string -> ApiResponse<LicenseData>)
    requires IsValidLicenseFormat(FormatLicenseKey(licenseKey))
    ensures var response := g(FormatLicenseKey(licenseKey));
      && (response.Failure? && response.error != [] ==> Validate(licenseKey, g) == Err(response.error))
      && (response.Failure? && response.error == [] ==> Validate(licenseKey, g) == Err(NETWORK_ERROR))
      && (response.Success? && !response.data.valid ==>
            Validate(licenseKey, g) == Err(if response.data.error.Some? && response.data.error.value != [] then response.data.error.value else INVALID_LICENSE))
      && (response.Undefined? ==> Validate(licenseKey, g) == Err(NO_RESPONSE))
  {
  }

  /** The validation endpoint as seen through ApiClient.validateLicense: the
      outcome of request over the attempts the server's answers make up. */
  function Server(attempts: seq<Attempt<LicenseData>>): string -> ApiResponse<LicenseData>
    requires CONFIG.retryAttempts <= |attempts|
  {
    _ => RequestOutcome(attempts, CONFIG.retryAttempts)
  }

  /** validate end to end: the key is normalised and checked first; only a
      well-formed key leads to fetch calls, each carrying the normalised key. */
  method ValidateThroughClient(licenseKey: string, attempts: seq<Attempt<LicenseData>>)
    returns (r: Result<LicenseData>, ghost calls: seq<FetchCall>, ghost pauses: seq<nat>)
    requires CONFIG.retryAttempts <= |attempts|
    ensures r == Validate(licenseKey, Server(attempts))
    ensures !IsValidLicenseFormat(FormatLicenseKey(licenseKey)) <==> calls == []
    ensures !IsValidLicenseFormat(FormatLicenseKey(licenseKey)) ==> pauses == []
    ensures IsValidLicenseFormat(FormatLicenseKey(licenseKey)) ==>
      && |calls| == AttemptsMade(attempts, CONFIG.retryAttempts)
      && pauses == Backoff(|calls| - 1, CONFIG.retryDelayMs)
    ensures forall i :: 0 <= i < |calls| ==> calls[i].body == Some(LicenseQuery(FormatLicenseKey(licenseKey), "browser-check"))
  {
    var formattedKey := FormatLicenseKey(licenseKey);
    if !IsValidLicenseFormat(formattedKey) {
      return Err(INVALID_FORMAT), [], [];
    }
    var response;
    response, calls, pauses := ApiClient.ValidateLicense(formattedKey, attempts);
    r := Validate(licenseKey, _ => response);
    OnlyFormattedKeyIsSent(licenseKey, _ => response, Server(attempts));
  }

  /** A server that times out on the last attempt: validate reports
      "Request timeout" whatever came before. */
  lemma TimeoutReported(licenseKey: string, attempts: seq<Attempt<LicenseData>>)
    requires CONFIG.retryAttempts <= |attempts|
    requires IsValidLicenseFormat(FormatLicenseKey(licenseKey))
    requires attempts[CONFIG.retryAttempts - 1].Aborted?
    requires forall j :: 0 <= j < CONFIG.retryAttempts ==> !Succeeded(attempts[j])
    ensures Validate(licenseKey, Server(attempts)) == Err("Request timeout")
  {
    RequestOutcomeCases(attempts, CONFIG.retryAttempts);
  }

  /** A refused license is reported with the server's own reason: an answer
      {valid: false, error: "License expired"} becomes that message. */
  lemma ExpiredLicenseReported(licenseKey: string, status: nat)
    requires IsValidLicenseFormat(FormatLicenseKey(licenseKey))
    ensures Validate(licenseKey, _ => Success(LicenseData(false, Some("License expired"), None, None, None, None), status))
      == Err("License expired")
  {
  }
}
