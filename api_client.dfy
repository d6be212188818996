/** ApiClient (premium.js:100-170): one logical request runs as up to
    RETRY_ATTEMPTS fetch attempts, each cut off by an abort timer, with a pause
    after every failed attempt but the last that grows with the attempt
    number. The network is not modelled: the caller supplies what each attempt
    comes to, in order. */
module ApiClient {
  import opened Wrappers

  /** The CONFIG object's request settings. */
  datatype Config = Config(baseUrl: string, timeoutMs: nat, retryAttempts: nat, retryDelayMs: nat)

  const CONFIG: Config := Config("https://api.pecu.tools", 30000, 3, 1000)
  const VALIDATE_ENDPOINT: string := "/api/v1/license/validate"
  const HEALTH_ENDPOINT: string := "/api/v1/health"
  const DEFAULT_HEADERS: seq<(string, string)> :=
    [("Content-Type", "application/json"), ("Accept", "application/json"), ("User-Agent", "PECU-Web/1.0")]

  /** The body of a validation request, before JSON.stringify. */
  datatype LicenseQuery = LicenseQuery(licenseKey: string, hardwareHash: string)

  /** The options a caller hands to request; absent ones take the defaults. */
  datatype RequestOptions = RequestOptions(verb: Option<string>, body: Option<LicenseQuery>)

  /** One fetch call as issued: URL, method, headers, body, abort timeout. */
  datatype FetchCall = FetchCall(url: string, verb: string, headers: seq<(string, string)>, body: Option<LicenseQuery>, timeoutMs: nat)

  /** The URL and the default options overridden by the caller's
      (premium.js:103-114). */
  function PrepareCall(config: Config, endpoint: string, options: RequestOptions): (call: FetchCall)
    ensures call.url == config.baseUrl + endpoint
    ensures options.verb.None? ==> call.verb == "GET"
    ensures options.verb.Some? ==> call.verb == options.verb.value
    ensures call.headers == DEFAULT_HEADERS && call.body == options.body && call.timeoutMs == config.timeoutMs
  {
    FetchCall(
      config.baseUrl + endpoint,
      if options.verb.Some? then options.verb.value else "GET",
      DEFAULT_HEADERS,
      options.body,
      config.timeoutMs)
  }

  /** A response body as response.json() sees it: parsed data, or the message
      of the parse error it throws. */
  datatype Body<D> = Json(data: D) | NotJson(parseError: string)

  /** How one attempt ends. */
  datatype Attempt<D> =
    | Responded(status: nat, statusText: string, body: Body<D>)  // fetch resolved with a response
    | Aborted                                                    // the timer fired first: an AbortError
    | Rejected(message: string)                                  // fetch failed otherwise (DNS, connection, ...)

  /** What request resolves to; Undefined when no attempt is configured. */
  datatype ApiResponse<D> = Success(data: D, status: nat) | Failure(error: string, status: nat) | Undefined

  /** response.ok */
  predicate IsOk(status: nat) {
    200 <= status <= 299
  }

  /** The attempt that makes request return: an ok status and a body that
      parses. Everything else throws inside the try block. */
  predicate Succeeded<D>(a: Attempt<D>) {
    a.Responded? && IsOk(a.status) && a.body.Json?
  }

  function DigitChar(d: nat): char
    requires d < 10
  {
    "0123456789"[d]
  }

  function DigitValue(c: char): int {
    c as int - '0' as int
  }

  /** Decimal rendering of a status code, as in a template literal. */
  function Decimal(n: nat): (s: string)
    ensures s != []
    ensures forall i :: 0 <= i < |s| ==> '0' <= s[i] <= '9'
    ensures |s| > 1 ==> s[0] != '0'
    decreases n
  {
    if n < 10 then [DigitChar(n)] else Decimal(n / 10) + [DigitChar(n % 10)]
  }

  /** The value of a string of decimal digits. */
  function DecimalValue(s: string): int {
    if s == [] then 0 else 10 * DecimalValue(s[..|s| - 1]) + DigitValue(s[|s| - 1])
  }

  /** The rendering reads back as the number it renders, so two statuses never
      share a message. */
  lemma {:induction false} DecimalRoundTrip(n: nat)
    ensures DecimalValue(Decimal(n)) == n
    decreases n
  {
    if n >= 10 {
      DecimalRoundTrip(n / 10);
      var s := Decimal(n);
      assert s[..|s| - 1] == Decimal(n / 10);
    }
  }

  /** The message thrown for a non-ok status (premium.js:128-129). */
  function HttpErrorMessage(status: nat, statusText: string): (m: string)
    ensures |m| == 7 + |Decimal(status)| + |statusText|
    ensures m[..5] == "HTTP "
    ensures m[5..5 + |Decimal(status)|] == Decimal(status)
    ensures forall k :: 5 <= k < 5 + |Decimal(status)| ==> '0' <= m[k] <= '9'
    ensures m[5 + |Decimal(status)|] == ':' && m[6 + |Decimal(status)|] == ' '
    ensures m[7 + |Decimal(status)|..] == statusText
  {
    "HTTP " + Decimal(status) + ": " + statusText
  }

  /** An HTTP error message names its status and its status text
      unambiguously: the status digits end at the first colon. */
  lemma HttpErrorMessageInjective(s1: nat, t1: string, s2: nat, t2: string)
    requires HttpErrorMessage(s1, t1) == HttpErrorMessage(s2, t2)
    ensures s1 == s2 && t1 == t2
  {
    var m := HttpErrorMessage(s1, t1);
    var d1, d2 := Decimal(s1), Decimal(s2);
    assert m[5 + |d1|] == ':' && m[5 + |d2|] == ':';
    assert |d1| == |d2|;
    assert d1 == m[5..5 + |d1|] == d2;
    DecimalRoundTrip(s1);
    DecimalRoundTrip(s2);
  }

  /** The error request reports when a failed attempt was the last one
      (premium.js:138-143): "Request timeout" for an abort, the thrown error's
      message otherwise. */
  function FailureReport<D>(a: Attempt<D>): (error: string)
    requires !Succeeded(a)
    ensures a.Aborted? ==> error == "Request timeout"
    ensures a.Rejected? ==> error == a.message
    ensures a.Responded? && !IsOk(a.status) ==> error == HttpErrorMessage(a.status, a.statusText)
    ensures a.Responded? && IsOk(a.status) ==> error == a.body.parseError
  {
    match a
    case Aborted => "Request timeout"
    case Rejected(message) => message
    case Responded(status, statusText, body) =>
      if !IsOk(status) then HttpErrorMessage(status, statusText) else body.parseError
  }

  /** Index of the first successful attempt among the first n, or n if none. */
  function FirstSuccess<D>(attempts: seq<Attempt<D>>, n: nat): (k: nat)
    requires n <= |attempts|
    ensures k <= n
    ensures k < n ==> Succeeded(attempts[k])
    ensures forall j :: 0 <= j < k ==> !Succeeded(attempts[j])
    decreases n
  {
    if n == 0 then 0
    else if Succeeded(attempts[0]) then 0
    else 1 + FirstSuccess(attempts[1..], n - 1)
  }

  /** The number of fetch attempts request makes with n allowed: up to and
      including the first success, all n if none succeeds. */
  function AttemptsMade<D>(attempts: seq<Attempt<D>>, n: nat): (made: nat)
    requires n <= |attempts|
    ensures made <= n
  {
    var k := FirstSuccess(attempts, n);
    if k < n then k + 1 else n
  }

  /** What request resolves to with n attempts allowed, stated without the
      loop: the data and status of the first successful attempt, else a
      failure with status 0 reporting the last attempt. */
  function RequestOutcome<D>(attempts: seq<Attempt<D>>, n: nat): (response: ApiResponse<D>)
    requires n <= |attempts|
    ensures response.Undefined? <==> n == 0
    ensures response.Success? ==> IsOk(response.status)
    ensures response.Failure? ==> response.status == 0
  {
    if n == 0 then Undefined
    else
      var k := FirstSuccess(attempts, n);
      if k < n then Success(attempts[k].body.data, attempts[k].status)
      else Failure(FailureReport(attempts[n - 1]), 0)
  }

  /** The pauses after failed attempts 1 to k: retryDelay times the attempt
      number each (premium.js:147). */
  function Backoff(k: nat, retryDelay: nat): (pauses: seq<nat>)
    ensures |pauses| == k
    ensures forall i :: 0 <= i < k ==> pauses[i] == retryDelay * (i + 1)
  {
    seq(k, i requires 0 <= i < k => retryDelay * (i + 1))
  }

  function Sum(xs: seq<nat>): nat {
    if xs == [] then 0 else Sum(xs[..|xs| - 1]) + xs[|xs| - 1]
  }

  /** The pauses after k failed attempts add up to retryDelay * k * (k + 1) / 2. */
  lemma {:induction false} BackoffTotal(k: nat, retryDelay: nat)
    ensures 2 * Sum(Backoff(k, retryDelay)) == retryDelay * k * (k + 1)
  {
    if k > 0 {
      BackoffTotal(k - 1, retryDelay);
      assert Backoff(k, retryDelay)[..k - 1] == Backoff(k - 1, retryDelay);
      calc {
        retryDelay * k * (k + 1);
        retryDelay * (k - 1) * k + retryDelay * k * 2;
      }
    }
  }

  /** ApiClient.request (premium.js:102-150). Attempt number `attempt` meets
      attempts[attempt - 1]. The result is RequestOutcome; the ghost outputs
      record the fetch calls made (one per attempt, all alike) and the pauses
      taken (none after the last attempt). */
  method Request<D>(config: Config, endpoint: string, options: RequestOptions, attempts: seq<Attempt<D>>)
    returns (response: ApiResponse<D>, ghost calls: seq<FetchCall>, ghost pauses: seq<nat>)
    requires config.retryAttempts <= |attempts|
    ensures response == RequestOutcome(attempts, config.retryAttempts)
    ensures |calls| == AttemptsMade(attempts, config.retryAttempts)
    ensures forall i :: 0 <= i < |calls| ==> calls[i] == PrepareCall(config, endpoint, options)
    ensures pauses == Backoff(if |calls| == 0 then 0 else |calls| - 1, config.retryDelayMs)
  {
    var call := PrepareCall(config, endpoint, options);
    calls, pauses := [], [];
    var attempt := 1;
    while attempt <= config.retryAttempts
      invariant 1 <= attempt <= config.retryAttempts + 1
      invariant config.retryAttempts > 0 ==> attempt <= config.retryAttempts
      invariant forall j :: 0 <= j < attempt - 1 ==> !Succeeded(attempts[j])
      invariant |calls| == attempt - 1
      invariant forall i :: 0 <= i < |calls| ==> calls[i] == call
      invariant pauses == Backoff(attempt - 1, config.retryDelayMs)
    {
      calls := calls + [call];
      var outcome := attempts[attempt - 1];
      var aborted := false;
      var message := "";
      if outcome.Aborted? {
        aborted := true;
      } else if outcome.Rejected? {
        message := outcome.message;
      } else if !IsOk(outcome.status) {
        message := HttpErrorMessage(outcome.status, outcome.statusText);
      } else if outcome.body.NotJson? {
        message := outcome.body.parseError;
      } else {
        response := Success(outcome.body.data, outcome.status);
        return;
      }
      if attempt == config.retryAttempts {
        response := Failure(if aborted then "Request timeout" else message, 0);
        return;
      }
      pauses := pauses + [config.retryDelayMs * attempt];
      attempt := attempt + 1;
    }
    response := Undefined;
  }

  /** The shape of what request resolves to (premium.js:116-147): it stops at
      the first attempt with an ok status and a parsable body and returns that
      attempt's data and status; if none of the n attempts succeeds it reports
      the last one with status 0, "Request timeout" when that one aborted. */
  lemma RequestOutcomeCases<D>(attempts: seq<Attempt<D>>, n: nat)
    requires n <= |attempts|
    ensures n == 0 <==> RequestOutcome(attempts, n) == Undefined
    ensures RequestOutcome(attempts, n).Success? <==> exists k :: 0 <= k < n && Succeeded(attempts[k])
    ensures RequestOutcome(attempts, n).Success? ==>
      var made := AttemptsMade(attempts, n);
      && 1 <= made <= n
      && Succeeded(attempts[made - 1])
      && (forall j :: 0 <= j < made - 1 ==> !Succeeded(attempts[j]))
      && RequestOutcome(attempts, n) == Success(attempts[made - 1].body.data, attempts[made - 1].status)
    ensures RequestOutcome(attempts, n).Failure? ==>
      && n >= 1
      && AttemptsMade(attempts, n) == n
      && RequestOutcome(attempts, n).status == 0
      && RequestOutcome(attempts, n).error == FailureReport(attempts[n - 1])
      && (attempts[n - 1].Aborted? ==> RequestOutcome(attempts, n).error == "Request timeout")
  {
    var k := FirstSuccess(attempts, n);
    if exists j :: 0 <= j < n && Succeeded(attempts[j]) {
      var j :| 0 <= j < n && Succeeded(attempts[j]);
      assert k <= j;
    }
  }

  /** Total pause: retryDelay * m * (m - 1) / 2 after m attempts, so when all n
      attempts fail the client waits retryDelay * n * (n - 1) / 2, which is
      3000 ms with the default settings. */
  lemma TotalPause(m: nat, retryDelay: nat)
    requires m >= 1
    ensures 2 * Sum(Backoff(m - 1, retryDelay)) == retryDelay * m * (m - 1)
    ensures Sum(Backoff(CONFIG.retryAttempts - 1, CONFIG.retryDelayMs)) == 3000
  {
    BackoffTotal(m - 1, retryDelay);
    BackoffTotal(CONFIG.retryAttempts - 1, CONFIG.retryDelayMs);
  }

  /** ApiClient.validateLicense (premium.js:153-163): a POST of the key and the
      hardware hash to the validation endpoint, through request. */
  method ValidateLicense<D>(licenseKey: string, attempts: seq<Attempt<D>>, hardwareHash: string := "browser-check")
    returns (response: ApiResponse<D>, ghost calls: seq<FetchCall>, ghost pauses: seq<nat>)
    requires CONFIG.retryAttempts <= |attempts|
    ensures response == RequestOutcome(attempts, CONFIG.retryAttempts)
    ensures 1 <= |calls| <= CONFIG.retryAttempts
    ensures |calls| == AttemptsMade(attempts, CONFIG.retryAttempts)
    ensures pauses == Backoff(|calls| - 1, CONFIG.retryDelayMs)
    ensures forall i :: 0 <= i < |calls| ==>
      calls[i] == FetchCall(CONFIG.baseUrl + VALIDATE_ENDPOINT, "POST", DEFAULT_HEADERS,
                            Some(LicenseQuery(licenseKey, hardwareHash)), CONFIG.timeoutMs)
  {
    var options := RequestOptions(Some("POST"), Some(LicenseQuery(licenseKey, hardwareHash)));
    response, calls, pauses := Request(CONFIG, VALIDATE_ENDPOINT, options, attempts);
  }

  /** ApiClient.checkHealth (premium.js:166-169): a GET of the health endpoint
      with no body, through request. */
  method CheckHealth<D>(attempts: seq<Attempt<D>>)
    returns (response: ApiResponse<D>, ghost calls: seq<FetchCall>, ghost pauses: seq<nat>)
    requires CONFIG.retryAttempts <= |attempts|
    ensures response == RequestOutcome(attempts, CONFIG.retryAttempts)
    ensures 1 <= |calls| <= CONFIG.retryAttempts
    ensures |calls| == AttemptsMade(attempts, CONFIG.retryAttempts)
    ensures pauses == Backoff(|calls| - 1, CONFIG.retryDelayMs)
    ensures forall i :: 0 <= i < |calls| ==>
      calls[i] == FetchCall(CONFIG.baseUrl + HEALTH_ENDPOINT, "GET", DEFAULT_HEADERS, None, CONFIG.timeoutMs)
  {
    response, calls, pauses := Request(CONFIG, HEALTH_ENDPOINT, RequestOptions(None, None), attempts);
  }

  /** Two transport failures and then a good response: three attempts, the
      response of the third, and 1000 + 2000 ms of pauses in between. */
  lemma RecoversOnThirdAttempt<D>(data: D)
    ensures var attempts := [Rejected("Failed to fetch"), Rejected("Failed to fetch"), Responded(200, "OK", Json(data))];
      && RequestOutcome(attempts, CONFIG.retryAttempts) == Success(data, 200)
      && AttemptsMade(attempts, CONFIG.retryAttempts) == 3
      && Sum(Backoff(AttemptsMade(attempts, CONFIG.retryAttempts) - 1, CONFIG.retryDelayMs)) == 3000
  {
    var attempts: seq<Attempt<D>> := [Rejected("Failed to fetch"), Rejected("Failed to fetch"), Responded(200, "OK", Json(data))];
    assert FirstSuccess(attempts, 3) == 2 by {
      assert !Succeeded(attempts[0]) && !Succeeded(attempts[1]) && Succeeded(attempts[2]);
    }
    BackoffTotal(2, 1000);
  }

  /** A server that never answers in time: exactly three attempts, then
      "Request timeout" with status 0. */
  lemma AlwaysTimesOut<D>()
    ensures var attempts: seq<Attempt<D>> := [Aborted, Aborted, Aborted];
      && RequestOutcome(attempts, CONFIG.retryAttempts) == Failure("Request timeout", 0)
      && AttemptsMade(attempts, CONFIG.retryAttempts) == 3
  {
    var attempts: seq<Attempt<D>> := [Aborted, Aborted, Aborted];
    RequestOutcomeCases(attempts, 3);
    assert !Succeeded(attempts[0]) && !Succeeded(attempts[1]) && !Succeeded(attempts[2]);
  }
}
