# PECU premium page: license-key core

This project models the license-key logic of the PECU premium web page
(`premium.js`) and proves properties of that model in Dafny. It covers:

- key normalisation (`Utils.formatLicenseKey`) and the key shape check
  (`Utils.isValidLicenseFormat`);
- how the license input field is reformatted, and where its cursor goes,
  while the user types;
- pre-filling the field from the page URL;
- the retrying HTTP client (`ApiClient.request`, `validateLicense`,
  `checkHealth`);
- the validation workflow (`LicenseValidator.validate`);
- what the page shows for a validation: success-field defaults, the
  error-text table, and the `handleValidation` handler.

Files:

- `wrappers.dfy`: `Option` and `Result`.
- `license_key.dfy`: module `LicenseKey`. `FormatLicenseKey` and
  `IsValidLicenseFormat` are recursive functions over strings. The lemmas
  cover the shape of the output, idempotence, and exactly which keys pass.
- `license_input.dfy`: module `LicenseInput`. Cursor re-positioning and the
  URL pre-fill.
- `api_client.dfy`: module `ApiClient`. `Request` is a method with a loop
  over the attempts. It is proved against `RequestOutcome`, a loop-free
  statement of the same result built on `FirstSuccess`. Ghost outputs record
  the fetch calls made and the pauses taken.
- `license_validator.dfy`: module `LicenseValidator`. `Validate` is a
  function of the key and of the server's answer. `ValidateThroughClient`
  wires it to `ApiClient.ValidateLicense`.
- `validation_display.dfy`: module `ValidationDisplay`. `Summarize`,
  `ErrorText` and `HandleValidation`.

The network is a parameter. Each fetch attempt comes to an `Attempt` value:

- `Responded(status, statusText, body)`, where the body either parsed as JSON
  or failed to parse;
- `Aborted`, when the 30-second timer fired first;
- `Rejected(message)`, for any other transport failure.

The caller supplies these in order. Timers, the DOM and the URL are likewise
inputs or left out (see below).

Where the code and its comments or documentation disagree, the model follows
the code:

- The cleaning step keeps only `A-Z` and `0-9`, so lower-case letters are
  deleted rather than upper-cased. For example, `"abcd1234efgh5678"` formats
  to `"1234-5678"` (`LowercaseIsDeleted`), and the final `toUpperCase` never
  changes anything (`UpperFixesFormatted`).
- A key typed entirely in lower case therefore never passes validation
  (`FormattedLowercaseKeyRefused`), even though `isValidLicenseFormat` alone
  accepts it (`LowercaseSampleKeyAccepted`).
- After all attempts fail, the error reported depends only on the last
  attempt. It is "Request timeout" only when that last attempt timed out.
- Errors are plain message strings. There is no error taxonomy. With zero
  retry attempts, `request` resolves to `undefined`, and `validate` then fails
  with the TypeError message reading `success` off `undefined`.

## Model

| member | source | states |
|---|---|---|
| LicenseKey.Clean | premium.js:24 | The cleaned key is no longer than the input, and every character it keeps is an upper-case ASCII letter or digit taken from the input. |
| LicenseKey.CleanAppend | premium.js:24 | Cleaning works character by character: cleaning a concatenation is concatenating the cleaned parts. |
| LicenseKey.CleanFixesKeyStrings | premium.js:24 | Cleaning leaves a string unchanged exactly when every character is already A-Z or 0-9. |
| LicenseKey.CleanDeletesNonKeyStrings | premium.js:24 | A string with no A-Z or 0-9 character, lower-case letters included, cleans to the empty string. |
| LicenseKey.Join | premium.js:27 | Joining gives nothing for no groups, the group itself for one, and otherwise the first group, the separator, then the join of the rest. So there is one separator between each two groups and none at the ends, and the length is the groups' total plus one less than their number. |
| LicenseKey.Chunks | premium.js:27 | Splitting into groups of 4 gives non-empty groups that concatenate back to the input; every group has 4 characters except the last, which has 1 to 4. |
| LicenseKey.ToUpper | premium.js:28 | ASCII upper-casing keeps the length and maps each character on its own. |
| LicenseKey.UpperFixesFormatted | premium.js:28 | Upper-casing changes nothing on a string of A-Z, 0-9 and dashes, so the final toUpperCase is a no-op. |
| LicenseKey.JoinChunksShape | premium.js:27 | Joining the groups with '-' puts a dash at every fifth position and the cleaned characters, in order, everywhere else, with length n + (n-1)/4. |
| LicenseKey.GroupedCharacters | premium.js:27-28 | The joined groups consist only of key characters and dashes. |
| LicenseKey.CleanJoinChunks | premium.js:27 | Cleaning the joined groups gives back the cleaned key: the dashes are the only additions. |
| LicenseKey.FormatLicenseKey | premium.js:23-29 | The formatted key has length n + (n-1)/4 for n cleaned characters, a dash at every fifth position and the cleaned characters in order elsewhere; removing the dashes gives back the cleaned input. |
| LicenseKey.FormatCharacters | premium.js:24-25 | The output holds only A-Z, 0-9 and '-'; when at most 4 characters survive cleaning, they are returned as they are, with no dash. |
| LicenseKey.FormatGroups | premium.js:26-28 | With more than 4 cleaned characters, the output is the groups of 4 joined with '-'. |
| LicenseKey.FormatIdempotent | premium.js:23-29 | Formatting a formatted key changes nothing. |
| LicenseKey.Matches | premium.js:33 | An anchored match of a pattern with no repetition consumes exactly as many characters as the pattern has tokens. |
| LicenseKey.IsValidLicenseFormat | premium.js:32-35 | The upper-cased key matches ^PECU-[A-Z0-9]{4}-[A-Z0-9]{4}-[A-Z0-9]{4}-[A-Z0-9]{4}$, so an accepted key is 24 characters long. |
| LicenseKey.MatchesPointwise | premium.js:33-34 | A string matches a fixed-length token pattern exactly when it has the pattern's length and each character matches its token. |
| LicenseKey.ValidFormatIsShape | premium.js:32-35 | A key passes the check exactly when its ASCII upper-case form is 24 characters long: "PECU", then four groups of 4 upper-case letters or digits, each after a dash. |
| LicenseKey.ValidFormatDashes | premium.js:32-35 | An accepted key is 24 characters long with dashes at indices 4, 9, 14 and 19. |
| LicenseKey.ShapedKeyAccepted | premium.js:32-35 | Every key of that shape passes the check. |
| LicenseKey.FormattedValidIff | premium.js:316-318 | A formatted key passes the check exactly when the cleaned input has exactly 20 characters and starts with "PECU". |
| LicenseKey.GroupsHaveLicenseShape | premium.js:33 | "PECU" followed by four groups, each a dash and four upper-case letters or digits, has the license shape, for any such groups. |
| LicenseKey.SampleKeyShape | premium.js:33 | "PECU-AB12-CD34-EF56-GH78" has the license shape. |
| LicenseKey.SampleKeyAccepted | premium.js:32-35 | "PECU-AB12-CD34-EF56-GH78" is accepted. |
| LicenseKey.SampleKeyUpperCased | premium.js:34 | Upper-casing the lower-case sample key gives the upper-case one. |
| LicenseKey.LowercaseSampleKeyAccepted | premium.js:32-35 | The check ignores case: the sample key typed in lower case is accepted. |
| LicenseKey.MalformedKeysRefused | premium.js:32-35 | A key with three groups, or with a prefix other than PECU, is refused. |
| LicenseKey.FiveKeyCharsGroup | premium.js:27 | Five characters group as four, a dash, and one. |
| LicenseKey.TwoGroups | premium.js:23-29 | Eight cleaned characters format as two groups of 4 around one dash. |
| LicenseKey.LowercaseIsDeleted | premium.js:24 | Four lower-case letters, four digits, four lower-case letters and four digits format to the two digit groups joined by a dash. |
| LicenseKey.FormattedLowercaseKeyRefused | premium.js:316-318 | A key with no upper-case letter never passes the format check once formatted. |
| LicenseInput.Min | premium.js:282 | Math.min gives the smaller of its two arguments. |
| LicenseInput.Utf16Length | premium.js:281-282 | A string's length counts UTF-16 code units: never fewer than its characters, and exactly as many when none lies outside the Basic Multilingual Plane. |
| LicenseInput.Utf16Append | premium.js:281-282 | The UTF-16 length of a concatenation is the sum of the lengths of its parts. |
| LicenseInput.Utf16Char | premium.js:281-282 | A single character counts two code units when it lies above U+FFFF and one otherwise; with Utf16Append this fixes the length of every string. |
| LicenseInput.FormatLicenseInput | premium.js:271-285 | The field gets the formatted key. An already formatted field is left untouched, cursor included. Otherwise the cursor, a UTF-16 offset, moves by the change in total length in UTF-16 code units, capped at the end of the new text. |
| LicenseInput.FormatInputIdempotent | premium.js:271-285 | Reformatting a field a second time changes neither its text nor its cursor. |
| LicenseInput.CursorAdvancesByAllDashes | premium.js:281-282 | On a field of key characters only, the cursor advances by the number of dashes inserted anywhere in the text, not only before it, capped at the end. |
| LicenseInput.CursorCanGoNegative | premium.js:281-283 | When characters are deleted the offset can go below zero: "ab" with the cursor at 0 becomes "" with offset -2. |
| LicenseInput.SupplementaryCharacterCountsTwice | premium.js:281-282 | Five key characters followed by a character outside the Basic Multilingual Plane, cursor at 1: the text becomes a group of four and a group of one, and the cursor moves back to 0, because that character counted as two code units. |
| LicenseInput.PrefillFromUrl | premium.js:392-402 | A missing or empty license parameter changes nothing. Otherwise the field gets the formatted key, and auto-validation is scheduled only then. |
| LicenseInput.PrefillAutoValidates | premium.js:397-400 | Auto-validation is scheduled exactly when the parameter holds 20 key characters starting with "PECU", and the prefilled key then passes the workflow's format check. |
| ApiClient.Decimal | premium.js:129 | A status code renders as a non-empty string of decimal digits with no leading zero. |
| ApiClient.DecimalRoundTrip | premium.js:129 | The rendering reads back as the same number, so different statuses give different "HTTP <status>: <text>" messages. |
| ApiClient.PrepareCall | premium.js:103-114 | The URL is the base URL followed by the endpoint. The method is GET unless the caller gives one. The default headers, the caller's body and the configured timeout are used. |
| ApiClient.HttpErrorMessage | premium.js:128-129 | The message is "HTTP ", the status in decimal digits, ": ", then the status text. |
| ApiClient.HttpErrorMessageInjective | premium.js:129 | Two HTTP error messages are equal only when both the status and the status text are. |
| ApiClient.FailureReport | premium.js:138-143 | A final failed attempt is reported as "Request timeout" if it aborted, as the transport error's message if fetch rejected, as the HTTP message for a non-ok status, and as the parse error for an unparsable body. |
| ApiClient.FirstSuccess | premium.js:116-133 | The index of the first of n attempts with an ok status and a parsable body; every attempt before it failed; n if none succeeded. |
| ApiClient.AttemptsMade | premium.js:116-133 | The number of attempts made never exceeds the configured number. |
| ApiClient.RequestOutcome | premium.js:116-147 | request resolves to undefined exactly when no attempt is configured. A success carries an ok status. A failure carries status 0. |
| ApiClient.Backoff | premium.js:147 | After failed attempt k (counting from 1) the client pauses retryDelay * k. |
| ApiClient.BackoffTotal | premium.js:147 | Pauses after k failed attempts add up to retryDelay * k * (k + 1) / 2. |
| ApiClient.Request | premium.js:102-150 | The loop returns RequestOutcome. It makes one identical fetch call per attempt up to and including the first success, and pauses retryDelay * k after each failed attempt k except the last. |
| ApiClient.RequestOutcomeCases | premium.js:116-147 | request returns undefined exactly when no attempt is configured. It succeeds exactly when some attempt succeeds, returning the first such attempt's data and status with no attempt after it. Otherwise it makes all n attempts and fails with status 0, reporting the last attempt ("Request timeout" if that attempt aborted). |
| ApiClient.TotalPause | premium.js:138-147 | After m attempts the pauses total retryDelay * m * (m - 1) / 2, which is 3000 ms when all three default attempts fail. |
| ApiClient.ValidateLicense | premium.js:153-163 | Validation makes between one and three POSTs to https://api.pecu.tools/api/v1/license/validate, each with the default headers, a 30 s timeout and a body holding the key and the hardware hash ("browser-check" by default). It makes exactly AttemptsMade calls, so none after the first success, and pauses 1000 ms × k after failed attempt k. It resolves to RequestOutcome. |
| ApiClient.CheckHealth | premium.js:166-169 | The health check makes exactly AttemptsMade GETs with no body to the health endpoint, between one and three. It pauses 1000 ms × k after failed attempt k and resolves to RequestOutcome. |
| ApiClient.RecoversOnThirdAttempt | premium.js:116-147 | Two transport failures followed by a 200 response: three attempts, the third response's data, and 3000 ms of pauses. |
| ApiClient.AlwaysTimesOut | premium.js:116-144 | Three timeouts: three attempts, then a failure with "Request timeout" and status 0. |
| LicenseValidator.OrElse | premium.js:326 | `s \|\| fallback` gives the fallback for an absent or empty string, and a present non-empty string as it is. |
| LicenseValidator.Validate | premium.js:314-336 | Validation succeeds exactly when the formatted key passes the format check, the server call succeeds, and the returned data says valid. It then returns that data unchanged. Every failure carries a non-empty message. |
| LicenseValidator.MalformedKeyNeverReachesServer | premium.js:316-320 | A badly formatted key gives the fixed format-error message whatever the server would answer. |
| LicenseValidator.OnlyFormattedKeyIsSent | premium.js:316-323 | The result depends on the server only through its answer for the formatted key. |
| LicenseValidator.ValidateNormalised | premium.js:316 | Validating the formatted key gives the same result as validating the raw input. |
| LicenseValidator.AcceptedKeyShape | premium.js:316-320 | An accepted key cleans to exactly 20 characters beginning with "PECU". |
| LicenseValidator.FailureMessages | premium.js:323-333 | A failed request gives its error, or "Network error" if that is empty. A license marked invalid gives the server's error, or "Invalid license" if that is empty. An undefined response gives the TypeError message. |
| LicenseValidator.ValidateThroughClient | premium.js:314-336 | Wired to the HTTP client, validation returns Validate's result. It makes no fetch call and no pause exactly when the key is malformed, and every call carries the formatted key. Otherwise it makes exactly AttemptsMade calls with the Backoff pauses between them. |
| LicenseValidator.TimeoutReported | premium.js:323-326 | When no attempt succeeds and the last one times out, validation fails with "Request timeout". |
| LicenseValidator.ExpiredLicenseReported | premium.js:329-333 | A server answer {valid: false, error: "License expired"} makes validation fail with "License expired". |
| ValidationDisplay.Summarize | premium.js:234-238 | The plan comes from data.user.plan, or "Unknown" if it is absent or empty. An absent download count shows as unlimited and a present one, zero included, as itself. Absent features show as an empty list. The expiry date is passed through. |
| ValidationDisplay.BareAnswerShowsDefaults | premium.js:234-238 | An answer with nothing but the validity flag and error shows every default: plan "Unknown", unlimited downloads, no expiry date, no features. |
| ValidationDisplay.NoDownloadsLeftShownAsZero | premium.js:236 | A download count of 0 is shown as 0, not replaced by the unlimited default. |
| ValidationDisplay.EmptyPlanShownAsUnknown | premium.js:235 | An empty plan name is shown as "Unknown". |
| ValidationDisplay.ErrorText | premium.js:255-267 | A known error is shown with its table text. Any other error is shown as "Validation failed: " followed by the error. |
| ValidationDisplay.ErrorTextInjective | premium.js:256-266 | Two different errors that are both in the table, or both outside it, are never shown with the same text. |
| ValidationDisplay.ClientErrorsShown | premium.js:256-266 | "Network error" and "Request timeout" have table texts. The client's own format-error and "Invalid license" messages do not, so they are shown after the fallback prefix. |
| ValidationDisplay.Trim | premium.js:406 | Trimming is empty exactly when the input is all white space, and otherwise neither starts nor ends with white space. |
| ValidationDisplay.TrimInfix | premium.js:406 | The trimmed input is a slice of the input with only white space before and after it, so only the two ends are trimmed. |
| ValidationDisplay.HandleValidation | premium.js:405-433 | Input that is only white space prompts for a key. Otherwise the page shows the success summary exactly when validation of the trimmed input succeeds, and the error text of its message when it fails. |
| ValidationDisplay.TimeoutShown | premium.js:405-433 | A well-formed key whose every attempt times out leads to the "validation request timed out" text. |

## Left out

- DOM and presentation: the HTML built by `showMessage` and `showValidationSuccess`, the loading state, focus, copy buttons, and event wiring.
- `input.setSelectionRange`: how the browser clamps a negative cursor offset is not modelled. `FormatLicenseInput` returns the raw offset the code computes.
- Timers: the pause between attempts is recorded as a ghost sequence of durations and never waited for. The 1-second delay before auto-validation after pre-filling is not modelled either; `PrefillFromUrl` only says whether validation is scheduled.
- `getUrlParams` (`window.location`): the `license` parameter is an input.
- `fetch`, `AbortController`, `response.json()` and `JSON.stringify` are foreign calls. Each attempt's outcome is an input value, and the request body is kept as the two fields before serialisation.
- A timer firing while the body is being read: the code clears the timer before reading the body, so this cannot happen.
- JSON bodies of unexpected types: a response whose `data` is not an object, or whose `error` is not a string, is outside the `LicenseData` type.
- LicenseValidator.LicenseData: `valid` is a boolean and `downloadsRemaining` an integer. The code tests `data.valid` for truthiness, so a string such as "false" or the number 1 counts as valid there, and it prints any `downloads_remaining` value. Those other JSON values are not modelled.
- `Utils.formatDate` depends on `Date` and locale formatting, so the expiry date is passed through unformatted.
- Logging, analytics (`trackEvent`), and `checkApiHealth`, which only logs.
- Overlapping `handleValidation` calls: async interleaving has no defined order.
- Unicode: upper-casing and trimming are modelled for ASCII only.
- `errorMessages` lookups of inherited object keys such as "constructor", which would show a function's text.
- ValidationDisplay.ErrorTextInjective: does not cover a known error against an unknown one, because the solver cannot index the long table texts to see that none of them begins with "Validation failed: ".
