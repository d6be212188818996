/** UI.formatLicenseInput, which reformats the license field while the user
    types and moves the cursor by the change in length, and
    App.prefillLicenseFromUrl, which fills the field from the page URL. */
module LicenseInput {
  import opened Wrappers
  import opened LicenseKey

  /** The license input field: its text and the cursor offset (selectionStart,
      in UTF-16 code units). The offset is an int because the formula below
      can make it negative. */
  datatype InputField = InputField(value: string, cursor: int)

  /** Math.min */
  function Min(a: int, b: int): (m: int)
    ensures m <= a && m <= b && (m == a || m == b)
  {
    if a <= b then a else b
  }

  /** String.prototype.length: the number of UTF-16 code units, two for a
      character outside the Basic Multilingual Plane. */
  function Utf16Length(s: string): (n: nat)
    ensures n >= |s|
    ensures (forall i :: 0 <= i < |s| ==> s[i] as int <= 0xFFFF) ==> n == |s|
  {
    if s == [] then 0
    else Utf16Length(s[..|s| - 1]) + (if s[|s| - 1] as int > 0xFFFF then 2 else 1)
  }

  /** Lengths add up over concatenation. */
  lemma {:induction false} Utf16Append(a: string, b: string)
    ensures Utf16Length(a + b) == Utf16Length(a) + Utf16Length(b)
    decreases |b|
  {
    if b != [] {
      Utf16Append(a, b[..|b| - 1]);
      assert (a + b)[..|a + b| - 1] == a + b[..|b| - 1];
    } else {
      assert a + b == a;
    }
  }

  /** One character counts two code units above U+FFFF and one otherwise. */
  lemma Utf16Char(c: char)
    ensures Utf16Length([c]) == if c as int > 0xFFFF then 2 else 1
  {
    assert [c][..0] == [];
  }

  /** UI.formatLicenseInput (premium.js:271-285). A field already in formatted
      form is left alone. Otherwise its text becomes the formatted key and the
      cursor moves by the total change in length in UTF-16 code units (which
      is negative when characters were deleted), but never past the end of the
      new text. */
  function FormatLicenseInput(field: InputField): (r: InputField)
    ensures r.value == FormatLicenseKey(field.value)
    ensures field.value == r.value ==> r == field
    ensures field.value != r.value ==>
      && r.cursor <= |r.value|
      && r.cursor <= field.cursor + (|r.value| - Utf16Length(field.value))
      && (r.cursor == |r.value| || r.cursor == field.cursor + (|r.value| - Utf16Length(field.value)))
  {
    var oldValue := field.value;
    var newValue := FormatLicenseKey(oldValue);
    if oldValue != newValue then
      FormatCharacters(oldValue);
      var addedChars := Utf16Length(newValue) - Utf16Length(oldValue);
      InputField(newValue, Min(field.cursor + addedChars, Utf16Length(newValue)))
    else
      field
  }

  /** Reformatting a field twice is the same as once: the second pass finds
      formatted text and touches neither the text nor the cursor. */
  lemma FormatInputIdempotent(field: InputField)
    ensures FormatLicenseInput(FormatLicenseInput(field)) == FormatLicenseInput(field)
  {
    FormatIdempotent(field.value);
  }

  /** When the field holds key characters only, nothing is deleted and the
      cursor moves forward by the number of dashes inserted in the WHOLE text,
      (n - 1) / 4 for n characters, whether those dashes fall before the cursor
      or after it, capped at the end of the text. */
  lemma CursorAdvancesByAllDashes(field: InputField)
    requires forall i :: 0 <= i < |field.value| ==> IsKeyChar(field.value[i])
    requires 0 <= field.cursor <= |field.value|
    requires FormatLicenseKey(field.value) != field.value
    ensures var n := |field.value|;
      FormatLicenseInput(field).cursor == Min(field.cursor + (n - 1) / 4, n + (n - 1) / 4)
    ensures FormatLicenseInput(field).cursor >= field.cursor
  {
    CleanFixesKeyStrings(field.value);
  }

  /** When characters are deleted the cursor moves back, and with the cursor at
      the start it becomes negative: "ab" formats to "" and the cursor offset
      0 becomes -2. */
  lemma CursorCanGoNegative()
    ensures FormatLicenseInput(InputField("ab", 0)) == InputField("", -2)
  {
    CleanDeletesNonKeyStrings("ab");
  }

  /** A character outside the Basic Multilingual Plane counts twice in the
      length difference: five key characters followed by, say, an emoji, with
      the cursor at 1, format as a group of four and a group of one, and the
      cursor moves back to 0 (1 + 6 - 7). */
  lemma SupplementaryCharacterCountsTwice(five: string, c: char)
    requires |five| == 5 && forall i :: 0 <= i < 5 ==> IsKeyChar(five[i])
    requires c as int > 0xFFFF
    ensures FormatLicenseInput(InputField(five + [c], 1)) == InputField(five[..4] + "-" + five[4..], 0)
  {
    var v := five + [c];
    CleanAppend(five, [c]);
    CleanFixesKeyStrings(five);
    CleanDeletesNonKeyStrings([c]);
    assert Clean(v) == five;
    assert v[..5] == five;
    assert Utf16Length(v) == 7;
    FormatGroups(v);
    FiveKeyCharsGroup(five);
  }

  /** What App.prefillLicenseFromUrl does with the `license` URL parameter: the
      text it writes into the field (None: it leaves the field alone) and
      whether it schedules a validation. */
  datatype Prefill = Prefill(fieldValue: Option<string>, autoValidate: bool)

  /** App.prefillLicenseFromUrl (premium.js:392-402). A missing or empty
      parameter changes nothing; otherwise the field gets the formatted key and
      a validation is scheduled when the formatted key passes the format
      check. */
  function PrefillFromUrl(license: Option<string>): (p: Prefill)
    ensures p.fieldValue.Some? <==> license.Some? && license.value != ""
    ensures p.fieldValue.Some? ==> p.fieldValue.value == FormatLicenseKey(license.value)
    ensures p.autoValidate ==> p.fieldValue.Some?
  {
    if license.Some? && license.value != "" then
      var formatted := FormatLicenseKey(license.value);
      Prefill(Some(formatted), IsValidLicenseFormat(FormatLicenseKey(license.value)))
    else
      Prefill(None, false)
  }

  /** A validation is scheduled exactly when the parameter holds twenty key
      characters starting with "PECU"; the key then in the field passes the
      format check again when the workflow formats it a second time. */
  lemma PrefillAutoValidates(license: Option<string>)
    ensures PrefillFromUrl(license).autoValidate <==>
      license.Some? && |Clean(license.value)| == 20 && Clean(license.value)[..4] == "PECU"
    ensures PrefillFromUrl(license).autoValidate ==>
      IsValidLicenseFormat(FormatLicenseKey(PrefillFromUrl(license).fieldValue.value))
  {
    if license.Some? {
      FormattedValidIff(license.value);
      FormatIdempotent(license.value);
    }
  }
}
