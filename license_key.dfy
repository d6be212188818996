/** Utils.formatLicenseKey and Utils.isValidLicenseFormat: turning typed text
    into dash-separated groups of four key characters, and checking the shape
    PECU-XXXX-XXXX-XXXX-XXXX. */
module LicenseKey {

  /** The characters of the class [A-Z0-9]. */
  predicate IsKeyChar(c: char) {
    'A' <= c <= 'Z' || '0' <= c <= '9'
  }

  /** key.replace(/[^A-Z0-9]/g, ''): every character outside A-Z and 0-9 is
      deleted. The class is upper-case only, so lower-case letters are deleted
      too, not upper-cased. */
  function Clean(s: string): (r: string)
    ensures |r| <= |s|
    ensures forall i :: 0 <= i < |r| ==> IsKeyChar(r[i]) && r[i] in s
  {
    if s == [] then []
    else if IsKeyChar(s[0]) then [s[0]] + Clean(s[1..])
    else Clean(s[1..])
  }

  /** Cleaning distributes over concatenation: it works character by character. */
  lemma {:induction false} CleanAppend(a: string, b: string)
    ensures Clean(a + b) == Clean(a) + Clean(b)
  {
    if a == [] {
      assert a + b == b;
    } else {
      assert (a + b)[0] == a[0];
      assert (a + b)[1..] == a[1..] + b;
      CleanAppend(a[1..], b);
    }
  }

  /** Cleaning leaves a string alone exactly when it holds key characters only. */
  lemma {:induction false} CleanFixesKeyStrings(s: string)
    ensures Clean(s) == s <==> forall i :: 0 <= i < |s| ==> IsKeyChar(s[i])
  {
    if s != [] && forall i :: 0 <= i < |s| ==> IsKeyChar(s[i]) {
      CleanFixesKeyStrings(s[1..]);
      assert forall i :: 0 <= i < |s[1..]| ==> IsKeyChar(s[1..][i]);
    }
  }

  /** Cleaning deletes a string that holds no key character at all, such as a
      run of lower-case letters. */
  lemma {:induction false} CleanDeletesNonKeyStrings(s: string)
    requires forall i :: 0 <= i < |s| ==> !IsKeyChar(s[i])
    ensures Clean(s) == []
  {
    if s != [] {
      CleanDeletesNonKeyStrings(s[1..]);
    }
  }

  /** Concatenation of a list of groups. */
  function Concat(groups: seq<string>): string {
    if groups == [] then [] else groups[0] + Concat(groups[1..])
  }

  /** cleaned.match(/.{1,4}/g) on a non-empty string: consecutive groups of four
      characters, the last one holding the one to four that remain. (On the
      empty string the regex match returns null; formatLicenseKey never gets
      there.) */
  function Chunks(s: string): (groups: seq<string>)
    requires s != []
    ensures groups != []
    ensures Concat(groups) == s
    ensures forall i :: 0 <= i < |groups| - 1 ==> |groups[i]| == 4
    ensures 0 < |groups[|groups| - 1]| <= 4
    decreases |s|
  {
    if |s| <= 4 then [s]
    else
      var rest := Chunks(s[4..]);
      assert ([s[..4]] + rest)[1..] == rest;
      [s[..4]] + rest
  }

  /** Array.prototype.join with a one-character separator: one separator
      between each two groups, none at either end. */
  function Join(groups: seq<string>, sep: char): (r: string)
    ensures groups == [] ==> r == []
    ensures groups != [] ==> |r| == |Concat(groups)| + |groups| - 1
    ensures |groups| == 1 ==> r == groups[0]
    ensures |groups| >= 2 ==> r == groups[0] + [sep] + Join(groups[1..], sep)
  {
    if groups == [] then []
    else if |groups| == 1 then groups[0]
    else groups[0] + [sep] + Join(groups[1..], sep)
  }

  /** String.prototype.toUpperCase on one character, ASCII letters only. */
  function UpperChar(c: char): char {
    if 'a' <= c <= 'z' then (c as int - 32) as char else c
  }

  /** String.prototype.toUpperCase, ASCII letters only. */
  function ToUpper(s: string): (r: string)
    ensures |r| == |s|
    ensures forall i :: 0 <= i < |s| ==> r[i] == UpperChar(s[i])
  {
    seq(|s|, i requires 0 <= i < |s| => UpperChar(s[i]))
  }

  /** Upper-casing leaves key characters and dashes alone. */
  lemma UpperFixesFormatted(s: string)
    requires forall i :: 0 <= i < |s| ==> IsKeyChar(s[i]) || s[i] == '-'
    ensures ToUpper(s) == s
  {
  }

  /** Length of a cleaned string of n characters once a dash is put between
      each group of four. */
  function DashedLength(n: nat): nat {
    if n == 0 then 0 else n + (n - 1) / 4
  }

  /** What position i of the grouped form of c holds: every fifth position is a
      dash, the others take the characters of c in order. */
  predicate GroupedAt(r: string, c: string, i: int)
    requires 0 <= i < |r| && |r| == DashedLength(|c|)
  {
    r[i] == if i % 5 == 4 then '-' else c[i - i / 5]
  }

  /** Index arithmetic for one more leading group of five positions. */
  lemma ShiftByGroup(i: int)
    requires i >= 5
    ensures (i - 5) % 5 == i % 5
    ensures 4 + (i - 5) - (i - 5) / 5 == i - i / 5
  {
  }

  /** Four characters or fewer already have the grouped layout: there is no
      dash position among them. */
  lemma ShortIsGrouped(c: string)
    requires |c| <= 4
    ensures |c| == DashedLength(|c|)
    ensures forall i :: 0 <= i < |c| ==> GroupedAt(c, c, i)
  {
    forall i | 0 <= i < |c|
      ensures GroupedAt(c, c, i)
    {
      assert i % 5 == i && i / 5 == 0;
    }
  }

  /** The groups of c joined by dashes: positions 4, 9, 14, ... hold dashes and
      the characters of c fill the others, in order. */
  lemma {:induction false} JoinChunksShape(c: string)
    requires c != []
    ensures |Join(Chunks(c), '-')| == DashedLength(|c|)
    ensures forall i :: 0 <= i < |Join(Chunks(c), '-')| ==> GroupedAt(Join(Chunks(c), '-'), c, i)
    decreases |c|
  {
    var r := Join(Chunks(c), '-');
    if |c| <= 4 {
      assert r == c;
      ShortIsGrouped(c);
    } else {
      var rest := c[4..];
      JoinChunksShape(rest);
      var tail := Join(Chunks(rest), '-');
      assert ([c[..4]] + Chunks(rest))[1..] == Chunks(rest);
      assert r == c[..4] + ['-'] + tail;
      GroupedAfterFirstGroup(r, c, tail);
    }
  }

  /** The grouped form of c is its first four characters, a dash, and the
      grouped form of the rest. */
  lemma GroupedAfterFirstGroup(r: string, c: string, tail: string)
    requires |c| > 4 && r == c[..4] + ['-'] + tail
    requires |tail| == DashedLength(|c| - 4)
    requires forall j :: 0 <= j < |tail| ==> GroupedAt(tail, c[4..], j)
    ensures |r| == DashedLength(|c|)
    ensures forall i :: 0 <= i < |r| ==> GroupedAt(r, c, i)
  {
    var rest := c[4..];
    forall i | 0 <= i < |r|
      ensures GroupedAt(r, c, i)
    {
      if i >= 5 {
        assert r[i] == tail[i - 5];
        assert GroupedAt(tail, rest, i - 5);
        ShiftByGroup(i);
      } else if i < 4 {
        assert r[i] == c[i];
        assert i % 5 == i && i / 5 == 0;
      }
    }
  }

  /** A string laid out as the grouped form of a cleaned string holds key
      characters and dashes only. */
  lemma GroupedCharacters(r: string, c: string)
    requires |r| == DashedLength(|c|)
    requires forall i :: 0 <= i < |c| ==> IsKeyChar(c[i])
    requires forall i :: 0 <= i < |r| ==> GroupedAt(r, c, i)
    ensures forall i :: 0 <= i < |r| ==> IsKeyChar(r[i]) || r[i] == '-'
  {
    forall i | 0 <= i < |r|
      ensures IsKeyChar(r[i]) || r[i] == '-'
    {
      assert GroupedAt(r, c, i);
      if i % 5 != 4 {
        assert 0 <= i - i / 5 < |c|;
      }
    }
  }

  /** Removing the dashes from the grouped form gives back the cleaned string. */
  lemma {:induction false} CleanJoinChunks(c: string)
    requires c != []
    requires forall i :: 0 <= i < |c| ==> IsKeyChar(c[i])
    ensures Clean(Join(Chunks(c), '-')) == c
    decreases |c|
  {
    if |c| <= 4 {
      CleanFixesKeyStrings(c);
    } else {
      var rest := c[4..];
      var tail := Join(Chunks(rest), '-');
      assert ([c[..4]] + Chunks(rest))[1..] == Chunks(rest);
      assert Join(Chunks(c), '-') == c[..4] + ['-'] + tail;
      CleanAppend(c[..4] + ['-'], tail);
      CleanAppend(c[..4], ['-']);
      CleanFixesKeyStrings(c[..4]);
      CleanJoinChunks(rest);
      assert c == c[..4] + rest;
    }
  }

  /** Utils.formatLicenseKey (premium.js:23-29). The result is the cleaned key
      with a dash at every fifth position: groups of four, the last one of one
      to four characters, no dash at all when four or fewer characters remain.
      Removing the dashes gives back exactly the cleaned key. */
  function FormatLicenseKey(key: string): (r: string)
    ensures |r| == DashedLength(|Clean(key)|)
    ensures forall i :: 0 <= i < |r| ==> GroupedAt(r, Clean(key), i)
    ensures Clean(r) == Clean(key)
  {
    var cleaned := Clean(key);
    if |cleaned| <= 4 then
      CleanFixesKeyStrings(cleaned);
      ShortIsGrouped(cleaned);
      cleaned
    else
      var formatted := Join(Chunks(cleaned), '-');
      JoinChunksShape(cleaned);
      CleanJoinChunks(cleaned);
      GroupedCharacters(formatted, cleaned);
      UpperFixesFormatted(formatted);
      ToUpper(formatted)
  }

  /** Only key characters and dashes come out of formatLicenseKey, so no
      lower-case letter survives it; and when four or fewer key characters are
      left there is no dash. */
  lemma FormatCharacters(key: string)
    ensures forall i :: 0 <= i < |FormatLicenseKey(key)| ==>
      IsKeyChar(FormatLicenseKey(key)[i]) || FormatLicenseKey(key)[i] == '-'
    ensures |Clean(key)| <= 4 ==> FormatLicenseKey(key) == Clean(key)
  {
    var c, r := Clean(key), FormatLicenseKey(key);
    GroupedCharacters(r, c);
    if |c| <= 4 {
      forall i | 0 <= i < |r|
        ensures r[i] == c[i]
      {
        assert GroupedAt(r, c, i);
      }
    }
  }

  /** The grouped form splits into the groups of Chunks: all of four
      characters but the last, which has one to four. */
  lemma FormatGroups(key: string)
    requires |Clean(key)| > 4
    ensures FormatLicenseKey(key) == Join(Chunks(Clean(key)), '-')
  {
    var formatted := Join(Chunks(Clean(key)), '-');
    JoinChunksShape(Clean(key));
    GroupedCharacters(formatted, Clean(key));
    UpperFixesFormatted(formatted);
  }

  /** formatLicenseKey is idempotent: formatting a formatted key changes nothing. */
  lemma {:induction false} FormatIdempotent(key: string)
    ensures FormatLicenseKey(FormatLicenseKey(key)) == FormatLicenseKey(key)
  {
    var r := FormatLicenseKey(key);
    assert Clean(r) == Clean(key);
  }

  /** The character classes the regex of isValidLicenseFormat is built from. */
  datatype Token = Exactly(c: char) | AnyKeyChar

  predicate TokenMatches(t: Token, c: char) {
    match t
    case Exactly(d) => c == d
    case AnyKeyChar => IsKeyChar(c)
  }

  /** -[A-Z0-9]{4} */
  const KEY_GROUP: seq<Token> := [Exactly('-'), AnyKeyChar, AnyKeyChar, AnyKeyChar, AnyKeyChar]

  /** ^PECU-[A-Z0-9]{4}-[A-Z0-9]{4}-[A-Z0-9]{4}-[A-Z0-9]{4}$ */
  const LICENSE_PATTERN: seq<Token> :=
    [Exactly('P'), Exactly('E'), Exactly('C'), Exactly('U')] + KEY_GROUP + KEY_GROUP + KEY_GROUP + KEY_GROUP

  /** Whole-string match of a pattern without repetition or alternatives. */
  predicate Matches(s: string, pattern: seq<Token>): (b: bool)
    ensures b ==> |s| == |pattern|
    decreases |pattern|
  {
    if pattern == [] then s == []
    else s != [] && TokenMatches(pattern[0], s[0]) && Matches(s[1..], pattern[1..])
  }

  /** A whole-string match is a match of every position. */
  lemma {:induction false} MatchesPointwise(s: string, pattern: seq<Token>)
    ensures Matches(s, pattern) <==>
      |s| == |pattern| && forall i :: 0 <= i < |s| ==> TokenMatches(pattern[i], s[i])
    decreases |pattern|
  {
    if pattern != [] && s != [] {
      MatchesPointwise(s[1..], pattern[1..]);
      if |s| == |pattern| && forall i :: 0 <= i < |s| ==> TokenMatches(pattern[i], s[i]) {
        assert forall i :: 0 <= i < |s[1..]| ==> TokenMatches(pattern[1..][i], s[1..][i]);
      }
    }
  }

  /** Utils.isValidLicenseFormat (premium.js:32-35): the upper-cased key matches
      the license pattern. */
  predicate IsValidLicenseFormat(key: string): (b: bool)
    ensures b ==> |key| == 24
  {
    Matches(ToUpper(key), LICENSE_PATTERN)
  }

  /** The shape of an accepted key, stated position by position: "PECU", then
      four groups of four key characters, each group preceded by a dash. */
  predicate LicenseShape(u: string) {
    && |u| == 24
    && u[..4] == "PECU"
    && forall i :: 4 <= i < 24 ==> if i % 5 == 4 then u[i] == '-' else IsKeyChar(u[i])
  }

  /** What the license pattern asks of position i. */
  predicate ShapeAt(u: string, i: int)
    requires 0 <= i < |u| && i < 24
  {
    if i < 4 then u[i] == "PECU"[i] else if i % 5 == 4 then u[i] == '-' else IsKeyChar(u[i])
  }

  lemma PatternAt(u: string, i: int)
    requires 0 <= i < |u| && i < 24
    ensures TokenMatches(LICENSE_PATTERN[i], u[i]) <==> ShapeAt(u, i)
  {
    if i < 4 {
    } else if i < 9 {
    } else if i < 14 {
    } else if i < 19 {
    } else {
    }
  }

  /** The position-by-position shape agrees with the prefix-and-groups shape. */
  lemma ShapeAtAll(u: string)
    requires |u| == 24
    ensures LicenseShape(u) <==> forall i :: 0 <= i < 24 ==> ShapeAt(u, i)
  {
    if forall i :: 0 <= i < 24 ==> ShapeAt(u, i) {
      assert ShapeAt(u, 0) && ShapeAt(u, 1) && ShapeAt(u, 2) && ShapeAt(u, 3);
      assert u[..4] == "PECU";
      forall i | 4 <= i < 24
        ensures if i % 5 == 4 then u[i] == '-' else IsKeyChar(u[i])
      {
        assert ShapeAt(u, i);
      }
    }
    if LicenseShape(u) {
      forall i | 0 <= i < 24
        ensures ShapeAt(u, i)
      {
        if i < 4 {
          assert u[i] == u[..4][i];
          assert u[..4][i] == "PECU"[i];
        }
      }
      assert forall i :: 0 <= i < 24 ==> ShapeAt(u, i);
    }
  }

  /** isValidLicenseFormat accepts a key exactly when its upper-cased form has
      the license shape. */
  lemma ValidFormatIsShape(key: string)
    ensures IsValidLicenseFormat(key) <==> LicenseShape(ToUpper(key))
  {
    var u := ToUpper(key);
    MatchesPointwise(u, LICENSE_PATTERN);
    if |u| == 24 {
      forall i | 0 <= i < 24
        ensures TokenMatches(LICENSE_PATTERN[i], u[i]) <==> ShapeAt(u, i)
      {
        PatternAt(u, i);
      }
      ShapeAtAll(u);
    }
  }

  /** Upper-casing turns no character but a dash into a dash. */
  lemma UpperCharDash(c: char)
    ensures UpperChar(c) == '-' <==> c == '-'
  {
    if 'a' <= c <= 'z' {
      assert UpperChar(c) as int >= 65;
    }
  }

  /** An accepted key, as typed, has 24 characters with dashes at indices 4, 9,
      14 and 19. */
  lemma ValidFormatDashes(key: string)
    requires IsValidLicenseFormat(key)
    ensures |key| == 24 && key[4] == '-' && key[9] == '-' && key[14] == '-' && key[19] == '-'
  {
    ValidFormatIsShape(key);
    var u := ToUpper(key);
    assert u[4] == '-' && u[9] == '-' && u[14] == '-' && u[19] == '-';
    UpperCharDash(key[4]);
    UpperCharDash(key[9]);
    UpperCharDash(key[14]);
    UpperCharDash(key[19]);
  }

  /** The workflow check (premium.js:316-318) and the URL pre-fill check
      (premium.js:398) accept formatLicenseKey(x) exactly when x holds twenty
      key characters, the first four being "PECU". */
  lemma FormattedValidIff(x: string)
    ensures IsValidLicenseFormat(FormatLicenseKey(x)) <==>
      |Clean(x)| == 20 && Clean(x)[..4] == "PECU"
  {
    var c, r := Clean(x), FormatLicenseKey(x);
    FormatCharacters(x);
    UpperFixesFormatted(r);
    ValidFormatIsShape(r);
    assert forall i :: 0 <= i < |r| ==> GroupedAt(r, c, i);
    if LicenseShape(r) {
      assert |c| == 20;
      forall i | 0 <= i < 4
        ensures c[i] == "PECU"[i]
      {
        assert GroupedAt(r, c, i);
        assert r[i] == r[..4][i];
      }
    }
    if |c| == 20 && c[..4] == "PECU" {
      forall i | 0 <= i < 24
        ensures if i < 4 then r[i] == "PECU"[i] else if i % 5 == 4 then r[i] == '-' else IsKeyChar(r[i])
      {
        assert GroupedAt(r, c, i);
        if i < 4 {
          assert c[i] == c[..4][i];
        }
      }
      assert r[..4] == "PECU";
    }
  }

  /** Every key of the license shape is accepted as it stands. */
  lemma ShapedKeyAccepted(key: string)
    requires LicenseShape(key)
    ensures IsValidLicenseFormat(key)
  {
    forall i | 0 <= i < 24
      ensures IsKeyChar(key[i]) || key[i] == '-'
    {
      if i < 4 {
        assert key[i] == key[..4][i];
      }
    }
    UpperFixesFormatted(key);
    ValidFormatIsShape(key);
  }

  /** One group of four key characters. */
  predicate KeyGroup(g: string) {
    |g| == 4 && forall j :: 0 <= j < 4 ==> IsKeyChar(g[j])
  }

  /** "PECU" followed by four dash-led groups of four key characters has the
      license shape. */
  lemma GroupsHaveLicenseShape(g1: string, g2: string, g3: string, g4: string)
    requires KeyGroup(g1) && KeyGroup(g2) && KeyGroup(g3) && KeyGroup(g4)
    ensures LicenseShape("PECU" + "-" + g1 + "-" + g2 + "-" + g3 + "-" + g4)
  {
    var u := "PECU" + "-" + g1 + "-" + g2 + "-" + g3 + "-" + g4;
    assert u[..4] == "PECU";
    forall i | 4 <= i < 24
      ensures if i % 5 == 4 then u[i] == '-' else IsKeyChar(u[i])
    {
      var g := if i < 9 then g1 else if i < 14 then g2 else if i < 19 then g3 else g4;
      var start := if i < 9 then 4 else if i < 14 then 9 else if i < 19 then 14 else 19;
      assert u[start..start + 5] == "-" + g;
      assert u[i] == ("-" + g)[i - start];
    }
  }

  /** A well-formed sample key has the license shape. */
  lemma SampleKeyShape()
    ensures LicenseShape("PECU-AB12-CD34-EF56-GH78")
  {
    assert "PECU-AB12-CD34-EF56-GH78" == "PECU" + "-" + "AB12" + "-" + "CD34" + "-" + "EF56" + "-" + "GH78";
    GroupsHaveLicenseShape("AB12", "CD34", "EF56", "GH78");
  }

  /** The sample key is accepted. */
  lemma SampleKeyAccepted()
    ensures IsValidLicenseFormat("PECU-AB12-CD34-EF56-GH78")
  {
    SampleKeyShape();
    ShapedKeyAccepted("PECU-AB12-CD34-EF56-GH78");
  }

  /** Upper-casing the lower-case sample key gives the sample key. */
  lemma SampleKeyUpperCased()
    ensures ToUpper("pecu-ab12-cd34-ef56-gh78") == "PECU-AB12-CD34-EF56-GH78"
  {
  }

  /** The check is case-insensitive: the sample key typed in lower case is
      accepted too. */
  lemma LowercaseSampleKeyAccepted()
    ensures IsValidLicenseFormat("pecu-ab12-cd34-ef56-gh78")
  {
    SampleKeyUpperCased();
    SampleKeyShape();
    ValidFormatIsShape("pecu-ab12-cd34-ef56-gh78");
  }

  /** Keys with too few groups or another prefix are refused. */
  lemma MalformedKeysRefused()
    ensures !IsValidLicenseFormat("PECU-AB12-CD34-EF56")
    ensures !IsValidLicenseFormat("XXXX-AB12-CD34-EF56-GH78")
  {
    ValidFormatIsShape("PECU-AB12-CD34-EF56");
    var other := "XXXX-AB12-CD34-EF56-GH78";
    ValidFormatIsShape(other);
    assert ToUpper(other)[..4][0] == 'X';
  }

  /** Five characters group as four, a dash, and one. */
  lemma FiveKeyCharsGroup(five: string)
    requires |five| == 5
    ensures Join(Chunks(five), '-') == five[..4] + "-" + five[4..]
  {
    assert Chunks(five[4..]) == [five[4..]];
    assert Chunks(five) == [five[..4], five[4..]];
  }

  /** Eight key characters format as two groups. */
  lemma TwoGroups(key: string)
    requires |Clean(key)| == 8
    ensures FormatLicenseKey(key) == Clean(key)[..4] + "-" + Clean(key)[4..]
  {
    var c, r := Clean(key), FormatLicenseKey(key);
    var expected := c[..4] + "-" + c[4..];
    forall i | 0 <= i < 9
      ensures r[i] == expected[i]
    {
      assert GroupedAt(r, c, i);
      if i >= 5 {
        assert i / 5 == 1;
      }
    }
  }

  /** Lower-case input loses its letters instead of being upper-cased: four
      lower-case letters, four digits, four lower-case letters and four digits
      (as in "abcd1234efgh5678") format to the two digit groups alone
      ("1234-5678"), not to four groups. */
  lemma LowercaseIsDeleted(letters1: string, digits1: string, letters2: string, digits2: string)
    requires forall i :: 0 <= i < |letters1| ==> 'a' <= letters1[i] <= 'z'
    requires forall i :: 0 <= i < |letters2| ==> 'a' <= letters2[i] <= 'z'
    requires |digits1| == 4 && forall i :: 0 <= i < 4 ==> '0' <= digits1[i] <= '9'
    requires |digits2| == 4 && forall i :: 0 <= i < 4 ==> '0' <= digits2[i] <= '9'
    ensures FormatLicenseKey(letters1 + digits1 + letters2 + digits2) == digits1 + "-" + digits2
  {
    var key := letters1 + digits1 + letters2 + digits2;
    var c := Clean(key);
    assert c == digits1 + digits2 by {
      CleanAppend(letters1 + digits1 + letters2, digits2);
      CleanAppend(letters1 + digits1, letters2);
      CleanAppend(letters1, digits1);
      CleanDeletesNonKeyStrings(letters1);
      CleanDeletesNonKeyStrings(letters2);
      CleanFixesKeyStrings(digits1);
      CleanFixesKeyStrings(digits2);
    }
    TwoGroups(key);
    assert c[..4] == digits1 && c[4..] == digits2;
  }

  /** A key typed without any upper-case letter never passes the workflow's
      format check once formatted, although isValidLicenseFormat accepts the
      lower-case sample key as typed: the "P" of the prefix cannot survive. */
  lemma FormattedLowercaseKeyRefused(key: string)
    requires forall i :: 0 <= i < |key| ==> !('A' <= key[i] <= 'Z')
    ensures !IsValidLicenseFormat(FormatLicenseKey(key))
  {
    FormattedValidIff(key);
    var c := Clean(key);
    if |c| >= 4 {
      assert c[0] in key;
      assert c[..4][0] == c[0] != 'P';
    }
  }
}
