/**
 * Input checks and display helpers: API key format, minimum text length,
 * control-character stripping, truncation with an ellipsis and tone-name
 * title casing.
 */
module Validations {
  import opened Strings

  // ---------------------------------------------------------------------------
  // API key format
  // ---------------------------------------------------------------------------

  /** The character class `[a-zA-Z0-9_-]`. */
  predicate IsKeyChar(c: char)
  {
    'a' <= c <= 'z' || 'A' <= c <= 'Z' || '0' <= c <= '9' || c == '_' || c == '-'
  }

  /** The regular expression `^[a-zA-Z0-9_-]+$`, matched one character at a time. */
  predicate MatchesKeyPattern(s: string)
    decreases |s|
  {
    |s| >= 1 && IsKeyChar(s[0]) && (|s| == 1 || MatchesKeyPattern(s[1..]))
  }

  /** The pattern accepts exactly the non-empty strings drawn from the class. */
  lemma {:induction false} KeyPatternIff(s: string)
    ensures MatchesKeyPattern(s) <==> s != [] && forall i :: 0 <= i < |s| ==> IsKeyChar(s[i])
    decreases |s|
  {
    if |s| > 1 {
      KeyPatternIff(s[1..]);
      assert forall i :: 1 <= i < |s| ==> s[i] == s[1..][i - 1];
    }
  }

  /** Every character of `s` is a letter, a digit, `_` or `-`. */
  predicate AllKeyChars(s: string)
  {
    forall i :: 0 <= i < |s| ==> IsKeyChar(s[i])
  }

  /** A key is well-formed when, once trimmed, it has at least ten characters,
      all letters, digits, `_` or `-`. */
  function IsValidApiKey(apiKey: string): (valid: bool)
    ensures valid <==> |Trim(apiKey)| >= 10 && AllKeyChars(Trim(apiKey))
  {
    if apiKey == [] then false
    else
      var trimmed := Trim(apiKey);
      if |trimmed| < 10 then false
      else
        KeyPatternIff(trimmed);
        MatchesKeyPattern(trimmed)
  }

  /** Surrounding whitespace never decides validity, and a valid key is never
      blank, so it always passes the client's credential check. */
  lemma ValidApiKeyTrimmed(apiKey: string)
    ensures IsValidApiKey(apiKey) <==> IsValidApiKey(Trim(apiKey))
    ensures IsValidApiKey(apiKey) ==> !IsBlank(apiKey)
  {
    var trimmed := Trim(apiKey);
    TrimIdempotent(apiKey);
    assert Trim(trimmed) == trimmed;
  }

  // ---------------------------------------------------------------------------
  // Text length
  // ---------------------------------------------------------------------------

  /** Text is long enough for adjustment when, trimmed, it has at least five
      characters; the "at least one word" test can never fail, because
      splitting always yields at least one piece. */
  function IsValidTextForToneAdjustment(text: string): (valid: bool)
    ensures valid <==> |Trim(text)| >= 5
  {
    if text == [] then false
    else
      var trimmed := Trim(text);
      |trimmed| >= 5 && |Split(Spaces, trimmed)| >= 1
  }

  /** Text accepted here is never rejected as blank by the client. */
  lemma ValidTextNotBlank(text: string)
    requires IsValidTextForToneAdjustment(text)
    ensures !IsBlank(text)
  {
  }

  // ---------------------------------------------------------------------------
  // Control-character stripping
  // ---------------------------------------------------------------------------

  /** The class `[\x00-\x08\x0B\x0C\x0E-\x1F\x7F]`: control characters other
      than tab, line feed and carriage return. */
  predicate IsStrippedControl(c: char)
  {
    var n := c as int;
    (0x00 <= n <= 0x08) || n == 0x0B || n == 0x0C || (0x0E <= n <= 0x1F) || n == 0x7F
  }

  /** `s.replace(/[...]/g, '')` for the class above. */
  function StripControls(s: string): (r: string)
    ensures |r| <= |s|
    ensures forall i :: 0 <= i < |r| ==> !IsStrippedControl(r[i])
  {
    if s == [] then [] else (if IsStrippedControl(s[0]) then [] else [s[0]]) + StripControls(s[1..])
  }

  /** Removes the stripped control characters and keeps everything else. */
  function SanitizeText(text: string): (r: string)
    ensures |r| <= |text|
    ensures forall i :: 0 <= i < |r| ==> !IsStrippedControl(r[i])
  {
    if text == [] then [] else StripControls(text)
  }

  /** Sanitizing works character by character: it distributes over concatenation. */
  lemma {:induction false} SanitizeConcat(a: string, b: string)
    ensures SanitizeText(a + b) == SanitizeText(a) + SanitizeText(b)
    decreases |a|
  {
    if a != [] {
      assert (a + b)[1..] == a[1..] + b;
      SanitizeConcat(a[1..], b);
      if b == [] {
        assert a + b == a;
      }
    } else {
      assert a + b == b;
    }
  }

  /** Every character outside the stripped class survives, as often as it
      occurred; in particular tab, line feed and carriage return are kept. */
  lemma {:induction false} SanitizeKeepsOtherCharacters(s: string)
    ensures forall c :: !IsStrippedControl(c) ==> multiset(SanitizeText(s))[c] == multiset(s)[c]
    ensures !IsStrippedControl('\t') && !IsStrippedControl('\n') && !IsStrippedControl('\r')
    decreases |s|
  {
    if s != [] {
      SanitizeKeepsOtherCharacters(s[1..]);
      assert s == [s[0]] + s[1..];
      assert SanitizeText(s) == (if IsStrippedControl(s[0]) then [] else [s[0]]) + SanitizeText(s[1..]);
    }
  }

  /** Sanitizing leaves a string unchanged exactly when it holds no stripped
      control character. */
  lemma {:induction false} SanitizeFixedPoint(s: string)
    ensures SanitizeText(s) == s <==> forall i :: 0 <= i < |s| ==> !IsStrippedControl(s[i])
    decreases |s|
  {
    if s != [] {
      SanitizeFixedPoint(s[1..]);
      assert forall i :: 1 <= i < |s| ==> s[i] == s[1..][i - 1];
      if IsStrippedControl(s[0]) {
        assert |SanitizeText(s)| <= |s[1..]| < |s|;
      }
    }
  }

  /** Sanitizing twice is the same as sanitizing once. */
  lemma SanitizeIdempotent(s: string)
    ensures SanitizeText(SanitizeText(s)) == SanitizeText(s)
  {
    SanitizeFixedPoint(SanitizeText(s));
  }

  // ---------------------------------------------------------------------------
  // Truncation
  // ---------------------------------------------------------------------------

  /** Text longer than `maxLength` is cut to `maxLength - 3` characters and
      given an ellipsis; for `maxLength < 3` the prefix is empty and the result
      is just the three-character ellipsis. */
  function TruncateText(text: string, maxLength: int): (r: string)
    ensures text == [] || |text| <= maxLength ==> r == text
    ensures text != [] && |text| > maxLength ==>
      |r| == (if maxLength >= 3 then maxLength else 3)
      && r[|r| - 3..] == "..."
      && r[..|r| - 3] == text[..|r| - 3]
  {
    if text == [] || |text| <= maxLength then text
    else Substring(text, 0, maxLength - 3) + "..."
  }

  /** Truncating an already truncated text changes nothing. */
  lemma TruncateIdempotent(text: string, maxLength: int)
    ensures TruncateText(TruncateText(text, maxLength), maxLength) == TruncateText(text, maxLength)
  {
  }

  // ---------------------------------------------------------------------------
  // Tone-name formatting
  // ---------------------------------------------------------------------------

  /** `word.charAt(0).toUpperCase() + word.slice(1).toLowerCase()`. */
  function Capitalize(word: string): (r: string)
    ensures |r| == |word|
  {
    if word == [] then [] else [ToUpper(word[0])] + LowerAll(word[1..])
  }

  function CapitalizeAll(words: seq<string>): (r: seq<string>)
    ensures |r| == |words|
  {
    if words == [] then [] else [Capitalize(words[0])] + CapitalizeAll(words[1..])
  }

  /** `parts.join(' ')`. */
  function JoinWithSpace(parts: seq<string>): string
  {
    if |parts| == 0 then []
    else if |parts| == 1 then parts[0]
    else parts[0] + " " + JoinWithSpace(parts[1..])
  }

  /** `tone.split(/[-_\s]+/).map(Capitalize).join(' ')`, and `""` for `""`. */
  function FormatToneName(tone: string): (r: string)
    ensures r == TitleCase(tone, true)
  {
    if tone == [] then []
    else
      SplitCapitalizeJoin(tone);
      JoinWithSpace(CapitalizeAll(Split(DashesUnderscoresSpaces, tone)))
  }

  /** `r[i]` is upper-cased when it starts a word (the first character, if
      `atWordStart`, or the one right after a space) and lower-cased otherwise. */
  ghost predicate IsTitleCased(r: string, atWordStart: bool)
  {
    forall i :: 0 <= i < |r| ==>
      r[i] == (if (i == 0 && atWordStart) || (i > 0 && r[i - 1] == ' ') then ToUpper(r[i]) else ToLower(r[i]))
  }

  /** The same transformation read one character at a time: a run of
      separators becomes one space, the first character of each word is
      upper-cased and the rest lower-cased. */
  function TitleCase(s: string, atWordStart: bool): (r: string)
    ensures |r| <= |s| && (r == [] <==> s == [])
    ensures r != [] ==> (r[0] == ' ' <==> IsSeparator(DashesUnderscoresSpaces, s[0]))
    ensures forall i :: 0 <= i < |r| ==> r[i] != '-' && r[i] != '_' && (IsWhitespace(r[i]) ==> r[i] == ' ')
    ensures forall i :: 0 <= i < |r| - 1 ==> !(r[i] == ' ' && r[i + 1] == ' ')
    ensures IsTitleCased(r, atWordStart)
    decreases |s|
  {
    if s == [] then []
    else if IsSeparator(DashesUnderscoresSpaces, s[0]) then
      var rest := DropSeparators(DashesUnderscoresSpaces, s);
      var t := TitleCase(rest, true);
      var r := " " + t;
      assert IsTitleCased(r, atWordStart) by {
        assert r[0] == ' ' && ToUpper(' ') == ' ' && ToLower(' ') == ' ';
        forall i | 1 <= i < |r|
          ensures r[i] == (if r[i - 1] == ' ' then ToUpper(r[i]) else ToLower(r[i]))
        {
          assert r[i] == t[i - 1];
          assert t[i - 1] == (if i - 1 == 0 || t[i - 2] == ' ' then ToUpper(t[i - 1]) else ToLower(t[i - 1]));
          if i > 1 {
            assert r[i - 1] == t[i - 2];
          }
        }
      }
      r
    else
      var c := if atWordStart then ToUpper(s[0]) else ToLower(s[0]);
      var t := TitleCase(s[1..], false);
      var r := [c] + t;
      assert IsTitleCased(r, atWordStart) by {
        assert r[0] == c && c != ' ';
        assert c == (if atWordStart then ToUpper(c) else ToLower(c));
        forall i | 1 <= i < |r|
          ensures r[i] == (if r[i - 1] == ' ' then ToUpper(r[i]) else ToLower(r[i]))
        {
          assert r[i] == t[i - 1];
          assert t[i - 1] == (if i - 1 > 0 && t[i - 2] == ' ' then ToUpper(t[i - 1]) else ToLower(t[i - 1]));
          if i > 1 {
            assert r[i - 1] == t[i - 2];
          }
        }
      }
      r
  }

  /** Title-casing a word followed by `t` lower-cases the word. */
  lemma {:induction false} TitleCaseLowersWord(w: string, t: string)
    requires forall i :: 0 <= i < |w| ==> !IsSeparator(DashesUnderscoresSpaces, w[i])
    ensures TitleCase(w + t, false) == LowerAll(w) + TitleCase(t, false)
    decreases |w|
  {
    if w == [] {
      assert w + t == t;
    } else {
      assert (w + t)[1..] == w[1..] + t;
      TitleCaseLowersWord(w[1..], t);
    }
  }

  /** Title-casing a word at a word start capitalizes it. */
  lemma TitleCaseCapitalizesWord(w: string, t: string)
    requires w != []
    requires forall i :: 0 <= i < |w| ==> !IsSeparator(DashesUnderscoresSpaces, w[i])
    ensures TitleCase(w + t, true) == Capitalize(w) + TitleCase(t, false)
  {
    assert (w + t)[1..] == w[1..] + t;
    TitleCaseLowersWord(w[1..], t);
  }

  lemma CapitalizeAllCons(w: string, parts: seq<string>)
    ensures CapitalizeAll([w] + parts) == [Capitalize(w)] + CapitalizeAll(parts)
  {
    assert ([w] + parts)[1..] == parts;
  }

  lemma JoinWithSpaceCons(w: string, parts: seq<string>)
    requires parts != []
    ensures JoinWithSpace([w] + parts) == w + " " + JoinWithSpace(parts)
  {
    assert ([w] + parts)[1..] == parts;
  }

  /** A run of separators title-cases to one space. */
  lemma TitleCaseAtSeparator(s: string, atWordStart: bool)
    requires s != [] && IsSeparator(DashesUnderscoresSpaces, s[0])
    ensures TitleCase(s, atWordStart) == " " + TitleCase(DropSeparators(DashesUnderscoresSpaces, s), true)
  {
  }

  /** A non-empty word followed by a run of separators and then `r`,
      title-cased, is the capitalized word, one space and `r` title-cased. */
  lemma TitleCaseWordThenSeparators(w: string, rest: string)
    requires w != []
    requires forall i :: 0 <= i < |w| ==> !IsSeparator(DashesUnderscoresSpaces, w[i])
    requires rest != [] && IsSeparator(DashesUnderscoresSpaces, rest[0])
    ensures TitleCase(w + rest, true) == Capitalize(w) + " " + TitleCase(DropSeparators(DashesUnderscoresSpaces, rest), true)
  {
    TitleCaseCapitalizesWord(w, rest);
    TitleCaseAtSeparator(rest, false);
    ConcatAssoc(Capitalize(w), " ", TitleCase(DropSeparators(DashesUnderscoresSpaces, rest), true));
  }

  /** Splitting, capitalizing and joining agrees with the character-level reading. */
  lemma {:induction false} SplitCapitalizeJoin(s: string)
    ensures JoinWithSpace(CapitalizeAll(Split(DashesUnderscoresSpaces, s))) == TitleCase(s, true)
    decreases |s|
  {
    var k := DashesUnderscoresSpaces;
    var w := WordPrefix(k, s);
    if |w| == |s| {
      assert w == s;
      assert Split(k, s) == [s];
      if s != [] {
        TitleCaseCapitalizesWord(s, []);
        assert s + [] == s;
      }
    } else {
      var rest := s[|w|..];
      var r := DropSeparators(k, rest);
      var parts := Split(k, r);
      assert Split(k, s) == [w] + parts;
      SplitCapitalizeJoin(r);
      CapitalizeAllCons(w, parts);
      JoinWithSpaceCons(Capitalize(w), CapitalizeAll(parts));
      assert s == w + rest;
      if w == [] {
        assert rest == s;
        TitleCaseAtSeparator(s, true);
        ConcatAssoc(Capitalize(w), " ", TitleCase(r, true));
      } else {
        TitleCaseWordThenSeparators(w, rest);
      }
    }
  }

  /** `FormatToneName` is the character-level title casing, so its output has
      no `-` or `_`, only single spaces between words, and every word
      upper-cased first and lower-cased after. */
  lemma FormatToneNameIsTitleCase(tone: string)
    ensures FormatToneName(tone) == TitleCase(tone, true)
    ensures FormatToneName(tone) == [] <==> tone == []
  {
    SplitCapitalizeJoin(tone);
  }

  /** Title casing twice is the same as title casing once. */
  lemma {:induction false} TitleCaseIdempotent(s: string, atWordStart: bool)
    ensures TitleCase(TitleCase(s, atWordStart), atWordStart) == TitleCase(s, atWordStart)
    decreases |s|
  {
    var k := DashesUnderscoresSpaces;
    if s != [] {
      var r := TitleCase(s, atWordStart);
      if IsSeparator(k, s[0]) {
        var rest := DropSeparators(k, s);
        var t := TitleCase(rest, true);
        TitleCaseIdempotent(rest, true);
        assert r == " " + t;
        assert DropSeparators(k, r) == DropSeparators(k, t) == t;
      } else {
        TitleCaseIdempotent(s[1..], false);
        assert r[1..] == TitleCase(s[1..], false);
      }
    }
  }

  /** Formatting a formatted tone name changes nothing. */
  lemma FormatToneNameIdempotent(tone: string)
    ensures FormatToneName(FormatToneName(tone)) == FormatToneName(tone)
  {
    FormatToneNameIsTitleCase(tone);
    FormatToneNameIsTitleCase(FormatToneName(tone));
    TitleCaseIdempotent(tone, true);
  }

  /** Each maximal run of separators replaced by one space, nothing else changed. */
  function CollapseSeparators(s: string): string
    decreases |s|
  {
    if s == [] then []
    else if IsSeparator(DashesUnderscoresSpaces, s[0]) then " " + CollapseSeparators(DropSeparators(DashesUnderscoresSpaces, s))
    else [s[0]] + CollapseSeparators(s[1..])
  }

  lemma LowerAllConcat(a: string, b: string)
    ensures LowerAll(a + b) == LowerAll(a) + LowerAll(b)
  {
    assert forall i :: 0 <= i < |a + b| ==> LowerAll(a + b)[i] == (LowerAll(a) + LowerAll(b))[i];
  }

  /** Up to letter case, title casing is exactly collapsing separator runs:
      no letter, digit or other character is added, dropped or reordered. */
  lemma {:induction false} TitleCaseCollapsesSeparators(s: string, atWordStart: bool)
    ensures LowerAll(TitleCase(s, atWordStart)) == LowerAll(CollapseSeparators(s))
    decreases |s|
  {
    var k := DashesUnderscoresSpaces;
    if s != [] {
      if IsSeparator(k, s[0]) {
        var rest := DropSeparators(k, s);
        TitleCaseCollapsesSeparators(rest, true);
        LowerAllConcat(" ", TitleCase(rest, true));
        LowerAllConcat(" ", CollapseSeparators(rest));
      } else {
        var c := if atWordStart then ToUpper(s[0]) else ToLower(s[0]);
        TitleCaseCollapsesSeparators(s[1..], false);
        LowerAllConcat([c], TitleCase(s[1..], false));
        LowerAllConcat([s[0]], CollapseSeparators(s[1..]));
      }
    }
  }
}
