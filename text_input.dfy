/**
 * The text clean-up that every numeric field of the scanner page goes through:
 * `String.prototype.trim`, `convertToEnglishNumbers` (Persian and Arabic digits
 * to ASCII), removal of every character outside `[0-9]`, and the seven-digit
 * cap of `validateNumberInput` for the two shortcode fields.
 */
module TextInput {

  /** A shortcode is exactly this many digits when entered manually, at most this many otherwise. */
  const ShortcodeLength: nat := 7

  /** The characters `/[^0-9]/` keeps. */
  predicate IsAsciiDigit(c: char) {
    '0' <= c <= '9'
  }

  predicate AllAsciiDigits(s: string) {
    forall i :: 0 <= i < |s| ==> IsAsciiDigit(s[i])
  }

  /**
   * The table of `convertToEnglishNumbers`: the Extended Arabic-Indic (Persian)
   * digits U+06F0..U+06F9 and the Arabic-Indic digits U+0660..U+0669, each sent
   * to the ASCII digit of the same value.
   */
  const EnglishDigitOf: map<char, char> := map[
    '\U{06F0}' := '0', '\U{06F1}' := '1', '\U{06F2}' := '2', '\U{06F3}' := '3', '\U{06F4}' := '4',
    '\U{06F5}' := '5', '\U{06F6}' := '6', '\U{06F7}' := '7', '\U{06F8}' := '8', '\U{06F9}' := '9',
    '\U{0660}' := '0', '\U{0661}' := '1', '\U{0662}' := '2', '\U{0663}' := '3', '\U{0664}' := '4',
    '\U{0665}' := '5', '\U{0666}' := '6', '\U{0667}' := '7', '\U{0668}' := '8', '\U{0669}' := '9'
  ]

  /** One step of the `map` in `convertToEnglishNumbers`: `numberMap[char] || char`. */
  function ToEnglishDigit(c: char): (d: char)
    ensures c in EnglishDigitOf ==> IsAsciiDigit(d) && d == EnglishDigitOf[c]
    ensures c !in EnglishDigitOf ==> d == c
    ensures d !in EnglishDigitOf
  {
    if c in EnglishDigitOf then EnglishDigitOf[c] else c
  }

  /**
   * `convertToEnglishNumbers`: every table key becomes its ASCII digit, every
   * other character is kept; the empty (falsy) string gives the empty string.
   */
  function ConvertToEnglishNumbers(s: string): (r: string)
    ensures s == "" ==> r == ""
    ensures |r| == |s|
    ensures forall i :: 0 <= i < |s| && s[i] in EnglishDigitOf ==> r[i] == EnglishDigitOf[s[i]]
    ensures forall i :: 0 <= i < |s| && s[i] !in EnglishDigitOf ==> r[i] == s[i]
  {
    if s == "" then "" else [ToEnglishDigit(s[0])] + ConvertToEnglishNumbers(s[1..])
  }

  /** `replace(/[^0-9]/g, '')`: keeps the ASCII digits, in order, and drops the rest. */
  function StripNonDigits(s: string): (r: string)
    ensures AllAsciiDigits(r)
    ensures |r| <= |s|
    ensures AllAsciiDigits(s) ==> r == s
    ensures r == "" <==> forall i :: 0 <= i < |s| ==> !IsAsciiDigit(s[i])
  {
    if s == "" then ""
    else if IsAsciiDigit(s[0]) then [s[0]] + StripNonDigits(s[1..])
    else StripNonDigits(s[1..])
  }

  /** Convert, then strip: the pipeline of lines 31-32, 243-244, 270-271 and 352-353. */
  function NormalizeDigits(s: string): (r: string)
    ensures AllAsciiDigits(r)
    ensures |r| <= |s|
  {
    StripNonDigits(ConvertToEnglishNumbers(s))
  }

  predicate IsShortcodeField(fieldId: string) {
    fieldId == "manualShortcodeInput" || fieldId == "productShortcode"
  }

  /**
   * The value `validateNumberInput` writes back into the field `fieldId`:
   * the normalised digits, cut to the first seven for the shortcode fields.
   */
  function ValidateNumberInput(fieldId: string, value: string): (r: string)
    ensures AllAsciiDigits(r)
    ensures r <= NormalizeDigits(value)
    ensures IsShortcodeField(fieldId) ==>
      |r| == if |NormalizeDigits(value)| < ShortcodeLength then |NormalizeDigits(value)| else ShortcodeLength
    ensures !IsShortcodeField(fieldId) ==> r == NormalizeDigits(value)
  {
    var digits := NormalizeDigits(value);
    if IsShortcodeField(fieldId) && |digits| > ShortcodeLength then digits[..ShortcodeLength] else digits
  }

  /** The WhiteSpace and LineTerminator characters of ECMAScript, which `trim` removes. */
  predicate IsJsWhitespace(c: char) {
    c == '\t' || c == '\n' || c == '\U{000B}' || c == '\U{000C}' || c == '\r' || c == ' '
    || c == '\U{00A0}' || c == '\U{1680}' || ('\U{2000}' <= c <= '\U{200A}')
    || c == '\U{2028}' || c == '\U{2029}' || c == '\U{202F}' || c == '\U{205F}'
    || c == '\U{3000}' || c == '\U{FEFF}'
  }

  predicate AllWhitespace(s: string) {
    forall i :: 0 <= i < |s| ==> IsJsWhitespace(s[i])
  }

  /** Drops the leading whitespace: what is left is a suffix of `s` that does not start with whitespace. */
  function TrimStart(s: string): (r: string)
    ensures |r| <= |s| && r == s[|s| - |r|..]
    ensures AllWhitespace(s[..|s| - |r|])
    ensures r == "" || !IsJsWhitespace(r[0])
  {
    if s != "" && IsJsWhitespace(s[0]) then TrimStart(s[1..]) else s
  }

  /** Drops the trailing whitespace: what is left is a prefix of `s` that does not end with whitespace. */
  function TrimEnd(s: string): (r: string)
    ensures |r| <= |s| && r == s[..|r|]
    ensures AllWhitespace(s[|r|..])
    ensures r == "" || !IsJsWhitespace(r[|r| - 1])
  {
    if s != "" && IsJsWhitespace(s[|s| - 1]) then TrimEnd(s[..|s| - 1]) else s
  }

  /**
   * `String.prototype.trim`: the slice of `s` left between its leading and
   * trailing whitespace.
   */
  function Trim(s: string): (r: string)
    ensures |r| <= |s|
    ensures r == "" || (!IsJsWhitespace(r[0]) && !IsJsWhitespace(r[|r| - 1]))
    ensures exists k :: 0 <= k && k + |r| <= |s| && r == s[k..k + |r|]
                        && AllWhitespace(s[..k]) && AllWhitespace(s[k + |r|..])
  {
    var t := TrimStart(s);
    var k := |s| - |t|;
    var u := TrimEnd(t);
    assert s[k..k + |u|] == t[..|u|];
    assert s[k + |u|..] == t[|u|..];
    u
  }

  // ---------------------------------------------------------------------------
  // Properties of the pipeline
  // ---------------------------------------------------------------------------

  /** Converting twice is converting once: no output character is a table key. */
  lemma {:induction false} ConvertIdempotent(s: string)
    ensures ConvertToEnglishNumbers(ConvertToEnglishNumbers(s)) == ConvertToEnglishNumbers(s)
  {
    if s != "" {
      ConvertIdempotent(s[1..]);
      var c := ConvertToEnglishNumbers(s);
      assert c == [ToEnglishDigit(s[0])] + ConvertToEnglishNumbers(s[1..]);
      assert c[1..] == ConvertToEnglishNumbers(s[1..]);
    }
  }

  /** The conversion works character by character, so it distributes over concatenation. */
  lemma {:induction false} ConvertConcat(a: string, b: string)
    ensures ConvertToEnglishNumbers(a + b) == ConvertToEnglishNumbers(a) + ConvertToEnglishNumbers(b)
  {
    if a != "" {
      assert (a + b)[1..] == a[1..] + b;
      ConvertConcat(a[1..], b);
    } else {
      assert a + b == b;
    }
  }

  /** Stripping keeps the order of the digits: it distributes over concatenation. */
  lemma {:induction false} StripConcat(a: string, b: string)
    ensures StripNonDigits(a + b) == StripNonDigits(a) + StripNonDigits(b)
  {
    if a != "" {
      assert (a + b)[0] == a[0];
      assert (a + b)[1..] == a[1..] + b;
      StripConcat(a[1..], b);
    } else {
      assert a + b == b;
    }
  }

  lemma NormalizeConcat(a: string, b: string)
    ensures NormalizeDigits(a + b) == NormalizeDigits(a) + NormalizeDigits(b)
  {
    ConvertConcat(a, b);
    StripConcat(ConvertToEnglishNumbers(a), ConvertToEnglishNumbers(b));
  }

  /** Normalisation gives nothing exactly when the text holds neither an ASCII digit nor a table key. */
  lemma {:induction false} NormalizeEmptyIff(s: string)
    ensures NormalizeDigits(s) == "" <==>
      forall i :: 0 <= i < |s| ==> !IsAsciiDigit(s[i]) && s[i] !in EnglishDigitOf
  {
    if s != "" {
      NormalizeEmptyIff(s[1..]);
      assert s == [s[0]] + s[1..];
      NormalizeConcat([s[0]], s[1..]);
      assert ConvertToEnglishNumbers([s[0]]) == [ToEnglishDigit(s[0])];
      if !IsAsciiDigit(s[0]) && s[0] !in EnglishDigitOf {
        assert StripNonDigits([s[0]]) == StripNonDigits([]);
      } else {
        assert StripNonDigits([ToEnglishDigit(s[0])]) == [ToEnglishDigit(s[0])] + StripNonDigits([]);
      }
      if forall i :: 0 <= i < |s| ==> !IsAsciiDigit(s[i]) && s[i] !in EnglishDigitOf {
        assert forall i :: 0 <= i < |s[1..]| ==> !IsAsciiDigit(s[1..][i]) && s[1..][i] !in EnglishDigitOf by {
          forall i | 0 <= i < |s[1..]| ensures !IsAsciiDigit(s[1..][i]) && s[1..][i] !in EnglishDigitOf {
            assert s[1..][i] == s[i + 1];
          }
        }
      }
    }
  }

  /** Normalisation of blank text is empty: whitespace is neither a digit nor a table key. */
  lemma NormalizeBlank(w: string)
    requires AllWhitespace(w)
    ensures NormalizeDigits(w) == ""
  {
    NormalizeEmptyIff(w);
  }

  lemma NormalizeIgnoresTrimStart(s: string)
    ensures NormalizeDigits(TrimStart(s)) == NormalizeDigits(s)
  {
    var t := TrimStart(s);
    var k := |s| - |t|;
    assert s == s[..k] + t;
    NormalizeConcat(s[..k], t);
    NormalizeBlank(s[..k]);
  }

  lemma NormalizeIgnoresTrimEnd(s: string)
    ensures NormalizeDigits(TrimEnd(s)) == NormalizeDigits(s)
  {
    var u := TrimEnd(s);
    assert s == u + s[|u|..];
    NormalizeConcat(u, s[|u|..]);
    NormalizeBlank(s[|u|..]);
  }

  /** Surrounding whitespace never survives normalisation, so trimming first changes nothing. */
  lemma NormalizeIgnoresTrim(s: string)
    ensures NormalizeDigits(Trim(s)) == NormalizeDigits(s)
  {
    NormalizeIgnoresTrimStart(s);
    NormalizeIgnoresTrimEnd(TrimStart(s));
  }

  /** A trimmed field is empty exactly when the raw field was blank. */
  lemma TrimEmptyIff(s: string)
    ensures Trim(s) == "" <==> AllWhitespace(s)
  {
    var t := TrimStart(s);
    assert s == s[..|s| - |t|] + t;
  }
}
