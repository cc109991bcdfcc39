/** The access-key formatter of `generate_secure_key`: `NR-`, four decimal
    digits, `-`, one uppercase letter. The random choices are supplied by the
    caller as indices into the two alphabets, and `ParseKey` is the inverse
    that recovers them. */
module SecureKey {

  datatype Option<T> = None | Some(value: T)

  /** The alphabets of Python's `string.digits` and `string.ascii_uppercase`. */
  const Digits: string := "0123456789"
  const AsciiUppercase: string := "ABCDEFGHIJKLMNOPQRSTUVWXYZ"

  const KeyPrefix: string := "NR-"
  const DigitCount: nat := 4

  predicate IsDigit(c: char)
  {
    '0' as int <= c as int <= '9' as int
  }

  predicate IsUpper(c: char)
  {
    'A' as int <= c as int <= 'Z' as int
  }

  /** The random choices behind one key: an index into the digits for each of
      the four positions (drawn with replacement), and an index into the
      uppercase letters. */
  datatype KeyDraw = KeyDraw(digits: seq<nat>, letter: nat)

  predicate ValidDraw(d: KeyDraw)
  {
    && |d.digits| == DigitCount
    && (forall i :: 0 <= i < |d.digits| ==> d.digits[i] < |Digits|)
    && d.letter < |AsciiUppercase|
  }

  /** The joined string of the chosen digits. */
  function JoinDigits(picks: seq<nat>): (s: string)
    requires forall i :: 0 <= i < |picks| ==> picks[i] < |Digits|
    ensures |s| == |picks|
    ensures forall i :: 0 <= i < |picks| ==> IsDigit(s[i]) && s[i] as int == '0' as int + picks[i]
  {
    if |picks| == 0 then ""
    else
      DigitAt(picks[0]);
      [Digits[picks[0]]] + JoinDigits(picks[1..])
  }

  /** The key for the given choices. */
  function GenerateSecureKey(d: KeyDraw): (key: string)
    requires ValidDraw(d)
    ensures |key| == 9
    ensures key[..3] == "NR-"
    ensures forall i :: 3 <= i < 7 ==> IsDigit(key[i]) && key[i] as int == '0' as int + d.digits[i - 3]
    ensures key[7] == '-'
    ensures IsUpper(key[8]) && key[8] as int == 'A' as int + d.letter
  {
    LetterAt(d.letter);
    KeyPrefix + JoinDigits(d.digits) + "-" + [AsciiUppercase[d.letter]]
  }

  /** The shape every generated key has. */
  predicate WellFormedKey(s: string)
  {
    && |s| == 9
    && s[..3] == KeyPrefix
    && (forall i :: 3 <= i < 7 ==> IsDigit(s[i]))
    && s[7] == '-'
    && IsUpper(s[8])
  }

  /** The numeric values of a string of decimal digits. */
  function DigitValues(cs: string): (vs: seq<nat>)
    requires forall i :: 0 <= i < |cs| ==> IsDigit(cs[i])
    ensures |vs| == |cs|
    ensures forall i :: 0 <= i < |cs| ==> vs[i] < 10 && cs[i] as int == '0' as int + vs[i]
  {
    if |cs| == 0 then []
    else
      assert IsDigit(cs[0]);
      [(cs[0] as int - '0' as int) as nat] + DigitValues(cs[1..])
  }

  /** Recovers the choices behind a key, or None if it is not well formed. */
  function ParseKey(s: string): (r: Option<KeyDraw>)
    ensures r.Some? <==> WellFormedKey(s)
    ensures r.Some? ==> ValidDraw(r.value)
  {
    if WellFormedKey(s) then
      Some(KeyDraw(DigitValues(s[3..7]), (s[8] as int - 'A' as int) as nat))
    else None
  }

  /** Parsing a generated key gives back the choices it was made from. */
  lemma ParseGenerated(d: KeyDraw)
    requires ValidDraw(d)
    ensures ParseKey(GenerateSecureKey(d)) == Some(d)
  {
    var key := GenerateSecureKey(d);
    assert WellFormedKey(key);
    var parsed := ParseKey(key).value;
    assert parsed.digits == d.digits;
  }

  /** Regenerating from a parsed key gives back the key. */
  lemma GenerateParsed(s: string)
    requires WellFormedKey(s)
    ensures GenerateSecureKey(ParseKey(s).value) == s
  {
    var key := GenerateSecureKey(ParseKey(s).value);
    assert key[..3] == s[..3];
    assert forall i :: 0 <= i < |s| ==> key[i] == s[i];
  }

  /** Distinct choices give distinct keys. */
  lemma GenerateInjective(d1: KeyDraw, d2: KeyDraw)
    requires ValidDraw(d1) && ValidDraw(d2)
    requires GenerateSecureKey(d1) == GenerateSecureKey(d2)
    ensures d1 == d2
  {
    ParseGenerated(d1);
    ParseGenerated(d2);
  }

  /** The k-th digit is the character k places after '0'. */
  lemma DigitAt(k: nat)
    requires k < |Digits|
    ensures Digits[k] as int == '0' as int + k
  {
  }

  /** The k-th uppercase letter is the character k places after 'A'. */
  lemma LetterAt(k: nat)
    requires k < |AsciiUppercase|
    ensures AsciiUppercase[k] as int == 'A' as int + k
  {
  }
}
