/**
  The Luhn mod-10 check digit (Annex B of ISO/IEC 7812-1) over strings of
  ASCII decimal digits: input validation, the check-digit computation,
  generation of a check-digited number, validation of one, and construction
  of a random valid number of a given length.
 */
module Luhn {

  /** One variant per failure the library reports; each stands for one message text. */
  datatype Error =
    | EmptyString          // "string cannot be empty"
    | ContainsSpaces       // "string cannot contain spaces"
    | NegativeNumber       // "negative numbers are not allowed"
    | FloatingPoint        // "floating point numbers are not allowed"
    | NonNumeric           // "string must be convertible to a number"
    | SingleCharacter      // "string must be longer than 1 character"
    | ParseFailure         // "failed to parse length"
    | LengthAboveMaximum   // "string must be less than 100 characters"
    | LengthBelowMinimum   // "string must be greater than 1"

  datatype Result<T> = Ok(value: T) | Err(error: Error)

  datatype Option<T> = None | Some(value: T)

  /** Options of `Generate`; the default has `checksumOnly` false. */
  datatype GenerateOptions = GenerateOptions(checksumOnly: bool)

  const DefaultOptions := GenerateOptions(false)

  /** Bounds on the length accepted by `Random`. */
  const MinLength: nat := 2
  const MaxLength: nat := 100

  /** Largest value of the length type (`usize` on a 64-bit target). */
  const UsizeMax: nat := 0xFFFF_FFFF_FFFF_FFFF

  // ---------------------------------------------------------------------
  // Digits
  // ---------------------------------------------------------------------

  predicate IsAsciiDigit(c: char) {
    '0' <= c <= '9'
  }

  predicate AllDigits(s: string) {
    forall i :: 0 <= i < |s| ==> IsAsciiDigit(s[i])
  }

  /** A well-formed digit string: non-empty, ASCII decimal digits only. */
  predicate IsDigitString(s: string) {
    |s| > 0 && AllDigits(s)
  }

  function DigitValue(c: char): (d: nat)
    requires IsAsciiDigit(c)
    ensures d < 10
  {
    c as int - '0' as int
  }

  function DigitChar(d: nat): (c: char)
    requires d < 10
    ensures IsAsciiDigit(c) && DigitValue(c) == d
  {
    ('0' as int + d) as char
  }

  /** The decimal value of a digit string (leading zeros allowed). */
  function DecimalValue(s: string): (v: nat)
    requires AllDigits(s)
  {
    if s == [] then 0 else DecimalValue(s[..|s| - 1]) * 10 + DigitValue(s[|s| - 1])
  }

  /** The shortest decimal representation of `n`, as a caller writes a length. */
  function DecimalString(n: nat): (s: string)
    ensures IsDigitString(s)
    ensures DecimalValue(s) == n
  {
    if n < 10 then
      [DigitChar(n)]
    else
      var s := DecimalString(n / 10) + [DigitChar(n % 10)];
      assert s[..|s| - 1] == DecimalString(n / 10);
      s
  }

  // ---------------------------------------------------------------------
  // Input gate
  // ---------------------------------------------------------------------

  /**
    Checks the input in a fixed order and reports the first check that fails:
    empty, contains a space, contains '-', contains '.', contains a non-digit.
   */
  function HandleErrors(value: string): (r: Result<()>)
    ensures r.Ok? <==> IsDigitString(value)
    ensures r == Err(EmptyString) <==> value == []
    ensures ' ' in value ==> r == Err(ContainsSpaces)
    ensures '-' in value && ' ' !in value ==> r == Err(NegativeNumber)
    ensures '.' in value && ' ' !in value && '-' !in value ==> r == Err(FloatingPoint)
    ensures r == Err(NonNumeric) <==>
              value != [] && ' ' !in value && '-' !in value && '.' !in value && !AllDigits(value)
  {
    if |value| == 0 then Err(EmptyString)
    else if ' ' in value then Err(ContainsSpaces)
    else if '-' in value then Err(NegativeNumber)
    else if '.' in value then Err(FloatingPoint)
    else if !AllDigits(value) then Err(NonNumeric)
    else Ok(())
  }

  // ---------------------------------------------------------------------
  // Checksum engine
  // ---------------------------------------------------------------------

  /**
    What one digit contributes to the Luhn sum: a doubled digit loses 9 once
    doubling takes it to 10 or more.
   */
  function LuhnTerm(d: nat, doubled: bool): (t: nat)
    requires d < 10
    ensures t < 10
    ensures !doubled ==> t == d
    ensures doubled ==> t == (2 * d) / 10 + (2 * d) % 10
  {
    if !doubled then d
    else if d < 5 then 2 * d
    else 2 * d - 9
  }

  /**
    The alternating-doubled sum of `s`: counting from the right, the digits
    at even distance from the rightmost one are doubled iff `doubleRightmost`,
    and the others iff not.
   */
  function WeightedSum(s: string, doubleRightmost: bool): (w: nat)
    requires AllDigits(s)
  {
    if s == [] then 0
    else LuhnTerm(DigitValue(s[0]), (|s| % 2 == 1) == doubleRightmost) + WeightedSum(s[1..], doubleRightmost)
  }

  /** A digit string passes the Luhn check: its sum, rightmost digit not doubled, is 0 mod 10. */
  predicate LuhnValid(s: string)
    requires AllDigits(s)
  {
    WeightedSum(s, false) % 10 == 0
  }

  /** The check digit of `value`: the one digit that, appended, makes the whole Luhn-valid. */
  function Checksum(value: string): (c: nat)
    requires AllDigits(value)
    ensures c < 10
    ensures (WeightedSum(value, true) + c) % 10 == 0
  {
    (10 - WeightedSum(value, true) % 10) % 10
  }

  /**
    The check-digit loop: walks the digits right to left, doubling every
    other one starting with the rightmost, replacing a doubled value of 10
    or more by the sum of its two digits, and accumulating the sum.
   */
  method GenerateChecksum(value: string) returns (checksum: nat)
    requires AllDigits(value)
    ensures checksum < 10
    ensures checksum == Checksum(value)
    ensures LuhnValid(value + [DigitChar(checksum)])
  {
    var double := true;
    var sum: nat := 0;
    var i := |value|;
    while i > 0
      invariant 0 <= i <= |value|
      invariant double == ((|value| - i) % 2 == 0)
      invariant sum == WeightedSum(value[i..], true)
    {
      i := i - 1;
      var digit := DigitValue(value[i]);
      assert value[i..][1..] == value[i + 1..];
      if double {
        var temp := digit * 2;
        if temp >= 10 {
          sum := sum + temp / 10 + temp % 10;
        } else {
          sum := sum + temp;
        }
      } else {
        sum := sum + digit;
      }
      double := !double;
    }
    assert value[0..] == value;
    checksum := (10 - sum % 10) % 10;
    WeightedSumAppend(value, DigitChar(checksum), false);
  }

  /** Appending a digit on the right makes it the rightmost and flips the parity of all others. */
  lemma {:induction false} WeightedSumAppend(s: string, c: char, doubleRightmost: bool)
    requires AllDigits(s) && IsAsciiDigit(c)
    ensures AllDigits(s + [c])
    ensures WeightedSum(s + [c], doubleRightmost)
         == WeightedSum(s, !doubleRightmost) + LuhnTerm(DigitValue(c), doubleRightmost)
  {
    var t := s + [c];
    if s != [] {
      assert t[1..] == s[1..] + [c];
      WeightedSumAppend(s[1..], c, doubleRightmost);
    }
  }

  /**
    Luhn congruence: a string followed by its check digit passes the Luhn
    check, and no other final digit does.
   */
  lemma CheckDigitUnique(s: string, d: nat)
    requires AllDigits(s) && d < 10
    ensures AllDigits(s + [DigitChar(d)])
    ensures LuhnValid(s + [DigitChar(d)]) <==> d == Checksum(s)
  {
    WeightedSumAppend(s, DigitChar(d), false);
    CompletesToTen(WeightedSum(s, true), d);
  }

  /** Among the digits, exactly one completes `w` to a multiple of ten. */
  lemma CompletesToTen(w: nat, d: nat)
    requires d < 10
    ensures (w + d) % 10 == 0 <==> d == (10 - w % 10) % 10
  {
  }

  /** A leading zero contributes nothing, whatever its position's weight. */
  lemma {:induction false} LeadingZerosIgnored(zeros: string, s: string, doubleRightmost: bool)
    requires forall i :: 0 <= i < |zeros| ==> zeros[i] == '0'
    requires AllDigits(s)
    ensures AllDigits(zeros + s)
    ensures WeightedSum(zeros + s, doubleRightmost) == WeightedSum(s, doubleRightmost)
  {
    if zeros != [] {
      assert (zeros + s)[0] == '0' && DigitValue('0') == 0;
      assert (zeros + s)[1..] == zeros[1..] + s;
      LeadingZerosIgnored(zeros[1..], s, doubleRightmost);
      assert LuhnTerm(0, (|zeros + s| % 2 == 1) == doubleRightmost) == 0;
      assert WeightedSum(zeros + s, doubleRightmost) == 0 + WeightedSum(zeros[1..] + s, doubleRightmost);
    } else {
      assert zeros + s == s;
    }
  }

  /** Prefixing zeros leaves the check digit unchanged. */
  lemma ChecksumIgnoresLeadingZeros(zeros: string, s: string)
    requires forall i :: 0 <= i < |zeros| ==> zeros[i] == '0'
    requires AllDigits(s)
    ensures AllDigits(zeros + s)
    ensures Checksum(zeros + s) == Checksum(s)
  {
    LeadingZerosIgnored(zeros, s, true);
  }

  // ---------------------------------------------------------------------
  // generate
  // ---------------------------------------------------------------------

  predicate ChecksumOnly(options: Option<GenerateOptions>) {
    options.Some? && options.value.checksumOnly
  }

  /**
    After validating `value`, returns its check digit alone (when the options
    ask for it) or `value` with its check digit appended.
   */
  function Generate(value: string, options: Option<GenerateOptions>): (r: Result<string>)
    ensures r.Err? <==> !IsDigitString(value)
    ensures r.Err? ==> HandleErrors(value) == Err(r.error)
    ensures r.Ok? && ChecksumOnly(options) ==>
              |r.value| == 1 && IsAsciiDigit(r.value[0])
              && (WeightedSum(value, true) + DigitValue(r.value[0])) % 10 == 0
    ensures r.Ok? && !ChecksumOnly(options) ==>
              |r.value| == |value| + 1 && r.value[..|value|] == value
              && IsDigitString(r.value) && LuhnValid(r.value)
  {
    match HandleErrors(value)
    case Err(e) => Err(e)
    case Ok(_) =>
      var checksum := Checksum(value);
      if ChecksumOnly(options) then
        Ok([DigitChar(checksum)])
      else
        CheckDigitUnique(value, checksum);
        Ok(value + [DigitChar(checksum)])
  }

  /** The one-character form is the last character of the full form. */
  lemma ChecksumOnlyIsLastOfFull(value: string, full: Option<GenerateOptions>)
    requires !ChecksumOnly(full)
    ensures Generate(value, Some(GenerateOptions(true))).Ok? <==> Generate(value, full).Ok?
    ensures Generate(value, full).Ok? ==>
              var whole := Generate(value, full).value;
              Generate(value, Some(GenerateOptions(true))).value == [whole[|whole| - 1]]
  {
  }

  /** Full generation only ever appends: leading zeros of the input are kept. */
  lemma GeneratePreservesLeadingZeros(zeros: string, s: string)
    requires forall i :: 0 <= i < |zeros| ==> zeros[i] == '0'
    requires IsDigitString(s)
    ensures Generate(zeros + s, None).Ok? && Generate(s, None).Ok?
    ensures Generate(zeros + s, None).value == zeros + Generate(s, None).value
  {
    ChecksumIgnoresLeadingZeros(zeros, s);
    assert AllDigits(zeros + s);
  }

  // ---------------------------------------------------------------------
  // validate
  // ---------------------------------------------------------------------

  /**
    After validating `value`, rejects a single character, and otherwise
    regenerates the full form of all but the last character and compares it
    with `value`.
   */
  function Validate(value: string): (r: Result<bool>)
    ensures r.Err? <==> !IsDigitString(value) || |value| == 1
    ensures r.Err? && !IsDigitString(value) ==> HandleErrors(value) == Err(r.error)
    ensures r.Err? && IsDigitString(value) ==> r.error == SingleCharacter
    ensures r.Ok? ==> (r.value <==> LuhnValid(value))
  {
    match HandleErrors(value)
    case Err(e) => Err(e)
    case Ok(_) =>
      if |value| == 1 then
        Err(SingleCharacter)
      else
        var payload := value[..|value| - 1];
        match Generate(payload, None)
        case Err(e) => Err(e)
        case Ok(full) =>
          ValidateCompares(value, full);
          Ok(value == full)
  }

  /** The comparison in `Validate` decides the Luhn check of the whole string. */
  lemma ValidateCompares(value: string, full: string)
    requires IsDigitString(value) && |value| >= 2
    requires Generate(value[..|value| - 1], None) == Ok(full)
    ensures value == full <==> LuhnValid(value)
  {
    var payload := value[..|value| - 1];
    var last := value[|value| - 1];
    assert value == payload + [last];
    assert DigitChar(DigitValue(last)) == last;
    CheckDigitUnique(payload, DigitValue(last));
    assert full == payload + [DigitChar(Checksum(payload))];
    if value == full {
      assert last == full[|full| - 1];
    }
  }

  /**
    Of the ten strings formed by appending one digit to a well-formed payload,
    `Validate` accepts exactly the one ending in the payload's check digit.
   */
  lemma ValidateAcceptsOnlyCheckDigit(payload: string, d: nat)
    requires IsDigitString(payload) && d < 10
    ensures Validate(payload + [DigitChar(d)]) == Ok(d == Checksum(payload))
  {
    var v := payload + [DigitChar(d)];
    CheckDigitUnique(payload, d);
    assert v[..|v| - 1] == payload;
  }

  /** Round trip: what `Generate` produces in full form, `Validate` accepts. */
  lemma GenerateThenValidate(value: string, options: Option<GenerateOptions>)
    requires IsDigitString(value)
    requires !ChecksumOnly(options)
    ensures Generate(value, options).Ok?
    ensures Validate(Generate(value, options).value) == Ok(true)
  {
    var full := Generate(value, options).value;
    assert |full| >= 2;
  }

  // ---------------------------------------------------------------------
  // random
  // ---------------------------------------------------------------------

  /**
    The checks `Random` makes on its length argument, in order: the input
    gate, parsing into the length type, at most `MaxLength`, at least
    `MinLength`.
   */
  function ParseLength(length: string): (r: Result<nat>)
    ensures r.Ok? <==>
              IsDigitString(length) && MinLength <= DecimalValue(length) <= MaxLength
    ensures r.Ok? ==> r.value == DecimalValue(length)
    ensures !IsDigitString(length) ==> HandleErrors(length) == Err(r.error)
    ensures IsDigitString(length) && DecimalValue(length) > UsizeMax ==> r == Err(ParseFailure)
    ensures IsDigitString(length) && MaxLength < DecimalValue(length) <= UsizeMax ==>
              r == Err(LengthAboveMaximum)
    ensures IsDigitString(length) && DecimalValue(length) < MinLength ==>
              r == Err(LengthBelowMinimum)
  {
    match HandleErrors(length)
    case Err(e) => Err(e)
    case Ok(_) =>
      var n := DecimalValue(length);
      if n > UsizeMax then Err(ParseFailure)
      else if n > MaxLength then Err(LengthAboveMaximum)
      else if n < MinLength then Err(LengthBelowMinimum)
      else Ok(n)
  }

  /** A caller writing the length `n` in decimal gets exactly the range check on `n`. */
  lemma ParseLengthOfDecimal(n: nat)
    requires n <= UsizeMax
    ensures ParseLength(DecimalString(n)) ==
              if n > MaxLength then Err(LengthAboveMaximum)
              else if n < MinLength then Err(LengthBelowMinimum)
              else Ok(n)
  {
  }

  /**
    The random digits `Random` draws, supplied by the caller: enough for the
    longest result, the first in 1..9 and the rest in 0..9.
   */
  predicate ValidDraws(draws: seq<nat>) {
    |draws| >= MaxLength - 1
    && 1 <= draws[0] <= 9
    && forall i :: 1 <= i < |draws| ==> draws[i] <= 9
  }

  /**
    Checks and parses `length` into n, builds n - 1 digits from `draws`
    (the first non-zero), and returns them with their check digit appended.
   */
  method Random(length: string, draws: seq<nat>) returns (r: Result<string>)
    requires ValidDraws(draws)
    ensures r.Err? <==> ParseLength(length).Err?
    ensures r.Err? ==> r.error == ParseLength(length).error
    ensures r.Ok? ==>
              var n := DecimalValue(length);
              |r.value| == n && IsDigitString(r.value)
              && '1' <= r.value[0] <= '9'
              && (forall j :: 0 <= j < n - 1 ==> r.value[j] == DigitChar(draws[j]))
              && Validate(r.value) == Ok(true)
  {
    var parsed := ParseLength(length);
    if parsed.Err? {
      return Err(parsed.error);
    }
    var n := parsed.value;
    var random := [DigitChar(draws[0])];
    for k := 1 to n - 1
      invariant |random| == k
      invariant forall j :: 0 <= j < k ==> random[j] == DigitChar(draws[j])
    {
      random := random + [DigitChar(draws[k])];
    }
    r := Generate(random, None);
    GenerateThenValidate(random, None);
    assert r.value[..n - 1] == random;
  }
}
