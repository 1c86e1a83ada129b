/**
  Concrete inputs and outputs the library's own unit tests fix, stated as
  lemmas about the model.
 */
module LuhnVectors {
  import opened Luhn

  /** Malformed inputs of `Generate`: each reports the first check it fails. */
  lemma RejectsMalformedInput()
    ensures Generate("", None) == Err(EmptyString)
    ensures Generate("1a", None) == Err(NonNumeric)
    ensures Generate(" 123 ", None) == Err(ContainsSpaces)
    ensures Generate(" 1a", None) == Err(ContainsSpaces)
    ensures Generate("-123", None) == Err(NegativeNumber)
    ensures Generate("123.45", None) == Err(FloatingPoint)
  {
  }

  /** Malformed candidates for `Validate`, and a single character. */
  lemma ValidateRejectsMalformedInput()
    ensures Validate("") == Err(EmptyString)
    ensures Validate("1") == Err(SingleCharacter)
    ensures Validate("1a") == Err(NonNumeric)
    ensures Validate(" 1230 ") == Err(ContainsSpaces)
    ensures Validate("-1230") == Err(NegativeNumber)
    ensures Validate("123.40") == Err(FloatingPoint)
  {
  }

  /** The reference number 7992739871 has check digit 3. */
  lemma ReferenceChecksum()
    ensures Checksum("7992739871") == 3
  {
  }

  lemma ReferenceNumber()
    ensures Generate("7992739871", None) == Ok("79927398713")
    ensures Generate("7992739871", Some(DefaultOptions)) == Ok("79927398713")
    ensures Generate("7992739871", Some(GenerateOptions(true))) == Ok("3")
    ensures Validate("79927398713") == Ok(true)
    ensures Validate("79927398714") == Ok(false)
  {
    var payload := "7992739871";
    ReferenceChecksum();
    assert DigitChar(3) == '3' && DigitChar(4) == '4';
    assert payload + ['3'] == "79927398713";
    assert payload + ['4'] == "79927398714";
    ValidateAcceptsOnlyCheckDigit(payload, 3);
    ValidateAcceptsOnlyCheckDigit(payload, 4);
  }

  /** Short payloads, with no options, the default options and the check digit alone. */
  lemma ShortPayloads()
    ensures Generate("1", None) == Ok("18")
    ensures Generate("1", Some(DefaultOptions)) == Ok("18")
    ensures Generate("12", Some(DefaultOptions)) == Ok("125")
    ensures Generate("123", Some(DefaultOptions)) == Ok("1230")
    ensures Generate("1", Some(GenerateOptions(true))) == Ok("8")
    ensures Generate("12", Some(GenerateOptions(true))) == Ok("5")
    ensures Generate("123", Some(GenerateOptions(true))) == Ok("0")
  {
    assert Checksum("1") == 8 && Checksum("12") == 5 && Checksum("123") == 0;
    assert DigitChar(8) == '8' && DigitChar(5) == '5' && DigitChar(0) == '0';
    assert "1" + ['8'] == "18" && "12" + ['5'] == "125" && "123" + ['0'] == "1230";
  }

  /** Both forms `Generate` returns for a payload whose check digit is known. */
  lemma GenerateForms(payload: string, d: nat)
    requires IsDigitString(payload) && d < 10 && Checksum(payload) == d
    ensures Generate(payload, Some(DefaultOptions)) == Ok(payload + [DigitChar(d)])
    ensures Generate(payload, Some(GenerateOptions(true))) == Ok([DigitChar(d)])
  {
  }

  /** Check digits of the payloads "1234" to "123456789". */
  lemma FourDigitChecksum() ensures Checksum("1234") == 4 {}
  lemma FiveDigitChecksum() ensures Checksum("12345") == 5 {}
  lemma SixDigitChecksum() ensures Checksum("123456") == 6 {}
  lemma SevenDigitChecksum() ensures Checksum("1234567") == 4 {}
  lemma EightDigitChecksum() ensures Checksum("12345678") == 2 {}
  lemma NineDigitChecksum() ensures Checksum("123456789") == 7 {}

  /**
    Payloads "1234" to "123456789": the full form (default options) and the
    check digit alone.
   */
  lemma FourDigitPayload()
    ensures Generate("1234", Some(DefaultOptions)) == Ok("12344")
    ensures Generate("1234", Some(GenerateOptions(true))) == Ok("4")
  {
    FourDigitChecksum();
    GenerateForms("1234", 4);
    assert DigitChar(4) == '4';
    assert "1234" + ['4'] == "12344";
  }

  lemma FiveDigitPayload()
    ensures Generate("12345", Some(DefaultOptions)) == Ok("123455")
    ensures Generate("12345", Some(GenerateOptions(true))) == Ok("5")
  {
    FiveDigitChecksum();
    GenerateForms("12345", 5);
    assert DigitChar(5) == '5';
    assert "12345" + ['5'] == "123455";
  }

  lemma SixDigitPayload()
    ensures Generate("123456", Some(DefaultOptions)) == Ok("1234566")
    ensures Generate("123456", Some(GenerateOptions(true))) == Ok("6")
  {
    SixDigitChecksum();
    GenerateForms("123456", 6);
    assert DigitChar(6) == '6';
    assert "123456" + ['6'] == "1234566";
  }

  lemma SevenDigitPayload()
    ensures Generate("1234567", Some(DefaultOptions)) == Ok("12345674")
    ensures Generate("1234567", Some(GenerateOptions(true))) == Ok("4")
  {
    SevenDigitChecksum();
    GenerateForms("1234567", 4);
    assert DigitChar(4) == '4';
    assert "1234567" + ['4'] == "12345674";
  }

  lemma EightDigitPayload()
    ensures Generate("12345678", Some(DefaultOptions)) == Ok("123456782")
    ensures Generate("12345678", Some(GenerateOptions(true))) == Ok("2")
  {
    EightDigitChecksum();
    GenerateForms("12345678", 2);
    assert DigitChar(2) == '2';
    assert "12345678" + ['2'] == "123456782";
  }

  lemma NineDigitPayload()
    ensures Generate("123456789", Some(DefaultOptions)) == Ok("1234567897")
    ensures Generate("123456789", Some(GenerateOptions(true))) == Ok("7")
  {
    NineDigitChecksum();
    GenerateForms("123456789", 7);
    assert DigitChar(7) == '7';
    assert "123456789" + ['7'] == "1234567897";
  }

  /** Strings whose last digit is, or is not, the check digit of the rest. */
  lemma OneDigitPayload()
    ensures Validate("18") == Ok(true) && Validate("10") == Ok(false)
  {
    assert Checksum("1") == 8 && DigitChar(8) == '8' && DigitChar(0) == '0';
    assert "1" + ['8'] == "18" && "1" + ['0'] == "10";
    ValidateAcceptsOnlyCheckDigit("1", 8);
    ValidateAcceptsOnlyCheckDigit("1", 0);
  }

  lemma TwoDigitPayload()
    ensures Validate("125") == Ok(true) && Validate("120") == Ok(false)
  {
    assert Checksum("12") == 5 && DigitChar(5) == '5' && DigitChar(0) == '0';
    assert "12" + ['5'] == "125" && "12" + ['0'] == "120";
    ValidateAcceptsOnlyCheckDigit("12", 5);
    ValidateAcceptsOnlyCheckDigit("12", 0);
  }

  lemma ThreeDigitPayload()
    ensures Validate("1230") == Ok(true) && Validate("1231") == Ok(false)
  {
    assert Checksum("123") == 0 && DigitChar(0) == '0' && DigitChar(1) == '1';
    assert "123" + ['0'] == "1230" && "123" + ['1'] == "1231";
    ValidateAcceptsOnlyCheckDigit("123", 0);
    ValidateAcceptsOnlyCheckDigit("123", 1);
  }

  /** Leading zeros are kept and do not change the check digit. */
  lemma LeadingZeroVectors()
    ensures Generate("0", None) == Ok("00")
    ensures Generate("00123", None) == Ok("001230")
    ensures Validate("001230") == Ok(true)
  {
    assert Checksum("0") == 0 && Checksum("00123") == 0 && DigitChar(0) == '0';
    assert "0" + ['0'] == "00" && "00123" + ['0'] == "001230";
    assert "001230"[..5] == "00123";
  }

  /** Length arguments of `Random`: 1 and 101 are out of range, 2 and 100 are not. */
  lemma LengthVectors()
    ensures ParseLength("") == Err(EmptyString)
    ensures ParseLength("1a") == Err(NonNumeric)
    ensures ParseLength("1") == Err(LengthBelowMinimum)
    ensures ParseLength("101") == Err(LengthAboveMaximum)
    ensures ParseLength("2") == Ok(2)
    ensures ParseLength("100") == Ok(100)
  {
    assert "1a"[1] == 'a';
    assert DecimalValue("101") == 101 by {
      assert "101"[..2] == "10" && "10"[..1] == "1";
    }
    assert DecimalValue("100") == 100 by {
      assert "100"[..2] == "10" && "10"[..1] == "1";
    }
  }
}
