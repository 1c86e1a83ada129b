# Luhn check digits, modelled in Dafny

This project models `luhn-rs`, a small Rust library for the Luhn mod-10 check
digit (Annex B of ISO/IEC 7812-1). All of the library lives in `src/lib.rs`.
The library has five parts:

- an input gate that rejects malformed digit strings, reporting the first
  failed check in a fixed order: empty, a space, `-`, `.`, a non-digit;
- a checksum engine that walks the digits right to left and doubles every
  other digit, starting with the rightmost;
- `generate`, which returns the check digit alone or the input with it appended;
- `validate`, which regenerates the full form of all but the last character
  and compares it with the input;
- `random`, which checks a length argument in [2, 100], builds that many
  digits less one (the first one non-zero), and appends their check digit.

Module `Luhn` (`luhn.dfy`) holds the model and its lemmas. Module
`LuhnVectors` (`luhn_vectors.dfy`) restates the concrete vectors of the
library's unit tests for `generate`, `validate` and `random`
(`src/lib.rs:114-205`) as lemmas about the model.

The model in brief:

- Strings are `seq<char>`.
- Errors are an `Error` datatype with one variant per message text.
- Results are `Result<T>` (`Ok`/`Err`).
- `Option<GenerateOptions>` stands for Rust's `Option<GenerateOptions>`.

The checksum loop is a method, `GenerateChecksum`. It is proved equal to the
specification function `Checksum`. `Checksum` is the closed form
`(10 - w % 10) % 10` over `w = WeightedSum(value, true)`. `WeightedSum` is the
recursive alternating-doubled digit sum, using the "subtract 9" form of a
doubled digit. The loop keeps the source's "sum of the two digits" arithmetic.
`Generate` and `Validate` are functions, as the source composes calls there.
`Random` is a method that builds its digits with a loop, as the source does.

Points where the code's behaviour is easy to misread, and what the model does:

- `random` forces the first drawn digit into 1..9 (`src/lib.rs:97`). The unit
  test `test_distribution` (`src/lib.rs:226-242`) expects a leading 0 to
  occur. The model follows the code, not that test.
- `random` draws its digits once and returns `generate` of them
  (`src/lib.rs:94-104`); nothing is retried.
- `random` accepts a length of exactly 100. Its error message says
  "less than 100", but the test is `> 100` (`src/lib.rs:83`).
- Parsing the length (`src/lib.rs:80-81`) fails only when the value does not
  fit the length type. The input gate has already excluded every other
  malformed string.

## Model

| member | source | states |
|---|---|---|
| `Luhn.HandleErrors` | src/lib.rs:6-28 | accepts exactly the non-empty strings of ASCII digits; otherwise it reports the first failed check, in the order empty, space, `-`, `.`, non-digit (so `" 1a"` reports spaces) |
| `Luhn.DecimalString` | src/lib.rs:208-214 | the decimal spelling of a length is a well-formed digit string whose parsed value is that length |
| `Luhn.LuhnTerm` | src/lib.rs:38-47 | an undoubled digit contributes itself; a doubled digit contributes the sum of the two decimal digits of its double, always below 10 |
| `Luhn.Checksum` | src/lib.rs:52 | the check digit is in 0..9 and brings the doubled-from-the-right digit sum to a multiple of ten |
| `Luhn.GenerateChecksum` | src/lib.rs:30-53 | the right-to-left fold with the toggling `double` flag returns `Checksum(value)`; appending that digit gives a Luhn-valid string |
| `Luhn.WeightedSumAppend` | src/lib.rs:31-50 | appending a digit makes it the rightmost and flips the doubling of every earlier digit |
| `Luhn.CompletesToTen` | src/lib.rs:52 | `(10 - w % 10) % 10` is the only digit that completes `w` to a multiple of ten |
| `Luhn.CheckDigitUnique` | src/lib.rs:30-53 | Luhn congruence: a string followed by a digit passes the Luhn check iff that digit is the string's check digit |
| `Luhn.LeadingZerosIgnored` | src/lib.rs:36-50 | leading zeros add nothing to the alternating-doubled sum, whichever positions they occupy |
| `Luhn.ChecksumIgnoresLeadingZeros` | src/lib.rs:161-162 | prefixing zeros does not change the check digit |
| `Luhn.Generate` | src/lib.rs:55-64 | fails exactly on malformed input, passing the gate's error through unchanged; with `checksum_only` the result is one digit completing the Luhn sum; otherwise it is the input unchanged plus one character, a Luhn-valid digit string |
| `Luhn.ChecksumOnlyIsLastOfFull` | src/lib.rs:60-63 | the checksum-only result is the last character of the full result, and both succeed or fail together |
| `Luhn.GeneratePreservesLeadingZeros` | src/lib.rs:62 | generating for a zero-prefixed input keeps the zeros and appends the same check digit as for the bare input |
| `Luhn.Validate` | src/lib.rs:66-75 | fails exactly on malformed input (the gate's error) or a single character; otherwise returns true iff the string passes the Luhn check |
| `Luhn.ValidateCompares` | src/lib.rs:73-74 | comparing the input with the regenerated full form of its prefix is the same as the Luhn check of the input |
| `Luhn.ValidateAcceptsOnlyCheckDigit` | src/lib.rs:69-74 | of the ten strings payload + one digit, `Validate` accepts exactly the one ending in the payload's check digit |
| `Luhn.GenerateThenValidate` | src/lib.rs:55-75 | round trip: the full form `Generate` returns for any well-formed input, leading zeros included, is accepted by `Validate` |
| `Luhn.ParseLength` | src/lib.rs:78-89 | the length argument passes iff it is a digit string whose value is in [2, 100] (100 included); otherwise the gate's error, a parse failure above the `usize` range, "too long" above 100, "too short" below 2 |
| `Luhn.ParseLengthOfDecimal` | src/lib.rs:80-89 | a length written in decimal is accepted iff it lies in [2, 100], with the matching error otherwise |
| `Luhn.Random` | src/lib.rs:77-105 | fails exactly when the length argument does, with the same error; otherwise returns n digits, the drawn n - 1 followed by a check digit, with a first digit in 1..9, and `Validate` accepts it |
| `LuhnVectors.RejectsMalformedInput` | src/lib.rs:115-121 | the malformed inputs of the `generate` tests are rejected with the error of their first failed check (`" 1a"` reports spaces) |
| `LuhnVectors.ValidateRejectsMalformedInput` | src/lib.rs:170-177 | the malformed candidates of the `validate` tests, `" 1230 "` included, are rejected with the error of their first failed check; `validate("1")` reports a single character |
| `LuhnVectors.ReferenceChecksum` | src/lib.rs:156 | the check digit of 7992739871 is 3 |
| `LuhnVectors.ReferenceNumber` | src/lib.rs:126-156 | `generate("7992739871")` is `"79927398713"` with no options and with `checksum_only: false`, and `"3"` checksum-only; `validate` accepts `"79927398713"` and rejects `"79927398714"` |
| `LuhnVectors.ShortPayloads` | src/lib.rs:124-149 | the results for `"1"` (no options, default options, checksum-only), `"12"` and `"123"` are as the tests state |
| `LuhnVectors.FourDigitPayload` | src/lib.rs:135-150 | `generate("1234")` is `"12344"`, checksum-only `"4"` |
| `LuhnVectors.FiveDigitPayload` | src/lib.rs:136-151 | `generate("12345")` is `"123455"`, checksum-only `"5"` |
| `LuhnVectors.SixDigitPayload` | src/lib.rs:137-152 | `generate("123456")` is `"1234566"`, checksum-only `"6"` |
| `LuhnVectors.SevenDigitPayload` | src/lib.rs:138-153 | `generate("1234567")` is `"12345674"`, checksum-only `"4"` |
| `LuhnVectors.EightDigitPayload` | src/lib.rs:139-154 | `generate("12345678")` is `"123456782"`, checksum-only `"2"` |
| `LuhnVectors.NineDigitPayload` | src/lib.rs:140-155 | `generate("123456789")` is `"1234567897"`, checksum-only `"7"` |
| `LuhnVectors.OneDigitPayload` | src/lib.rs:180-192 | `validate("18")` is true and `validate("10")` is false |
| `LuhnVectors.TwoDigitPayload` | src/lib.rs:180-192 | `validate("125")` is true and `validate("120")` is false |
| `LuhnVectors.ThreeDigitPayload` | src/lib.rs:180-192 | `validate("1230")` is true and `validate("1231")` is false |
| `LuhnVectors.LeadingZeroVectors` | src/lib.rs:160-163 | `generate("0")` is `"00"`, `generate("00123")` is `"001230"`, and `validate("001230")` is true |
| `LuhnVectors.LengthVectors` | src/lib.rs:199-205 | lengths `""`, `"1a"`, `"1"` and `"101"` are rejected with their errors; `"2"` and `"100"` are accepted |

## Left out

- The random number generator (`rand::thread_rng`, `gen_range`, `src/lib.rs:91-101`). `Random` takes the drawn digits as a parameter `draws`: the first in 1..9 and the rest in 0..9. There are at least 99 of them, enough for the longest result, and the method uses the first n - 1.
- Statistical properties of `random`: that results are distinct and that leading digits are spread evenly (`src/lib.rs:217-242`). These are not properties of any single call.
- The exact English error messages. Each message is one variant of `Error`.
- `u32` overflow of the digit sum (`src/lib.rs:32`). The model sums in `nat`. This matters only for inputs of hundreds of millions of digits.
- The width of `usize` is fixed at 64 bits (`UsizeMax`). On a 32-bit target the parse of the length fails above 2^32 - 1 instead.
- Rust's byte length versus character count (`value.len()`, `split_at`). The two agree on the ASCII digit strings that reach these calls.
- The derived `Default` and `Clone` of `GenerateOptions`. `DefaultOptions` is the default value.
- The benchmark harness `benches/luhn_benchmarks.rs`. It has no logic of its own.
