/**
 * The seed-data generator (seed_accounts.py): Luhn-valid ten-digit
 * accounts, account numbers of length 8..12, IBANs with correct and with
 * deliberately wrong check digits, and valid records with unique
 * references.  Every random draw is a parameter, in the order the source
 * draws it; the probabilities are not modelled.
 */
module SeedAccounts {
  import opened Text
  import opened Luhn
  import opened Iban
  import BankStrategies
  import AccountValidator

  /** Two upper-case letters, the shape of every key of `IBAN_COUNTRIES`. */
  predicate CountryCode(country: string) {
    |country| == 2 && IsUpper(country[0]) && IsUpper(country[1])
  }

  type Country = c: string | CountryCode(c) witness "GB"

  /** `IBAN_COUNTRIES`: country code to total IBAN length. */
  const IbanCountries: map<Country, nat> :=
    map["GB" := 22, "DE" := 22, "FR" := 27, "ES" := 24, "IT" := 27,
        "NL" := 18, "BE" := 16, "CH" := 21, "PL" := 28, "SE" := 24]

  /** The bank codes `make_valid_account` picks from for a local account. */
  const LocalBankCodes: seq<string> := ["001", "002", "003", "044", "058", "070", "232"]

  lemma IbanCountriesShape(country: string)
    requires country in IbanCountries
    ensures |country| == 2 && IsUpper(country[0]) && IsUpper(country[1])
    ensures 16 <= IbanCountries[country] <= 28
  {
  }

  // ---- Luhn ----

  /** `luhn_checksum(num_str)`: the Luhn sum modulo 10, zero exactly for a Luhn-valid string. */
  function LuhnChecksum(numStr: string): (r: nat)
    requires AllDigits(numStr)
    ensures r < 10
    ensures r == AlternatingSum(Digits(numStr), false) % 10
  {
    LuhnSumIsAlternating(numStr);
    LuhnSum(numStr) % 10
  }

  /** The seed's `luhn_checksum` is zero exactly when the validator's `_validate_checksum` accepts. */
  lemma LuhnChecksumAgreesWithValidator(s: string)
    requires IsDigitStr(s)
    ensures LuhnChecksum(s) == 0 <==> AccountValidator.ValidateChecksum(s)
    ensures LuhnChecksum(s) == 0 <==> BankStrategies.LuhnCheck(s)
  {
  }

  /**
   * `generate_luhn_account`: tries the last digits 0..9 in turn and returns
   * the first that makes the Luhn checksum zero.  That digit is always the
   * Luhn check digit of `base`, so the fallback after the loop is dead code.
   */
  method GenerateLuhnAccount(base: string) returns (acct: string)
    requires |base| == 9 && AllDigits(base)
    ensures acct == base + [BankStrategies.LuhnCheckDigit(base)]
    ensures |acct| == 10 && AllDigits(acct) && LuhnChecksum(acct) == 0
  {
    for last := 0 to 10
      invariant forall l :: 0 <= l < last ==> DigitChar(l) != BankStrategies.LuhnCheckDigit(base)
    {
      var candidate := base + [DigitChar(last)];
      BankStrategies.CheckDigitRoundTrip(base, DigitChar(last));
      if LuhnChecksum(candidate) == 0 {
        return candidate;
      }
    }
    assert false;
    acct := base + "0";
  }

  /** The draws `generate_account_number` makes, in order. */
  datatype AccountDraws = AccountDraws(length: nat, coin: real, digits: string, alnum: string)

  /** `length` comes from [8..12]; the numeric branch draws 9 digits for length 10, else `length`. */
  predicate AccountDrawsOk(d: AccountDraws) {
    && 8 <= d.length <= 12
    && |d.digits| == (if d.length == 10 then 9 else d.length) && AllDigits(d.digits)
    && |d.alnum| == d.length && AllUpperAlnum(d.alnum)
  }

  /**
   * `generate_account_number`: a string of 8..12 digits or upper-case
   * alphanumerics; a numeric one of length 10 is Luhn-valid.
   */
  method GenerateAccountNumber(d: AccountDraws) returns (acct: string)
    requires AccountDrawsOk(d)
    ensures |acct| == d.length && 8 <= |acct| <= 12 && AllUpperAlnum(acct)
    ensures d.coin < 0.5 ==> AllDigits(acct)
    ensures d.coin < 0.5 && d.length == 10 ==> AccountValidator.ValidateChecksum(acct)
    ensures d.coin < 0.5 && d.length != 10 ==> acct == d.digits
    ensures d.coin < 0.5 && d.length == 10 ==> acct == d.digits + [BankStrategies.LuhnCheckDigit(d.digits)]
    ensures d.coin >= 0.5 ==> acct == d.alnum
  {
    if d.coin < 0.5 {
      if d.length == 10 {
        acct := GenerateLuhnAccount(d.digits);
        LuhnChecksumAgreesWithValidator(acct);
        return;
      }
      return d.digits;
    } else {
      return d.alnum;
    }
  }

  // ---- IBAN check digits ----

  lemma UpperOfAlnum(s: string)
    requires forall i :: 0 <= i < |s| ==> IsAlnum(s[i])
    ensures AllUpperAlnum(Upper(s))
  {
  }

  /**
   * The check digits `iban_checksum` returns for a body: 98 minus the
   * numeral of the rearranged, upper-cased body modulo 97, padded to two
   * digits.  Defined for the non-empty alphanumeric bodies its callers pass.
   */
  function CheckDigits(body: string): (check: string)
    requires IsAlnumStr(body)
    ensures |check| == 2 && IsDigitStr(check)
    ensures 2 <= NumeralValue(check) <= 98
  {
    NumerizedBody(body);
    Pad2(98 - NumeralValue(Numerized(Upper(Rearranged(body)))) % 97)
  }

  /** The rearranged, upper-cased body of an alphanumeric string converts to digits only. */
  lemma NumerizedBody(body: string)
    requires IsAlnumStr(body)
    ensures AllDigits(Numerized(Upper(Rearranged(body))))
  {
    var u := Upper(Rearranged(body));
    assert forall i :: 0 <= i < |u| ==> IsAlnum(Rearranged(body)[i]);
    UpperOfAlnum(Rearranged(body));
    NumerizedUpperAlnum(u);
  }

  lemma UpperNumerizedStep(r: string, i: nat)
    requires i < |r|
    ensures Numerized(Upper(r[..i + 1])) == Numerized(Upper(r[..i])) + CharNumeral(UpperChar(r[i]))
  {
    assert Upper(r[..i + 1]) == Upper(r[..i]) + [UpperChar(r[i])];
    NumerizedSnoc(Upper(r[..i]), UpperChar(r[i]));
  }

  /** `iban_checksum`: builds the numeral character by character, then reduces it modulo 97. */
  method IbanChecksum(ibanBody: string) returns (check: string)
    requires IsAlnumStr(ibanBody)
    ensures check == CheckDigits(ibanBody)
    ensures |check| == 2 && 2 <= NumeralValue(check) <= 98
  {
    var rearranged := Rearranged(ibanBody);
    var numerized := "";
    for i := 0 to |rearranged|
      invariant numerized == Numerized(Upper(rearranged[..i]))
    {
      var c := rearranged[i];
      UpperNumerizedStep(rearranged, i);
      if IsDigit(c) {
        numerized := numerized + [c];
      } else {
        numerized := numerized + IntToDecimal(UpperChar(c) as int - 55);
      }
    }
    assert rearranged[..|rearranged|] == rearranged;
    NumerizedBody(ibanBody);
    var checksum := 98 - NumeralValue(numerized) % 97;
    check := Pad2(checksum);
  }

  lemma NumeralOfTwoDigits(check: string)
    requires |check| == 2 && AllDigits(check)
    ensures Numerized(check) == check
    ensures Pow10(|check|) == 100
  {
    NumerizedDigits(check);
  }

  /** Rearranging `country + check + bban` moves the country and check digits behind the bban. */
  lemma RearrangedIban(country: string, check: string, bban: string)
    requires |country| == 2 && |check| == 2
    ensures Rearranged(country + check + bban) == bban + country + check
  {
    var iban := country + check + bban;
    assert iban[4..] == bban && iban[..4] == country + check;
  }

  /**
   * The numeral `_validate_iban` reduces for `country + check + bban` is the
   * numeral of `bban + country` followed by the two check digits.
   */
  lemma IbanNumeral(country: string, check: string, bban: string)
    requires CountryCode(country) && |check| == 2 && AllDigits(check) && AllUpperAlnum(bban)
    ensures AllDigits(Numerized(bban + country))
    ensures Numerized(bban + country + check) == Numerized(bban + country) + check
    ensures AllDigits(Numerized(bban + country + check))
    ensures NumeralValue(Numerized(bban + country + check))
      == NumeralValue(Numerized(bban + country)) * 100 + NumeralValue(check)
  {
    var front := bban + country;
    assert AllUpperAlnum(front);
    NumerizedUpperAlnum(front);
    NumerizedConcat(front, check);
    NumeralOfTwoDigits(check);
    NumeralConcat(Numerized(front), check);
  }

  /** A string of upper-case letters and digits is its own upper-cased, space-free form. */
  lemma Canonical(s: string)
    requires AllUpperAlnum(s)
    ensures Upper(RemoveSpaces(s)) == s
  {
    RemoveSpacesNoSpace(s);
    UpperOfUpperAlnum(s);
  }

  lemma CongruentCompletions(x: nat, c: nat, cs: nat)
    requires (x + cs) % 97 == 1
    ensures (x + c) % 97 == 1 <==> c % 97 == cs % 97
  {
    var q := (x + cs) / 97;
    var qc, rc := c / 97, c % 97;
    var qs, rs := cs / 97, cs % 97;
    var m, r := (x + c) / 97, (x + c) % 97;
    assert x + cs == q * 97 + 1;
    assert c == qc * 97 + rc && cs == qs * 97 + rs;
    assert x + c == m * 97 + r;
    var k := m - q + qs - qc;
    assert k * 97 == 1 - r - rs + rc;
    if r == 1 {
      assert -97 < k * 97 < 97;
      assert k == 0;
    }
    if rc == rs {
      assert -97 < k * 97 < 97;
      assert k == 0;
    }
  }

  /**
   * For a body built as `country + "00" + bban`, two check digits make an
   * IBAN that `_validate_iban` accepts exactly when they are congruent,
   * modulo 97, to the ones `iban_checksum` computes.
   */
  lemma {:induction false} CheckDigitsCongruence(country: string, bban: string, check: string)
    requires CountryCode(country) && AllUpperAlnum(bban) && 11 <= |bban| <= 30
    requires |check| == 2 && AllDigits(check)
    ensures IsAlnumStr(country + "00" + bban)
    ensures AccountValidator.IbanValid(country + check + bban) <==>
      NumeralValue(check) % 97 == NumeralValue(CheckDigits(country + "00" + bban)) % 97
  {
    var cs := CorrectCheckValue(country, bban);
    var n := AssembledNumeral(country, check, bban);
    var y := NumeralValue(Numerized(bban + country)) * 100;
    CompletionResidue(y, NumeralValue(check), n);
    ResidueChain(AccountValidator.IbanValid(country + check + bban), n, y,
      NumeralValue(check), NumeralValue(CheckDigits(country + "00" + bban)));
  }

  /** Chains the numeral test of an IBAN to the residue of its check digits. */
  lemma ResidueChain(valid: bool, n: int, y: int, c: int, cs: int)
    requires valid <==> n % 97 == 1
    requires n % 97 == 1 <==> c % 97 == (98 - y % 97) % 97
    requires cs == 98 - y % 97
    ensures valid <==> c % 97 == cs % 97
  {
  }

  /**
   * `_validate_iban` on `country + check + bban` tests the numeral `n` that
   * joins the digits of `bban + country` to those of `check`.
   */
  lemma AssembledNumeral(country: string, check: string, bban: string) returns (n: nat)
    requires CountryCode(country) && AllUpperAlnum(bban) && 11 <= |bban| <= 30
    requires |check| == 2 && AllDigits(check)
    ensures AllDigits(Numerized(bban + country))
    ensures n == NumeralValue(Numerized(bban + country)) * 100 + NumeralValue(check)
    ensures AccountValidator.IbanValid(country + check + bban) <==> n % 97 == 1
  {
    ValidityOfAssembled(country, check, bban);
    IbanNumeral(country, check, bban);
    n := NumeralValue(Numerized(bban + country + check));
  }

  /** Adding `c` to `y` leaves 1 modulo 97 exactly when `c` matches the completion of `y`. */
  lemma CompletionResidue(y: nat, c: nat, n: nat)
    requires n == y + c
    ensures n % 97 == 1 <==> c % 97 == (98 - y % 97) % 97
  {
    Mod97Completes(y);
    CongruentCompletions(y, c, 98 - y % 97);
  }

  lemma BodyAlnum(country: string, bban: string)
    requires CountryCode(country) && AllUpperAlnum(bban)
    ensures AllUpperAlnum(country + "00" + bban) && IsAlnumStr(country + "00" + bban)
  {
    AssembledUpperAlnum(country, "00", bban);
  }

  lemma AssembledUpperAlnum(country: string, check: string, bban: string)
    requires CountryCode(country) && |check| == 2 && AllDigits(check) && AllUpperAlnum(bban)
    ensures AllUpperAlnum(country + check + bban)
  {
    var iban := country + check + bban;
    forall i | 0 <= i < |iban| ensures IsUpperAlnum(iban[i]) {
      if i >= 4 {
        assert iban[i] == bban[i - 4];
      }
    }
  }

  /** On a well-shaped upper-case IBAN, `_validate_iban` is the numeral test alone. */
  lemma ValidityOfShaped(iban: string)
    requires AllUpperAlnum(iban) && 15 <= |iban| <= 34
    requires IsUpper(iban[0]) && IsUpper(iban[1]) && IsDigit(iban[2]) && IsDigit(iban[3])
    ensures AllDigits(Numerized(Rearranged(iban)))
    ensures AccountValidator.IbanValid(iban) <==> NumeralValue(Numerized(Rearranged(iban))) % 97 == 1
  {
    Canonical(iban);
    assert IbanShape(iban);
    AccountValidator.IbanValidMeaning(iban);
  }

  /** `_validate_iban` on `country + check + bban` reduces to the numeral test. */
  lemma ValidityOfAssembled(country: string, check: string, bban: string)
    requires CountryCode(country) && AllUpperAlnum(bban) && 11 <= |bban| <= 30
    requires |check| == 2 && AllDigits(check)
    ensures AllDigits(Numerized(bban + country + check))
    ensures AccountValidator.IbanValid(country + check + bban) <==>
      NumeralValue(Numerized(bban + country + check)) % 97 == 1
  {
    AssembledUpperAlnum(country, check, bban);
    ValidityOfShaped(country + check + bban);
    RearrangedIban(country, check, bban);
  }

  /** The value of the correct check digits for `country + "00" + bban`. */
  lemma CorrectCheckValue(country: string, bban: string) returns (cs: nat)
    requires CountryCode(country) && AllUpperAlnum(bban)
    ensures IsAlnumStr(country + "00" + bban)
    ensures AllDigits(Numerized(bban + country))
    ensures cs == 98 - (NumeralValue(Numerized(bban + country)) * 100) % 97
    ensures NumeralValue(CheckDigits(country + "00" + bban)) == cs
  {
    var body := country + "00" + bban;
    BodyAlnum(country, bban);
    var r := bban + country + "00";
    assert Upper(Rearranged(body)) == r by {
      RearrangedIban(country, "00", bban);
      assert AllUpperAlnum(r);
      UpperOfUpperAlnum(r);
    }
    IbanNumeral(country, "00", bban);
    var x := NumeralValue(Numerized(bban + country));
    assert NumeralValue(Numerized(r)) == x * 100 by {
      assert NumeralValue("00") == 0;
    }
    cs := 98 - (x * 100) % 97;
    assert CheckDigits(body) == Pad2(cs);
  }

  /**
   * Round trip between `iban_checksum` and `_validate_iban`: a two-letter
   * country, the computed check digits and an upper-case alphanumeric bban
   * of 11..30 characters always form a valid IBAN.
   */
  lemma ValidIbanRoundTrip(country: string, bban: string)
    requires CountryCode(country) && AllUpperAlnum(bban) && 11 <= |bban| <= 30
    ensures IsAlnumStr(country + "00" + bban)
    ensures AccountValidator.IbanValid(country + CheckDigits(country + "00" + bban) + bban)
  {
    assert AllUpperAlnum(country + "00" + bban);
    CheckDigitsCongruence(country, bban, CheckDigits(country + "00" + bban));
  }

  /** `generate_valid_iban`, with the country and the bban drawn by the caller. */
  method GenerateValidIban(country: string, bban: string) returns (iban: string)
    requires country in IbanCountries
    requires |bban| == IbanCountries[country] - 4 && AllUpperAlnum(bban)
    ensures |iban| == IbanCountries[country] && iban[..2] == country && iban[4..] == bban
    ensures AccountValidator.IbanValid(iban)
  {
    IbanCountriesShape(country);
    var bbanLength := IbanCountries[country] - 4;
    assert AllUpperAlnum(country + "00" + bban);
    var tempIban := country + "00" + bban;
    var check := IbanChecksum(tempIban);
    iban := country + check + bban;
    ValidIbanRoundTrip(country, bban);
  }

  // ---- deliberately invalid IBANs ----

  /**
   * The retry loop of `generate_invalid_iban`'s wrong-checksum branch: draws
   * `randint(0, 97)` until its two-digit form differs from the correct check
   * digits.  It compares strings, not residues modulo 97.
   */
  method WrongCheckDigits(country: string, bban: string, checkDraws: seq<nat>) returns (check: string)
    requires CountryCode(country) && AllUpperAlnum(bban)
    requires forall k :: 0 <= k < |checkDraws| ==> checkDraws[k] <= 97
    requires exists k :: 0 <= k < |checkDraws| && Pad2(checkDraws[k]) != CheckDigits(country + "00" + bban)
    ensures |check| == 2 && AllDigits(check) && NumeralValue(check) <= 97
    ensures check != CheckDigits(country + "00" + bban)
    ensures exists k :: (0 <= k < |checkDraws| && check == Pad2(checkDraws[k])
      && (forall j :: 0 <= j < k ==> Pad2(checkDraws[j]) == CheckDigits(country + "00" + bban)))
  {
    BodyAlnum(country, bban);
    var correct := IbanChecksum(country + "00" + bban);
    var padded := seq(|checkDraws|, i requires 0 <= i < |checkDraws| => Pad2(checkDraws[i]));
    ghost var w :| 0 <= w < |checkDraws| && Pad2(checkDraws[w]) != correct;
    assert padded[w] != correct;
    var k := FirstDiffering(correct, padded);
    check := padded[k];
    assert checkDraws[k] <= 97;
    assert forall j :: 0 <= j < k ==> Pad2(checkDraws[j]) == padded[j] == correct;
    assert check == Pad2(checkDraws[k]);
  }

  /**
   * A retry loop on its own: the index of the first candidate that differs
   * from `rejected`, every earlier one being equal to it.
   */
  method FirstDiffering<T(==)>(rejected: T, candidates: seq<T>) returns (k: nat)
    requires exists k :: 0 <= k < |candidates| && candidates[k] != rejected
    ensures k < |candidates| && candidates[k] != rejected
    ensures forall j :: 0 <= j < k ==> candidates[j] == rejected
  {
    ghost var w :| 0 <= w < |candidates| && candidates[w] != rejected;
    k := 0;
    while candidates[k] == rejected
      invariant 0 <= k <= w
      invariant forall j :: 0 <= j < k ==> candidates[j] == rejected
      decreases w - k
    {
      k := k + 1;
    }
  }

  /** The check digits `iban_checksum` computes for `country + "00" + bban`. */
  function CorrectCheckDigits(country: Country, bban: string): string
    requires AllUpperAlnum(bban)
  {
    BodyAlnum(country, bban);
    CheckDigits(country + "00" + bban)
  }

  /**
   * `generate_invalid_iban`.  With `coin < 0.5` the check digits are redrawn
   * until they differ from the correct ones; otherwise the length is shifted
   * by `lengthShift` and a fresh bban of that length gets correct check
   * digits, so the result is accepted whenever its length is within 15..34.
   */
  method GenerateInvalidIban(country: string, bban: string, coin: real, checkDraws: seq<nat>,
                             lengthShift: int, shortBban: string)
    returns (iban: string)
    requires country in IbanCountries
    requires |bban| == IbanCountries[country] - 4 && AllUpperAlnum(bban)
    requires forall k :: 0 <= k < |checkDraws| ==> checkDraws[k] <= 97
    requires coin < 0.5 ==> exists k :: 0 <= k < |checkDraws| && Pad2(checkDraws[k]) != CorrectCheckDigits(country, bban)
    requires lengthShift in {-3, -2, -1, 1, 2, 3}
    requires |shortBban| == (if IbanCountries[country] + lengthShift - 4 >= 1 then IbanCountries[country] + lengthShift - 4 else 1)
    requires AllUpperAlnum(shortBban)
    ensures coin < 0.5 ==>
      && |iban| == IbanCountries[country] && iban[..2] == country && iban[4..] == bban
      && iban[2..4] != CorrectCheckDigits(country, bban) && IsDigitStr(iban[2..4])
    ensures coin >= 0.5 ==>
      && |iban| == IbanCountries[country] + lengthShift
      && (15 <= |iban| <= 34 ==> AccountValidator.IbanValid(iban))
  {
    IbanCountriesShape(country);
    if coin < 0.5 {
      var check := WrongCheckDigits(country, bban, checkDraws);
      iban := country + check + bban;
      assert iban[2..4] == check;
    } else {
      iban := WrongLengthIban(country, shortBban);
    }
  }

  /** The wrong-length branch: correct check digits on a bban of the shifted length. */
  method WrongLengthIban(country: string, shortBban: string) returns (iban: string)
    requires CountryCode(country) && AllUpperAlnum(shortBban) && |shortBban| >= 1
    ensures |iban| == |shortBban| + 4
    ensures 15 <= |iban| <= 34 ==> AccountValidator.IbanValid(iban)
  {
    BodyAlnum(country, shortBban);
    var check := IbanChecksum(country + "00" + shortBban);
    iban := country + check + shortBban;
    if 15 <= |iban| <= 34 {
      ValidIbanRoundTrip(country, shortBban);
    }
  }

  /**
   * The wrong-checksum branch can return a valid IBAN: when the correct
   * check digits are 98 the draw 1 gives "01", which differs as a string
   * but is congruent modulo 97; likewise 97 and "00".
   */
  lemma WrongCheckDigitsCanPass(country: string, bban: string)
    requires CountryCode(country) && AllUpperAlnum(bban) && 11 <= |bban| <= 30
    ensures IsAlnumStr(country + "00" + bban)
    ensures NumeralValue(CheckDigits(country + "00" + bban)) == 98 ==>
      Pad2(1) != CheckDigits(country + "00" + bban) && AccountValidator.IbanValid(country + Pad2(1) + bban)
    ensures NumeralValue(CheckDigits(country + "00" + bban)) == 97 ==>
      Pad2(0) != CheckDigits(country + "00" + bban) && AccountValidator.IbanValid(country + Pad2(0) + bban)
  {
    BodyAlnum(country, bban);
    var cs := NumeralValue(CheckDigits(country + "00" + bban));
    if cs == 98 {
      CheckDigitsCongruence(country, bban, Pad2(1));
      CongruentAccepted(AccountValidator.IbanValid(country + Pad2(1) + bban), NumeralValue(Pad2(1)), cs);
    }
    if cs == 97 {
      CheckDigitsCongruence(country, bban, Pad2(0));
      CongruentAccepted(AccountValidator.IbanValid(country + Pad2(0) + bban), NumeralValue(Pad2(0)), cs);
    }
  }

  /** 01 stands in for 98, and 00 for 97, modulo 97. */
  lemma CongruentAccepted(valid: bool, c: int, cs: int)
    requires valid <==> c % 97 == cs % 97
    requires (c == 1 && cs == 98) || (c == 0 && cs == 97)
    ensures valid
  {
  }

  /** The digits of a string of zeros have value 0. */
  lemma {:induction false} ZerosValue(n: nat)
    ensures AllDigits(seq(n, i => '0')) && NumeralValue(seq(n, i => '0')) == 0
  {
    if n > 0 {
      ZerosValue(n - 1);
      assert seq(n, i => '0')[..n - 1] == seq(n - 1, i => '0');
    }
  }

  lemma SixDigitValue()
    ensures AllDigits("872321") && NumeralValue("872321") == 872321
  {
    assert "872321"[..5] == "87232" && "87232"[..4] == "8723" && "8723"[..3] == "872";
    assert "872"[..2] == "87" && "87"[..1] == "8" && "8"[..0] == "";
    assert NumeralValue("8") == 8;
    assert NumeralValue("87") == 87;
    assert NumeralValue("872") == 872;
    assert NumeralValue("8723") == 8723;
    assert NumeralValue("87232") == 87232;
  }

  lemma ExampleLetters()
    ensures Numerized("NL") == "2321"
  {
    assert "NL"[..1] == "N" && "N"[..0] == "";
    LetterNumeral('N');
    LetterNumeral('L');
  }

  /** The numeral of the rearranged example body "NL00" + "00000000000087", less its check digits. */
  lemma ExampleNumeral()
    ensures AllDigits(Numerized("00000000000087NL"))
    ensures NumeralValue(Numerized("00000000000087NL")) == 872321
  {
    var zeros := seq(12, i => '0');
    ExampleNumerized(zeros);
    ZerosValue(12);
    SixDigitValue();
    NumeralConcat(zeros, "872321");
  }

  /** Numerizing the example keeps its digits and turns "NL" into "2321". */
  lemma ExampleNumerized(zeros: string)
    requires zeros == seq(12, i => '0')
    ensures Numerized("00000000000087NL") == zeros + "872321"
  {
    assert "00000000000087NL" == zeros + "87" + "NL";
    NumerizedConcat(zeros + "87", "NL");
    assert AllDigits(zeros + "87");
    NumerizedDigits(zeros + "87");
    ExampleLetters();
    assert zeros + "87" + "2321" == zeros + "872321";
  }

  /**
   * A concrete instance: for NL with bban "00000000000087" the correct check
   * digits are 98, the draw 1 gives "01", and "NL0100000000000087" passes
   * `_validate_iban` although it was generated as an invalid IBAN.
   */
  lemma WrongCheckDigitsExample(country: string, bban: string)
    requires country == "NL" && bban == "00000000000087"
    ensures IsAlnumStr(country + "00" + bban)
    ensures NumeralValue(CheckDigits(country + "00" + bban)) == 98
    ensures Pad2(1) == "01" && Pad2(1) != CheckDigits(country + "00" + bban)
    ensures AccountValidator.IbanValid(country + "01" + bban)
  {
    ExampleBban();
    ExampleNumeral();
    var cs := CorrectCheckValue(country, bban);
    var x := NumeralValue(Numerized(bban + country));
    assert x == 872321;
    ExampleCheckValue(x, cs);
    WrongCheckDigitsCanPass(country, bban);
    assert Pad2(1) == "01";
  }

  /** The check value for the numeral 872321 is 98, since 87232100 is a multiple of 97. */
  lemma ExampleCheckValue(x: int, cs: int)
    requires x == 872321 && cs == 98 - (x * 100) % 97
    ensures cs == 98
  {
    assert x * 100 == 97 * 899300;
  }


  lemma ExampleBban()
    ensures CountryCode("NL") && AllUpperAlnum("00000000000087")
    ensures "00000000000087" + "NL" == "00000000000087NL"
  {
  }

  /**
   * The wrong-checksum retry as evidently intended: redraw while the draw is
   * congruent to the correct check digits modulo 97, so the result always
   * fails `_validate_iban`.
   */
  method WrongCheckDigitsCorrected(country: string, bban: string, checkDraws: seq<nat>) returns (check: string)
    requires CountryCode(country) && AllUpperAlnum(bban) && 11 <= |bban| <= 30
    requires forall k :: 0 <= k < |checkDraws| ==> checkDraws[k] <= 97
    requires exists k ::
      0 <= k < |checkDraws| && checkDraws[k] % 97 != NumeralValue(CheckDigits(country + "00" + bban)) % 97
    ensures |check| == 2 && AllDigits(check)
    ensures !AccountValidator.IbanValid(country + check + bban)
  {
    BodyAlnum(country, bban);
    var correct := IbanChecksum(country + "00" + bban);
    var residues := seq(|checkDraws|, i requires 0 <= i < |checkDraws| => checkDraws[i] % 97);
    ghost var w :| 0 <= w < |checkDraws| && checkDraws[w] % 97 != NumeralValue(correct) % 97;
    assert residues[w] != NumeralValue(correct) % 97;
    var k := FirstDiffering(NumeralValue(correct) % 97, residues);
    check := Pad2(checkDraws[k]);
    CheckDigitsCongruence(country, bban, check);
  }

  // ---- valid records ----

  datatype SeedRecord = SeedRecord(accountNumber: string, bankCode: string, amount: real, referenceId: string)

  /** `f"TX{n}"`. */
  function Reference(n: nat): string {
    "TX" + NatToDecimal(n)
  }

  /** The draws `make_valid_account` makes besides the reference, in order. */
  datatype RecordDraws = RecordDraws(
    ibanCoin: real, country: string, bban: string,
    account: AccountDraws, bank: string, amount: real)

  predicate RecordDrawsOk(d: RecordDraws) {
    && (d.ibanCoin < 0.2 ==>
          d.country in IbanCountries && |d.bban| == IbanCountries[d.country] - 4 && AllUpperAlnum(d.bban))
    && (d.ibanCoin >= 0.2 ==> AccountDrawsOk(d.account) && d.bank in LocalBankCodes)
  }

  /** The set of reference ids handed out so far (`used_refs`). */
  class ReferenceRegistry {
    var usedRefs: set<string>

    constructor ()
      ensures usedRefs == {}
    {
      usedRefs := {};
    }

    /**
     * `make_valid_account`: an IBAN with an empty bank code, or a local
     * account with a listed bank code; the reference is redrawn until it is
     * unused and is then recorded.
     */
    method MakeValidAccount(idx: nat, d: RecordDraws, refDraws: seq<nat>) returns (rec: SeedRecord)
      requires RecordDrawsOk(d)
      requires exists k :: 0 <= k < |refDraws| && Reference(refDraws[k]) !in usedRefs
      modifies this
      ensures rec.referenceId !in old(usedRefs)
      ensures usedRefs == old(usedRefs) + {rec.referenceId}
      ensures exists k :: (0 <= k < |refDraws| && rec.referenceId == Reference(refDraws[k])
        && (forall j :: 0 <= j < k ==> Reference(refDraws[j]) in old(usedRefs)))
      ensures d.ibanCoin < 0.2 ==> rec.bankCode == "" && AccountValidator.IbanValid(rec.accountNumber)
      ensures d.ibanCoin >= 0.2 ==>
        rec.bankCode == d.bank && 8 <= |rec.accountNumber| <= 12 && AllUpperAlnum(rec.accountNumber)
      ensures rec.amount == d.amount
    {
      var acct, bank;
      if d.ibanCoin < 0.2 {
        acct := GenerateValidIban(d.country, d.bban);
        bank := "";
      } else {
        acct := GenerateAccountNumber(d.account);
        bank := d.bank;
      }
      var k := 0;
      var ref := Reference(refDraws[0]);
      while ref in usedRefs
        invariant 0 <= k < |refDraws| && ref == Reference(refDraws[k])
        invariant exists j :: k <= j < |refDraws| && Reference(refDraws[j]) !in usedRefs
        invariant forall j :: 0 <= j < k ==> Reference(refDraws[j]) in usedRefs
        decreases |refDraws| - k
      {
        k := k + 1;
        ref := Reference(refDraws[k]);
      }
      usedRefs := usedRefs + {ref};
      rec := SeedRecord(acct, bank, d.amount, ref);
    }
  }
}
