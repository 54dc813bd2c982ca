/**
 * Per-bank account-number strategies (app/bank_strategies.py): three
 * account-number shapes, each a generator and a validator, held in two
 * registries keyed by bank code.  The generators' random characters are
 * parameters (`draws`, in the order the source draws them).
 */
module BankStrategies {
  import opened Text
  import opened Luhn

  // ---- Luhn helpers ----

  /**
   * `luhn_checksum(base)`: one digit that completes the Luhn sum of `base`
   * taken with base's own rightmost digit kept (not doubled).  Appending it
   * to `base` shifts every digit one place, so this is not the Luhn check
   * digit of `base` (see Gen001ValidIff and LuhnChecksumCounterexample).
   */
  function LuhnChecksum(base: string): (c: string)
    requires AllDigits(base)
    ensures |c| == 1 && IsDigit(c[0])
    ensures (DigitValue(c[0]) + AlternatingSum(Digits(base), false)) % 10 == 0
  {
    LuhnSumIsAlternating(base);
    TenComplement(LuhnSum(base));
    [DigitChar((10 - LuhnSum(base) % 10) % 10)]
  }

  /** The digit `(10 - a % 10) % 10` brings `a` to a multiple of ten. */
  lemma TenComplement(a: nat)
    ensures ((10 - a % 10) % 10 + a) % 10 == 0
  {
  }

  /** `luhn_check(acct)`; `int(d)` raises on a non-digit, so callers pass digits only. */
  predicate LuhnCheck(acct: string)
    requires AllDigits(acct)
  {
    LuhnSum(acct) % 10 == 0
  }

  // ---- validators ----

  /** Ten digits passing `luhn_check`; the Luhn test is reached only for digit strings. */
  predicate ValidateAccount001(acct: string) {
    |acct| == 10 && IsDigitStr(acct) && LuhnCheck(acct)
  }

  /** Two letters that are upper-case, then digits, eight characters in all. */
  predicate ValidateAccount002(acct: string) {
    |acct| == 8 && IsAlphaStr(acct[..2]) && IsUpperStr(acct[..2]) && IsDigitStr(acct[2..])
  }

  /** Twelve digits starting with "77". */
  predicate ValidateAccount003(acct: string) {
    |acct| == 12 && StartsWith(acct, "77") && IsDigitStr(acct)
  }

  lemma Validate001Meaning(acct: string)
    ensures ValidateAccount001(acct) <==>
      |acct| == 10 && AllDigits(acct) && AlternatingSum(Digits(acct), false) % 10 == 0
  {
    if |acct| == 10 && AllDigits(acct) {
      LuhnSumIsAlternating(acct);
    }
  }

  lemma Validate002Meaning(acct: string)
    ensures ValidateAccount002(acct) <==>
      |acct| == 8 && IsUpper(acct[0]) && IsUpper(acct[1]) && AllDigits(acct[2..])
  {
    if |acct| == 8 && IsUpper(acct[0]) && IsUpper(acct[1]) {
      assert IsLetter(acct[..2][0]);
    }
  }

  // ---- generators ----

  /** `gen_account_001`: nine drawn digits followed by `luhn_checksum` of them. */
  function GenAccount001(draws: string): (acct: string)
    requires |draws| == 9 && AllDigits(draws)
    ensures |acct| == 10 && AllDigits(acct) && acct[..9] == draws
  {
    draws + LuhnChecksum(draws)
  }

  /** `gen_account_002`: two drawn upper-case letters, then six drawn digits. */
  function GenAccount002(draws: string): (acct: string)
    requires |draws| == 8 && AllUpper(draws[..2]) && AllDigits(draws[2..])
    ensures ValidateAccount002(acct)
  {
    var acct := draws[..2] + draws[2..];
    assert acct[..2] == draws[..2] && acct[2..] == draws[2..];
    assert IsLetter(acct[0]);
    acct
  }

  /** `gen_account_003`: "77", eight drawn digits, two more drawn digits. */
  function GenAccount003(draws: string): (acct: string)
    requires |draws| == 10 && AllDigits(draws)
    ensures ValidateAccount003(acct)
    ensures acct[2..] == draws
  {
    "77" + draws[..8] + draws[8..]
  }

  /** `validate_account_003` accepts exactly the accounts `gen_account_003` can produce. */
  lemma Validate003Meaning(acct: string)
    ensures ValidateAccount003(acct) <==> |acct| == 12 && acct[0] == '7' && acct[1] == '7' && AllDigits(acct)
    ensures ValidateAccount003(acct) ==> AllDigits(acct[2..]) && acct == GenAccount003(acct[2..])
  {
    if |acct| == 12 && acct[0] == '7' && acct[1] == '7' {
      assert acct[..2] == "77";
    }
    if ValidateAccount003(acct) {
      assert AllDigits(acct[2..]) by {
        forall i | 0 <= i < |acct[2..]| ensures IsDigit(acct[2..][i]) {
          assert acct[2..][i] == acct[i + 2];
        }
      }
      assert acct == "77" + acct[2..];
    }
  }

  // ---- registries ----

  const BankGenerators: map<string, string --> string> :=
    map["001" := GenAccount001, "002" := GenAccount002, "003" := GenAccount003]

  const BankValidators: map<string, string -> bool> :=
    map["001" := ValidateAccount001, "002" := ValidateAccount002, "003" := ValidateAccount003]

  lemma RegistryKeys()
    ensures BankGenerators.Keys == BankValidators.Keys == {"001", "002", "003"}
  {
  }

  // ---- what gen_account_001 actually produces ----

  /**
   * An account from `gen_account_001` passes `validate_account_001` exactly
   * when the base's Luhn sums with its last digit kept and with it doubled
   * agree modulo 10; for most bases they do not.
   */
  lemma Gen001ValidIff(draws: string)
    requires |draws| == 9 && AllDigits(draws)
    ensures ValidateAccount001(GenAccount001(draws)) <==>
      (AlternatingSum(Digits(draws), true) - AlternatingSum(Digits(draws), false)) % 10 == 0
  {
    var c := LuhnChecksum(draws)[0];
    LuhnSumAppend(draws, c);
    assert GenAccount001(draws) == draws + [c];
    var kept, doubled := AlternatingSum(Digits(draws), false), AlternatingSum(Digits(draws), true);
    SumsAgreeModTen(DigitValue(c), kept, doubled);
  }

  lemma SumsAgreeModTen(c: int, kept: int, doubled: int)
    requires (c + kept) % 10 == 0
    ensures (c + doubled) % 10 == 0 <==> (doubled - kept) % 10 == 0
  {
    assert c + doubled == (doubled - kept) + (c + kept);
  }

  /** The base "000000001" yields "0000000019", which `validate_account_001` rejects. */
  lemma LuhnChecksumCounterexample()
    ensures GenAccount001("000000001") == "0000000019"
    ensures !ValidateAccount001("0000000019")
  {
    var base := "000000001";
    ExampleSums();
    LuhnSumIsAlternating(base);
    assert LuhnChecksum(base) == "9";
    Gen001ValidIff(base);
  }

  /** The two alternating sums of the digits of "000000001". */
  lemma ExampleSums()
    ensures AllDigits("000000001")
    ensures AlternatingSum(Digits("000000001"), false) == 1
    ensures AlternatingSum(Digits("000000001"), true) == 2
  {
    var ds := Digits("000000001");
    assert ds[..8] == [0, 0, 0, 0, 0, 0, 0, 0] && ds[8] == 1;
    AlternatingSumOfZeros(ds[..8], true);
    AlternatingSumOfZeros(ds[..8], false);
  }

  // ---- the check digit the generator evidently intends ----

  /** The Luhn check digit of `base`: base's rightmost digit is doubled. */
  function LuhnCheckDigit(base: string): (c: char)
    requires AllDigits(base)
    ensures IsDigit(c)
  {
    DigitChar((10 - AlternatingSum(Digits(base), true) % 10) % 10)
  }

  /** Round trip: a digit completes `base` to a Luhn-valid string iff it is the check digit. */
  lemma CheckDigitRoundTrip(base: string, c: char)
    requires AllDigits(base) && IsDigit(c)
    ensures AllDigits(base + [c])
    ensures LuhnCheck(base + [c]) <==> c == LuhnCheckDigit(base)
  {
    LuhnSumAppend(base, c);
    DigitCompletes(AlternatingSum(Digits(base), true), c);
  }

  /** The one digit that brings a sum `a` to a multiple of ten. */
  lemma DigitCompletes(a: nat, c: char)
    requires IsDigit(c)
    ensures (DigitValue(c) + a) % 10 == 0 <==> c == DigitChar((10 - a % 10) % 10)
  {
    var d := (10 - a % 10) % 10;
    if c != DigitChar(d) {
      assert DigitValue(c) != d;
    }
  }

  /** `gen_account_001` with the check digit computed as intended. */
  function GenAccount001Corrected(draws: string): (acct: string)
    requires |draws| == 9 && AllDigits(draws)
    ensures |acct| == 10 && acct[..9] == draws
    ensures ValidateAccount001(acct)
  {
    var acct := draws + [LuhnCheckDigit(draws)];
    CheckDigitRoundTrip(draws, LuhnCheckDigit(draws));
    acct
  }
}
