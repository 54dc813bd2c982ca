/**
 * The transfer-record validation engine (app/validators/account_validator.py).
 *
 * `validate` is an ordered pipeline: a missing-field guard and a per-bank
 * gate, each of which short-circuits with a single error; then a fixed
 * chain of seven rules whose errors accumulate, in rule order; then, only
 * when the chain found nothing, a simulated upstream bank check whose
 * random draws are parameters here.  Error codes are those of the ISO 20022
 * external status-reason code set.
 */
module AccountValidator {
  import opened Wrappers
  import opened Text
  import opened Luhn
  import opened Iban
  import BankStrategies

  const SepaErrorCodes: map<string, string> := map[
    "AC01" := "Incorrect account number/IBAN format",
    "AC04" := "Closed account number",
    "AC06" := "Blocked account",
    "AM09" := "Invalid amount",
    "BE04" := "Invalid bank code",
    "RR01" := "Regulatory restriction",
    "RF01" := "Invalid reference ID"
  ]

  const ValidBankCodes: seq<string> := ["001", "002", "003", "044", "058", "070", "232", "082", "214", "215"]

  /** A Python float taken exactly: a finite value, NaN, or an infinity. */
  datatype Amount = Finite(value: real) | NaN | Infinity(positive: bool)

  /** A dictionary entry: the key is missing, present with None, or present with a value. */
  datatype Entry<T> = Missing | Null | Present(value: T)

  /** The input dictionary of `validate`; a missing account number reads as "". */
  datatype AccountData = AccountData(
    accountNumber: Option<string>,
    bankCode: Entry<string>,
    amount: Entry<Amount>,
    referenceId: Entry<string>)

  /** The four fields once the missing-field guard has passed (echoed in the result). */
  datatype Record = Record(accountNumber: string, bankCode: string, amount: Amount, referenceId: string)

  /** One error entry: its `type`, its `code` when it has one, its `message`. */
  datatype ValidationError = ValidationError(kind: string, code: Option<string>, message: string)

  datatype Status = Valid | Invalid

  datatype ValidationResult = ValidationResult(status: Status, errors: seq<ValidationError>, record: Option<Record>)

  /** The three `random.random()` draws of `mock_bank_api_check`, in [0, 1). */
  datatype UpstreamDraws = UpstreamDraws(closed: real, regulatory: real, blocked: real)

  datatype ApiResult = ApiValid | ApiInvalid(code: string, message: string)

  // ---- the seven generic rules, in `validation_rules` order ----

  datatype Rule =
    | IbanFormatOrChecksum
    | LengthError
    | AlphanumericFormat
    | BankCodeValidation
    | LuhnChecksum
    | AmountValidation
    | ReferenceIdValidation

  const ValidationRules: seq<Rule> := [
    IbanFormatOrChecksum, LengthError, AlphanumericFormat, BankCodeValidation,
    LuhnChecksum, AmountValidation, ReferenceIdValidation
  ]

  function RuleName(rule: Rule): string {
    match rule
    case IbanFormatOrChecksum => "iban_format_or_checksum"
    case LengthError => "length_error"
    case AlphanumericFormat => "alphanumeric_format"
    case BankCodeValidation => "bank_code_validation"
    case LuhnChecksum => "luhn_checksum"
    case AmountValidation => "amount_validation"
    case ReferenceIdValidation => "reference_id_validation"
  }

  function RuleCode(rule: Rule): string {
    match rule
    case BankCodeValidation => "BE04"
    case AmountValidation => "AM09"
    case ReferenceIdValidation => "RF01"
    case _ => "AC01"
  }

  function ErrorOf(rule: Rule): ValidationError {
    ValidationError(RuleName(rule), Some(RuleCode(rule)), SepaErrorCodes[RuleCode(rule)])
  }

  /** The index in `ValidationRules` of the rule with this name; 7 for any other name. */
  function RulePosition(name: string): (k: nat)
    ensures k <= |ValidationRules|
    ensures k < |ValidationRules| ==> RuleName(ValidationRules[k]) == name
  {
    if name == "iban_format_or_checksum" then 0
    else if name == "length_error" then 1
    else if name == "alphanumeric_format" then 2
    else if name == "bank_code_validation" then 3
    else if name == "luhn_checksum" then 4
    else if name == "amount_validation" then 5
    else if name == "reference_id_validation" then 6
    else 7
  }

  lemma RulePositionOfRule(k: nat)
    requires k < |ValidationRules|
    ensures RulePosition(RuleName(ValidationRules[k])) == k
  {
    if k == 0 {
      assert RuleName(ValidationRules[k]) == "iban_format_or_checksum";
    } else if k == 1 {
      assert RuleName(ValidationRules[k]) == "length_error";
    } else if k == 2 {
      assert RuleName(ValidationRules[k]) == "alphanumeric_format";
    } else if k == 3 {
      assert RuleName(ValidationRules[k]) == "bank_code_validation";
    } else if k == 4 {
      assert RuleName(ValidationRules[k]) == "luhn_checksum";
    } else if k == 5 {
      assert RuleName(ValidationRules[k]) == "amount_validation";
    } else {
      assert RuleName(ValidationRules[k]) == "reference_id_validation";
    }
  }

  // ---- the helper checks ----

  /** `_looks_like_iban`: the upper-cased account matches the IBAN pattern. */
  predicate LooksLikeIban(account: string) {
    IbanPattern(Upper(account))
  }

  /** `_looks_like_iban` is case-insensitive and lets one trailing newline through. */
  lemma LooksLikeIbanMeaning(account: string)
    ensures LooksLikeIban(account) ==> 15 <= |account| <= 35
    ensures LooksLikeIban(account) <==>
      || IbanShape(Upper(account))
      || (|account| > 0 && account[|account| - 1] == '\n' && IbanShape(Upper(account[..|account| - 1])))
  {
    if |account| > 0 {
      assert Upper(account)[..|account| - 1] == Upper(account[..|account| - 1]);
    }
  }

  /** Without spaces, every account `_validate_iban` accepts looks like an IBAN. */
  lemma IbanValidLooksLikeIban(account: string)
    requires forall i :: 0 <= i < |account| ==> account[i] != ' '
    ensures IbanValid(account) ==> LooksLikeIban(account)
  {
    RemoveSpacesNoSpace(account);
  }

  /** What `_validate_iban` returns. */
  function IbanValid(iban: string): bool {
    var s := Upper(RemoveSpaces(iban));
    if !IbanPattern(s) then false
    else if !(15 <= |s| <= 34) then false
    else match ParseInt(Numerized(Rearranged(s)))
      case None => false
      case Some(v) => v % 97 == 1
  }

  /**
   * `_validate_iban` accepts exactly the space-free, upper-cased strings of
   * IBAN shape whose rearranged numeral is 1 modulo 97; a trailing newline,
   * which the pattern lets through, always ends in rejection.
   */
  lemma IbanValidMeaning(iban: string)
    ensures var s := Upper(RemoveSpaces(iban));
      IbanValid(iban) <==>
        IbanShape(s) && AllDigits(Numerized(Rearranged(s))) && NumeralValue(Numerized(Rearranged(s))) % 97 == 1
    ensures var s := Upper(RemoveSpaces(iban));
      IbanShape(s) ==> AllDigits(Numerized(Rearranged(s)))
  {
    var s := Upper(RemoveSpaces(iban));
    if IbanShape(s) {
      ShapedIbanValidity(iban, s);
    } else {
      UnshapedIbanInvalid(iban, s);
    }
  }

  /** On a string of IBAN shape, `_validate_iban` is the numeral test. */
  lemma ShapedIbanValidity(iban: string, s: string)
    requires s == Upper(RemoveSpaces(iban)) && IbanShape(s)
    ensures AllDigits(Numerized(Rearranged(s)))
    ensures IbanValid(iban) <==> NumeralValue(Numerized(Rearranged(s))) % 97 == 1
  {
    RearrangedShaped(s);
    NumerizedUpperAlnum(Rearranged(s));
    assert IbanPattern(s);
    assert IsDigitStr(Numerized(Rearranged(s)));
  }

  /** Without IBAN shape, `_validate_iban` rejects, the trailing-newline case included. */
  lemma UnshapedIbanInvalid(iban: string, s: string)
    requires s == Upper(RemoveSpaces(iban)) && !IbanShape(s)
    ensures !IbanValid(iban)
  {
    UnshapedNoNumeral(s);
  }

  /** A string the pattern lets through without IBAN shape ends in a newline and has no numeral. */
  lemma UnshapedNoNumeral(s: string)
    requires !IbanShape(s)
    ensures IbanPattern(s) && 15 <= |s| <= 34 ==> ParseInt(Numerized(Rearranged(s))).None?
  {
    if IbanPattern(s) && 15 <= |s| <= 34 {
      var t := s[..|s| - 1];
      assert s == t + "\n" && |t| >= 4;
      RearrangedNewline(t);
      NumerizedNewline(t[4..], t[..4]);
    }
  }

  /** The length test after the pattern can only reject a 35-character string ending in a newline. */
  lemma LengthTestAfterPattern(s: string)
    requires IbanPattern(s) && !(15 <= |s| <= 34)
    ensures |s| == 35 && s[34] == '\n'
  {
  }

  /** `_validate_iban`; the numeral is built by `BuildNumeral`'s loop. */
  method ValidateIban(iban: string) returns (ok: bool)
    ensures ok == IbanValid(iban)
  {
    var s := Upper(RemoveSpaces(iban));
    if !IbanPattern(s) {
      return false;
    }
    if !(15 <= |s| <= 34) {
      return false;
    }
    var numerized := BuildNumeral(Rearranged(s));
    match ParseInt(numerized)
    case None => ok := false;
    case Some(v) => ok := v % 97 == 1;
  }

  /** The `numerized += ...` loop of `_validate_iban`. */
  method BuildNumeral(rearranged: string) returns (numerized: string)
    ensures numerized == Numerized(rearranged)
  {
    numerized := "";
    for i := 0 to |rearranged|
      invariant numerized == Numerized(rearranged[..i])
    {
      var c := rearranged[i];
      assert rearranged[..i + 1][..i] == rearranged[..i];
      if IsDigit(c) {
        numerized := numerized + [c];
      } else {
        numerized := numerized + IntToDecimal(c as int - 55);
      }
    }
    assert rearranged[..|rearranged|] == rearranged;
  }

  /** `_validate_checksum`: digits only, Luhn sum divisible by 10. */
  predicate ValidateChecksum(account: string) {
    IsDigitStr(account) && LuhnSum(account) % 10 == 0
  }

  /**
   * `_validate_checksum` is the Luhn check of `bank_strategies.py` on a digit
   * string: the alternating sum, rightmost digit undoubled, is a multiple of 10.
   */
  lemma ValidateChecksumMeaning(account: string)
    ensures ValidateChecksum(account) <==> IsDigitStr(account) && BankStrategies.LuhnCheck(account)
    ensures ValidateChecksum(account) <==>
      IsDigitStr(account) && AlternatingSum(Digits(account), false) % 10 == 0
  {
    if IsDigitStr(account) {
      LuhnSumIsAlternating(account);
    }
  }

  /** `_validate_amount`: `amount > 0 and amount <= 10000000`; false for NaN. */
  predicate ValidateAmount(amount: Amount) {
    amount.Finite? && 0.0 < amount.value && amount.value <= 10000000.0
  }

  lemma AmountBoundaries()
    ensures ValidateAmount(Finite(10000000.0))
    ensures !ValidateAmount(Finite(10000000.01))
    ensures !ValidateAmount(Finite(0.0))
    ensures !ValidateAmount(NaN) && !ValidateAmount(Infinity(true))
  {
  }

  /** Whether a rule's lambda reports an error for this record. */
  predicate RuleFires(rule: Rule, rec: Record) {
    var x := rec.accountNumber;
    match rule
    case IbanFormatOrChecksum => LooksLikeIban(x) && !IbanValid(x)
    case LengthError => !LooksLikeIban(x) && !(8 <= |x| <= 12)
    case AlphanumericFormat => !LooksLikeIban(x) && !IsAlnumStr(x)
    case BankCodeValidation => !LooksLikeIban(x) && rec.bankCode !in ValidBankCodes
    case LuhnChecksum => !LooksLikeIban(x) && (IsDigitStr(x) && |x| == 10 && !ValidateChecksum(x))
    case AmountValidation => !ValidateAmount(rec.amount)
    case ReferenceIdValidation => rec.referenceId == ""
  }

  /** Evaluates one rule; the IBAN rule runs `_validate_iban` only for IBAN-shaped accounts. */
  method EvaluateRule(rule: Rule, rec: Record) returns (fires: bool)
    ensures fires == RuleFires(rule, rec)
  {
    if rule == IbanFormatOrChecksum {
      fires := false;
      if LooksLikeIban(rec.accountNumber) {
        var ok := ValidateIban(rec.accountNumber);
        fires := !ok;
      }
    } else {
      fires := RuleFires(rule, rec);
    }
  }

  /** Which rules fire for this record. */
  function Firing(rec: Record): Rule -> bool {
    rule => RuleFires(rule, rec)
  }

  /** The errors the first `n` rules of the chain accumulate, in rule order. */
  function ChainErrors(n: nat, fires: Rule -> bool): seq<ValidationError>
    requires n <= |ValidationRules|
  {
    if n == 0 then []
    else ChainErrors(n - 1, fires) + (if fires(ValidationRules[n - 1]) then [ErrorOf(ValidationRules[n - 1])] else [])
  }

  /**
   * The chain reports each rule at most once, exactly the rules that fire,
   * and in the order of `validation_rules`.
   */
  lemma ChainErrorsOrdered(n: nat, fires: Rule -> bool)
    requires n <= |ValidationRules|
    ensures |ChainErrors(n, fires)| <= n
    ensures forall e :: e in ChainErrors(n, fires) ==>
      RulePosition(e.kind) < n && e == ErrorOf(ValidationRules[RulePosition(e.kind)])
    ensures forall i, j :: 0 <= i < j < |ChainErrors(n, fires)| ==>
      RulePosition(ChainErrors(n, fires)[i].kind) < RulePosition(ChainErrors(n, fires)[j].kind)
    ensures forall k :: 0 <= k < n ==> (ErrorOf(ValidationRules[k]) in ChainErrors(n, fires) <==> fires(ValidationRules[k]))
  {
    ChainErrorsKinds(n, fires);
    ChainErrorsSorted(n, fires);
    ChainErrorsFiring(n, fires);
  }

  /** Every error of the first `n` rules is the error of one of those rules. */
  lemma {:induction false} ChainErrorsKinds(n: nat, fires: Rule -> bool)
    requires n <= |ValidationRules|
    ensures |ChainErrors(n, fires)| <= n
    ensures forall e :: e in ChainErrors(n, fires) ==>
      RulePosition(e.kind) < n && e == ErrorOf(ValidationRules[RulePosition(e.kind)])
  {
    if n > 0 {
      ChainErrorsKinds(n - 1, fires);
      RulePositionOfRule(n - 1);
    }
  }

  /** The errors come in the order of the rules that raised them. */
  lemma {:induction false} ChainErrorsSorted(n: nat, fires: Rule -> bool)
    requires n <= |ValidationRules|
    ensures forall i, j :: 0 <= i < j < |ChainErrors(n, fires)| ==>
      RulePosition(ChainErrors(n, fires)[i].kind) < RulePosition(ChainErrors(n, fires)[j].kind)
  {
    if n > 0 {
      ChainErrorsSorted(n - 1, fires);
      ChainErrorsKinds(n - 1, fires);
      RulePositionOfRule(n - 1);
      var prev := ChainErrors(n - 1, fires);
      if fires(ValidationRules[n - 1]) {
        AppendInRuleOrder(prev, ErrorOf(ValidationRules[n - 1]));
      }
    }
  }

  /** Appending an error of a later rule keeps a list in rule order. */
  lemma AppendInRuleOrder(errs: seq<ValidationError>, e: ValidationError)
    requires forall i, j :: 0 <= i < j < |errs| ==> RulePosition(errs[i].kind) < RulePosition(errs[j].kind)
    requires forall x :: x in errs ==> RulePosition(x.kind) < RulePosition(e.kind)
    ensures forall i, j :: 0 <= i < j < |errs + [e]| ==>
      RulePosition((errs + [e])[i].kind) < RulePosition((errs + [e])[j].kind)
  {
    var all := errs + [e];
    forall i, j | 0 <= i < j < |all|
      ensures RulePosition(all[i].kind) < RulePosition(all[j].kind)
    {
      assert all[i] == errs[i];
      if j < |errs| {
        assert all[j] == errs[j];
      } else {
        assert errs[i] in errs;
      }
    }
  }

  /** A rule's error is in the chain exactly when the rule fires. */
  lemma {:induction false} ChainErrorsFiring(n: nat, fires: Rule -> bool)
    requires n <= |ValidationRules|
    ensures forall k :: 0 <= k < n ==> (ErrorOf(ValidationRules[k]) in ChainErrors(n, fires) <==> fires(ValidationRules[k]))
  {
    if n > 0 {
      ChainErrorsFiring(n - 1, fires);
      ChainErrorsKinds(n - 1, fires);
      RulePositionOfRule(n - 1);
      var errs := ChainErrors(n, fires);
      var prev := ChainErrors(n - 1, fires);
      var last := ErrorOf(ValidationRules[n - 1]);
      assert errs == prev + (if fires(ValidationRules[n - 1]) then [last] else []);
      forall k | 0 <= k < n
        ensures ErrorOf(ValidationRules[k]) in errs <==> fires(ValidationRules[k])
      {
        RulePositionOfRule(k);
        var e := ErrorOf(ValidationRules[k]);
        if k < n - 1 {
          assert RulePosition(e.kind) != RulePosition(last.kind);
          assert e in errs <==> e in prev;
        } else {
          assert e !in prev;
        }
      }
    }
  }

  /** `mock_bank_api_check` with its draws as parameters; `bankCode` is unused, as in the source. */
  function MockBankApiCheck(account: string, bankCode: string, draws: UpstreamDraws): (r: ApiResult)
    ensures r.ApiInvalid? ==> r.code in SepaErrorCodes && r.message == SepaErrorCodes[r.code]
    ensures r.ApiInvalid? && r.code == "RR01" ==> StartsWith(account, "X")
    ensures r.ApiInvalid? && r.code == "AC06" ==> EndsWith(account, "000")
    ensures r.ApiInvalid? <==>
      (|| draws.closed < 0.05
       || (StartsWith(account, "X") && draws.regulatory < 0.02)
       || (EndsWith(account, "000") && draws.blocked < 0.03))
  {
    if draws.closed < 0.05 then ApiInvalid("AC04", SepaErrorCodes["AC04"])
    else if StartsWith(account, "X") && draws.regulatory < 0.02 then ApiInvalid("RR01", SepaErrorCodes["RR01"])
    else if EndsWith(account, "000") && draws.blocked < 0.03 then ApiInvalid("AC06", SepaErrorCodes["AC06"])
    else ApiValid
  }

  const MissingFieldsError := ValidationError("format_error", None, "Missing required fields")

  function BankGateError(bankCode: string): ValidationError {
    ValidationError("bank_" + bankCode + "_account_validation", None,
      "Account number failed validation for bank " + bankCode)
  }

  /** The record `validate` works on once the guard passes. */
  function RecordOf(data: AccountData): Record {
    Record(
      Strip(data.accountNumber.GetOr("")),
      if data.bankCode.Present? then data.bankCode.value else "",
      if data.amount.Present? then data.amount.value else Finite(0.0),
      if data.referenceId.Present? then data.referenceId.value else "")
  }

  /** The missing-field guard: `not account or not bank_code or amount is None or reference_id is None`. */
  predicate MissingRequiredField(data: AccountData) {
    || Strip(data.accountNumber.GetOr("")) == ""
    || !data.bankCode.Present? || data.bankCode.value == ""
    || data.amount.Null?
    || data.referenceId.Null?
  }

  /** The bank gate: a registered bank whose validator rejects the account. */
  predicate RejectedByBank(rec: Record) {
    rec.bankCode in BankStrategies.BankValidators && !BankStrategies.BankValidators[rec.bankCode](rec.accountNumber)
  }

  /** The error the upstream check appends, if any. */
  function UpstreamErrors(api: ApiResult): seq<ValidationError> {
    if api.ApiValid? then [] else [ValidationError("bank_api_error", Some(api.code), api.message)]
  }

  /** The result once the guard and the bank gate have let the record through. */
  function ChainResult(rec: Record, draws: UpstreamDraws): ValidationResult {
    var chain := ChainErrors(|ValidationRules|, Firing(rec));
    var errors := if chain == [] then UpstreamErrors(MockBankApiCheck(rec.accountNumber, rec.bankCode, draws)) else chain;
    ValidationResult(if errors == [] then Valid else Invalid, errors, Some(rec))
  }

  /** The result `validate` returns. */
  function ValidationOf(data: AccountData, draws: UpstreamDraws): ValidationResult {
    if MissingRequiredField(data) then
      ValidationResult(Invalid, [MissingFieldsError], None)
    else if RejectedByBank(RecordOf(data)) then
      ValidationResult(Invalid, [BankGateError(RecordOf(data).bankCode)], Some(RecordOf(data)))
    else
      ChainResult(RecordOf(data), draws)
  }

  /** `validate`: the guard, the bank gate, then the rule loop and the upstream check. */
  method Validate(data: AccountData, draws: UpstreamDraws) returns (r: ValidationResult)
    ensures r == ValidationOf(data, draws)
  {
    var account := Strip(data.accountNumber.GetOr(""));
    var bankCode := if data.bankCode.Present? then data.bankCode.value else "";
    var amount := if data.amount.Present? then data.amount.value else Finite(0.0);
    var referenceId := if data.referenceId.Present? then data.referenceId.value else "";
    if account == "" || bankCode == "" || data.amount.Null? || data.referenceId.Null? {
      return ValidationResult(Invalid, [MissingFieldsError], None);
    }
    var rec := Record(account, bankCode, amount, referenceId);
    assert rec == RecordOf(data);
    if RejectedByBank(rec) {
      return ValidationResult(Invalid, [BankGateError(bankCode)], Some(rec));
    }
    r := RunRules(rec, draws);
  }

  /** The part of `validate` after the bank gate: the rules, then (if none fired) the upstream check. */
  method RunRules(rec: Record, draws: UpstreamDraws) returns (r: ValidationResult)
    ensures r == ChainResult(rec, draws)
    ensures r.status == Valid <==> r.errors == []
  {
    var errors := RunChain(rec);
    if errors == [] {
      var api := MockBankApiCheck(rec.accountNumber, rec.bankCode, draws);
      if api.ApiInvalid? {
        errors := errors + [ValidationError("bank_api_error", Some(api.code), api.message)];
      }
    }
    r := ValidationResult(if errors == [] then Valid else Invalid, errors, Some(rec));
  }

  /** The `for rule in self.validation_rules` loop: each firing rule appends its error. */
  method RunChain(rec: Record) returns (errors: seq<ValidationError>)
    ensures errors == ChainErrors(|ValidationRules|, Firing(rec))
  {
    errors := [];
    for i := 0 to |ValidationRules|
      invariant errors == ChainErrors(i, Firing(rec))
    {
      var rule := ValidationRules[i];
      var fires := EvaluateRule(rule, rec);
      if fires {
        errors := errors + [ErrorOf(rule)];
      }
    }
  }

  // ---- properties of the pipeline ----

  /** A missing field short-circuits: one `format_error` and nothing else. */
  lemma GuardShortCircuits(data: AccountData, draws: UpstreamDraws)
    requires MissingRequiredField(data)
    ensures ValidationOf(data, draws).status == Invalid
    ensures ValidationOf(data, draws).errors == [MissingFieldsError]
  {
  }

  /** So an IBAN submitted with an empty bank code is always rejected. */
  lemma EmptyBankCodeAlwaysInvalid(account: string, amount: Amount, referenceId: string, draws: UpstreamDraws)
    ensures ValidationOf(AccountData(Some(account), Present(""), Present(amount), Present(referenceId)), draws).errors == [MissingFieldsError]
  {
  }

  /**
   * A registered bank's validator is a hard gate: when it rejects, the only
   * error is `bank_<code>_account_validation` and no generic rule runs.
   */
  lemma BankGateShortCircuits(data: AccountData, draws: UpstreamDraws)
    requires !MissingRequiredField(data) && RejectedByBank(RecordOf(data))
    ensures ValidationOf(data, draws).status == Invalid
    ensures ValidationOf(data, draws).errors == [BankGateError(RecordOf(data).bankCode)]
    ensures RecordOf(data).bankCode in {"001", "002", "003"}
  {
    GatedBankCodes(RecordOf(data));
  }

  /** Only the three registered banks have a gate. */
  lemma GatedBankCodes(rec: Record)
    requires RejectedByBank(rec)
    ensures rec.bankCode in {"001", "002", "003"}
  {
    BankStrategies.RegistryKeys();
  }

  /** When no rule fires the chain is empty, and conversely. */
  lemma ChainEmptyIffNoRuleFires(fires: Rule -> bool)
    ensures ChainErrors(|ValidationRules|, fires) == [] <==>
      forall k :: 0 <= k < |ValidationRules| ==> !fires(ValidationRules[k])
  {
    ChainErrorsOrdered(|ValidationRules|, fires);
    var chain := ChainErrors(|ValidationRules|, fires);
    if chain != [] {
      var e := chain[0];
      assert e in chain && fires(ValidationRules[RulePosition(e.kind)]);
    } else {
      forall k | 0 <= k < |ValidationRules| ensures !fires(ValidationRules[k]) {
        assert ErrorOf(ValidationRules[k]) !in chain;
      }
    }
  }

  /**
   * What the errors past the guard and the gate look like: at most seven,
   * exactly the firing rules' errors in rule order, and at most one error
   * when no rule fires.
   */
  predicate ErrorsOfFiringRules(errors: seq<ValidationError>, fires: Rule -> bool) {
    && |errors| <= |ValidationRules|
    && (forall k :: 0 <= k < |ValidationRules| ==> (ErrorOf(ValidationRules[k]) in errors <==> fires(ValidationRules[k])))
    && (forall i, j :: 0 <= i < j < |errors| ==> RulePosition(errors[i].kind) < RulePosition(errors[j].kind))
    && ((forall k :: 0 <= k < |ValidationRules| ==> !fires(ValidationRules[k])) ==> |errors| <= 1)
  }

  /**
   * Past the guard and the gate, the errors are exactly the firing rules'
   * errors in rule order, at most seven; only when no rule fires does the
   * upstream check run, adding at most one `bank_api_error`.
   */
  lemma ErrorsAfterGate(fires: Rule -> bool, api: ApiResult)
    ensures var chain := ChainErrors(|ValidationRules|, fires);
      var errors := if chain == [] then UpstreamErrors(api) else chain;
      && ErrorsOfFiringRules(errors, fires)
      && (forall e :: e in errors && e.kind == "bank_api_error" ==> errors == [e])
  {
    var chain := ChainErrors(|ValidationRules|, fires);
    if chain != [] {
      FiringChainFacts(fires);
    } else {
      UpstreamOnlyFacts(fires, api);
    }
  }

  /** When some rule fires, the chain's errors are the firing rules' errors and none is upstream. */
  lemma FiringChainFacts(fires: Rule -> bool)
    requires ChainErrors(|ValidationRules|, fires) != []
    ensures ErrorsOfFiringRules(ChainErrors(|ValidationRules|, fires), fires)
    ensures forall e :: e in ChainErrors(|ValidationRules|, fires) ==> e.kind != "bank_api_error"
  {
    var chain := ChainErrors(|ValidationRules|, fires);
    ChainErrorsOrdered(|ValidationRules|, fires);
    forall e | e in chain ensures e.kind != "bank_api_error" {
      RuleNameNotUpstream(ValidationRules[RulePosition(e.kind)]);
    }
    var k0 := RulePosition(chain[0].kind);
    assert chain[0] in chain;
    assert fires(ValidationRules[k0]);
  }

  /** No rule is named like the upstream check's error. */
  lemma RuleNameNotUpstream(rule: Rule)
    ensures RuleName(rule) != "bank_api_error" && ErrorOf(rule).kind == RuleName(rule)
  {
  }

  /** When no rule fires, the upstream check contributes the only error, if any. */
  lemma UpstreamOnlyFacts(fires: Rule -> bool, api: ApiResult)
    requires ChainErrors(|ValidationRules|, fires) == []
    ensures ErrorsOfFiringRules(UpstreamErrors(api), fires)
  {
    ChainEmptyIffNoRuleFires(fires);
    var errors := UpstreamErrors(api);
    forall k | 0 <= k < |ValidationRules|
      ensures ErrorOf(ValidationRules[k]) !in errors
    {
      assert ErrorOf(ValidationRules[k]).kind != "bank_api_error";
    }
  }

  /** The same facts about `validate`'s result, and its status is Valid iff it has no error. */
  lemma ChainThenUpstream(data: AccountData, draws: UpstreamDraws)
    requires !MissingRequiredField(data) && !RejectedByBank(RecordOf(data))
    ensures ErrorsOfFiringRules(ValidationOf(data, draws).errors, Firing(RecordOf(data)))
    ensures ValidationOf(data, draws).status == Valid <==> ValidationOf(data, draws).errors == []
  {
    var rec := RecordOf(data);
    var api := MockBankApiCheck(rec.accountNumber, rec.bankCode, draws);
    ErrorsAfterGate(Firing(rec), api);
    var chain := ChainErrors(|ValidationRules|, Firing(rec));
    assert ValidationOf(data, draws) == ChainResult(rec, draws);
    assert ValidationOf(data, draws).errors == if chain == [] then UpstreamErrors(api) else chain;
  }

  /** For an IBAN-shaped account only the IBAN, amount and reference rules can fire. */
  lemma IbanShapedAccountRules(rec: Record)
    requires LooksLikeIban(rec.accountNumber)
    ensures forall e :: e in ChainErrors(|ValidationRules|, Firing(rec)) ==>
      e.kind in {"iban_format_or_checksum", "amount_validation", "reference_id_validation"}
  {
    ChainErrorsOrdered(|ValidationRules|, Firing(rec));
    forall e | e in ChainErrors(|ValidationRules|, Firing(rec))
      ensures e.kind in {"iban_format_or_checksum", "amount_validation", "reference_id_validation"}
    {
      var k := RulePosition(e.kind);
      RulePositionOfRule(k);
      assert ErrorOf(ValidationRules[k]) in ChainErrors(|ValidationRules|, Firing(rec));
      assert RuleFires(ValidationRules[k], rec);
    }
  }

  /** One rule's error among errors of firing rules: there exactly when the rule fires. */
  lemma RuleReported(errors: seq<ValidationError>, fires: Rule -> bool, k: nat)
    requires ErrorsOfFiringRules(errors, fires) && k < |ValidationRules|
    ensures ErrorOf(ValidationRules[k]) in errors <==> fires(ValidationRules[k])
  {
  }

  /** AM09 is reported iff the amount is not in (0, 10,000,000]; RF01 iff the reference is empty. */
  lemma AmountAndReferenceRules(data: AccountData, draws: UpstreamDraws)
    requires !MissingRequiredField(data) && !RejectedByBank(RecordOf(data))
    ensures ErrorOf(AmountValidation) in ValidationOf(data, draws).errors <==> !ValidateAmount(RecordOf(data).amount)
    ensures ErrorOf(ReferenceIdValidation) in ValidationOf(data, draws).errors <==> RecordOf(data).referenceId == ""
  {
    var rec := RecordOf(data);
    var errors := ValidationOf(data, draws).errors;
    ChainThenUpstream(data, draws);
    assert ValidationRules[5] == AmountValidation && ValidationRules[6] == ReferenceIdValidation;
    RuleReported(errors, Firing(rec), 5);
    RuleReported(errors, Firing(rec), 6);
    AmountAndReferenceFiring(rec);
  }

  /** The amount and reference rules look only at the amount and the reference. */
  lemma AmountAndReferenceFiring(rec: Record)
    ensures Firing(rec)(AmountValidation) == !ValidateAmount(rec.amount)
    ensures Firing(rec)(ReferenceIdValidation) == (rec.referenceId == "")
  {
  }

  /** Which rules fire for a 16-digit card-style account sent to bank 999. */
  lemma ExampleFirings()
    ensures var rec := Record("4532015112830366", "999", Finite(100.0), "TX1");
      && !RejectedByBank(rec)
      && !RuleFires(IbanFormatOrChecksum, rec) && RuleFires(LengthError, rec)
      && !RuleFires(AlphanumericFormat, rec) && RuleFires(BankCodeValidation, rec)
      && !RuleFires(LuhnChecksum, rec) && !RuleFires(AmountValidation, rec)
      && !RuleFires(ReferenceIdValidation, rec)
  {
    var acct := "4532015112830366";
    assert Upper(acct)[0] == '4';
    assert !LooksLikeIban(acct);
    assert IsAlnumStr(acct) by {
      forall i | 0 <= i < |acct| ensures IsAlnum(acct[i]) {
      }
    }
  }

  /**
   * A worked example: a 16-digit account with an unknown bank code fails
   * the length rule and the bank-code rule, in that order, with SEPA codes
   * AC01 and BE04.
   */
  lemma ExampleLengthAndBankCode(draws: UpstreamDraws)
    ensures var r := ValidationOf(AccountData(Some("4532015112830366"), Present("999"), Present(Finite(100.0)), Present("TX1")), draws);
      && r.status == Invalid
      && r.errors == [ErrorOf(LengthError), ErrorOf(BankCodeValidation)]
      && r.errors[0].code == Some("AC01") && r.errors[1].code == Some("BE04")
  {
    var rec := Record("4532015112830366", "999", Finite(100.0), "TX1");
    var data := AccountData(Some("4532015112830366"), Present("999"), Present(Finite(100.0)), Present("TX1"));
    ExampleRecord();
    ExampleFirings();
    ExampleChain(Firing(rec));
    PastTheGates(data, draws);
    RuleCodes();
  }

  /** The card-style example passes the guard and becomes this record. */
  lemma ExampleRecord()
    ensures var data := AccountData(Some("4532015112830366"), Present("999"), Present(Finite(100.0)), Present("TX1"));
      !MissingRequiredField(data) && RecordOf(data) == Record("4532015112830366", "999", Finite(100.0), "TX1")
  {
    StripIdentity("4532015112830366");
  }

  /** Past the guard and the gate, a firing rule decides the result: Invalid with the chain's errors. */
  lemma PastTheGates(data: AccountData, draws: UpstreamDraws)
    requires !MissingRequiredField(data) && !RejectedByBank(RecordOf(data))
    requires ChainErrors(|ValidationRules|, Firing(RecordOf(data))) != []
    ensures ValidationOf(data, draws).status == Invalid
    ensures ValidationOf(data, draws).errors == ChainErrors(|ValidationRules|, Firing(RecordOf(data)))
  {
  }

  /** The SEPA codes the chain's rules report. */
  lemma RuleCodes()
    ensures ErrorOf(LengthError).code == Some("AC01") && ErrorOf(BankCodeValidation).code == Some("BE04")
  {
    assert RuleCode(LengthError) == "AC01";
    assert RuleCode(BankCodeValidation) == "BE04";
  }

  lemma ExampleChain(fires: Rule -> bool)
    requires !fires(IbanFormatOrChecksum) && fires(LengthError) && !fires(AlphanumericFormat)
    requires fires(BankCodeValidation) && !fires(LuhnChecksum) && !fires(AmountValidation)
    requires !fires(ReferenceIdValidation)
    ensures ChainErrors(|ValidationRules|, fires) == [ErrorOf(LengthError), ErrorOf(BankCodeValidation)]
  {
    var rules := ValidationRules;
    assert rules[0] == IbanFormatOrChecksum && rules[1] == LengthError && rules[2] == AlphanumericFormat;
    assert rules[3] == BankCodeValidation && rules[4] == LuhnChecksum;
    assert rules[5] == AmountValidation && rules[6] == ReferenceIdValidation;
    assert ChainErrors(1, fires) == [];
    assert ChainErrors(2, fires) == [ErrorOf(LengthError)];
    assert ChainErrors(3, fires) == [ErrorOf(LengthError)];
    assert ChainErrors(4, fires) == [ErrorOf(LengthError), ErrorOf(BankCodeValidation)];
    assert ChainErrors(5, fires) == ChainErrors(4, fires);
    assert ChainErrors(6, fires) == ChainErrors(4, fires);
  }
}
