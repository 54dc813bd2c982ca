/**
 * The standalone row classifier (app/validator.py): a row is rejected for
 * its format, rejected as a simulated unknown account, or accepted.
 */
module RowValidator {
  import opened Wrappers
  import opened Text
  import opened Table

  const FormatReason := "Invalid format (must be 10+ digits)"
  const UnknownAccountReason := "Account does not exist (simulated)"

  /** The returned dictionary: `valid`, and `data` with either a `reason` or `status`. */
  datatype RowResult = RowResult(valid: bool, accountNumber: string, bankCode: string,
                                 reason: Option<string>, status: Option<string>)

  /**
   * `validate_account_row`: the stripped account must be at least ten
   * digits (so the empty string fails), and one ending in "0" is rejected
   * as not existing; the cells are read with `str`, then stripped.
   */
  function ValidateAccountRow(accountCell: Cell, bankCell: Cell): (r: RowResult)
    ensures var acct := Strip(CellStr(accountCell));
      && r.accountNumber == acct && r.bankCode == Strip(CellStr(bankCell))
      && (r.reason == Some(FormatReason) <==> !(|acct| >= 10 && AllDigits(acct)))
      && (r.reason == Some(UnknownAccountReason) <==> |acct| >= 10 && AllDigits(acct) && acct[|acct| - 1] == '0')
      && (r.valid <==> |acct| >= 10 && AllDigits(acct) && acct[|acct| - 1] != '0')
      && (r.valid <==> r.reason.None?)
      && (r.valid <==> r.status == Some("Valid"))
  {
    var acct := Strip(CellStr(accountCell));
    var bankCode := Strip(CellStr(bankCell));
    EndsWithChar(acct, '0');
    if !IsDigitStr(acct) || |acct| < 10 then
      RowResult(false, acct, bankCode, Some(FormatReason), None)
    else if EndsWith(acct, "0") then
      RowResult(false, acct, bankCode, Some(UnknownAccountReason), None)
    else
      RowResult(true, acct, bankCode, None, Some("Valid"))
  }

  /** A missing account cell reads as "nan" and an empty one strips to "": both fail on format. */
  lemma MissingAccountIsFormatError(bankCell: Cell)
    ensures ValidateAccountRow(Absent, bankCell).reason == Some(FormatReason)
    ensures ValidateAccountRow(Text(""), bankCell).reason == Some(FormatReason)
    ensures ValidateAccountRow(Text("   "), bankCell).reason == Some(FormatReason)
  {
    assert |Strip("nan")| <= 3;
    assert |Strip("")| == 0;
    assert |Strip("   ")| <= 3;
  }

  /** Surrounding whitespace is ignored: a padded account of ten or more digits not ending in 0 is accepted as its stripped form. */
  lemma PaddedAccountAccepted(acct: string, bankCell: Cell)
    requires |acct| >= 10 && AllDigits(acct) && acct[|acct| - 1] != '0'
    ensures ValidateAccountRow(Text(" " + acct + " "), bankCell).valid
    ensures ValidateAccountRow(Text(" " + acct + " "), bankCell).accountNumber == acct
  {
    assert IsDigit(acct[0]) && IsDigit(acct[|acct| - 1]);
    StripPadded(acct);
    assert CellStr(Text(" " + acct + " ")) == " " + acct + " ";
  }
}
