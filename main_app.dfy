/**
 * The batch bookkeeping of the web service (app/main.py): tokenising the
 * sensitive columns, the process-wide token map, the append-only ledger
 * of encrypted token batches, one validation result per row, the
 * valid/invalid partition and its counts, and the admin token lookup
 * that scans the ledger newest first.
 *
 * SHA-256, Fernet encryption and decryption, Python's `float()`, the
 * batch identifier, the clock and the upstream check's random draws are
 * parameters; the ledger file is a value of `LedgerFile`.
 */
module MainApp {
  import opened Wrappers
  import opened Text
  import opened Table
  import AccountValidator
  import Reporting

  const RequiredColumns: seq<string> := ["account_number", "bank_code", "amount", "reference_id"]

  const MissingColumnsDetail := "Input must contain these columns: account_number, bank_code, amount, reference_id"

  // ---- tokenisation ----

  predicate IsHexDigit(c: char) { IsDigit(c) || 'a' <= c <= 'f' }

  /** `hashlib.sha256(...).hexdigest()`: 64 lower-case hexadecimal characters. */
  type HexDigest = d: string | |d| == 64 && forall i :: 0 <= i < |d| ==> IsHexDigit(d[i])
    witness seq(64, _ => '0')

  /** `tokenize_value(value, prefix)`: the prefix, a dash and the first eight hex characters of the digest of `str(value)`. */
  function TokenizeValue(value: Cell, prefix: string, sha: string -> HexDigest): (token: string)
    ensures |token| == |prefix| + 9
    ensures StartsWith(token, prefix + "-")
    ensures forall i :: |prefix| + 1 <= i < |token| ==> IsHexDigit(token[i])
    ensures token[|prefix| + 1..] == sha(CellStr(value))[..8]
  {
    prefix + "-" + sha(CellStr(value))[..8]
  }

  /** Account and reference tokens never coincide: their prefixes differ in the first character. */
  lemma TokenPrefixesDiffer(a: Cell, r: Cell, sha: string -> HexDigest)
    ensures TokenizeValue(a, "ACC", sha) != TokenizeValue(r, "REF", sha)
    ensures StartsWith(TokenizeValue(a, "ACC", sha), "ACC-") && !StartsWith(TokenizeValue(a, "ACC", sha), "REF-")
    ensures StartsWith(TokenizeValue(r, "REF", sha), "REF-") && !StartsWith(TokenizeValue(r, "REF", sha), "ACC-")
  {
    assert TokenizeValue(a, "ACC", sha)[0] == 'A';
    assert TokenizeValue(r, "REF", sha)[0] == 'R';
  }

  // ---- records and the column check ----

  /** A record as `pd.DataFrame(records)` sees it: column name to cell. */
  type InputRecord = map<string, Cell>

  /** The DataFrame's columns: every key of every record. */
  function Columns(records: seq<InputRecord>): (cols: set<string>)
    ensures forall c :: c in cols <==> exists i :: 0 <= i < |records| && c in records[i]
  {
    set i, c | 0 <= i < |records| && c in records[i] :: c
  }

  /** `xs` is `ys` with some elements left out, order kept. */
  predicate Subsequence(xs: seq<string>, ys: seq<string>)
    decreases |ys|
  {
    if xs == [] then true
    else if ys == [] then false
    else (xs[0] == ys[0] && Subsequence(xs[1..], ys[1..])) || Subsequence(xs, ys[1..])
  }

  /** The entries of `required` that are not among `cols`, in the order of `required`. */
  function MissingFrom(required: seq<string>, cols: set<string>): (missing: seq<string>)
    ensures forall c :: c in missing <==> c in required && c !in cols
    ensures Subsequence(missing, required)
  {
    if required == [] then []
    else if required[0] in cols then MissingFrom(required[1..], cols)
    else [required[0]] + MissingFrom(required[1..], cols)
  }

  /** `missing_columns`: the required columns absent from the DataFrame, in `REQUIRED_COLUMNS` order. */
  function MissingColumns(records: seq<InputRecord>): seq<string> {
    MissingFrom(RequiredColumns, Columns(records))
  }

  /** With no records there are no columns, so all four are reported missing. */
  lemma EmptyInputMissesEveryColumn()
    ensures MissingColumns([]) == RequiredColumns
  {
    assert Columns([]) == {};
  }

  /** One DataFrame row: the four required columns, NaN where the record has no such key. */
  datatype Row = Row(accountNumber: Cell, bankCode: Cell, amount: Cell, referenceId: Cell)

  function Get(rec: InputRecord, col: string): Cell {
    if col in rec then rec[col] else Absent
  }

  function RowOf(rec: InputRecord): Row {
    Row(Get(rec, "account_number"), Get(rec, "bank_code"), Get(rec, "amount"), Get(rec, "reference_id"))
  }

  function Rows(records: seq<InputRecord>): (rows: seq<Row>)
    ensures |rows| == |records|
    ensures forall i :: 0 <= i < |records| ==> rows[i] == RowOf(records[i])
  {
    seq(|records|, i requires 0 <= i < |records| => RowOf(records[i]))
  }

  function AccountToken(row: Row, sha: string -> HexDigest): string {
    TokenizeValue(row.accountNumber, "ACC", sha)
  }

  function ReferenceToken(row: Row, sha: string -> HexDigest): string {
    TokenizeValue(row.referenceId, "REF", sha)
  }

  // ---- the token map ----

  /** The global `TOKEN_MAP` after the rows' writes, row by row: account token, then reference token. */
  function TokensAfter(m: map<string, Cell>, rows: seq<Row>, sha: string -> HexDigest): map<string, Cell> {
    if rows == [] then m
    else
      var row := rows[|rows| - 1];
      TokensAfter(m, rows[..|rows| - 1], sha)[AccountToken(row, sha) := row.accountNumber][ReferenceToken(row, sha) := row.referenceId]
  }

  /** No later row writes the same account token. */
  predicate LastAccountWrite(rows: seq<Row>, i: nat, sha: string -> HexDigest)
    requires i < |rows|
  {
    forall j :: i < j < |rows| ==> AccountToken(rows[j], sha) != AccountToken(rows[i], sha)
  }

  /** No later row writes the same reference token. */
  predicate LastReferenceWrite(rows: seq<Row>, i: nat, sha: string -> HexDigest)
    requires i < |rows|
  {
    forall j :: i < j < |rows| ==> ReferenceToken(rows[j], sha) != ReferenceToken(rows[i], sha)
  }

  /** No row writes token `k`. */
  predicate Untouched(k: string, rows: seq<Row>, sha: string -> HexDigest) {
    forall i :: 0 <= i < |rows| ==> k != AccountToken(rows[i], sha) && k != ReferenceToken(rows[i], sha)
  }

  /** Storing two lists of rows one after the other stores their concatenation. */
  lemma {:induction false} TokensAfterConcat(m: map<string, Cell>, a: seq<Row>, b: seq<Row>, sha: string -> HexDigest)
    ensures TokensAfter(TokensAfter(m, a, sha), b, sha) == TokensAfter(m, a + b, sha)
  {
    if b == [] {
      assert a + b == a;
    } else {
      var n := |b| - 1;
      TokensAfterConcat(m, a, b[..n], sha);
      assert (a + b)[..|a + b| - 1] == a + b[..n];
      assert (a + b)[|a + b| - 1] == b[n];
    }
  }

  /** The map is never cleared: every earlier token stays, and keeps its value unless a row writes it again. */
  lemma {:induction false} TokensAfterKeeps(m: map<string, Cell>, rows: seq<Row>, sha: string -> HexDigest)
    ensures forall k :: k in m ==> k in TokensAfter(m, rows, sha)
    ensures forall k :: k in m && Untouched(k, rows, sha) ==> TokensAfter(m, rows, sha)[k] == m[k]
  {
    if rows != [] {
      var n := |rows| - 1;
      TokensAfterKeeps(m, rows[..n], sha);
      forall k | k in m && Untouched(k, rows, sha)
        ensures Untouched(k, rows[..n], sha)
      {
        forall i | 0 <= i < n ensures k != AccountToken(rows[..n][i], sha) && k != ReferenceToken(rows[..n][i], sha) {
          assert rows[..n][i] == rows[i];
        }
      }
    }
  }

  /** Some row writes token `k`. */
  predicate Written(k: string, rows: seq<Row>, sha: string -> HexDigest) {
    exists i :: 0 <= i < |rows| && (k == AccountToken(rows[i], sha) || k == ReferenceToken(rows[i], sha))
  }

  lemma WrittenStep(k: string, rows: seq<Row>, sha: string -> HexDigest)
    requires rows != []
    ensures Written(k, rows, sha) <==>
      Written(k, rows[..|rows| - 1], sha) || k == AccountToken(rows[|rows| - 1], sha) || k == ReferenceToken(rows[|rows| - 1], sha)
  {
    var n := |rows| - 1;
    if Written(k, rows, sha) && k != AccountToken(rows[n], sha) && k != ReferenceToken(rows[n], sha) {
      var i :| 0 <= i < |rows| && (k == AccountToken(rows[i], sha) || k == ReferenceToken(rows[i], sha));
      assert rows[..n][i] == rows[i];
    }
    if Written(k, rows[..n], sha) {
      var i :| 0 <= i < n && (k == AccountToken(rows[..n][i], sha) || k == ReferenceToken(rows[..n][i], sha));
      assert rows[..n][i] == rows[i];
    }
  }

  /** The map gains exactly the rows' tokens. */
  lemma {:induction false} TokensAfterKeys(m: map<string, Cell>, rows: seq<Row>, sha: string -> HexDigest)
    ensures forall k :: k in TokensAfter(m, rows, sha) <==> k in m || Written(k, rows, sha)
  {
    if rows != [] {
      TokensAfterKeys(m, rows[..|rows| - 1], sha);
      forall k {
        WrittenStep(k, rows, sha);
      }
    }
  }

  /** Last writer wins: an account token holds the account number of the last row that produced it. */
  lemma {:induction false} TokensAfterLastAccount(m: map<string, Cell>, rows: seq<Row>, sha: string -> HexDigest, i: nat)
    requires i < |rows| && LastAccountWrite(rows, i, sha)
    ensures AccountToken(rows[i], sha) in TokensAfter(m, rows, sha)
    ensures TokensAfter(m, rows, sha)[AccountToken(rows[i], sha)] == rows[i].accountNumber
  {
    var n := |rows| - 1;
    var p := rows[..n];
    TokenPrefixesDiffer(rows[i].accountNumber, rows[n].referenceId, sha);
    if i < n {
      assert p[i] == rows[i];
      forall j | i < j < n ensures AccountToken(p[j], sha) != AccountToken(p[i], sha) {
        assert p[j] == rows[j];
      }
      TokensAfterLastAccount(m, p, sha, i);
    }
  }

  /** Last writer wins: a reference token holds the reference of the last row that produced it. */
  lemma {:induction false} TokensAfterLastReference(m: map<string, Cell>, rows: seq<Row>, sha: string -> HexDigest, i: nat)
    requires i < |rows| && LastReferenceWrite(rows, i, sha)
    ensures ReferenceToken(rows[i], sha) in TokensAfter(m, rows, sha)
    ensures TokensAfter(m, rows, sha)[ReferenceToken(rows[i], sha)] == rows[i].referenceId
  {
    var n := |rows| - 1;
    var p := rows[..n];
    if i < n {
      assert p[i] == rows[i];
      TokenPrefixesDiffer(rows[n].accountNumber, rows[i].referenceId, sha);
      forall j | i < j < n ensures ReferenceToken(p[j], sha) != ReferenceToken(p[i], sha) {
        assert p[j] == rows[j];
      }
      TokensAfterLastReference(m, p, sha, i);
    }
  }

  /** The decrypted content of a ledger entry: `account_tokens` and `reference_tokens` (absent keys read as empty). */
  datatype TokenTables = TokenTables(accountTokens: map<string, Cell>, referenceTokens: map<string, Cell>)

  /** The two filtered copies of the token map that each batch encrypts. */
  function TablesOf(m: map<string, Cell>): (t: TokenTables)
    ensures forall k :: k in t.accountTokens <==> k in m && StartsWith(k, "ACC-")
    ensures forall k :: k in t.referenceTokens <==> k in m && StartsWith(k, "REF-")
    ensures forall k :: k in t.accountTokens ==> t.accountTokens[k] == m[k]
    ensures forall k :: k in t.referenceTokens ==> t.referenceTokens[k] == m[k]
  {
    TokenTables(
      map k | k in m && StartsWith(k, "ACC-") :: m[k],
      map k | k in m && StartsWith(k, "REF-") :: m[k])
  }

  // ---- the ledger ----

  /** One element of the stored list: a batch entry, or any JSON value lacking a `tokens` string. */
  datatype LedgerItem = Batch(batchId: string, timestamp: int, tokens: string) | Malformed

  /** `output/token_map.json` as the service finds it. */
  datatype LedgerFile =
    | NoFile
    | Corrupt                        // not parseable as JSON
    | SingleObject(item: LedgerItem) // a JSON object
    | ListOf(items: seq<LedgerItem>) // a JSON array
    | OtherJson                      // any other JSON value

  /** The previous batches as loaded: a list is kept, an object is wrapped, anything else is dropped. */
  function LoadedBatches(f: LedgerFile): (items: seq<LedgerItem>)
    ensures f.ListOf? ==> items == f.items
    ensures f.SingleObject? ==> items == [f.item]
    ensures !f.ListOf? && !f.SingleObject? ==> items == []
  {
    match f
    case ListOf(items) => items
    case SingleObject(item) => [item]
    case _ => []
  }

  /** The file written back: the loaded batches with the new entry appended. */
  function LedgerAfter(f: LedgerFile, entry: LedgerItem): LedgerFile {
    ListOf(LoadedBatches(f) + [entry])
  }

  /** A stored list gains exactly one entry at its end; a stored object survives as the first of two. */
  lemma LedgerAppendOnly(f: LedgerFile, entry: LedgerItem)
    ensures LedgerAfter(f, entry).ListOf?
    ensures var items := LedgerAfter(f, entry).items;
      && items[|items| - 1] == entry
      && (f.ListOf? ==> |items| == |f.items| + 1 && items[..|f.items|] == f.items)
      && (f.SingleObject? ==> items == [f.item, entry])
      && (!f.ListOf? && !f.SingleObject? ==> items == [entry])
  {
    var items := LedgerAfter(f, entry).items;
    if f.ListOf? {
      assert items[..|f.items|] == f.items;
    }
  }

  // ---- per-row results ----

  function StatusName(s: AccountValidator.Status): string {
    if s == AccountValidator.Valid then "Valid" else "Invalid"
  }

  /** The `type` and `message` of each validator error, as the reports read them. */
  function Entries(errors: seq<AccountValidator.ValidationError>): (es: seq<ErrorEntry>)
    ensures |es| == |errors|
    ensures forall i :: 0 <= i < |errors| ==>
      TypeOf(es[i]) == errors[i].kind && MessageOf(es[i]) == errors[i].message
  {
    seq(|errors|, i requires 0 <= i < |errors| => ErrorEntry(Some(errors[i].kind), Some(errors[i].message)))
  }

  /** The validator's input built from a row: every field read with `str`, the amount already converted. */
  function AccountDataOf(row: Row, amount: AccountValidator.Amount): AccountValidator.AccountData {
    AccountValidator.AccountData(
      Some(CellStr(row.accountNumber)),
      AccountValidator.Present(CellStr(row.bankCode)),
      AccountValidator.Present(amount),
      AccountValidator.Present(CellStr(row.referenceId)))
  }

  const AmountErrorPrefix := "Error processing row: Invalid amount: "

  /**
   * One row's result: the validator's verdict, or, when `float(amount)`
   * raises, an Invalid result with a single `validation_error` entry.
   */
  function RowResult(row: Row, parseFloat: Cell -> Option<AccountValidator.Amount>,
                     draws: AccountValidator.UpstreamDraws): (r: Reporting.ResultRow)
    ensures r.bank == row.bankCode
    ensures r.status == "Valid" || r.status == "Invalid"
    ensures r.status == "Valid" <==> r.errors == []
  {
    match parseFloat(row.amount)
    case None =>
      Reporting.ResultRow(row.bankCode, "Invalid",
        [ErrorEntry(Some("validation_error"), Some(AmountErrorPrefix + CellStr(row.amount)))])
    case Some(amount) =>
      var v := AccountValidator.ValidationOf(AccountDataOf(row, amount), draws);
      ValidStatusMatchesErrors(AccountDataOf(row, amount), draws);
      Reporting.ResultRow(row.bankCode, StatusName(v.status), Entries(v.errors))
  }

  /**
   * A row whose amount `float` rejects gets one `validation_error` entry
   * quoting the amount; any other row gets the validator's status and its
   * errors' types and messages.
   */
  lemma RowResultMeaning(row: Row, parseFloat: Cell -> Option<AccountValidator.Amount>,
                         draws: AccountValidator.UpstreamDraws)
    ensures var r := RowResult(row, parseFloat, draws);
      parseFloat(row.amount).None? ==>
        r.status == "Invalid" && r.errors == [ErrorEntry(Some("validation_error"), Some(AmountErrorPrefix + CellStr(row.amount)))]
    ensures var r := RowResult(row, parseFloat, draws);
      parseFloat(row.amount).Some? ==>
        var v := AccountValidator.ValidationOf(AccountDataOf(row, parseFloat(row.amount).value), draws);
        r.status == StatusName(v.status) && r.errors == Entries(v.errors)
  {
  }

  /** The validator reports Valid exactly when it found no error. */
  lemma ValidStatusMatchesErrors(data: AccountValidator.AccountData, draws: AccountValidator.UpstreamDraws)
    ensures var v := AccountValidator.ValidationOf(data, draws);
      v.status == AccountValidator.Valid <==> v.errors == []
  {
  }

  /** The body of the result loop: the `try` around `float` and `validate_account`. */
  method ValidateRow(row: Row, parseFloat: Cell -> Option<AccountValidator.Amount>,
                     draws: AccountValidator.UpstreamDraws) returns (r: Reporting.ResultRow)
    ensures r == RowResult(row, parseFloat, draws)
  {
    match parseFloat(row.amount) {
      case None =>
        r := Reporting.ResultRow(row.bankCode, "Invalid",
          [ErrorEntry(Some("validation_error"), Some(AmountErrorPrefix + CellStr(row.amount)))]);
      case Some(amount) =>
        var v := AccountValidator.Validate(AccountDataOf(row, amount), draws);
        r := Reporting.ResultRow(row.bankCode, StatusName(v.status), Entries(v.errors));
    }
  }

  /** `results` holds one result per row, in row order, row `i` using the draws `draws(i)`. */
  predicate ResultsFor(results: seq<Reporting.ResultRow>, rows: seq<Row>,
                       parseFloat: Cell -> Option<AccountValidator.Amount>, draws: nat -> AccountValidator.UpstreamDraws)
  {
    |results| == |rows| && forall i :: 0 <= i < |rows| ==> results[i] == RowResult(rows[i], parseFloat, draws(i))
  }

  /** One more result, for the next row, extends the results of the rows before it. */
  lemma ResultsStep(results: seq<Reporting.ResultRow>, rows: seq<Row>, parseFloat: Cell -> Option<AccountValidator.Amount>,
                    draws: nat -> AccountValidator.UpstreamDraws, r: Reporting.ResultRow)
    requires |results| < |rows|
    requires forall j :: 0 <= j < |results| ==> results[j] == RowResult(rows[j], parseFloat, draws(j))
    requires r == RowResult(rows[|results|], parseFloat, draws(|results|))
    ensures forall j :: 0 <= j < |results| + 1 ==> (results + [r])[j] == RowResult(rows[j], parseFloat, draws(j))
  {
    forall j | 0 <= j < |results| + 1
      ensures (results + [r])[j] == RowResult(rows[j], parseFloat, draws(j))
    {
      if j < |results| {
        assert (results + [r])[j] == results[j];
      }
    }
  }

  /** The result loop: one result per row, in row order; no row aborts the batch. */
  method ValidateRows(rows: seq<Row>, parseFloat: Cell -> Option<AccountValidator.Amount>,
                      draws: nat -> AccountValidator.UpstreamDraws) returns (results: seq<Reporting.ResultRow>)
    ensures ResultsFor(results, rows, parseFloat, draws)
  {
    results := [];
    for i := 0 to |rows|
      invariant |results| == i
      invariant forall j :: 0 <= j < i ==> results[j] == RowResult(rows[j], parseFloat, draws(j))
    {
      var r := ValidateRow(rows[i], parseFloat, draws(i));
      ResultsStep(results, rows, parseFloat, draws, r);
      results := results + [r];
    }
  }

  // ---- partition and counts ----

  /** `df[df['status'] == status]`: the rows with that status, order kept. */
  function WithStatus(rows: seq<Reporting.ResultRow>, status: string): (r: seq<Reporting.ResultRow>)
    ensures |r| <= |rows|
    ensures forall x :: x in r <==> x in rows && x.status == status
  {
    if rows == [] then []
    else
      WithStatus(rows[..|rows| - 1], status)
        + (if rows[|rows| - 1].status == status then [rows[|rows| - 1]] else [])
  }

  /** When every status is Valid or Invalid, the two filters split the rows between them. */
  lemma {:induction false} PartitionCounts(rows: seq<Reporting.ResultRow>)
    requires forall i :: 0 <= i < |rows| ==> rows[i].status == "Valid" || rows[i].status == "Invalid"
    ensures |WithStatus(rows, "Valid")| + |WithStatus(rows, "Invalid")| == |rows|
  {
    if rows != [] {
      PartitionCounts(rows[..|rows| - 1]);
    }
  }

  /** The `valid_df` / `invalid_df` split, row by row. */
  method Partition(rows: seq<Reporting.ResultRow>) returns (valid: seq<Reporting.ResultRow>, invalid: seq<Reporting.ResultRow>)
    ensures valid == WithStatus(rows, "Valid")
    ensures invalid == WithStatus(rows, "Invalid")
  {
    valid, invalid := [], [];
    for i := 0 to |rows|
      invariant valid == WithStatus(rows[..i], "Valid")
      invariant invalid == WithStatus(rows[..i], "Invalid")
    {
      assert rows[..i + 1][..i] == rows[..i];
      if rows[i].status == "Valid" {
        valid := valid + [rows[i]];
      }
      if rows[i].status == "Invalid" {
        invalid := invalid + [rows[i]];
      }
    }
    assert rows[..|rows|] == rows;
  }

  function ErrorLists(rows: seq<Reporting.ResultRow>): (lists: seq<seq<ErrorEntry>>)
    ensures |lists| == |rows|
    ensures forall i :: 0 <= i < |rows| ==> lists[i] == rows[i].errors
  {
    seq(|rows|, i requires 0 <= i < |rows| => rows[i].errors)
  }

  /** The `validation_summary` of a batch. */
  datatype Summary = Summary(total: nat, valid: nat, invalid: nat,
                             errorTypes: seq<Reporting.FieldBreakdown>,
                             perBank: map<string, Reporting.BankStats>)

  function SummaryOf(results: seq<Reporting.ResultRow>): Summary {
    var invalid := WithStatus(results, "Invalid");
    Summary(|results|, |WithStatus(results, "Valid")|, |invalid|,
            Reporting.Breakdown(Concat(ErrorLists(invalid))), Reporting.PerBank(results))
  }

  /** The counts of a batch add up: every row is either valid or invalid. */
  lemma SummaryCountsAddUp(rows: seq<Row>, results: seq<Reporting.ResultRow>,
                           parseFloat: Cell -> Option<AccountValidator.Amount>, draws: nat -> AccountValidator.UpstreamDraws)
    requires ResultsFor(results, rows, parseFloat, draws)
    ensures SummaryOf(results).valid + SummaryOf(results).invalid == SummaryOf(results).total == |rows|
  {
    PartitionCounts(results);
  }

  /** What `validate_and_output` returns: the diagnostic, the error it raises, or the summary. */
  datatype Outcome =
    | MissingColumnsReport(detail: string, missing: seq<string>)
    | KeyMissing   // RuntimeError: TOKEN_MAP_KEY is unset or empty
    | Completed(summary: Summary)

  // ---- the token lookup ----

  /** What `lookup_token` answers. */
  datatype LookupResult =
    | Found(token: string, realValue: Cell, batchId: string, timestamp: int)
    | Failure(status: nat, detail: string)
    | Uncaught     // iterating a JSON scalar raises, and the framework answers 500

  /** The batch `item` decrypts and its table for the token's prefix holds the token. */
  predicate Hit(token: string, item: LedgerItem, key: string, decrypt: (string, string) -> Option<TokenTables>) {
    && item.Batch?
    && decrypt(key, item.tokens).Some?
    && ((StartsWith(token, "ACC-") && token in decrypt(key, item.tokens).value.accountTokens)
        || (StartsWith(token, "REF-") && token in decrypt(key, item.tokens).value.referenceTokens))
  }

  function FoundIn(token: string, item: LedgerItem, key: string, decrypt: (string, string) -> Option<TokenTables>): LookupResult
    requires Hit(token, item, key, decrypt)
  {
    var t := decrypt(key, item.tokens).value;
    if StartsWith(token, "ACC-") && token in t.accountTokens then
      Found(token, t.accountTokens[token], item.batchId, item.timestamp)
    else
      Found(token, t.referenceTokens[token], item.batchId, item.timestamp)
  }

  /** The reverse scan: the newest batch that decrypts and holds the token answers; others are skipped. */
  function Scan(token: string, items: seq<LedgerItem>, key: string, decrypt: (string, string) -> Option<TokenTables>): LookupResult {
    if items == [] then Failure(404, "Token not found.")
    else if Hit(token, items[|items| - 1], key, decrypt) then FoundIn(token, items[|items| - 1], key, decrypt)
    else Scan(token, items[..|items| - 1], key, decrypt)
  }

  /** The header matches a configured, non-empty `ADMIN_API_KEY`. */
  predicate Authorized(header: Option<string>, adminKey: Option<string>) {
    adminKey.Some? && adminKey.value != "" && header == adminKey
  }

  /** `lookup_token`: the key check, the file and key checks, then the scan. */
  function Lookup(token: string, header: Option<string>, adminKey: Option<string>, tokenKey: Option<string>,
                  file: LedgerFile, decrypt: (string, string) -> Option<TokenTables>): (r: LookupResult)
    ensures !Authorized(header, adminKey) ==> r == Failure(401, "Unauthorized")
    ensures r.Found? ==> Authorized(header, adminKey) && file.ListOf? && r.token == token
    ensures r.Found? ==> StartsWith(token, "ACC-") || StartsWith(token, "REF-")
  {
    if !Authorized(header, adminKey) then Failure(401, "Unauthorized")
    else if file.NoFile? then Failure(404, "Token map file not found.")
    else if tokenKey.None? || tokenKey.value == "" then
      Failure(500, "TOKEN_MAP_KEY environment variable must be set for decryption.")
    else if file.Corrupt? then Failure(500, "Token map file is corrupted or unreadable.")
    else if file.ListOf? then ScanMeaning(token, file.items, tokenKey.value, decrypt); Scan(token, file.items, tokenKey.value, decrypt)
    else if file.SingleObject? then Failure(404, "Token not found.")
    else Uncaught
  }

  /**
   * The scan answers exactly when some batch holds the token, and then it
   * answers from the newest such batch.
   */
  lemma {:induction false} ScanMeaning(token: string, items: seq<LedgerItem>, key: string, decrypt: (string, string) -> Option<TokenTables>)
    ensures var r := Scan(token, items, key, decrypt);
      && (r.Found? <==> exists i :: 0 <= i < |items| && Hit(token, items[i], key, decrypt))
      && (r.Found? ==> r.token == token && (StartsWith(token, "ACC-") || StartsWith(token, "REF-")))
      && (!r.Found? ==> r == Failure(404, "Token not found."))
      && (r.Found? ==>
            exists i :: (0 <= i < |items| && Hit(token, items[i], key, decrypt)
              && r == FoundIn(token, items[i], key, decrypt)
              && forall j :: i < j < |items| ==> !Hit(token, items[j], key, decrypt)))
  {
    if items != [] {
      var n := |items| - 1;
      ScanMeaning(token, items[..n], key, decrypt);
      if !Hit(token, items[n], key, decrypt) {
        var r := Scan(token, items, key, decrypt);
        if r.Found? {
          var i :| 0 <= i < n && Hit(token, items[..n][i], key, decrypt)
            && r == FoundIn(token, items[..n][i], key, decrypt)
            && forall j :: i < j < n ==> !Hit(token, items[..n][j], key, decrypt);
          assert items[..n][i] == items[i];
          forall j | i < j < |items| ensures !Hit(token, items[j], key, decrypt) {
            if j < n { assert items[..n][j] == items[j]; }
          }
        } else {
          forall i | 0 <= i < |items| ensures !Hit(token, items[i], key, decrypt) {
            if i < n { assert items[..n][i] == items[i]; }
          }
        }
      }
    }
  }

  /** A token with neither prefix is never found, whatever the ledger holds. */
  lemma UnprefixedTokenNeverFound(token: string, header: Option<string>, adminKey: Option<string>,
                                  tokenKey: Option<string>, file: LedgerFile, decrypt: (string, string) -> Option<TokenTables>)
    requires !StartsWith(token, "ACC-") && !StartsWith(token, "REF-")
    ensures !Lookup(token, header, adminKey, tokenKey, file, decrypt).Found?
  {
  }

  /**
   * Round trip: right after a batch is stored, an authorized lookup of
   * any ACC- or REF- token in the token map returns the token map's value
   * for it, from the new entry, provided decryption undoes encryption
   * under the same key.
   */
  lemma LookupAfterBatch(token: string, m: map<string, Cell>, f: LedgerFile, key: string, adminKey: string,
                         encrypt: (string, TokenTables) -> string, decrypt: (string, string) -> Option<TokenTables>,
                         batchId: string, timestamp: int)
    requires key != "" && adminKey != ""
    requires forall t :: decrypt(key, encrypt(key, t)) == Some(t)
    requires token in m && (StartsWith(token, "ACC-") || StartsWith(token, "REF-"))
    ensures Lookup(token, Some(adminKey), Some(adminKey), Some(key),
                   LedgerAfter(f, Batch(batchId, timestamp, encrypt(key, TablesOf(m)))), decrypt)
            == Found(token, m[token], batchId, timestamp)
  {
    var entry := Batch(batchId, timestamp, encrypt(key, TablesOf(m)));
    var items := LoadedBatches(f) + [entry];
    assert decrypt(key, entry.tokens) == Some(TablesOf(m));
    assert Hit(token, items[|items| - 1], key, decrypt);
  }

  // ---- the service state ----

  /**
   * The state `validate_and_output` and `lookup_token` share: the
   * in-memory `TOKEN_MAP` (never cleared for the life of the process)
   * and the ledger file.
   */
  class Service {
    var tokenMap: map<string, Cell>
    var ledger: LedgerFile

    /** A fresh process: an empty token map, and whatever ledger file is on disk. */
    constructor (stored: LedgerFile)
      ensures tokenMap == map[] && ledger == stored
    {
      tokenMap := map[];
      ledger := stored;
    }

    /** The `TOKEN_MAP` loop: for each row, the account token then the reference token. */
    method StoreTokens(rows: seq<Row>, sha: string -> HexDigest)
      modifies this
      ensures tokenMap == TokensAfter(old(tokenMap), rows, sha)
      ensures ledger == old(ledger)
    {
      for i := 0 to |rows|
        invariant tokenMap == TokensAfter(old(tokenMap), rows[..i], sha)
        invariant ledger == old(ledger)
      {
        assert rows[..i + 1][..i] == rows[..i];
        tokenMap := tokenMap[AccountToken(rows[i], sha) := rows[i].accountNumber];
        tokenMap := tokenMap[ReferenceToken(rows[i], sha) := rows[i].referenceId];
      }
      assert rows[..|rows|] == rows;
    }

    /** Load the previous batches, append the new entry, write the list back. */
    method AppendBatch(entry: LedgerItem)
      modifies this
      ensures ledger == LedgerAfter(old(ledger), entry)
      ensures tokenMap == old(tokenMap)
    {
      var allBatches: seq<LedgerItem> := [];
      match ledger {
        case ListOf(items) => allBatches := items;
        case SingleObject(item) => allBatches := [item];
        case _ => allBatches := [];
      }
      allBatches := allBatches + [entry];
      ledger := ListOf(allBatches);
    }

    /**
     * `validate_and_output`: the column check, the token map, the ledger
     * entry (encrypted with `TOKEN_MAP_KEY`), the per-row results, the
     * partition and the summary.
     */
    method ValidateAndOutput(records: seq<InputRecord>, sha: string -> HexDigest, tokenKey: Option<string>,
                             encrypt: (string, TokenTables) -> string, batchId: string, timestamp: int,
                             parseFloat: Cell -> Option<AccountValidator.Amount>,
                             draws: nat -> AccountValidator.UpstreamDraws) returns (out: Outcome)
      modifies this
      ensures MissingColumns(records) != [] ==>
        out == MissingColumnsReport(MissingColumnsDetail, MissingColumns(records))
        && tokenMap == old(tokenMap) && ledger == old(ledger)
      ensures MissingColumns(records) == [] ==> tokenMap == TokensAfter(old(tokenMap), Rows(records), sha)
      ensures MissingColumns(records) == [] && (tokenKey.None? || tokenKey.value == "") ==>
        out == KeyMissing && ledger == old(ledger)
      ensures MissingColumns(records) == [] && tokenKey.Some? && tokenKey.value != "" ==>
        ledger == LedgerAfter(old(ledger), Batch(batchId, timestamp, encrypt(tokenKey.value, TablesOf(tokenMap))))
        && out.Completed?
        && out.summary.total == |records|
        && out.summary.valid + out.summary.invalid == |records|
        && exists results :: ResultsFor(results, Rows(records), parseFloat, draws) && out.summary == SummaryOf(results)
    {
      var missing := MissingColumns(records);
      if missing != [] {
        return MissingColumnsReport(MissingColumnsDetail, missing);
      }
      var rows := Rows(records);
      StoreTokens(rows, sha);
      if tokenKey.None? || tokenKey.value == "" {
        return KeyMissing;
      }
      var tables := TablesOf(tokenMap);
      AppendBatch(Batch(batchId, timestamp, encrypt(tokenKey.value, tables)));
      var results := ValidateRows(rows, parseFloat, draws);
      var valid, invalid := Partition(results);
      var errorTypes := Reporting.ErrorBreakdownByField(ErrorLists(invalid));
      var perBank := Reporting.PerBankStats(results);
      SummaryCountsAddUp(rows, results, parseFloat, draws);
      out := Completed(Summary(|results|, |valid|, |invalid|, errorTypes, perBank));
    }

    /** `lookup_token` over the current ledger file: a newest-first loop with early returns. */
    method LookupToken(token: string, header: Option<string>, adminKey: Option<string>, tokenKey: Option<string>,
                       decrypt: (string, string) -> Option<TokenTables>) returns (r: LookupResult)
      ensures r == Lookup(token, header, adminKey, tokenKey, ledger, decrypt)
    {
      if adminKey.None? || adminKey.value == "" || header != adminKey {
        return Failure(401, "Unauthorized");
      }
      if ledger.NoFile? {
        return Failure(404, "Token map file not found.");
      }
      if tokenKey.None? || tokenKey.value == "" {
        return Failure(500, "TOKEN_MAP_KEY environment variable must be set for decryption.");
      }
      if ledger.Corrupt? {
        return Failure(500, "Token map file is corrupted or unreadable.");
      }
      if ledger.SingleObject? {
        return Failure(404, "Token not found.");
      }
      if ledger.OtherJson? {
        return Uncaught;
      }
      var items := ledger.items;
      var i := |items|;
      assert items[..i] == items;
      while i > 0
        invariant 0 <= i <= |items|
        invariant Scan(token, items, tokenKey.value, decrypt) == Scan(token, items[..i], tokenKey.value, decrypt)
      {
        assert items[..i][..i - 1] == items[..i - 1];
        var item := items[i - 1];
        if item.Batch? {
          var tables := decrypt(tokenKey.value, item.tokens);
          if tables.Some? {
            if StartsWith(token, "ACC-") && token in tables.value.accountTokens {
              return Found(token, tables.value.accountTokens[token], item.batchId, item.timestamp);
            }
            if StartsWith(token, "REF-") && token in tables.value.referenceTokens {
              return Found(token, tables.value.referenceTokens[token], item.batchId, item.timestamp);
            }
          }
        }
        i := i - 1;
      }
      return Failure(404, "Token not found.");
    }
  }
}
