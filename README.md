# Bulk transfer validator — a Dafny model

This project models the core of a bulk bank-transfer validator written in Python. The validator takes a batch of transfer records; each record has an account number, a bank code, an amount and a reference id.

- **Checksums and account shapes.** The Luhn check (ISO/IEC 7812-1, Annex B) and the IBAN MOD 97-10 check digits (ISO/IEC 7064, as ISO 13616-1 uses them). Three bank-specific account-number shapes, with their generators and validators, are held in two registries keyed by bank code (`luhn.dfy`, `iban.dfy`, `bank_strategies.dfy`).
- **The account validator** (`account_validator.dfy`). It is an ordered pipeline:
  - a missing-field guard, which stops at once;
  - a per-bank gate, which also stops at once;
  - a fixed chain of seven rules that collect ISO 20022 reason codes (AC01, BE04, AM09, RF01);
  - a simulated upstream check, run only when no rule fired.
- **The seed-data generator** (`seed_accounts.dfy`). It generates Luhn-valid accounts, valid and deliberately invalid IBANs, and unique references.
- **Batch reporting** (`reporting.dfy`, `table.dfy`). It builds the error breakdown by error type and the per-bank statistics.
- **The service's batch bookkeeping** (`main_app.dfy`):
  - deterministic tokens;
  - the required-columns check;
  - the process-wide token map;
  - the append-only ledger of encrypted token batches;
  - one result per row;
  - the valid/invalid partition and its counts;
  - the admin token lookup, which scans the ledger newest first.
- **The command-line ingester** (`batch_ingest.dfy`). It cuts the input into chunks of 1000 and keeps running totals.
- **Two small deciders.** The stand-alone row classifier (`row_validator.dfy`) and the API-key role lookup (`security.dfy`).

Pure code is modelled as functions and lemmas. Code that builds strings, lists or maps in loops is modelled as methods with loops, proved against those functions. The state the service keeps between calls is a class, `MainApp.Service`; so is the set of used references in the seed generator, `SeedAccounts.ReferenceRegistry`.

Python's `str` predicates (`isdigit`, `isalpha`, `isalnum`, `isupper`, `upper`, `strip`) are modelled over ASCII (`text.dfy`). Several things become parameters of the operations that use them:
- random draws;
- SHA-256 digests;
- Fernet encryption and decryption;
- Python's `float()`;
- batch ids and clock readings;
- environment variables.

An amount is a Python float taken exactly: a real, NaN, or an infinity.

Some behaviours of the code that the model keeps:
- the ledger silently drops its earlier entries when the stored file is corrupt or neither a list nor an object;
- a per-row failure is recorded as `validation_error`;
- the token map is process-wide;
- the missing-field guard treats an empty account or bank code as missing, but only None for amount and reference;
- the 001 generator's check digit is not the standard Luhn check digit (see Findings).

## Model

| member | source | states |
|---|---|---|
| BankStrategies.LuhnChecksum | app/bank_strategies.py:45-48 | `luhn_checksum` returns one digit; with base's own last digit undoubled, that digit completes base's Luhn sum to a multiple of 10 |
| BankStrategies.Validate001Meaning | app/bank_strategies.py:24-26 | `validate_account_001` holds iff the account is exactly 10 digits and its Luhn sum (undoubled rightmost digit, folded doubles of every second digit) is ≡ 0 mod 10 |
| BankStrategies.Validate002Meaning | app/bank_strategies.py:28-34 | `validate_account_002` holds iff the account is 8 characters: two upper-case letters, then six digits |
| BankStrategies.GenAccount001 | app/bank_strategies.py:5-9 | the generated account is 10 digits; the drawn 9 digits are its prefix |
| BankStrategies.GenAccount002 | app/bank_strategies.py:11-15 | every generated account passes `validate_account_002` |
| BankStrategies.GenAccount003 | app/bank_strategies.py:17-21 | every generated account passes `validate_account_003`; its last 10 characters are the drawn digits |
| BankStrategies.Validate003Meaning | app/bank_strategies.py:36-42 | `validate_account_003` holds iff the account is 12 digits starting with 77; every such account is the one `gen_account_003` builds from its last 10 digits |
| BankStrategies.RegistryKeys | app/bank_strategies.py:56-66 | both registries have exactly the keys 001, 002, 003 |
| BankStrategies.Gen001ValidIff | app/bank_strategies.py:5-9 | a generated 001 account passes its validator only when base's Luhn sums with the last digit kept and doubled agree mod 10 |
| BankStrategies.LuhnChecksumCounterexample | app/bank_strategies.py:45-53 | base 000000001 yields 0000000019, which `validate_account_001` rejects |
| BankStrategies.LuhnCheckDigit | app/bank_strategies.py:45-48 | the intended Luhn check digit (base's rightmost digit doubled) is a digit |
| BankStrategies.CheckDigitRoundTrip | app/bank_strategies.py:50-53 | a digit appended to a digit string passes `luhn_check` iff it is the Luhn check digit |
| BankStrategies.GenAccount001Corrected | app/bank_strategies.py:5-9 | with the intended check digit, every generated 001 account passes `validate_account_001` |
| Luhn.LuhnSumIsAlternating | app/bank_strategies.py:50-53 | the slice-based Luhn sum equals the digit-by-digit alternating sum, rightmost digit undoubled |
| Luhn.SlicesAlternate | app/bank_strategies.py:52 | the `[-1::-2]` and `[-2::-2]` slice sums equal the alternating sums, with either parity |
| Luhn.LuhnSumAppend | app/bank_strategies.py:50-53 | appending a digit makes the old rightmost digit a doubled one |
| Luhn.AlternatingSumOfZeros | app/bank_strategies.py:47 | zeros contribute nothing to the sum |
| Iban.Rearranged | app/validators/account_validator.py:86 | moving the first four characters to the end keeps the length |
| Iban.NumerizedConcat | app/validators/account_validator.py:88-93 | letter-to-number conversion distributes over concatenation |
| Iban.LetterNumeral | app/validators/account_validator.py:93 | an upper-case letter becomes two digits, valued A = 10 … Z = 35 |
| Iban.NumerizedUpperAlnum | app/validators/account_validator.py:88-93 | an upper-case alphanumeric string converts to digits only |
| Iban.NumerizedDigits | app/validators/account_validator.py:90-91 | digits are copied unchanged |
| Iban.NumerizedNewline | app/validators/account_validator.py:93-98 | a newline becomes "-45", so `int()` of the numeral fails |
| Iban.Mod97Completes | seed_accounts.py:65 | for the numeral y with 00 as check digits, `98 - y mod 97` lies in 2..98 and completes y to 1 mod 97 |
| AccountValidator.LooksLikeIbanMeaning | app/validators/account_validator.py:72-74 | `_looks_like_iban` holds iff the upper-cased account, or the account without one trailing newline, has IBAN shape; such an account has 15..35 characters |
| AccountValidator.IbanValidLooksLikeIban | app/validators/account_validator.py:72-98 | for an account without spaces, `_validate_iban` accepting it implies `_looks_like_iban` |
| AccountValidator.ValidateChecksumMeaning | app/validators/account_validator.py:104-115 | `_validate_checksum` holds iff the account is a digit string passing `luhn_check`, i.e. its alternating Luhn sum (rightmost digit undoubled) is ≡ 0 mod 10 |
| AccountValidator.RulePositionOfRule | app/validators/account_validator.py:27-70 | the seven rule names are distinct; each name finds its own position |
| AccountValidator.ShapedIbanValidity | app/validators/account_validator.py:86-98 | for an IBAN-shaped string the rearranged numeral is all digits, and `_validate_iban` holds iff its value is ≡ 1 mod 97 |
| AccountValidator.UnshapedIbanInvalid | app/validators/account_validator.py:76-84 | a string without IBAN shape is rejected |
| AccountValidator.IbanValidMeaning | app/validators/account_validator.py:76-98 | `_validate_iban` holds iff the upper-cased, space-free string has IBAN shape and its rearranged numeral is ≡ 1 mod 97; a trailing newline (which the pattern lets through) always fails |
| AccountValidator.LengthTestAfterPattern | app/validators/account_validator.py:80-84 | after the pattern, the 15..34 length test rejects only a 35-character string ending in a newline |
| AccountValidator.ValidateIban | app/validators/account_validator.py:76-98 | the numeral-building loop computes `_validate_iban` |
| AccountValidator.BuildNumeral | app/validators/account_validator.py:88-93 | the `+=` loop builds the letter-to-number numeral |
| AccountValidator.AmountBoundaries | app/validators/account_validator.py:117-119 | 10,000,000 is accepted; 10,000,000.01, 0, NaN and infinity are rejected |
| AccountValidator.EvaluateRule | app/validators/account_validator.py:27-70 | one rule's lambda fires exactly as its predicate says, calling `_validate_iban` only for IBAN-shaped accounts |
| AccountValidator.ChainErrorsOrdered | app/validators/account_validator.py:184-213 | the chain reports exactly the rules that fire, each at most once, in `validation_rules` order |
| AccountValidator.MockBankApiCheck | app/validators/account_validator.py:121-132 | the upstream check fails iff one of its draws falls under its threshold; RR01 only for accounts starting with X, AC06 only for ones ending in 000 |
| AccountValidator.Validate | app/validators/account_validator.py:134-232 | `validate` returns `ValidationOf`: the missing-field guard, then the bank gate, then the rule chain and the upstream check |
| AccountValidator.RunRules | app/validators/account_validator.py:182-232 | after the gate: the chain, then the upstream check if no rule fired; Valid iff no errors |
| AccountValidator.RunChain | app/validators/account_validator.py:183-213 | the rule loop accumulates the chain's errors |
| AccountValidator.GuardShortCircuits | app/validators/account_validator.py:148-163 | a missing field gives exactly one `format_error` and nothing else |
| AccountValidator.EmptyBankCodeAlwaysInvalid | app/validators/account_validator.py:154-163 | an empty bank code (as the IBAN seed records carry) always gives the `format_error` |
| AccountValidator.BankGateShortCircuits | app/validators/account_validator.py:166-179 | a registered bank rejecting the account gives exactly one `bank_<code>_account_validation` error |
| AccountValidator.ChainEmptyIffNoRuleFires | app/validators/account_validator.py:184-213 | the chain is empty iff no rule fires |
| AccountValidator.ErrorsAfterGate | app/validators/account_validator.py:182-226 | the errors are exactly the firing rules' errors in rule order, at most 7; a `bank_api_error` appears only alone, and more than one error only when some rule fired |
| AccountValidator.ChainThenUpstream | app/validators/account_validator.py:182-232 | past the gates: at most 7 errors, each rule's error present iff that rule fires, in rule order, at most one error when none fires; Valid iff no errors |
| AccountValidator.PastTheGates | app/validators/account_validator.py:215-232 | past the gates, when some rule fires the record is Invalid with exactly the chain's errors and the upstream check is skipped |
| AccountValidator.IbanShapedAccountRules | app/validators/account_validator.py:30-57 | for an IBAN-shaped account only the IBAN, amount and reference rules can fire |
| AccountValidator.AmountAndReferenceRules | app/validators/account_validator.py:58-69 | AM09 is reported iff the amount is not in (0, 10,000,000]; RF01 iff the reference is empty |
| AccountValidator.ExampleFirings | app/validators/account_validator.py:27-70 | for 4532015112830366 / 999 / 100.0 / TX1 only the length and bank-code rules fire |
| AccountValidator.ExampleChain | app/validators/account_validator.py:184-213 | those firings give [length_error, bank_code_validation] |
| AccountValidator.ExampleLengthAndBankCode | app/validators/account_validator.py:184-213 | the example record is Invalid with exactly [length_error AC01, bank_code_validation BE04] |
| SeedAccounts.IbanCountriesShape | seed_accounts.py:11-14 | every country code is two upper-case letters with an IBAN length of 16..28 |
| SeedAccounts.LuhnChecksum | seed_accounts.py:20-23 | the result is the Luhn sum mod 10, a value below 10 |
| SeedAccounts.LuhnChecksumAgreesWithValidator | seed_accounts.py:20-23 | for digit strings, a result of 0 agrees with `_validate_checksum` and with `luhn_check` |
| SeedAccounts.GenerateLuhnAccount | seed_accounts.py:29-37 | the loop returns base plus the Luhn check digit, whose checksum is 0; the fallback is unreachable |
| SeedAccounts.GenerateAccountNumber | seed_accounts.py:39-48 | 8..12 characters over A-Z and 0-9; numeric branch: the drawn digits, with the Luhn check digit appended when the length is 10 (and then it passes `_validate_checksum`); otherwise the drawn alphanumeric string |
| SeedAccounts.CheckDigits | seed_accounts.py:56-66 | `iban_checksum` gives two digits valued 2..98 |
| SeedAccounts.IbanChecksum | seed_accounts.py:56-66 | the numeral loop computes `CheckDigits` |
| SeedAccounts.AssembledNumeral | seed_accounts.py:56-66 | country + check + bban passes `_validate_iban` iff 100 × numeral(bban + country) + check is ≡ 1 mod 97 |
| SeedAccounts.CheckDigitsCongruence | seed_accounts.py:56-66 | country + check + bban passes `_validate_iban` iff check ≡ `iban_checksum` mod 97 |
| SeedAccounts.ValidIbanRoundTrip | seed_accounts.py:68-76 | country + `iban_checksum(country+"00"+bban)` + bban passes `_validate_iban` |
| SeedAccounts.GenerateValidIban | seed_accounts.py:68-76 | the generated IBAN has the country's length and passes `_validate_iban` |
| SeedAccounts.WrongCheckDigits | seed_accounts.py:84-89 | the retry loop returns the first drawn check string that differs from `iban_checksum`: two digits valued ≤ 97, every earlier draw equal to the correct check digits |
| SeedAccounts.GenerateInvalidIban | seed_accounts.py:78-95 | wrong-checksum branch: check differs; wrong-length branch: passes `_validate_iban` whenever its length is 15..34 |
| SeedAccounts.WrongCheckDigitsCanPass | seed_accounts.py:84-89 | when the correct check is 98 (or 97), the "wrong" check 01 (or 00) still passes `_validate_iban` |
| SeedAccounts.WrongCheckDigitsExample | seed_accounts.py:84-89 | NL with bban 00000000000087 has check 98, and NL0100000000000087 passes `_validate_iban` |
| SeedAccounts.WrongCheckDigitsCorrected | seed_accounts.py:84-89 | retrying until the residues mod 97 differ yields an IBAN that `_validate_iban` rejects |
| SeedAccounts.ReferenceRegistry.constructor | seed_accounts.py:161 | a run starts with no references used |
| SeedAccounts.ReferenceRegistry.MakeValidAccount | seed_accounts.py:97-116 | the reference is the first drawn one not yet in `used_refs` (every earlier draw was used) and is added to it; IBAN branch: empty bank code, valid IBAN; else a listed bank code |
| Table.CellStr | app/validator.py:4 | `str` of a text cell is its text (a missing cell prints as "nan") |
| Table.Types | app/reporting.py:11 | each entry's type, with 'unknown' for a missing key |
| Reporting.KeysMeaning | app/reporting.py:20 | a counter's keys are distinct and are exactly the values seen |
| Reporting.OccurrencesSum | app/reporting.py:15-21 | the per-key counts add up to the number of entries |
| Reporting.CounterStep | app/reporting.py:32 | `Counter` counting one more entry |
| Reporting.FirstThree | app/reporting.py:13-14 | at most three messages: a prefix of those seen |
| Reporting.CountEntry | app/reporting.py:10-14 | one inner-loop step keeps counter, examples and key order in step with the entries seen |
| Reporting.ErrorBreakdownByField | app/reporting.py:6-21 | the nested loops compute the breakdown of all error entries of the invalid rows |
| Reporting.BreakdownFields | app/reporting.py:15-21 | the result lists exactly the types that occur, each once |
| Reporting.BreakdownCounts | app/reporting.py:9-21 | each count is that type's number of entries; examples are its first ≤ 3 messages in order; counts sum to the number of entries |
| Reporting.CountTypes | app/reporting.py:29-32 | the per-bank `Counter` loop counts an error list's types |
| Reporting.GroupStats | app/reporting.py:25-38 | one group's total, valid, invalid and error types, with error types from Invalid rows only |
| Reporting.PerBankStats | app/reporting.py:23-39 | one entry per bank code present; missing codes form no group |
| Reporting.StatusesPartition | app/reporting.py:26-28 | with statuses Valid or Invalid only, valid + invalid = the bank's row count |
| Reporting.PerBankProperties | app/reporting.py:23-39 | the keys are the codes present; totals sum to the rows with a code; valid + invalid = total; a bank's `error_types` holds exactly the types of its invalid rows' entries, and its counts sum to the number of those entries |
| Reporting.SumCountsIsSum | app/reporting.py:29-32 | summing a counter over the distinct items counts every item |
| RowValidator.ValidateAccountRow | app/validator.py:3-35 | format error iff the stripped account is not ≥ 10 digits; "does not exist" iff it is and ends in 0; valid iff neither |
| RowValidator.MissingAccountIsFormatError | app/validator.py:7-15 | a missing, empty or blank account is a format error |
| RowValidator.PaddedAccountAccepted | app/validator.py:4-5 | surrounding whitespace is stripped before the checks and in the output |
| Security.KeyList | app/security.py:13-15 | a key list always has at least one entry |
| Security.GetRoleFromApiKey | app/security.py:12-22 | admin if in the admin list, else auditor, else user, else none (both directions) |
| Security.EmptyKeyWhenUnset | app/security.py:13-17 | with the variable unset, the empty key gets that role |
| Security.CommaKeyHasNoRole | app/security.py:13-22 | a key containing a comma never gets a role |
| Security.NoTrimming | app/security.py:13-16 | keys are compared untrimmed: " key1" listed matches " key1" and not "key1" |
| Security.RequireRole | app/security.py:24-33 | 403 iff the resolved role is missing or not among the named roles; otherwise that role |
| Security.AdminOnlyGuard | app/security.py:24-33 | an admin-only guard admits exactly the admin keys |
| MainApp.TokenizeValue | app/main.py:64-67 | prefix, a dash, 8 hex characters of the digest of `str(value)`; length = prefix length + 9 |
| MainApp.TokenPrefixesDiffer | app/main.py:86-87 | an account token and a reference token never coincide; each carries its own prefix |
| MainApp.Columns | app/main.py:80-81 | the columns are every key of any record |
| MainApp.MissingFrom | app/main.py:81 | the missing columns are exactly the required ones absent, in required order |
| MainApp.EmptyInputMissesEveryColumn | app/main.py:80-84 | no records means all four columns are reported missing |
| MainApp.TokensAfterKeeps | app/main.py:89-91 | `TOKEN_MAP` is never cleared; a token no row writes keeps its value |
| MainApp.TokensAfterKeys | app/main.py:89-91 | the map gains exactly the rows' account and reference tokens |
| MainApp.TokensAfterLastAccount | app/main.py:89-91 | an account token maps to the account of the last row producing it |
| MainApp.TokensAfterLastReference | app/main.py:89-91 | a reference token maps to the reference of the last row producing it |
| MainApp.TablesOf | app/main.py:110-112 | each batch holds every ACC- / REF- token in the map so far, not just this batch's |
| MainApp.LoadedBatches | app/main.py:120-132 | a stored list is kept, a single object is wrapped, anything else becomes [] |
| MainApp.LedgerAppendOnly | app/main.py:119-135 | the new entry is last; a stored list grows by exactly one with its prefix kept |
| MainApp.RowResult | app/main.py:138-167 | the row's bank code is kept; the status is Valid or Invalid, and Valid iff there are no errors |
| MainApp.RowResultMeaning | app/main.py:138-167 | a bad amount gives Invalid with one `validation_error` entry naming the cell; otherwise the validator's status and its errors as entries |
| MainApp.ValidateRow | app/main.py:139-167 | the `try` body computes `RowResult` |
| MainApp.ValidateRows | app/main.py:137-167 | exactly one result per row, in row order |
| MainApp.WithStatus | app/main.py:171-172 | the filter keeps exactly the rows with that status |
| MainApp.PartitionCounts | app/main.py:171-175 | with statuses Valid or Invalid only, the two parts' sizes add up to the row count |
| MainApp.Partition | app/main.py:171-172 | the loop builds the valid and invalid parts |
| MainApp.SummaryCountsAddUp | app/main.py:173-175 | valid + invalid = total = number of rows |
| MainApp.Lookup | app/main.py:271-306 | 401 unless the header equals a set admin key; a hit requires a list ledger and an ACC-/REF- token |
| MainApp.ScanMeaning | app/main.py:296-306 | a token is found iff some batch decrypts and holds it, and then from the newest such batch |
| MainApp.UnprefixedTokenNeverFound | app/main.py:302-305 | a token with neither prefix is never found |
| MainApp.LookupAfterBatch | app/main.py:296-305 | right after a batch is stored, every ACC-/REF- token in the map looks up to its map value from the new entry |
| MainApp.Service.constructor | app/main.py:70 | a fresh process starts with an empty token map |
| MainApp.Service.StoreTokens | app/main.py:89-91 | the loop writes account then reference token row by row |
| MainApp.Service.AppendBatch | app/main.py:119-135 | the ledger becomes the loaded batches plus the new entry |
| MainApp.Service.ValidateAndOutput | app/main.py:75-194 | missing columns: diagnostic, nothing changes; unset key: raises after the token map update, before any ledger change; else: one ledger entry, one result per row, counts add up |
| MainApp.Service.LookupToken | app/main.py:272-306 | the newest-first loop with early returns computes `Lookup` |
| BatchIngest.Chunk | batch_ingest.py:49-59 | non-empty chunks of at most 1000, all full but the last; concatenated they give the input; ⌈n/1000⌉ chunks |
| BatchIngest.FullChunksLength | batch_ingest.py:55-57 | full chunks hold a multiple of 1000 records |
| BatchIngest.FindText | batch_ingest.py:66 | the first matching child's text, or "" |
| BatchIngest.XmlRecord | batch_ingest.py:66 | an XML record has exactly the four required columns |
| BatchIngest.XmlRecordsHaveAllColumns | batch_ingest.py:66 | a non-empty XML input never fails the column check |
| BatchIngest.ProcessXml | batch_ingest.py:61-73 | only record elements are kept, in order, chunked as above |
| BatchIngest.TotalsOf | batch_ingest.py:97-105 | the chunk count and the record total; all zero for empty input |
| BatchIngest.TotalsAddUp | batch_ingest.py:114-117 | when every chunk completes, valid + invalid = records processed |
| BatchIngest.DiagnosticCountsZero | batch_ingest.py:115-117 | a missing-columns diagnostic adds 0 to both totals |
| BatchIngest.ValidateChunk | batch_ingest.py:108 | a chunk raises iff its columns are present and the key is unset; a chunk missing columns gets the missing-columns diagnostic and leaves the token map and ledger as they were; otherwise its counts add up, its rows' tokens are stored, and with the key set the ledger gains one batch holding the whole token map |
| BatchIngest.ProgressStep | batch_ingest.py:103-117 | one answered chunk moves the counters by one chunk, its record count and its valid and invalid counts |
| BatchIngest.AbortedRun | batch_ingest.py:103-108 | a raise on chunk k leaves every earlier chunk diagnosed as missing columns, and the counters at k + 1 chunks, their records, and 0 valid and invalid |
| BatchIngest.CompletedRun | batch_ingest.py:96-117 | a run through every chunk: no raise, every diagnostic recorded, counters equal to the chunk count, record total and summed outcomes |
| BatchIngest.RunChunks | batch_ingest.py:96-117 | the run aborts iff the key is unset and some chunk has every column; each chunk missing columns gets the diagnostic; aborted: the counters stop at the raising chunk with 0 valid and invalid; completed: chunk count, record total and summed outcomes, valid + invalid = records when no chunk lacks columns; the service is left as `ServiceAt` describes for the chunks that ran: the tokens of every chunk with all columns (the raising one included), and the ledger untouched when the key is unset, else one batch per such chunk |
| BatchIngest.ServiceStep | batch_ingest.py:103-108 | one more chunk's `validate_and_output` moves the token map and ledger from their state after the chunks before it to their state after it |
| BatchIngest.TokensAtStored | app/main.py:89-91 | the token map after a run's first chunks is the map after storing, in one go, the rows of those chunks that had every column |
| BatchIngest.TokensAtGrows | app/main.py:89-91 | a token stored by earlier chunks is still in the map after later ones |
| BatchIngest.LedgerAtAppends | app/main.py:114-135 | the ledger after a run's first chunks is the starting file when none had every column, and otherwise the batches loaded from it followed by one batch per chunk with every column, in chunk order |
| BatchIngest.KeptStep | app/main.py:119-135 | a chunk with every column appends its batch, one lacking a column appends nothing |
| BatchIngest.KeptAtMost | batch_ingest.py:103-108 | a run appends at most one batch per chunk |
| BatchIngest.KeptAll | batch_ingest.py:103-108 | when every chunk has every column, each chunk's batch is appended, in order |
| BatchIngest.KeptNone | batch_ingest.py:103-108 | when no chunk has every column, no batch is appended |
| BatchIngest.LedgerThroughStep | app/main.py:133-135 | appending one more entry to a list of appended entries is one more `LedgerAfter` |
| MainApp.TokensAfterConcat | app/main.py:89-91 | storing the rows of one list and then another stores the rows of their concatenation |
| Text.Strip | app/validator.py:4 | `strip` gives a slice without leading or trailing whitespace |
| Text.StripPadded | app/validator.py:4 | one blank on each side is removed |
| Text.JoinSplit | app/security.py:13 | `split(",")` loses nothing, and no piece contains a comma |
| Text.SplitWithoutSep | app/security.py:13 | a string without a comma splits into itself |
| Text.ParseInt | app/validators/account_validator.py:96 | on the numerals `_validate_iban` builds (digits, or digits with an inner "-45" from a trailing newline), `int()` succeeds iff the numeral is all digits |
| Text.Pad2 | seed_accounts.py:66 | `:02d` gives digits with the same value; two of them below 100 |

## Left out

- The HTTP layer is not modelled: the FastAPI routes, the upload-size middleware, CORS, file download and `app/api.py`. This also leaves out the XML upload route's own amount conversion.
- Fernet encryption and decryption, SHA-256, `uuid`, the clock, dotenv and `os.getenv` are parameters. Decryption is a partial function; encryption is a function of key and tables, which absorbs Fernet's random IV.
- File I/O and third-party parsing are not modelled. The ledger file is a value of `MainApp.LedgerFile`; pandas, ijson and ElementTree are replaced by the records or elements they yield.
- `write_outputs` and the output files it writes are not modelled, and neither are the report CSV and the timing of `batch_ingest.main`.
- The HEAD side of the merge conflict in `batch_ingest.py` (the e-mail notification) is left out; it calls a function that is never imported.
- The merge conflict at app/validators/account_validator.py:4-21 is resolved as the union of both sides: the class uses `BANK_VALIDATORS`, `random` and `SEPA_ERROR_CODES`, so both imports and the code table are kept.
- Text.ParseInt: Python's `int()` also accepts surrounding whitespace, a sign and underscores between digits (" 12", "+5", "1_0"); the model covers only the numerals `_validate_iban` builds, which never have those forms.
- Randomness is a parameter:
  - the upstream check's three draws;
  - the generators' character draws;
  - the coin flips;
  - the retry loops' sequences of draws.
  
  Probabilities are not modelled. A retry loop whose termination is only probabilistic requires a draw that ends it.
- The `round(random.uniform(...), 2)` amount of `make_valid_account` is passed in as a real; float rounding is not modelled.
- `make_invalid_account` and the seed script's `main` (shuffle and CSV writing) are not modelled.
- async/await is modelled as sequential code.
- Python's string predicates are modelled over ASCII only. Unicode digits and letters are not.
- A DataFrame cell is text or NaN (`Table.Cell`). Numeric cells, whose `str` is their float repr, and JSON `null` values are not modelled.
- An error dictionary whose `type` or `message` key is present with the value None is not modelled. A key is either missing or holds a string.
- BatchIngest.Chunk: a CSV with a header and no rows gives one empty chunk under pandas (one chunk, no records, counted by `main`); `Chunk` gives no chunk for it. `RunChunks` accepts any list of chunks, so that run is covered there.
- `Reporting.PerBankStats`: the per-bank result is a map, so groupby's sorted key order is not modelled.
- `Security.RequireRole`: the 403 detail text shows the roles tuple's repr; the model keeps only the resolved role or "none".
- `MainApp.Lookup`: two cases are not modelled faithfully.
  - A ledger item that holds `tokens` but lacks `batch_id` or `timestamp` raises a KeyError after a hit; this is not modelled.
  - A ledger file holding a bare JSON string is scanned character by character and answers 404; the model answers `Uncaught`, as it does for the other JSON scalars.
- `MainApp.Service.ValidateAndOutput`: only `float()` raising is modelled as a per-row exception. The validator itself never raises in the model.
- `SeedAccounts.CheckDigits`: `iban_checksum` is modelled for alphanumeric bodies only, which is all the generator passes it.

## Findings

| source | as written | input that shows it | evidently intended | confidence | as-written member | corrected member |
|---|---|---|---|---|---|---|
| app/bank_strategies.py:45-48 | `luhn_checksum(base)` sums base with base's own last digit undoubled, then appends the result; every digit shifts one place, so `gen_account_001` (:5-9) produces accounts `validate_account_001` rejects | base "000000001" gives "0000000019", whose Luhn sum is 11 | the Luhn check digit of base (base's rightmost digit doubled), so generated accounts always validate | high, not executed | BankStrategies.LuhnChecksumCounterexample | BankStrategies.GenAccount001Corrected |
| seed_accounts.py:84-89 | the wrong-checksum branch of `generate_invalid_iban` only ensures the check string differs from `iban_checksum`'s; 01 ≡ 98 and 00 ≡ 97 (mod 97), so the "invalid" IBAN can be valid | country NL, bban 00000000000087: correct check 98, draw 1 gives NL0100000000000087, which `_validate_iban` accepts | a check value whose residue mod 97 differs, so the IBAN is always rejected | high, not executed | SeedAccounts.WrongCheckDigitsExample | SeedAccounts.WrongCheckDigitsCorrected |
