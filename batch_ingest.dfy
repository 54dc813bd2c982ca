/**
 * The command-line batch ingester (batch_ingest.py): the input is cut into
 * chunks of at most `ChunkSize` records, each chunk goes through the
 * service's `validate_and_output`, and running totals are kept.  File
 * parsing (pandas, ijson, ElementTree) is replaced by the sequence of
 * records or XML elements it yields.
 */
module BatchIngest {
  import opened Wrappers
  import opened Table
  import AccountValidator
  import MainApp

  const ChunkSize: nat := 1000

  /** Every chunk is non-empty and holds at most `ChunkSize` items; all but the last are full. */
  predicate WellChunked<T>(chunks: seq<seq<T>>) {
    && (forall i :: 0 <= i < |chunks| ==> 0 < |chunks[i]| <= ChunkSize)
    && (forall i :: 0 <= i < |chunks| - 1 ==> |chunks[i]| == ChunkSize)
  }

  /** Full chunks only: their total length is a multiple of the chunk size. */
  lemma {:induction false} FullChunksLength<T>(chunks: seq<seq<T>>)
    requires forall i :: 0 <= i < |chunks| ==> |chunks[i]| == ChunkSize
    ensures |Concat(chunks)| == |chunks| * ChunkSize
  {
    if chunks != [] {
      FullChunksLength(chunks[..|chunks| - 1]);
    }
  }

  /** `full` full chunks and a remainder of `rest` items make this many chunks, the remainder counting when non-empty. */
  lemma ChunkCount(full: nat, rest: nat)
    requires rest < ChunkSize
    ensures (full * ChunkSize + rest + ChunkSize - 1) / ChunkSize == full + (if rest == 0 then 0 else 1)
  {
  }

  /**
   * `process_json`: append each item, hand over the batch once it holds
   * `ChunkSize` items, and hand over a non-empty remainder at the end.
   * `process_csv` asks pandas for chunks of the same size; for a CSV with
   * at least one row they are these chunks, but a CSV with a header and no
   * rows gives one empty chunk there and none here.
   */
  method Chunk<T>(items: seq<T>) returns (chunks: seq<seq<T>>)
    ensures Concat(chunks) == items
    ensures WellChunked(chunks)
    ensures |chunks| == (|items| + ChunkSize - 1) / ChunkSize
  {
    chunks := [];
    var batch: seq<T> := [];
    for i := 0 to |items|
      invariant Concat(chunks) + batch == items[..i]
      invariant |batch| < ChunkSize
      invariant forall k :: 0 <= k < |chunks| ==> |chunks[k]| == ChunkSize
      invariant |chunks| * ChunkSize + |batch| == i
    {
      assert items[..i + 1] == (Concat(chunks) + batch) + [items[i]];
      assert items[..i + 1] == Concat(chunks) + (batch + [items[i]]);
      batch := batch + [items[i]];
      if |batch| >= ChunkSize {
        ConcatAppend(chunks, batch);
        chunks := chunks + [batch];
        batch := [];
      }
    }
    assert items[..|items|] == items;
    ChunkCount(|chunks|, |batch|);
    if batch != [] {
      ConcatAppend(chunks, batch);
      chunks := chunks + [batch];
    }
  }

  // ---- XML ----

  /** An element whose end tag the parser reports: its tag and its children as (tag, text) pairs. */
  datatype XmlElement = XmlElement(tag: string, children: seq<(string, string)>)

  /** Child `i` is the first child with that tag. */
  predicate FirstWithTag(children: seq<(string, string)>, tag: string, i: nat) {
    i < |children| && children[i].0 == tag && forall j :: 0 <= j < i ==> children[j].0 != tag
  }

  /** `elem.findtext(tag, default='')`: the text of the first child with that tag, else "". */
  function FindText(children: seq<(string, string)>, tag: string): (text: string)
    ensures (forall i :: 0 <= i < |children| ==> children[i].0 != tag) ==> text == ""
    ensures forall i: nat :: FirstWithTag(children, tag, i) ==> text == children[i].1
  {
    if children == [] then ""
    else if children[0].0 == tag then children[0].1
    else
      assert forall i: nat :: FirstWithTag(children, tag, i) ==> i > 0 && FirstWithTag(children[1..], tag, i - 1);
      FindText(children[1..], tag)
  }

  /** The record built from a `record` element: exactly the four required columns. */
  function XmlRecord(e: XmlElement): (rec: MainApp.InputRecord)
    ensures forall col :: col in rec <==> col in MainApp.RequiredColumns
    ensures forall col :: col in rec ==> rec[col] == Text(FindText(e.children, col))
  {
    map col | col in MainApp.RequiredColumns :: Text(FindText(e.children, col))
  }

  /** The records the XML input holds: one per `record` element, in document order. */
  function XmlRecords(elems: seq<XmlElement>): (recs: seq<MainApp.InputRecord>)
    ensures |recs| <= |elems|
    ensures forall i, col :: 0 <= i < |recs| ==> (col in recs[i] <==> col in MainApp.RequiredColumns)
  {
    if elems == [] then []
    else
      var e := elems[|elems| - 1];
      XmlRecords(elems[..|elems| - 1]) + (if e.tag == "record" then [XmlRecord(e)] else [])
  }
  /** One more element adds its record, if it is a `record` element. */
  lemma XmlRecordsStep(elems: seq<XmlElement>, i: nat)
    requires i < |elems|
    ensures XmlRecords(elems[..i + 1])
      == XmlRecords(elems[..i]) + (if elems[i].tag == "record" then [XmlRecord(elems[i])] else [])
  {
    assert elems[..i + 1][..i] == elems[..i];
  }


  /** A non-empty XML input never misses a required column. */
  lemma XmlRecordsHaveAllColumns(elems: seq<XmlElement>)
    ensures XmlRecords(elems) != [] ==> MainApp.MissingColumns(XmlRecords(elems)) == []
  {
    var recs := XmlRecords(elems);
    if recs != [] {
      forall c | c in MainApp.RequiredColumns ensures c in MainApp.Columns(recs) {
        assert c in recs[0];
      }
      MissingNoneWhenAllPresent(MainApp.RequiredColumns, MainApp.Columns(recs));
    }
  }

  lemma {:induction false} MissingNoneWhenAllPresent(required: seq<string>, cols: set<string>)
    requires forall c :: c in required ==> c in cols
    ensures MainApp.MissingFrom(required, cols) == []
  {
    if required != [] {
      MissingNoneWhenAllPresent(required[1..], cols);
    }
  }

  /** `process_xml`: only `record` elements are kept, chunked as `Chunk` does. */
  method ProcessXml(elems: seq<XmlElement>) returns (chunks: seq<seq<MainApp.InputRecord>>)
    ensures Concat(chunks) == XmlRecords(elems)
    ensures WellChunked(chunks)
  {
    chunks := [];
    var batch: seq<MainApp.InputRecord> := [];
    for i := 0 to |elems|
      invariant Concat(chunks) + batch == XmlRecords(elems[..i])
      invariant |batch| < ChunkSize
      invariant forall k :: 0 <= k < |chunks| ==> |chunks[k]| == ChunkSize
    {
      XmlRecordsStep(elems, i);
      if elems[i].tag == "record" {
        assert (Concat(chunks) + batch) + [XmlRecord(elems[i])] == Concat(chunks) + (batch + [XmlRecord(elems[i])]);
        batch := batch + [XmlRecord(elems[i])];
        if |batch| >= ChunkSize {
          ConcatAppend(chunks, batch);
          chunks := chunks + [batch];
          batch := [];
          assert Concat(chunks) + batch == Concat(chunks);
        }
      } else {
        assert XmlRecords(elems[..i + 1]) == XmlRecords(elems[..i]) + [];
      }
    }
    assert elems[..|elems|] == elems;
    if batch != [] {
      ConcatAppend(chunks, batch);
      chunks := chunks + [batch];
    }
  }

  // ---- the running totals of `main` ----

  /** The counters `main` reports at the end. */
  datatype Totals = Totals(chunks: nat, records: nat, valid: nat, invalid: nat)

  /** `result.get("validation_summary", {}).get("valid_accounts", 0)`: 0 for a diagnostic. */
  function ValidOf(out: MainApp.Outcome): nat {
    if out.Completed? then out.summary.valid else 0
  }

  function InvalidOf(out: MainApp.Outcome): nat {
    if out.Completed? then out.summary.invalid else 0
  }

  function SumValid(outs: seq<MainApp.Outcome>): nat {
    if outs == [] then 0 else SumValid(outs[..|outs| - 1]) + ValidOf(outs[|outs| - 1])
  }

  function SumInvalid(outs: seq<MainApp.Outcome>): nat {
    if outs == [] then 0 else SumInvalid(outs[..|outs| - 1]) + InvalidOf(outs[|outs| - 1])
  }

  /** The totals a run would report, given the chunks and each chunk's outcome. */
  function TotalsOf(chunks: seq<seq<MainApp.InputRecord>>, outs: seq<MainApp.Outcome>): (t: Totals)
    requires |outs| == |chunks|
    ensures t.chunks == |chunks| && t.records == |Concat(chunks)|
    ensures chunks == [] ==> t == Totals(0, 0, 0, 0)
  {
    Totals(|chunks|, |Concat(chunks)|, SumValid(outs), SumInvalid(outs))
  }

  /**
   * When every chunk completed and each outcome's counts add up to its
   * chunk's size, the valid and invalid totals add up to the records read.
   */
  lemma {:induction false} TotalsAddUp(chunks: seq<seq<MainApp.InputRecord>>, outs: seq<MainApp.Outcome>)
    requires |outs| == |chunks|
    requires forall i :: 0 <= i < |outs| ==>
      outs[i].Completed? && outs[i].summary.valid + outs[i].summary.invalid == |chunks[i]|
    ensures TotalsOf(chunks, outs).valid + TotalsOf(chunks, outs).invalid == TotalsOf(chunks, outs).records
  {
    if chunks != [] {
      var n := |chunks| - 1;
      TotalsAddUp(chunks[..n], outs[..n]);
    }
  }

  /** A chunk that lacks a required column counts nothing towards the valid or invalid totals. */
  lemma DiagnosticCountsZero(outs: seq<MainApp.Outcome>, missing: seq<string>)
    ensures SumValid(outs + [MainApp.MissingColumnsReport(MainApp.MissingColumnsDetail, missing)]) == SumValid(outs)
    ensures SumInvalid(outs + [MainApp.MissingColumnsReport(MainApp.MissingColumnsDetail, missing)]) == SumInvalid(outs)
  {
    var outs' := outs + [MainApp.MissingColumnsReport(MainApp.MissingColumnsDetail, missing)];
    assert outs'[..|outs|] == outs;
  }

  /** `TOKEN_MAP_KEY` is unset or empty, so `validate_and_output` raises once the columns are present. */
  predicate KeyUnset(tokenKey: Option<string>) {
    tokenKey.None? || tokenKey.value == ""
  }

  /** Each chunk's missing columns, as `validate_and_output` reports them. */
  function Lacking(chunks: seq<seq<MainApp.InputRecord>>): (lacks: seq<seq<string>>)
    ensures |lacks| == |chunks|
  {
    seq(|chunks|, k requires 0 <= k < |chunks| => MainApp.MissingColumns(chunks[k]))
  }

  /** Entry `k` of `Lacking` is chunk `k`'s missing columns. */
  lemma LackingAt(chunks: seq<seq<MainApp.InputRecord>>, k: nat)
    requires k < |chunks|
    ensures Lacking(chunks)[k] == MainApp.MissingColumns(chunks[k])
  {
  }

  /** Every chunk so far that lacks a column (`lacks`) has the diagnostic naming them as its outcome. */
  predicate Diagnosed(lacks: seq<seq<string>>, outs: seq<MainApp.Outcome>) {
    && |outs| <= |lacks|
    && forall i :: 0 <= i < |outs| && lacks[i] != [] ==>
      outs[i] == MainApp.MissingColumnsReport(MainApp.MissingColumnsDetail, lacks[i])
  }

  /**
   * The run stopped at its first chunk with every column: that chunk raised
   * and the chunks before it, all diagnostics, counted nothing.
   */
  predicate AbortedAt(chunks: seq<seq<MainApp.InputRecord>>, lacks: seq<seq<string>>,
                      outs: seq<MainApp.Outcome>, totals: Totals) {
    && |lacks| == |chunks|
    && 0 < |outs| <= |chunks|
    && outs[|outs| - 1] == MainApp.KeyMissing
    && lacks[|outs| - 1] == []
    && (forall i :: 0 <= i < |outs| - 1 ==> lacks[i] != [])
    && totals == Totals(|outs|, |Concat(chunks[..|outs|])|, 0, 0)
  }

  // ---- the service state a run leaves behind ----
  // `lacks[k]` stands for chunk `k`'s missing columns (`Lacking(chunks)[k]`
  // in a run), so that these definitions do not reopen `missing_columns`.

  /** The rows whose tokens chunk `k` stores: all its rows when it has every column, none otherwise. */
  function StoredParts(lacks: seq<seq<string>>, chunks: seq<seq<MainApp.InputRecord>>): (parts: seq<seq<MainApp.Row>>)
    requires |lacks| == |chunks|
    ensures |parts| == |chunks|
  {
    seq(|chunks|, k requires 0 <= k < |chunks| => if lacks[k] == [] then MainApp.Rows(chunks[k]) else [])
  }

  /**
   * `TOKEN_MAP` once `validate_and_output` ran on the first `i` chunks,
   * starting from `m`: a chunk with every column stores its rows' tokens,
   * a chunk lacking one stores nothing.
   */
  function TokensAt(m: map<string, Cell>, lacks: seq<seq<string>>, chunks: seq<seq<MainApp.InputRecord>>, i: nat,
                    sha: string -> MainApp.HexDigest): map<string, Cell>
    requires |lacks| == |chunks| && i <= |chunks|
  {
    if i == 0 then m
    else if lacks[i - 1] == [] then MainApp.TokensAfter(TokensAt(m, lacks, chunks, i - 1, sha), MainApp.Rows(chunks[i - 1]), sha)
    else TokensAt(m, lacks, chunks, i - 1, sha)
  }

  /** The map after the first `i` chunks is the map after storing, in one go, the rows of those of them with every column. */
  lemma {:induction false} TokensAtStored(m: map<string, Cell>, lacks: seq<seq<string>>, chunks: seq<seq<MainApp.InputRecord>>,
                                          i: nat, sha: string -> MainApp.HexDigest)
    requires |lacks| == |chunks| && i <= |chunks|
    ensures TokensAt(m, lacks, chunks, i, sha) == MainApp.TokensAfter(m, Concat(StoredParts(lacks, chunks)[..i]), sha)
  {
    var parts := StoredParts(lacks, chunks);
    if i == 0 {
      assert parts[..0] == [];
    } else {
      var n := i - 1;
      var before := Concat(parts[..n]);
      TokensAtStored(m, lacks, chunks, n, sha);
      ConcatPrefix(parts, n);
      MainApp.TokensAfterConcat(m, before, parts[n], sha);
      if lacks[n] == [] {
        assert TokensAt(m, lacks, chunks, i, sha) == MainApp.TokensAfter(TokensAt(m, lacks, chunks, n, sha), parts[n], sha);
      } else {
        assert before + parts[n] == before;
      }
    }
  }

  /** A token in the map after the first `j` chunks is still there after the first `i`. */
  lemma {:induction false} TokensAtGrows(m: map<string, Cell>, lacks: seq<seq<string>>, chunks: seq<seq<MainApp.InputRecord>>,
                                         j: nat, i: nat, sha: string -> MainApp.HexDigest)
    requires |lacks| == |chunks| && j <= i <= |chunks|
    ensures forall k :: k in TokensAt(m, lacks, chunks, j, sha) ==> k in TokensAt(m, lacks, chunks, i, sha)
    decreases i
  {
    if j < i {
      var n := i - 1;
      var before := TokensAt(m, lacks, chunks, n, sha);
      TokensAtGrows(m, lacks, chunks, j, n, sha);
      if lacks[n] == [] {
        assert TokensAt(m, lacks, chunks, i, sha) == MainApp.TokensAfter(before, MainApp.Rows(chunks[n]), sha);
        MainApp.TokensAfterKeeps(before, MainApp.Rows(chunks[n]), sha);
      } else {
        assert TokensAt(m, lacks, chunks, i, sha) == before;
      }
    }
  }

  /**
   * The batch each chunk appends when the key is `key`: chunk `k`'s batch
   * holds the tables of the whole token map the first `k + 1` chunks left.
   */
  function BatchEntries(m: map<string, Cell>, lacks: seq<seq<string>>, chunks: seq<seq<MainApp.InputRecord>>,
                        sha: string -> MainApp.HexDigest, key: string,
                        encrypt: (string, MainApp.TokenTables) -> string,
                        batchIds: nat -> string, timestamps: nat -> int): (batches: seq<MainApp.LedgerItem>)
    requires |lacks| == |chunks|
    ensures |batches| == |chunks|
  {
    seq(|chunks|, k requires 0 <= k < |chunks| =>
      MainApp.Batch(batchIds(k), timestamps(k), encrypt(key, MainApp.TablesOf(TokensAt(m, lacks, chunks, k + 1, sha)))))
  }

  /**
   * The ledger file once `validate_and_output` ran on the first `i` chunks
   * with `TOKEN_MAP_KEY` set, starting from `f`: a chunk with every column
   * appends its batch, a chunk lacking one appends nothing.
   */
  function LedgerAt(f: MainApp.LedgerFile, lacks: seq<seq<string>>, batches: seq<MainApp.LedgerItem>, i: nat): MainApp.LedgerFile
    requires i <= |lacks| && i <= |batches|
  {
    if i == 0 then f
    else if lacks[i - 1] == [] then MainApp.LedgerAfter(LedgerAt(f, lacks, batches, i - 1), batches[i - 1])
    else LedgerAt(f, lacks, batches, i - 1)
  }

  /** The items among the first `i` whose chunk has every column, in order. */
  function Kept<T>(lacks: seq<seq<string>>, items: seq<T>, i: nat): seq<T>
    requires i <= |lacks| && i <= |items|
  {
    if i == 0 then [] else Kept(lacks, items, i - 1) + (if lacks[i - 1] == [] then [items[i - 1]] else [])
  }

  /** At most one item per chunk. */
  lemma {:induction false} KeptAtMost<T>(lacks: seq<seq<string>>, items: seq<T>, i: nat)
    requires i <= |lacks| && i <= |items|
    ensures |Kept(lacks, items, i)| <= i
  {
    if i > 0 {
      KeptAtMost(lacks, items, i - 1);
    }
  }

  /** When every one of the first `i` chunks has every column, all of their items are kept. */
  lemma {:induction false} KeptAll<T>(lacks: seq<seq<string>>, items: seq<T>, i: nat)
    requires i <= |lacks| && i <= |items|
    requires forall k :: 0 <= k < i ==> lacks[k] == []
    ensures Kept(lacks, items, i) == items[..i]
  {
    if i > 0 {
      KeptAll(lacks, items, i - 1);
      assert lacks[i - 1] == [];
      assert items[..i] == items[..i - 1] + [items[i - 1]];
    }
  }

  /** When none of the first `i` chunks has every column, nothing is kept. */
  lemma {:induction false} KeptNone<T>(lacks: seq<seq<string>>, items: seq<T>, i: nat)
    requires i <= |lacks| && i <= |items|
    requires forall k :: 0 <= k < i ==> lacks[k] != []
    ensures Kept(lacks, items, i) == []
  {
    if i > 0 {
      KeptNone(lacks, items, i - 1);
      assert lacks[i - 1] != [];
    }
  }

  /** The ledger file after `entries` were appended one by one to `f`. */
  function LedgerThrough(f: MainApp.LedgerFile, entries: seq<MainApp.LedgerItem>): MainApp.LedgerFile {
    if entries == [] then f else MainApp.ListOf(MainApp.LoadedBatches(f) + entries)
  }

  /** Appending one more entry is one more `LedgerAfter`. */
  lemma LedgerThroughStep(f: MainApp.LedgerFile, entries: seq<MainApp.LedgerItem>, entry: MainApp.LedgerItem)
    ensures LedgerThrough(f, entries + [entry]) == MainApp.LedgerAfter(LedgerThrough(f, entries), entry)
  {
    if entries != [] {
      assert (MainApp.LoadedBatches(f) + entries) + [entry] == MainApp.LoadedBatches(f) + (entries + [entry]);
    }
  }

  /**
   * The ledger after the first `i` chunks is `f` when none of them has
   * every column, and otherwise the batches loaded from `f` followed by the
   * batch of each chunk with every column, in chunk order.
   */
  lemma {:induction false} LedgerAtAppends(f: MainApp.LedgerFile, lacks: seq<seq<string>>, batches: seq<MainApp.LedgerItem>, i: nat)
    requires i <= |lacks| && i <= |batches|
    ensures LedgerAt(f, lacks, batches, i) == LedgerThrough(f, Kept(lacks, batches, i))
  {
    if i > 0 {
      var n := i - 1;
      LedgerAtAppends(f, lacks, batches, n);
      KeptStep(f, lacks, batches, n);
    }
  }

  /** Chunk `i` keeps its batch exactly when it appends it. */
  lemma KeptStep(f: MainApp.LedgerFile, lacks: seq<seq<string>>, batches: seq<MainApp.LedgerItem>, i: nat)
    requires i < |lacks| && i < |batches|
    requires LedgerAt(f, lacks, batches, i) == LedgerThrough(f, Kept(lacks, batches, i))
    ensures LedgerAt(f, lacks, batches, i + 1) == LedgerThrough(f, Kept(lacks, batches, i + 1))
  {
    var es := Kept(lacks, batches, i);
    if lacks[i] == [] {
      assert Kept(lacks, batches, i + 1) == es + [batches[i]];
      LedgerThroughStep(f, es, batches[i]);
    } else {
      assert Kept(lacks, batches, i + 1) == es + [] == es;
    }
  }

  /**
   * The token map and ledger once the first `i` chunks ran, starting from
   * `m0` and `f0`: the tokens of every stored row; with the key set, the
   * batch of each chunk with every column appended (`batches` being
   * `BatchEntries` for that key); with it unset, the ledger untouched.
   */
  predicate ServiceAt(m0: map<string, Cell>, f0: MainApp.LedgerFile, lacks: seq<seq<string>>,
                      chunks: seq<seq<MainApp.InputRecord>>, i: nat, sha: string -> MainApp.HexDigest,
                      tokenKey: Option<string>, batches: seq<MainApp.LedgerItem>,
                      tokens: map<string, Cell>, ledger: MainApp.LedgerFile) {
    && |lacks| == |chunks| == |batches| && i <= |chunks|
    && tokens == TokensAt(m0, lacks, chunks, i, sha)
    && (KeyUnset(tokenKey) ==> ledger == f0)
    && (!KeyUnset(tokenKey) ==> ledger == LedgerAt(f0, lacks, batches, i))
  }

  /**
   * One chunk's `validate_and_output`, with the effects `ValidateChunk`
   * states, moves the token map and ledger from their state after the
   * first `i` chunks to their state after `i + 1`.
   */
  lemma ServiceStep(m0: map<string, Cell>, f0: MainApp.LedgerFile, lacks: seq<seq<string>>,
                    chunks: seq<seq<MainApp.InputRecord>>, i: nat, sha: string -> MainApp.HexDigest,
                    tokenKey: Option<string>, encrypt: (string, MainApp.TokenTables) -> string,
                    batchIds: nat -> string, timestamps: nat -> int, batches: seq<MainApp.LedgerItem>,
                    tokens: map<string, Cell>, ledger: MainApp.LedgerFile,
                    tokens': map<string, Cell>, ledger': MainApp.LedgerFile)
    requires |lacks| == |chunks| && i < |chunks|
    requires batches == BatchEntries(m0, lacks, chunks, sha, tokenKey.GetOr(""), encrypt, batchIds, timestamps)
    requires ServiceAt(m0, f0, lacks, chunks, i, sha, tokenKey, batches, tokens, ledger)
    requires lacks[i] != [] ==> tokens' == tokens && ledger' == ledger
    requires lacks[i] == [] ==> tokens' == MainApp.TokensAfter(tokens, MainApp.Rows(chunks[i]), sha)
    requires lacks[i] == [] && KeyUnset(tokenKey) ==> ledger' == ledger
    requires lacks[i] == [] && !KeyUnset(tokenKey) ==>
      ledger' == MainApp.LedgerAfter(ledger, MainApp.Batch(batchIds(i), timestamps(i), encrypt(tokenKey.value, MainApp.TablesOf(tokens'))))
    ensures ServiceAt(m0, f0, lacks, chunks, i + 1, sha, tokenKey, batches, tokens', ledger')
  {
    if lacks[i] == [] {
      assert TokensAt(m0, lacks, chunks, i + 1, sha) == MainApp.TokensAfter(tokens, MainApp.Rows(chunks[i]), sha);
      if !KeyUnset(tokenKey) {
        assert batches[i] == MainApp.Batch(batchIds(i), timestamps(i), encrypt(tokenKey.value, MainApp.TablesOf(tokens')));
        assert LedgerAt(f0, lacks, batches, i + 1) == MainApp.LedgerAfter(ledger, batches[i]);
      }
    } else {
      assert TokensAt(m0, lacks, chunks, i + 1, sha) == tokens;
      assert LedgerAt(f0, lacks, batches, i + 1) == LedgerAt(f0, lacks, batches, i);
    }
  }

  /**
   * One `validate_and_output` call on chunk `i`, seen through what the
   * counters need: the chunk's missing columns are `Lacking(chunks)[i]`.
   */
  method ValidateChunk(svc: MainApp.Service, chunks: seq<seq<MainApp.InputRecord>>, i: nat,
                       sha: string -> MainApp.HexDigest,
                       tokenKey: Option<string>, encrypt: (string, MainApp.TokenTables) -> string,
                       batchId: string, timestamp: int,
                       parseFloat: Cell -> Option<AccountValidator.Amount>,
                       draws: nat -> AccountValidator.UpstreamDraws) returns (out: MainApp.Outcome)
    requires i < |chunks|
    modifies svc
    ensures out.KeyMissing? <==> Lacking(chunks)[i] == [] && KeyUnset(tokenKey)
    ensures Lacking(chunks)[i] != [] ==> out == MainApp.MissingColumnsReport(MainApp.MissingColumnsDetail, Lacking(chunks)[i])
    ensures !out.KeyMissing? ==> ChunkAnswered(|chunks[i]|, Lacking(chunks)[i], out, tokenKey)
    ensures Lacking(chunks)[i] != [] ==> svc.tokenMap == old(svc.tokenMap) && svc.ledger == old(svc.ledger)
    ensures Lacking(chunks)[i] == [] ==> svc.tokenMap == MainApp.TokensAfter(old(svc.tokenMap), MainApp.Rows(chunks[i]), sha)
    ensures Lacking(chunks)[i] == [] && KeyUnset(tokenKey) ==> svc.ledger == old(svc.ledger)
    ensures Lacking(chunks)[i] == [] && !KeyUnset(tokenKey) ==>
      svc.ledger == MainApp.LedgerAfter(old(svc.ledger),
                                        MainApp.Batch(batchId, timestamp, encrypt(tokenKey.value, MainApp.TablesOf(svc.tokenMap))))
  {
    LackingAt(chunks, i);
    out := svc.ValidateAndOutput(chunks[i], sha, tokenKey, encrypt, batchId, timestamp, parseFloat, draws);
  }

  /**
   * One chunk's outcome in a run that goes on, given the chunk's size and
   * missing columns: it did not raise; it completed with counts adding up to
   * the size when no column was missing; it is the diagnostic when one was;
   * and with the key unset only the latter can happen.
   */
  predicate ChunkAnswered(size: nat, lacking: seq<string>, out: MainApp.Outcome, tokenKey: Option<string>) {
    && out != MainApp.KeyMissing
    && (lacking == [] ==> out.Completed? && out.summary.valid + out.summary.invalid == size)
    && (lacking != [] ==> out == MainApp.MissingColumnsReport(MainApp.MissingColumnsDetail, lacking))
    && (KeyUnset(tokenKey) ==> lacking != [])
  }

  /**
   * What `main`'s counters hold after the chunks `outs` answers: one outcome
   * per chunk so far, none of them the raise, and the running totals, which
   * with the key unset are still zero.
   */
  predicate Progress(chunks: seq<seq<MainApp.InputRecord>>, lacks: seq<seq<string>>, outs: seq<MainApp.Outcome>,
                     tokenKey: Option<string>, t: Totals) {
    && |lacks| == |chunks|
    && |outs| <= |chunks|
    && t == Totals(|outs|, |Concat(chunks[..|outs|])|, SumValid(outs), SumInvalid(outs))
    && (KeyUnset(tokenKey) ==> t.valid == 0 && t.invalid == 0)
    && forall k :: 0 <= k < |outs| ==> ChunkAnswered(|chunks[k]|, lacks[k], outs[k], tokenKey)
  }

  /** One more outcome adds its own counts to the sums. */
  lemma SumsStep(outs: seq<MainApp.Outcome>, out: MainApp.Outcome)
    ensures SumValid(outs + [out]) == SumValid(outs) + ValidOf(out)
    ensures SumInvalid(outs + [out]) == SumInvalid(outs) + InvalidOf(out)
  {
    assert (outs + [out])[..|outs|] == outs;
  }

  /** One more chunk adds its records. */
  lemma RecordsStep(chunks: seq<seq<MainApp.InputRecord>>, i: nat)
    requires i < |chunks|
    ensures |Concat(chunks[..i + 1])| == |Concat(chunks[..i])| + |chunks[i]|
  {
    assert chunks[..i + 1][..i] == chunks[..i];
  }

  /** A chunk that does not raise moves the counters by its own outcome. */
  lemma ProgressStep(chunks: seq<seq<MainApp.InputRecord>>, lacks: seq<seq<string>>, outs: seq<MainApp.Outcome>,
                     tokenKey: Option<string>, i: nat, records: nat, valid: nat, invalid: nat, out: MainApp.Outcome)
    requires |outs| == i < |chunks|
    requires Progress(chunks, lacks, outs, tokenKey, Totals(i, records, valid, invalid))
    requires ChunkAnswered(|chunks[i]|, lacks[i], out, tokenKey)
    ensures Progress(chunks, lacks, outs + [out], tokenKey,
                     Totals(i + 1, records + |chunks[i]|, valid + ValidOf(out), invalid + InvalidOf(out)))
  {
    var outs' := outs + [out];
    assert forall k :: 0 <= k < i ==> outs'[k] == outs[k];
    SumsStep(outs, out);
    RecordsStep(chunks, i);
    if KeyUnset(tokenKey) {
      DiagnosticCountsZero(outs, lacks[i]);
    }
  }

  /** The chunk that raises ends the run as `AbortedAt` describes. */
  lemma AbortFacts(chunks: seq<seq<MainApp.InputRecord>>, lacks: seq<seq<string>>, outs: seq<MainApp.Outcome>,
                   tokenKey: Option<string>, t: Totals)
    requires Progress(chunks, lacks, outs, tokenKey, t) && |outs| < |chunks|
    requires KeyUnset(tokenKey) && lacks[|outs|] == []
    ensures Diagnosed(lacks, outs + [MainApp.KeyMissing])
    ensures AbortedAt(chunks, lacks, outs + [MainApp.KeyMissing], Totals(t.chunks + 1, t.records + |chunks[|outs|]|, 0, 0))
  {
    var outs' := outs + [MainApp.KeyMissing];
    assert forall k :: 0 <= k < |outs| ==> outs'[k] == outs[k] && ChunkAnswered(|chunks[k]|, lacks[k], outs[k], tokenKey);
    RecordsStep(chunks, |outs|);
  }

  /** After every chunk completed, the counters are `TotalsOf`, and add up when no column was missing. */
  lemma ProgressDone(chunks: seq<seq<MainApp.InputRecord>>, lacks: seq<seq<string>>, outs: seq<MainApp.Outcome>,
                     tokenKey: Option<string>, t: Totals)
    requires Progress(chunks, lacks, outs, tokenKey, t) && |outs| == |chunks|
    ensures t == TotalsOf(chunks, outs)
    ensures Diagnosed(lacks, outs)
    ensures forall i :: 0 <= i < |outs| ==> outs[i] != MainApp.KeyMissing
    ensures KeyUnset(tokenKey) ==> forall i :: 0 <= i < |chunks| ==> lacks[i] != []
    ensures (forall i :: 0 <= i < |chunks| ==> lacks[i] == []) ==> t.valid + t.invalid == t.records
  {
    assert chunks[..|chunks|] == chunks;
    assert forall k :: 0 <= k < |outs| ==> ChunkAnswered(|chunks[k]|, lacks[k], outs[k], tokenKey);
    if forall k :: 0 <= k < |chunks| ==> lacks[k] == [] {
      TotalsAddUp(chunks, outs);
    }
  }

  /** A run that raised at chunk `|outs|` ends as `RunChunks` promises. */
  lemma AbortedRun(chunks: seq<seq<MainApp.InputRecord>>, outs: seq<MainApp.Outcome>, tokenKey: Option<string>, t: Totals)
    requires Progress(chunks, Lacking(chunks), outs, tokenKey, t) && |outs| < |chunks|
    requires KeyUnset(tokenKey) && Lacking(chunks)[|outs|] == []
    ensures exists i :: 0 <= i < |chunks| && Lacking(chunks)[i] == []
    ensures Diagnosed(Lacking(chunks), outs + [MainApp.KeyMissing])
    ensures AbortedAt(chunks, Lacking(chunks), outs + [MainApp.KeyMissing], Totals(t.chunks + 1, t.records + |chunks[|outs|]|, 0, 0))
  {
    AbortFacts(chunks, Lacking(chunks), outs, tokenKey, t);
  }

  /** A run that went through every chunk ends as `RunChunks` promises. */
  lemma CompletedRun(chunks: seq<seq<MainApp.InputRecord>>, outs: seq<MainApp.Outcome>, tokenKey: Option<string>, t: Totals)
    requires Progress(chunks, Lacking(chunks), outs, tokenKey, t) && |outs| == |chunks|
    ensures !(KeyUnset(tokenKey) && exists i :: 0 <= i < |chunks| && Lacking(chunks)[i] == [])
    ensures Diagnosed(Lacking(chunks), outs)
    ensures t == TotalsOf(chunks, outs)
    ensures forall i :: 0 <= i < |outs| ==> outs[i] != MainApp.KeyMissing
    ensures (forall i :: 0 <= i < |chunks| ==> Lacking(chunks)[i] == []) ==> t.valid + t.invalid == t.records
  {
    ProgressDone(chunks, Lacking(chunks), outs, tokenKey, t);
  }

  /**
   * `main`'s loop: each chunk is validated in turn and the counters move.
   * A chunk lacking a column records its diagnostic and counts nothing; the
   * first chunk with every column raises out of the loop when `TOKEN_MAP_KEY`
   * is unset, and then nothing is reported (`aborted`).
   */
  method RunChunks(svc: MainApp.Service, chunks: seq<seq<MainApp.InputRecord>>, sha: string -> MainApp.HexDigest,
                   tokenKey: Option<string>, encrypt: (string, MainApp.TokenTables) -> string,
                   batchIds: nat -> string, timestamps: nat -> int,
                   parseFloat: Cell -> Option<AccountValidator.Amount>,
                   draws: nat -> nat -> AccountValidator.UpstreamDraws)
    returns (aborted: bool, totals: Totals, outs: seq<MainApp.Outcome>)
    modifies svc
    ensures aborted <==> KeyUnset(tokenKey) && exists i :: 0 <= i < |chunks| && Lacking(chunks)[i] == []
    ensures Diagnosed(Lacking(chunks), outs)
    ensures aborted ==> AbortedAt(chunks, Lacking(chunks), outs, totals)
    ensures !aborted ==> |outs| == |chunks| && totals == TotalsOf(chunks, outs)
    ensures !aborted ==> forall i :: 0 <= i < |outs| ==> outs[i] != MainApp.KeyMissing
    ensures !aborted && (forall i :: 0 <= i < |chunks| ==> Lacking(chunks)[i] == []) ==>
      totals.valid + totals.invalid == totals.records
    ensures ServiceAt(old(svc.tokenMap), old(svc.ledger), Lacking(chunks), chunks, |outs|, sha, tokenKey,
                      BatchEntries(old(svc.tokenMap), Lacking(chunks), chunks, sha, tokenKey.GetOr(""), encrypt, batchIds, timestamps),
                      svc.tokenMap, svc.ledger)
  {
    ghost var lacks := Lacking(chunks);
    ghost var m0, f0 := svc.tokenMap, svc.ledger;
    ghost var batches := BatchEntries(m0, lacks, chunks, sha, tokenKey.GetOr(""), encrypt, batchIds, timestamps);
    var chunkNum: nat, totalRecords: nat, totalValid: nat, totalInvalid: nat := 0, 0, 0, 0;
    outs, aborted := [], false;
    for i := 0 to |chunks|
      invariant |outs| == i == chunkNum && !aborted
      invariant Progress(chunks, lacks, outs, tokenKey, Totals(chunkNum, totalRecords, totalValid, totalInvalid))
      invariant ServiceAt(m0, f0, lacks, chunks, i, sha, tokenKey, batches, svc.tokenMap, svc.ledger)
    {
      ghost var tokens, ledger := svc.tokenMap, svc.ledger;
      var out := ValidateChunk(svc, chunks, i, sha, tokenKey, encrypt, batchIds(i), timestamps(i),
                               parseFloat, draws(i));
      ServiceStep(m0, f0, lacks, chunks, i, sha, tokenKey, encrypt, batchIds, timestamps, batches,
                  tokens, ledger, svc.tokenMap, svc.ledger);
      if out.KeyMissing? {
        AbortedRun(chunks, outs, tokenKey, Totals(chunkNum, totalRecords, totalValid, totalInvalid));
        aborted, totals, outs := true, Totals(chunkNum + 1, totalRecords + |chunks[i]|, 0, 0), outs + [out];
        break;
      }
      ProgressStep(chunks, lacks, outs, tokenKey, chunkNum, totalRecords, totalValid, totalInvalid, out);
      chunkNum := chunkNum + 1;
      totalRecords := totalRecords + |chunks[i]|;
      outs := outs + [out];
      totalValid := totalValid + ValidOf(out);
      totalInvalid := totalInvalid + InvalidOf(out);
    }
    if !aborted {
      totals := Totals(chunkNum, totalRecords, totalValid, totalInvalid);
      CompletedRun(chunks, outs, tokenKey, totals);
    }
  }
}
