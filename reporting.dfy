/**
 * Batch reporting (app/reporting.py): the error breakdown by error type
 * over the invalid rows, and the per-bank statistics.  Rows are sequences
 * instead of DataFrames; a Python dictionary's insertion order is a
 * sequence of keys.
 */
module Reporting {
  import opened Wrappers
  import opened Table

  // ---- counting, as `defaultdict(int)` and `Counter` do it ----

  /** The distinct values of `xs` in order of first occurrence (a counter's key order). */
  function Keys<T(==)>(xs: seq<T>): seq<T> {
    if xs == [] then []
    else
      var p := xs[..|xs| - 1];
      Keys(p) + (if xs[|xs| - 1] in p then [] else [xs[|xs| - 1]])
  }

  /** How many times `x` occurs in `xs`. */
  function Occurrences<T(==)>(xs: seq<T>, x: T): nat {
    if xs == [] then 0
    else Occurrences(xs[..|xs| - 1], x) + (if xs[|xs| - 1] == x then 1 else 0)
  }

  predicate Distinct<T(==)>(xs: seq<T>) {
    forall i, j :: 0 <= i < j < |xs| ==> xs[i] != xs[j]
  }

  lemma KeysAppend<T>(xs: seq<T>, x: T)
    ensures Keys(xs + [x]) == Keys(xs) + (if x in xs then [] else [x])
    ensures Occurrences(xs + [x], x) == Occurrences(xs, x) + 1
    ensures forall y :: y != x ==> Occurrences(xs + [x], y) == Occurrences(xs, y)
  {
    assert (xs + [x])[..|xs|] == xs;
  }

  /** The keys are exactly the values that occur, each once. */
  lemma {:induction false} KeysMeaning<T>(xs: seq<T>)
    ensures Distinct(Keys(xs))
    ensures forall x :: x in Keys(xs) <==> x in xs
  {
    if xs != [] {
      var p, x := xs[..|xs| - 1], xs[|xs| - 1];
      assert xs == p + [x];
      KeysMeaning(p);
      KeysAppend(p, x);
    }
  }

  lemma {:induction false} OccurrencesAbsent<T>(xs: seq<T>, x: T)
    requires x !in xs
    ensures Occurrences(xs, x) == 0
  {
    if xs != [] {
      OccurrencesAbsent(xs[..|xs| - 1], x);
    }
  }

  lemma {:induction false} OccurrencesPresent<T>(xs: seq<T>, x: T)
    requires x in xs
    ensures Occurrences(xs, x) >= 1
  {
    var p := xs[..|xs| - 1];
    if xs[|xs| - 1] != x {
      assert x in p by {
        var i :| 0 <= i < |xs| && xs[i] == x;
        assert p[i] == x;
      }
      OccurrencesPresent(p, x);
    }
  }

  /** The sum of the occurrence counts of the values in `ks`. */
  function SumOccurrences<T(==)>(ks: seq<T>, xs: seq<T>): nat {
    if ks == [] then 0 else SumOccurrences(ks[..|ks| - 1], xs) + Occurrences(xs, ks[|ks| - 1])
  }

  lemma {:induction false} SumOccurrencesStep<T>(ks: seq<T>, xs: seq<T>, x: T)
    requires Distinct(ks)
    ensures SumOccurrences(ks, xs + [x]) == SumOccurrences(ks, xs) + (if x in ks then 1 else 0)
  {
    KeysAppend(xs, x);
    if ks != [] {
      var p := ks[..|ks| - 1];
      SumOccurrencesStep(p, xs, x);
      assert x in ks <==> x in p || ks[|ks| - 1] == x;
      if ks[|ks| - 1] == x {
        assert x !in p;
      }
    }
  }

  /** Counting every value once under its key accounts for every element: nothing is lost or doubled. */
  lemma {:induction false} OccurrencesSum<T>(xs: seq<T>)
    ensures SumOccurrences(Keys(xs), xs) == |xs|
  {
    if xs != [] {
      var p, x := xs[..|xs| - 1], xs[|xs| - 1];
      assert xs == p + [x];
      OccurrencesSum(p);
      KeysMeaning(p);
      KeysAppend(p, x);
      SumOccurrencesStep(Keys(p), p, x);
      if x !in p {
        OccurrencesAbsent(p, x);
        var ks := Keys(p) + [x];
        assert Keys(xs) == ks;
        assert ks[..|ks| - 1] == Keys(p);
        assert SumOccurrences(ks, xs) == SumOccurrences(Keys(p), xs) + Occurrences(xs, x);
      } else {
        assert Keys(xs) == Keys(p);
      }
    }
  }

  /** What a `Counter` holds after counting `xs`. */
  function CounterOf(xs: seq<string>): (m: map<string, nat>)
    ensures forall x :: x in m <==> x in xs
  {
    map x | x in xs :: Occurrences(xs, x)
  }

  lemma CounterStep(xs: seq<string>, x: string)
    ensures CounterOf(xs + [x]) == CounterOf(xs)[x := (if x in CounterOf(xs) then CounterOf(xs)[x] else 0) + 1]
  {
    KeysAppend(xs, x);
    if x !in xs {
      OccurrencesAbsent(xs, x);
    }
  }

  /** `counter[key] += 1` on a `defaultdict(int)` or a `Counter`. */
  function Increment(counter: map<string, nat>, key: string): (m: map<string, nat>)
    ensures key in m && m[key] == (if key in counter then counter[key] else 0) + 1
    ensures forall k :: k != key ==> (k in m <==> k in counter) && (k in counter ==> m[k] == counter[k])
  {
    counter[key := (if key in counter then counter[key] else 0) + 1]
  }

  // ---- error_breakdown_by_field ----

  /** The messages of the entries of type `t`, in order. */
  function MessagesOfType(es: seq<ErrorEntry>, t: string): seq<string> {
    if es == [] then []
    else
      var e := es[|es| - 1];
      MessagesOfType(es[..|es| - 1], t) + (if TypeOf(e) == t then [MessageOf(e)] else [])
  }

  /** The first three elements, or all when there are fewer. */
  function FirstThree(ms: seq<string>): (r: seq<string>)
    ensures |r| <= 3 && |r| <= |ms| && r == ms[..|r|]
    ensures |ms| >= 3 ==> |r| == 3
    ensures |ms| < 3 ==> r == ms
  {
    if |ms| <= 3 then ms else ms[..3]
  }

  lemma FirstThreeStep(ms: seq<string>, m: string)
    ensures FirstThree(ms + [m]) == if |FirstThree(ms)| < 3 then FirstThree(ms) + [m] else FirstThree(ms)
  {
    if |ms| >= 3 {
      assert (ms + [m])[..3] == ms[..3];
    }
  }

  lemma MessagesStep(es: seq<ErrorEntry>, e: ErrorEntry, t: string)
    ensures MessagesOfType(es + [e], t) == MessagesOfType(es, t) + (if TypeOf(e) == t then [MessageOf(e)] else [])
  {
    assert (es + [e])[..|es|] == es;
  }

  /** A type with no entry in `seen` has no messages. */
  lemma {:induction false} MessagesAbsent(seen: seq<ErrorEntry>, t: string)
    requires t !in Types(seen)
    ensures MessagesOfType(seen, t) == []
  {
    if seen != [] {
      var p := seen[..|seen| - 1];
      TypesAppend(p, seen[|seen| - 1]);
      assert seen == p + [seen[|seen| - 1]];
      assert Types(seen) == Types(p) + [TypeOf(seen[|seen| - 1])];
      MessagesAbsent(p, t);
    }
  }

  /** One entry of the breakdown: a type, how many entries have it, and up to three example messages. */
  datatype FieldBreakdown = FieldBreakdown(field: string, count: nat, examples: seq<string>)

  /** The breakdown of a list of entries, by type in order of first occurrence. */
  function Breakdown(es: seq<ErrorEntry>): (r: seq<FieldBreakdown>)
    ensures |r| == |Keys(Types(es))|
  {
    var ks := Keys(Types(es));
    seq(|ks|, k requires 0 <= k < |ks| =>
      FieldBreakdown(ks[k], Occurrences(Types(es), ks[k]), FirstThree(MessagesOfType(es, ks[k]))))
  }

  /**
   * The state of `error_breakdown_by_field` after the entries `seen`: the
   * counter's keys in insertion order, the counter, and the examples.
   */
  ghost predicate Tracks(order: seq<string>, fieldCounter: map<string, nat>,
                         errorExamples: map<string, seq<string>>, seen: seq<ErrorEntry>)
  {
    && order == Keys(Types(seen))
    && fieldCounter == CounterOf(Types(seen))
    && (forall t :: t in errorExamples <==> t in fieldCounter)
    && (forall t :: t in errorExamples ==> errorExamples[t] == FirstThree(MessagesOfType(seen, t)))
  }

  /** Keeping the message of one more entry keeps the first three of each type. */
  lemma ExamplesStep(errorExamples: map<string, seq<string>>, seen: seq<ErrorEntry>, err: ErrorEntry)
    requires forall t :: t in errorExamples <==> t in Types(seen)
    requires forall t :: t in errorExamples ==> errorExamples[t] == FirstThree(MessagesOfType(seen, t))
    ensures var field := TypeOf(err);
      var examples := if field in errorExamples then errorExamples[field] else [];
      var examples' := if |examples| < 3 then examples + [MessageOf(err)] else examples;
      forall t :: t in errorExamples[field := examples'] ==>
        errorExamples[field := examples'][t] == FirstThree(MessagesOfType(seen + [err], t))
  {
    var field := TypeOf(err);
    var examples := if field in errorExamples then errorExamples[field] else [];
    var examples' := if |examples| < 3 then examples + [MessageOf(err)] else examples;
    var updated := errorExamples[field := examples'];
    assert examples == FirstThree(MessagesOfType(seen, field)) by {
      if field !in errorExamples {
        MessagesAbsent(seen, field);
      }
    }
    forall t | t in updated
      ensures updated[t] == FirstThree(MessagesOfType(seen + [err], t))
    {
      MessagesStep(seen, err, t);
      if t == field {
        FirstThreeStep(MessagesOfType(seen, field), MessageOf(err));
      } else {
        assert MessagesOfType(seen + [err], t) == MessagesOfType(seen, t);
      }
    }
  }

  lemma OrderStep(order: seq<string>, fieldCounter: map<string, nat>, errorExamples: map<string, seq<string>>,
                   seen: seq<ErrorEntry>, err: ErrorEntry)
    requires Tracks(order, fieldCounter, errorExamples, seen)
    ensures var field := TypeOf(err);
      (if field in fieldCounter then order else order + [field]) == Keys(Types(seen + [err]))
  {
    var field := TypeOf(err);
    var ts := Types(seen);
    assert Types(seen + [err]) == ts + [field] by {
      TypesAppend(seen, err);
    }
    assert field in fieldCounter <==> field in ts;
    KeysAppend(ts, field);
  }
  lemma CounterTracked(fieldCounter: map<string, nat>, seen: seq<ErrorEntry>, err: ErrorEntry)
    requires fieldCounter == CounterOf(Types(seen))
    ensures Increment(fieldCounter, TypeOf(err)) == CounterOf(Types(seen + [err]))
  {
    var field := TypeOf(err);
    var ts := Types(seen);
    TypesAppend(seen, err);
    CounterStep(ts, field);
    assert Increment(fieldCounter, field) == CounterOf(ts)[field := (if field in CounterOf(ts) then CounterOf(ts)[field] else 0) + 1];
  }
  lemma ExamplesTracked(order: seq<string>, fieldCounter: map<string, nat>, errorExamples: map<string, seq<string>>,
                   seen: seq<ErrorEntry>, err: ErrorEntry)
    requires Tracks(order, fieldCounter, errorExamples, seen)
    ensures var field := TypeOf(err);
      var examples := if field in errorExamples then errorExamples[field] else [];
      var examples' := if |examples| < 3 then examples + [MessageOf(err)] else examples;
      forall t :: t in errorExamples[field := examples'] ==>
        errorExamples[field := examples'][t] == FirstThree(MessagesOfType(seen + [err], t))
  {
    ExamplesStep(errorExamples, seen, err);
  }
  lemma TracksStep(order: seq<string>, fieldCounter: map<string, nat>, errorExamples: map<string, seq<string>>,
                    seen: seq<ErrorEntry>, err: ErrorEntry)
    requires Tracks(order, fieldCounter, errorExamples, seen)
    ensures var field := TypeOf(err);
      var examples := if field in errorExamples then errorExamples[field] else [];
      var examples' := if |examples| < 3 then examples + [MessageOf(err)] else examples;
      Tracks(if field in fieldCounter then order else order + [field],
             Increment(fieldCounter, field),
             errorExamples[field := examples'],
             seen + [err])
  {
    OrderStep(order, fieldCounter, errorExamples, seen, err);
    CounterTracked(fieldCounter, seen, err);
    ExamplesTracked(order, fieldCounter, errorExamples, seen, err);
  }

  /** The body of the inner loop: count one entry and keep its message if fewer than three are kept. */
  method CountEntry(order: seq<string>, fieldCounter: map<string, nat>, errorExamples: map<string, seq<string>>,
                    ghost seen: seq<ErrorEntry>, err: ErrorEntry)
    returns (order': seq<string>, fieldCounter': map<string, nat>, errorExamples': map<string, seq<string>>)
    requires Tracks(order, fieldCounter, errorExamples, seen)
    ensures Tracks(order', fieldCounter', errorExamples', seen + [err])
  {
    TracksStep(order, fieldCounter, errorExamples, seen, err);
    var field := TypeOf(err);
    order' := order;
    if field !in fieldCounter {
      order' := order + [field];
    }
    fieldCounter' := Increment(fieldCounter, field);
    var examples := if field in errorExamples then errorExamples[field] else [];
    if |examples| < 3 {
      examples := examples + [MessageOf(err)];
    }
    errorExamples' := errorExamples[field := examples];
  }

  /**
   * `error_breakdown_by_field` over the `errors` lists of the invalid rows:
   * a counter and an example list per type, updated entry by entry.
   */
  method ErrorBreakdownByField(errorLists: seq<seq<ErrorEntry>>) returns (r: seq<FieldBreakdown>)
    ensures r == Breakdown(Concat(errorLists))
  {
    var order: seq<string> := [];
    var fieldCounter: map<string, nat> := map[];
    var errorExamples: map<string, seq<string>> := map[];
    assert errorLists[..0] == [];
    for i := 0 to |errorLists|
      invariant Tracks(order, fieldCounter, errorExamples, Concat(errorLists[..i]))
    {
      ConcatPrefix(errorLists, i);
      var errList := errorLists[i];
      ghost var before := Concat(errorLists[..i]);
      assert before + errList[..0] == before;
      for j := 0 to |errList|
        invariant Tracks(order, fieldCounter, errorExamples, before + errList[..j])
      {
        assert before + errList[..j + 1] == (before + errList[..j]) + [errList[j]];
        order, fieldCounter, errorExamples := CountEntry(order, fieldCounter, errorExamples, before + errList[..j], errList[j]);
      }
      assert errList[..|errList|] == errList;
    }
    assert errorLists[..|errorLists|] == errorLists;
    var flat := Concat(errorLists);
    KeysMeaning(Types(flat));
    r := seq(|order|, k requires 0 <= k < |order| =>
      FieldBreakdown(order[k], fieldCounter[order[k]], errorExamples[order[k]]));
  }

  /** The total of the counts of a breakdown. */
  function TotalCount(r: seq<FieldBreakdown>): nat {
    if r == [] then 0 else TotalCount(r[..|r| - 1]) + r[|r| - 1].count
  }

  lemma {:induction false} TotalCountIsSum(r: seq<FieldBreakdown>, ks: seq<string>, xs: seq<string>)
    requires |r| == |ks|
    requires forall k :: 0 <= k < |r| ==> r[k].count == Occurrences(xs, ks[k])
    ensures TotalCount(r) == SumOccurrences(ks, xs)
  {
    if r != [] {
      TotalCountIsSum(r[..|r| - 1], ks[..|ks| - 1], xs);
    }
  }

  /** The breakdown has one entry per type that occurs, and no other. */
  lemma BreakdownFields(es: seq<ErrorEntry>)
    ensures var r := Breakdown(es);
      && (forall k :: 0 <= k < |r| ==> r[k].field in Types(es))
      && (forall i :: 0 <= i < |es| ==> exists k :: 0 <= k < |r| && r[k].field == TypeOf(es[i]))
      && (forall k, l :: 0 <= k < l < |r| ==> r[k].field != r[l].field)
  {
    var r := Breakdown(es);
    var ks := Keys(Types(es));
    KeysMeaning(Types(es));
    forall i | 0 <= i < |es| ensures exists k :: 0 <= k < |r| && r[k].field == TypeOf(es[i]) {
      assert Types(es)[i] == TypeOf(es[i]);
      assert TypeOf(es[i]) in Types(es);
      assert TypeOf(es[i]) in ks;
      var k :| 0 <= k < |ks| && ks[k] == TypeOf(es[i]);
      assert r[k].field == TypeOf(es[i]);
    }
  }

  /**
   * Each entry counts every error of its type (a missing type counted under
   * "unknown"), keeps at most the first three messages of that type, and
   * the counts add up to the number of entries.
   */
  lemma BreakdownCounts(es: seq<ErrorEntry>)
    ensures var r := Breakdown(es);
      && (forall k :: 0 <= k < |r| ==> r[k].count == Occurrences(Types(es), r[k].field) >= 1)
      && (forall k :: 0 <= k < |r| ==>
            (|r[k].examples| <= 3 && r[k].examples == MessagesOfType(es, r[k].field)[..|r[k].examples|]))
      && TotalCount(r) == |es|
  {
    var r := Breakdown(es);
    var ks := Keys(Types(es));
    KeysMeaning(Types(es));
    forall k | 0 <= k < |r| ensures r[k].count >= 1 {
      OccurrencesPresent(Types(es), ks[k]);
    }
    TotalCountIsSum(r, ks, Types(es));
    OccurrencesSum(Types(es));
  }

  // ---- per_bank_stats ----

  /** One row of the results table as `per_bank_stats` sees it. */
  datatype ResultRow = ResultRow(bank: Cell, status: string, errors: seq<ErrorEntry>)

  /** One bank's statistics. */
  datatype BankStats = BankStats(total: nat, valid: nat, invalid: nat, errorTypes: map<string, nat>)

  /** The bank codes of the rows that have one; `groupby` drops rows whose bank code is missing. */
  function BankColumn(rows: seq<ResultRow>): seq<string> {
    if rows == [] then []
    else
      var row := rows[|rows| - 1];
      BankColumn(rows[..|rows| - 1]) + (if row.bank.Text? then [row.bank.s] else [])
  }

  /** How many rows of bank `b` have status `status`. */
  function StatusCount(rows: seq<ResultRow>, b: string, status: string): nat {
    if rows == [] then 0
    else
      var row := rows[|rows| - 1];
      StatusCount(rows[..|rows| - 1], b, status) + (if row.bank == Text(b) && row.status == status then 1 else 0)
  }

  /** The `errors` lists of bank `b`'s rows with status "Invalid", in order. */
  function InvalidErrors(rows: seq<ResultRow>, b: string): seq<seq<ErrorEntry>> {
    if rows == [] then []
    else
      var row := rows[|rows| - 1];
      InvalidErrors(rows[..|rows| - 1], b) + (if row.bank == Text(b) && row.status == "Invalid" then [row.errors] else [])
  }

  /** The statistics `per_bank_stats` reports for bank `b`. */
  function BankStatsOf(rows: seq<ResultRow>, b: string): BankStats {
    BankStats(
      Occurrences(BankColumn(rows), b),
      StatusCount(rows, b, "Valid"),
      StatusCount(rows, b, "Invalid"),
      CounterOf(Types(Concat(InvalidErrors(rows, b)))))
  }

  lemma RowStep(rows: seq<ResultRow>, i: nat, b: string)
    requires i < |rows|
    ensures var row := rows[i];
      && BankColumn(rows[..i + 1]) == BankColumn(rows[..i]) + (if row.bank.Text? then [row.bank.s] else [])
      && (forall st :: StatusCount(rows[..i + 1], b, st) == StatusCount(rows[..i], b, st) + (if row.bank == Text(b) && row.status == st then 1 else 0))
      && InvalidErrors(rows[..i + 1], b) == InvalidErrors(rows[..i], b) + (if row.bank == Text(b) && row.status == "Invalid" then [row.errors] else [])
  {
    assert rows[..i + 1][..i] == rows[..i];
  }

  /** Adds one `errors` list to a type counter. */
  method CountTypes(counter: map<string, nat>, ghost seen: seq<string>, errList: seq<ErrorEntry>)
    returns (counter': map<string, nat>)
    requires counter == CounterOf(seen)
    ensures counter' == CounterOf(seen + Types(errList))
  {
    counter' := counter;
    assert seen + Types(errList[..0]) == seen;
    for j := 0 to |errList|
      invariant counter' == CounterOf(seen + Types(errList[..j]))
    {
      CountTypesStep(seen, errList, j);
      counter' := Increment(counter', TypeOf(errList[j]));
    }
    assert errList[..|errList|] == errList;
  }

  /** Counting one more entry's type increments that type's count. */
  lemma CountTypesStep(seen: seq<string>, errList: seq<ErrorEntry>, j: nat)
    requires j < |errList|
    ensures CounterOf(seen + Types(errList[..j + 1]))
      == Increment(CounterOf(seen + Types(errList[..j])), TypeOf(errList[j]))
  {
    assert errList[..j + 1] == errList[..j] + [errList[j]];
    assert Types(errList[..j + 1]) == Types(errList[..j]) + [TypeOf(errList[j])];
    assert seen + Types(errList[..j + 1]) == (seen + Types(errList[..j])) + [TypeOf(errList[j])];
    CounterStep(seen + Types(errList[..j]), TypeOf(errList[j]));
  }

  lemma TypesOfConcat(a: seq<ErrorEntry>, b: seq<ErrorEntry>)
    ensures Types(a + b) == Types(a) + Types(b)
  {
  }

  /** How the statistics of bank `b` change when row `i` is added. */
  lemma StatsStep(rows: seq<ResultRow>, i: nat, b: string)
    requires i < |rows|
    ensures var row, st, st' := rows[i], BankStatsOf(rows[..i], b), BankStatsOf(rows[..i + 1], b);
      && st'.total == st.total + (if row.bank == Text(b) then 1 else 0)
      && st'.valid == st.valid + (if row.bank == Text(b) && row.status == "Valid" then 1 else 0)
      && st'.invalid == st.invalid + (if row.bank == Text(b) && row.status == "Invalid" then 1 else 0)
      && Types(Concat(InvalidErrors(rows[..i + 1], b))) ==
         (if row.bank == Text(b) && row.status == "Invalid" then Types(Concat(InvalidErrors(rows[..i], b))) + Types(row.errors)
          else Types(Concat(InvalidErrors(rows[..i], b))))
  {
    RowStep(rows, i, b);
    var row := rows[i];
    if row.bank.Text? {
      KeysAppend(BankColumn(rows[..i]), row.bank.s);
    } else {
      assert BankColumn(rows[..i + 1]) == BankColumn(rows[..i]);
    }
    var lists := InvalidErrors(rows[..i], b);
    if row.bank == Text(b) && row.status == "Invalid" {
      ConcatPrefix(lists + [row.errors], |lists|);
      assert (lists + [row.errors])[..|lists|] == lists;
      assert (lists + [row.errors])[..|lists| + 1] == lists + [row.errors];
      TypesOfConcat(Concat(lists), row.errors);
    } else {
      assert InvalidErrors(rows[..i + 1], b) == lists;
    }
  }

  /** The statistics of one `groupby` group: its size, its status counts and its Invalid rows' error types. */
  method GroupStats(rows: seq<ResultRow>, bank: string) returns (s: BankStats)
    ensures s == BankStatsOf(rows, bank)
  {
    var total, valid, invalid := 0, 0, 0;
    var errors: map<string, nat> := map[];
    for i := 0 to |rows|
      invariant total == BankStatsOf(rows[..i], bank).total
      invariant valid == BankStatsOf(rows[..i], bank).valid
      invariant invalid == BankStatsOf(rows[..i], bank).invalid
      invariant errors == CounterOf(Types(Concat(InvalidErrors(rows[..i], bank))))
    {
      StatsStep(rows, i, bank);
      var row := rows[i];
      if row.bank == Text(bank) {
        total := total + 1;
        if row.status == "Valid" {
          valid := valid + 1;
        }
        if row.status == "Invalid" {
          invalid := invalid + 1;
          errors := CountTypes(errors, Types(Concat(InvalidErrors(rows[..i], bank))), row.errors);
        }
      }
    }
    assert rows[..|rows|] == rows;
    s := BankStats(total, valid, invalid, errors);
  }

  /** What `per_bank_stats` returns: one entry per bank code that occurs. */
  function PerBank(rows: seq<ResultRow>): (stats: map<string, BankStats>)
    ensures forall b :: b in stats <==> b in BankColumn(rows)
  {
    map b | b in BankColumn(rows) :: BankStatsOf(rows, b)
  }

  /** `per_bank_stats`: one group per bank code, each summarised by `GroupStats`. */
  method PerBankStats(rows: seq<ResultRow>) returns (stats: map<string, BankStats>)
    ensures stats == PerBank(rows)
  {
    var banks := Keys(BankColumn(rows));
    KeysMeaning(BankColumn(rows));
    stats := map[];
    for g := 0 to |banks|
      invariant forall b :: b in stats <==> b in banks[..g]
      invariant forall b :: b in stats ==> stats[b] == BankStatsOf(rows, b)
    {
      var s := GroupStats(rows, banks[g]);
      stats := stats[banks[g] := s];
    }
    assert banks[..|banks|] == banks;
  }

  lemma {:induction false} StatusesPartition(rows: seq<ResultRow>, b: string)
    requires forall i :: 0 <= i < |rows| ==> rows[i].status == "Valid" || rows[i].status == "Invalid"
    ensures StatusCount(rows, b, "Valid") + StatusCount(rows, b, "Invalid") == Occurrences(BankColumn(rows), b)
  {
    if rows != [] {
      var p := rows[..|rows| - 1];
      StatusesPartition(p, b);
      var row := rows[|rows| - 1];
      if row.bank.Text? {
        assert BankColumn(rows) == BankColumn(p) + [row.bank.s];
        KeysAppend(BankColumn(p), row.bank.s);
      } else {
        assert BankColumn(rows) == BankColumn(p);
      }
    }
  }

  /** The sum of the `total`s of the banks in `ks`. */
  function SumTotals(stats: map<string, BankStats>, ks: seq<string>): nat
    requires forall k :: k in ks ==> k in stats
  {
    if ks == [] then 0 else SumTotals(stats, ks[..|ks| - 1]) + stats[ks[|ks| - 1]].total
  }

  lemma {:induction false} SumTotalsIsSum(rows: seq<ResultRow>, ks: seq<string>)
    requires forall k :: k in ks ==> k in PerBank(rows)
    ensures SumTotals(PerBank(rows), ks) == SumOccurrences(ks, BankColumn(rows))
  {
    if ks != [] {
      SumTotalsIsSum(rows, ks[..|ks| - 1]);
    }
  }

  /** The sum of `counter`'s values at the keys `ks`. */
  function SumCounts(counter: map<string, nat>, ks: seq<string>): nat
    requires forall k :: k in ks ==> k in counter
  {
    if ks == [] then 0 else SumCounts(counter, ks[..|ks| - 1]) + counter[ks[|ks| - 1]]
  }

  /** Summing a `Counter`'s values over some of its keys counts those keys' occurrences. */
  lemma {:induction false} SumCountsIsSum(xs: seq<string>, ks: seq<string>)
    requires forall k :: k in ks ==> k in xs
    ensures SumCounts(CounterOf(xs), ks) == SumOccurrences(ks, xs)
  {
    if ks != [] {
      SumCountsIsSum(xs, ks[..|ks| - 1]);
    }
  }

  /**
   * Every row with a bank code is counted under exactly one bank; the status
   * counts of a bank add up to its total when every status is Valid or
   * Invalid; and a bank's error types count its Invalid rows' entries only.
   */
  lemma PerBankProperties(rows: seq<ResultRow>)
    ensures forall b :: b in Keys(BankColumn(rows)) <==> b in PerBank(rows)
    ensures SumTotals(PerBank(rows), Keys(BankColumn(rows))) == |BankColumn(rows)|
    ensures (forall i :: 0 <= i < |rows| ==> rows[i].status == "Valid" || rows[i].status == "Invalid") ==>
      forall b :: b in PerBank(rows) ==> PerBank(rows)[b].valid + PerBank(rows)[b].invalid == PerBank(rows)[b].total
    ensures forall b :: b in PerBank(rows) ==>
      && (forall k :: k in PerBank(rows)[b].errorTypes <==> k in Keys(Types(Concat(InvalidErrors(rows, b)))))
      && SumCounts(PerBank(rows)[b].errorTypes, Keys(Types(Concat(InvalidErrors(rows, b)))))
           == |Concat(InvalidErrors(rows, b))|
  {
    KeysMeaning(BankColumn(rows));
    SumTotalsIsSum(rows, Keys(BankColumn(rows)));
    OccurrencesSum(BankColumn(rows));
    if forall i :: 0 <= i < |rows| ==> rows[i].status == "Valid" || rows[i].status == "Invalid" {
      forall b | b in PerBank(rows) ensures PerBank(rows)[b].valid + PerBank(rows)[b].invalid == PerBank(rows)[b].total {
        StatusesPartition(rows, b);
      }
    }
    forall b | b in PerBank(rows)
      ensures forall k :: k in PerBank(rows)[b].errorTypes <==> k in Keys(Types(Concat(InvalidErrors(rows, b))))
      ensures SumCounts(PerBank(rows)[b].errorTypes, Keys(Types(Concat(InvalidErrors(rows, b)))))
        == |Concat(InvalidErrors(rows, b))|
    {
      var ts := Types(Concat(InvalidErrors(rows, b)));
      assert PerBank(rows)[b].errorTypes == CounterOf(ts);
      KeysMeaning(ts);
      SumCountsIsSum(ts, Keys(ts));
      OccurrencesSum(ts);
    }
  }
}
