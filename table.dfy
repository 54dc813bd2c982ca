/**
 * Values as they appear in the tabular batch data: a cell holds text or
 * is missing (pandas' NaN), and an error entry is a dictionary whose
 * `type` and `message` keys may be absent.
 */
module Table {
  import opened Wrappers

  /** A DataFrame cell: text, or a missing value (NaN). */
  datatype Cell = Text(s: string) | Absent

  /** `str(cell)`: a missing value prints as "nan". */
  function CellStr(c: Cell): (s: string)
    ensures c.Text? ==> s == c.s
  {
    match c
    case Text(s) => s
    case Absent => "nan"
  }

  /** One entry of a result's `errors` list. */
  datatype ErrorEntry = ErrorEntry(kind: Option<string>, message: Option<string>)

  /** `err.get('type', 'unknown')`. */
  function TypeOf(e: ErrorEntry): string {
    e.kind.GetOr("unknown")
  }

  /** `err.get('message', '')`. */
  function MessageOf(e: ErrorEntry): string {
    e.message.GetOr("")
  }

  /** The types of a list of entries, in order. */
  function Types(es: seq<ErrorEntry>): (ts: seq<string>)
    ensures |ts| == |es|
    ensures forall i :: 0 <= i < |es| ==> ts[i] == TypeOf(es[i])
  {
    seq(|es|, i requires 0 <= i < |es| => TypeOf(es[i]))
  }

  lemma TypesAppend(es: seq<ErrorEntry>, e: ErrorEntry)
    ensures Types(es + [e]) == Types(es) + [TypeOf(e)]
  {
  }

  /** Several sequences one after the other: the entries of several lists, or the records of several chunks. */
  function Concat<T>(parts: seq<seq<T>>): (items: seq<T>)
    ensures parts == [] ==> items == []
  {
    if parts == [] then [] else Concat(parts[..|parts| - 1]) + parts[|parts| - 1]
  }

  lemma ConcatAppend<T>(parts: seq<seq<T>>, part: seq<T>)
    ensures Concat(parts + [part]) == Concat(parts) + part
  {
    assert (parts + [part])[..|parts|] == parts;
  }

  lemma ConcatPrefix<T>(parts: seq<seq<T>>, i: nat)
    requires i < |parts|
    ensures Concat(parts[..i + 1]) == Concat(parts[..i]) + parts[i]
  {
    assert parts[..i + 1][..i] == parts[..i];
  }
}
