/**
 * The emulator's computation report: the `transactions` object of
 * `/emulator/computationReport`, keyed by transaction id, in the order the
 * decoded dictionary iterates it. A report that could not be fetched, or that
 * has no `transactions` key, is the empty report.
 */
module Report {
  import opened Common

  /** One transaction's entry; a field the entry lacks is `None`. */
  datatype Entry = Entry(computation: Option<int>, memory: Option<int>)

  predicate DistinctKeys(t: seq<(string, Entry)>) {
    forall i, j | 0 <= i < j < |t| :: t[i].0 != t[j].0
  }

  /** A dictionary has each key once. */
  type Transactions = t: seq<(string, Entry)> | DistinctKeys(t) witness []

  predicate HasKey(t: Transactions, key: string) {
    exists i | 0 <= i < |t| :: t[i].0 == key
  }

  /** Python's `transactions.get(key)`. */
  function Find(t: Transactions, key: string): (r: Option<Entry>)
    ensures r.Some? <==> HasKey(t, key)
    ensures forall i | 0 <= i < |t| && t[i].0 == key :: r == Some(t[i].1)
  {
    if t == [] then None
    else if t[0].0 == key then Some(t[0].1)
    else
      var rest: Transactions := t[1..];
      var r := Find(rest, key);
      assert forall i | 1 <= i < |t| :: t[i] == rest[i - 1];
      r
  }
}
