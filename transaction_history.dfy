// The transaction history view (TransactionHistory.js): the passed-in list is
// sorted in place, most recent first, and rendered one row per transaction.
module TransactionHistory {
  import opened Bank

  /** Timestamps never increase along the list. */
  predicate MostRecentFirst(s: seq<HistoryTx>) {
    forall i, j :: 0 <= i < j < |s| ==> s[i].timestamp >= s[j].timestamp
  }

  /** No two transactions of the list share a timestamp. */
  predicate DistinctTimes(s: seq<HistoryTx>) {
    forall i, j :: 0 <= i < j < |s| ==> s[i].timestamp != s[j].timestamp
  }

  /** The first n cells of the array are most recent first. */
  ghost predicate SortedPrefix(a: array<HistoryTx>, n: int)
    reads a
  {
    forall k, l :: 0 <= k < l < n && l < a.Length ==> a[k].timestamp >= a[l].timestamp
  }

  /** `transactions.sort((a, b) => b.timestamp - a.timestamp)`: the array
      itself is reordered, most recent first. */
  method SortByRecency(a: array<HistoryTx>)
    modifies a
    ensures MostRecentFirst(a[..])
    ensures multiset(a[..]) == old(multiset(a[..]))
  {
    if a.Length == 0 {
      return;
    }
    var i := 1;
    while i < a.Length
      invariant 1 <= i <= a.Length
      invariant SortedPrefix(a, i)
      invariant multiset(a[..]) == old(multiset(a[..]))
    {
      Insert(a, i);
      i := i + 1;
    }
  }

  /** One insertion step: sink a[i] into the sorted prefix a[..i]. */
  method Insert(a: array<HistoryTx>, i: int)
    requires 0 < i < a.Length && SortedPrefix(a, i)
    modifies a
    ensures SortedPrefix(a, i + 1)
    ensures multiset(a[..]) == old(multiset(a[..]))
  {
    var j := i;
    while j > 0 && a[j - 1].timestamp < a[j].timestamp
      invariant 0 <= j <= i
      invariant multiset(a[..]) == old(multiset(a[..]))
      invariant forall k, l :: 0 <= k < l <= i && k != j && l != j ==>
                  a[k].timestamp >= a[l].timestamp
      invariant forall l :: j < l <= i ==> a[j].timestamp >= a[l].timestamp
    {
      Swap(a, j);
      j := j - 1;
    }
  }

  /** Exchange two neighbouring cells. */
  method Swap(a: array<HistoryTx>, j: int)
    requires 0 < j < a.Length
    modifies a
    ensures a[j - 1] == old(a[j]) && a[j] == old(a[j - 1])
    ensures forall k :: 0 <= k < a.Length && k != j - 1 && k != j ==> a[k] == old(a[k])
    ensures multiset(a[..]) == old(multiset(a[..]))
  {
    a[j - 1], a[j] := a[j], a[j - 1];
  }

  /** Two orderings, most recent first, of the same transactions agree when
      no two timestamps are equal: with distinct timestamps the displayed
      order is fully determined (three transactions at T1 < T2 < T3 show as
      T3, T2, T1 whatever order they were fetched in). */
  lemma {:induction false} SortedUnique(s: seq<HistoryTx>, t: seq<HistoryTx>)
    requires MostRecentFirst(s) && MostRecentFirst(t)
    requires multiset(s) == multiset(t)
    requires DistinctTimes(s)
    ensures s == t
  {
    assert |s| == |multiset(s)| == |multiset(t)| == |t|;
    if |s| > 0 {
      SameHead(s, t);
      TailsAgree(s, t);
      SortedUnique(s[1..], t[1..]);
      assert s == [s[0]] + s[1..];
      assert t == [t[0]] + t[1..];
    }
  }

  /** Both orderings start with the most recent transaction. */
  lemma SameHead(s: seq<HistoryTx>, t: seq<HistoryTx>)
    requires MostRecentFirst(s) && MostRecentFirst(t)
    requires multiset(s) == multiset(t)
    requires DistinctTimes(s)
    requires 0 < |s| == |t|
    ensures s[0] == t[0]
  {
    assert s[0] in multiset(t);
    var j :| 0 <= j < |t| && t[j] == s[0];
    assert t[0] in multiset(s);
    var i :| 0 <= i < |s| && s[i] == t[0];
    assert s[i].timestamp >= s[0].timestamp;
    assert i == 0;
  }

  /** Dropping the common head keeps the rest sorted, distinct and equal as multisets. */
  lemma TailsAgree(s: seq<HistoryTx>, t: seq<HistoryTx>)
    requires MostRecentFirst(s) && MostRecentFirst(t) && DistinctTimes(s)
    requires multiset(s) == multiset(t)
    requires 0 < |s| && 0 < |t| && s[0] == t[0]
    ensures MostRecentFirst(s[1..]) && MostRecentFirst(t[1..]) && DistinctTimes(s[1..])
    ensures multiset(s[1..]) == multiset(t[1..])
  {
    assert s == [s[0]] + s[1..];
    assert t == [t[0]] + t[1..];
    assert multiset(s[1..]) == multiset(s) - multiset{s[0]};
    assert multiset(t[1..]) == multiset(t) - multiset{t[0]};
  }

  /** One row of the table. */
  datatype Row = Row(timestamp: int, kind: string, description: string)

  /** What the view shows under its header. */
  datatype Table = NoTransactions | Rows(rows: seq<Row>)

  /** The description cell; `amountText` is JavaScript's rendering of the
      amount. A TRANSFER names both accounts; any other row names the source
      account, with "to" for a DEPOSIT and "from" otherwise. */
  function Description(t: HistoryTx, amountText: string): (d: string)
    ensures |d| > |amountText| && d[0] == '$' && d[1..|amountText| + 1] == amountText
    ensures t.kind == TRANSFER ==>
      d == "$" + amountText + " from " + t.sourceAccount + " to " + t.destinationAccount
    ensures t.kind != TRANSFER ==>
      (d == "$" + amountText + " to " + t.sourceAccount <==> t.kind == DEPOSIT)
    ensures t.kind != TRANSFER && t.kind != DEPOSIT ==>
      d == "$" + amountText + " from " + t.sourceAccount
  {
    if t.kind == TRANSFER then
      "$" + amountText + " from " + t.sourceAccount + " to " + t.destinationAccount
    else
      "$" + amountText + " " + (if t.kind == DEPOSIT then "to" else "from") + " " + t.sourceAccount
  }

  /** The table for a sorted list; `show` is JavaScript's number-to-text
      conversion. An empty list shows the "No transactions available" note;
      otherwise there is one row per transaction, in list order. */
  function Render(sorted: seq<HistoryTx>, show: real -> string): (v: Table)
    ensures v.NoTransactions? <==> |sorted| == 0
    ensures v.Rows? ==> |v.rows| == |sorted|
    ensures v.Rows? ==> forall i :: 0 <= i < |sorted| ==>
      v.rows[i] == Row(sorted[i].timestamp, sorted[i].kind,
                       Description(sorted[i], show(sorted[i].amount)))
  {
    if |sorted| == 0 then NoTransactions
    else Rows(seq(|sorted|, i requires 0 <= i < |sorted| =>
                Row(sorted[i].timestamp, sorted[i].kind,
                    Description(sorted[i], show(sorted[i].amount)))))
  }

  /** The component: sort the passed-in array in place, then render it. */
  method ShowHistory(transactions: array<HistoryTx>, show: real -> string) returns (v: Table)
    modifies transactions
    ensures MostRecentFirst(transactions[..])
    ensures multiset(transactions[..]) == old(multiset(transactions[..]))
    ensures v == Render(transactions[..], show)
  {
    SortByRecency(transactions);
    v := Render(transactions[..], show);
  }
}
