/** The Dashboard of the main front end: income and expense totals, the balance,
    the five most recent transactions, and the top spending category. */
module Dashboard {
  import opened Wrappers
  import opened Ledger
  import Seqs

  /** One entry of the per-category spending summary; money in cents. */
  datatype Cluster = Cluster(category: string, totalSpent: int, transactionCount: int, percentage: real)

  /** `currentBalance`: income total minus expense total. */
  function Balance(txns: seq<Txn>): (b: int)
    ensures b == TotalByScan(txns, "income") - TotalByScan(txns, "expense")
  {
    TotalIsScan(txns, "income");
    TotalIsScan(txns, "expense");
    Total(txns, "income") - Total(txns, "expense")
  }

  /** `slice(0, 5)`: the first `min(5, n)` transactions in their order. */
  function Recent(txns: seq<Txn>): (r: seq<Txn>)
    ensures |r| == if |txns| < 5 then |txns| else 5
    ensures forall i :: 0 <= i < |r| ==> r[i] == txns[i]
  {
    Seqs.Take(txns, 5)
  }

  /** `k` holds the largest `totalSpent`, and no earlier entry reaches it. */
  predicate IsFirstMax(cs: seq<Cluster>, k: int) {
    0 <= k < |cs| &&
    (forall j :: 0 <= j < |cs| ==> cs[j].totalSpent <= cs[k].totalSpent) &&
    (forall j :: 0 <= j < k ==> cs[j].totalSpent < cs[k].totalSpent)
  }

  /** `cs.reduce((max, c) => c.totalSpent > max.totalSpent ? c : max, ...)` from position `i`. */
  function ReduceFrom(cs: seq<Cluster>, max: Cluster, i: nat): Cluster
    requires i <= |cs|
    decreases |cs| - i
  {
    if i == |cs| then max
    else ReduceFrom(cs, if cs[i].totalSpent > max.totalSpent then cs[i] else max, i + 1)
  }

  /** `topSpendingCategory`, seeded with the first entry; an empty list yields
      the seed `mockClusterData[0]`, which is `undefined`. */
  function TopCategory(cs: seq<Cluster>): (r: Option<Cluster>)
    ensures r.Some? <==> |cs| > 0
  {
    if |cs| == 0 then None else Some(ReduceFrom(cs, cs[0], 0))
  }

  lemma {:induction false} ReduceFromFirstMax(cs: seq<Cluster>, i: nat, k: nat) returns (top: nat)
    requires 0 <= k < |cs| && i <= |cs|
    requires forall j :: 0 <= j < i ==> cs[j].totalSpent <= cs[k].totalSpent
    requires forall j :: 0 <= j < k ==> cs[j].totalSpent < cs[k].totalSpent
    requires k < i || (k == 0 && i == 0)
    ensures IsFirstMax(cs, top) && ReduceFrom(cs, cs[k], i) == cs[top]
    decreases |cs| - i
  {
    if i == |cs| {
      top := k;
    } else if cs[i].totalSpent > cs[k].totalSpent {
      top := ReduceFromFirstMax(cs, i + 1, i);
    } else {
      top := ReduceFromFirstMax(cs, i + 1, k);
    }
  }

  /** The top category exists iff there are entries; it has the largest
      `totalSpent`, and of several tied entries it is the earliest. */
  lemma TopCategoryIsFirstMax(cs: seq<Cluster>)
    ensures TopCategory(cs).Some? <==> |cs| > 0
    ensures |cs| > 0 ==> exists k :: IsFirstMax(cs, k) && TopCategory(cs).value == cs[k]
  {
    if |cs| > 0 {
      var top := ReduceFromFirstMax(cs, 0, 0);
    }
  }
}
