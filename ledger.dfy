/** The transaction record of the main front end, shared by its pages. Amounts
    are integer cents; dates are the ISO date strings the records carry. */
module Ledger {
  import opened Wrappers
  import Seqs

  /** `{ id, amount, date, merchant, category, type, notes }`; `notes` may be absent. */
  datatype Txn = Txn(id: string, amount: int, date: string, merchant: string,
                     category: string, kind: string, notes: Option<string>)

  /** A category as the categories endpoint lists it: `{ id, name, icon, type }`. */
  datatype Category = Category(id: int, name: string, icon: string, kind: string)

  /** `txns.filter(t => t.type === kind)`. */
  function OfKind(txns: seq<Txn>, kind: string): (r: seq<Txn>)
    ensures forall i :: 0 <= i < |r| ==> r[i].kind == kind
    ensures Seqs.IsSubseq(r, txns)
  {
    Seqs.Filter(txns, (t: Txn) => t.kind == kind)
  }

  /** `txns.filter(t => t.type === kind).reduce((sum, t) => sum + t.amount, 0)`. */
  function Total(txns: seq<Txn>, kind: string): int {
    Seqs.Sum(OfKind(txns, kind), (t: Txn) => t.amount)
  }

  /** The same total read as one pass that adds the amount of every entry of that
      kind and nothing for the others. */
  function TotalByScan(txns: seq<Txn>, kind: string): int {
    Seqs.Sum(txns, (t: Txn) => if t.kind == kind then t.amount else 0)
  }

  lemma {:induction false} TotalIsScan(txns: seq<Txn>, kind: string)
    ensures Total(txns, kind) == TotalByScan(txns, kind)
    decreases |txns|
  {
    if |txns| > 0 {
      TotalIsScan(txns[1..], kind);
      assert txns == [txns[0]] + txns[1..];
    }
  }

  /** A list with no entry of a kind totals 0 for it. */
  lemma {:induction false} TotalOfAbsentKind(txns: seq<Txn>, kind: string)
    requires forall i :: 0 <= i < |txns| ==> txns[i].kind != kind
    ensures Total(txns, kind) == 0
    decreases |txns|
  {
    TotalIsScan(txns, kind);
    ScanOfAbsentKind(txns, kind);
  }

  lemma {:induction false} ScanOfAbsentKind(txns: seq<Txn>, kind: string)
    requires forall i :: 0 <= i < |txns| ==> txns[i].kind != kind
    ensures TotalByScan(txns, kind) == 0
    decreases |txns|
  {
    if |txns| > 0 {
      ScanOfAbsentKind(txns[1..], kind);
    }
  }
}
