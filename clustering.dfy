/** The clustering view of the main front end: the transactions of the selected
    spending category, and how clicks change the selection. */
module Clustering {
  import opened Wrappers
  import opened Ledger
  import Seqs

  /** `selectedCluster` is truthy: set and not the empty string. */
  predicate Selected(selection: Option<string>) {
    selection.Some? && selection.value != ""
  }

  /** `clusterTransactions`: nothing without a selection; otherwise the expense
      transactions of the selected category, in their order. */
  function ClusterTransactions(txns: seq<Txn>, selection: Option<string>): (r: seq<Txn>)
    ensures !Selected(selection) ==> r == []
    ensures Selected(selection) ==>
              Seqs.IsSubseq(r, txns) &&
              forall i :: 0 <= i < |r| ==> r[i].category == selection.value && r[i].kind == "expense"
  {
    if Selected(selection) then
      Seqs.Filter(txns, (t: Txn) => t.category == selection.value && t.kind == "expense")
    else []
  }

  /** With a selection, exactly the matching expense transactions are listed. */
  lemma ClusterMembership(txns: seq<Txn>, category: string, t: Txn)
    requires category != ""
    ensures t in ClusterTransactions(txns, Some(category)) <==>
            t in txns && t.category == category && t.kind == "expense"
  {
    Seqs.FilterMembership(txns, (t: Txn) => t.category == category && t.kind == "expense", t);
  }

  /** A click on the table row of `category`: clears the selection if that row is
      selected, selects it otherwise. */
  function RowClick(selection: Option<string>, category: string): (r: Option<string>)
    ensures selection == Some(category) <==> r == None
    ensures selection != Some(category) ==> r == Some(category)
  {
    if selection == Some(category) then None else Some(category)
  }

  /** Clicking the same row twice restores the selection when it started empty or
      on that row, and otherwise leaves it cleared. */
  lemma RowClickTwice(selection: Option<string>, category: string)
    ensures RowClick(RowClick(selection, category), category) ==
            (if selection == Some(category) then Some(category) else None)
  {
  }

  /** The component's selection state. */
  class Insights {
    var selection: Option<string>

    constructor ()
      ensures selection == None
    {
      selection := None;
    }

    method ClickRow(category: string)
      modifies this
      ensures selection == RowClick(old(selection), category)
    {
      selection := if selection == Some(category) then None else Some(category);
    }

    /** A click on a pie segment always selects its category. */
    method ClickSegment(category: string)
      modifies this
      ensures selection == Some(category)
    {
      selection := Some(category);
    }

    /** The Clear Selection badge. */
    method ClearSelection()
      modifies this
      ensures selection == None
    {
      selection := None;
    }

    function Listed(txns: seq<Txn>): seq<Txn>
      reads this
    {
      ClusterTransactions(txns, selection)
    }
  }
}
