/** `values(<field>).annotate(total=Sum('amount'), count=Count('id'))`: one
    group per distinct value of a grouping key (a category key, a day), with
    the sum and number of the rows carrying that value. */
module Grouping {
  import Seqs
  import TxModel

  type TxRow = TxModel.TxRow

  /** The distinct keys of `rows`, in order of first appearance. */
  function Keys<K(==)>(rows: seq<TxRow>, key: TxRow -> K): (r: seq<K>)
    ensures forall i, j :: 0 <= i < j < |r| ==> r[i] != r[j]
    decreases |rows|
  {
    if |rows| == 0 then []
    else
      var before := Keys(rows[..|rows| - 1], key);
      var c := key(rows[|rows| - 1]);
      if c in before then before else before + [c]
  }

  /** A key is listed iff some row carries it. */
  lemma {:induction false} KeysComplete<K>(rows: seq<TxRow>, key: TxRow -> K, c: K)
    ensures c in Keys(rows, key) <==> exists i :: 0 <= i < |rows| && key(rows[i]) == c
    decreases |rows|
  {
    if |rows| > 0 {
      var init := rows[..|rows| - 1];
      KeysComplete(init, key, c);
      if exists i :: 0 <= i < |rows| && key(rows[i]) == c {
        var i :| 0 <= i < |rows| && key(rows[i]) == c;
        if i < |rows| - 1 { assert init[i] == rows[i]; }
      }
      if exists i :: 0 <= i < |init| && key(init[i]) == c {
        var i :| 0 <= i < |init| && key(init[i]) == c;
        assert rows[i] == init[i];
      }
    }
  }

  /** The rows of one group. */
  function Members<K(==)>(rows: seq<TxRow>, key: TxRow -> K, c: K): (r: seq<TxRow>)
    ensures forall i :: 0 <= i < |r| ==> key(r[i]) == c
    ensures Seqs.IsSubseq(r, rows)
  {
    Seqs.Filter(rows, (t: TxRow) => key(t) == c)
  }

  datatype Group<K> = Group(key: K, total: int, count: nat)

  function GroupOf<K(==)>(rows: seq<TxRow>, key: TxRow -> K, c: K): Group<K> {
    var m := Members(rows, key, c);
    Group(c, TxModel.AmountSum(m), |m|)
  }

  function GroupsFor<K(==)>(rows: seq<TxRow>, key: TxRow -> K, keys: seq<K>): (r: seq<Group<K>>)
    ensures |r| == |keys| && forall i :: 0 <= i < |r| ==> r[i] == GroupOf(rows, key, keys[i])
    decreases |keys|
  {
    if |keys| == 0 then [] else [GroupOf(rows, key, keys[0])] + GroupsFor(rows, key, keys[1..])
  }

  /** The annotated groups, one per distinct key, in order of first appearance. */
  function Groups<K(==)>(rows: seq<TxRow>, key: TxRow -> K): (r: seq<Group<K>>)
    ensures forall i, j :: 0 <= i < j < |r| ==> r[i].key != r[j].key
  {
    GroupsFor(rows, key, Keys(rows, key))
  }

  // ---- every row is in exactly one group ----

  /** The sum of `w` over the members of each listed key. */
  function KeyedSum<K(==)>(rows: seq<TxRow>, key: TxRow -> K, keys: seq<K>, w: TxRow -> int): int
    decreases |keys|
  {
    if |keys| == 0 then 0 else Seqs.Sum(Members(rows, key, keys[0]), w) + KeyedSum(rows, key, keys[1..], w)
  }

  /** The same sum read as a sum over the keys. */
  lemma {:induction false} KeyedSumAsSum<K>(rows: seq<TxRow>, key: TxRow -> K, keys: seq<K>, w: TxRow -> int)
    ensures KeyedSum(rows, key, keys, w) == Seqs.Sum(keys, (c: K) => Seqs.Sum(Members(rows, key, c), w))
    decreases |keys|
  {
    if |keys| > 0 { KeyedSumAsSum(rows, key, keys[1..], w); }
  }

  /** How much a single extra row adds: its weight, once, if its key is listed. */
  function Hit<K(==)>(keys: seq<K>, key: TxRow -> K, t: TxRow, w: TxRow -> int): int
    decreases |keys|
  {
    if |keys| == 0 then 0 else (if key(t) == keys[0] then w(t) else 0) + Hit(keys[1..], key, t, w)
  }

  lemma {:induction false} HitDistinct<K>(keys: seq<K>, key: TxRow -> K, t: TxRow, w: TxRow -> int)
    requires forall i, j :: 0 <= i < j < |keys| ==> keys[i] != keys[j]
    ensures Hit(keys, key, t, w) == if key(t) in keys then w(t) else 0
    decreases |keys|
  {
    if |keys| > 0 {
      HitDistinct(keys[1..], key, t, w);
      if key(t) == keys[0] {
        assert key(t) !in keys[1..] by {
          forall j | 0 <= j < |keys[1..]| ensures keys[1..][j] != keys[0] {
            assert keys[1..][j] == keys[j + 1];
          }
        }
      }
      assert keys == [keys[0]] + keys[1..];
    }
  }

  lemma {:induction false} KeyedSumSnoc<K>(init: seq<TxRow>, t: TxRow, key: TxRow -> K, keys: seq<K>, w: TxRow -> int)
    ensures KeyedSum(init + [t], key, keys, w) == KeyedSum(init, key, keys, w) + Hit(keys, key, t, w)
    decreases |keys|
  {
    if |keys| > 0 {
      KeyedSumSnoc(init, t, key, keys[1..], w);
      var p := (x: TxRow) => key(x) == keys[0];
      Seqs.FilterAppend(init, [t], p);
      Seqs.SumAppend(Members(init, key, keys[0]), Seqs.Filter([t], p), w);
    }
  }

  lemma {:induction false} KeyedSumAppendKey<K>(rows: seq<TxRow>, key: TxRow -> K, keys: seq<K>, c: K, w: TxRow -> int)
    ensures KeyedSum(rows, key, keys + [c], w) == KeyedSum(rows, key, keys, w) + Seqs.Sum(Members(rows, key, c), w)
    decreases |keys|
  {
    if |keys| > 0 {
      assert (keys + [c])[1..] == keys[1..] + [c];
      KeyedSumAppendKey(rows, key, keys[1..], c, w);
    } else {
      assert keys + [c] == [c];
    }
  }

  lemma NoMembers<K>(rows: seq<TxRow>, key: TxRow -> K, c: K)
    requires c !in Keys(rows, key)
    ensures Members(rows, key, c) == []
  {
    KeysComplete(rows, key, c);
    var m := Members(rows, key, c);
    if |m| > 0 {
      Seqs.FilterMembership(rows, (t: TxRow) => key(t) == c, m[0]);
      assert false;
    }
  }

  /** Summing `w` group by group gives the sum over all rows. */
  lemma {:induction false} KeyedSumIsSum<K>(rows: seq<TxRow>, key: TxRow -> K, w: TxRow -> int)
    ensures KeyedSum(rows, key, Keys(rows, key), w) == Seqs.Sum(rows, w)
    decreases |rows|
  {
    if |rows| > 0 {
      var init := rows[..|rows| - 1];
      var t := rows[|rows| - 1];
      assert rows == init + [t];
      KeyedSumIsSum(init, key, w);
      var ks := Keys(init, key);
      KeyedSumSnoc(init, t, key, ks, w);
      HitDistinct(ks, key, t, w);
      Seqs.SumAppend(init, [t], w);
      var c := key(t);
      if c !in ks {
        KeyedSumAppendKey(rows, key, ks, c, w);
        NoMembers(init, key, c);
        var p := (x: TxRow) => key(x) == c;
        Seqs.FilterAppend(init, [t], p);
        assert Members(rows, key, c) == [t];
      }
    }
  }

  lemma {:induction false} GroupSums<K>(rows: seq<TxRow>, key: TxRow -> K, keys: seq<K>)
    ensures Seqs.Sum(GroupsFor(rows, key, keys), (g: Group<K>) => g.total) == KeyedSum(rows, key, keys, (t: TxRow) => t.amount)
    ensures Seqs.Sum(GroupsFor(rows, key, keys), (g: Group<K>) => g.count) == KeyedSum(rows, key, keys, (t: TxRow) => 1)
    decreases |keys|
  {
    if |keys| > 0 {
      GroupSums(rows, key, keys[1..]);
      Seqs.SumOfOnes(Members(rows, key, keys[0]));
    }
  }

  /** The groups partition the rows: their counts add up to the number of rows and
      their totals to the sum of all amounts. */
  lemma GroupsPartition<K>(rows: seq<TxRow>, key: TxRow -> K)
    ensures Seqs.Sum(Groups(rows, key), (g: Group<K>) => g.count) == |rows|
    ensures Seqs.Sum(Groups(rows, key), (g: Group<K>) => g.total) == TxModel.AmountSum(rows)
  {
    GroupSums(rows, key, Keys(rows, key));
    KeyedSumIsSum(rows, key, (t: TxRow) => t.amount);
    KeyedSumIsSum(rows, key, (t: TxRow) => 1);
    Seqs.SumOfOnes(rows);
  }

  /** A group is listed exactly for the keys some row carries. */
  lemma GroupsCover<K>(rows: seq<TxRow>, key: TxRow -> K, c: K)
    ensures (exists i :: 0 <= i < |Groups(rows, key)| && Groups(rows, key)[i].key == c)
        <==> (exists i :: 0 <= i < |rows| && key(rows[i]) == c)
  {
    KeysComplete(rows, key, c);
    var ks := Keys(rows, key);
    if c in ks {
      var i :| 0 <= i < |ks| && ks[i] == c;
      assert Groups(rows, key)[i].key == c;
    }
  }
}
