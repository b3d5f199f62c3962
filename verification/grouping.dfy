/**
 Grouped totals kept the way a JavaScript object used as a dictionary
 keeps them: `acc[k] = (acc[k] || 0) + v` for each item in turn, with the
 keys enumerated in first-insertion order. The object is modelled as a
 sequence of entries whose keys are pairwise distinct.
 */
module Grouping {
  import opened Basics

  datatype Entry<K> = Entry(key: K, total: int)

  /** A keyed item fed to the tally: its key and the amount it adds. */
  datatype Item<K> = Item(key: K, amount: int)

  function ItemAmount<K>(it: Item<K>): int { it.amount }

  function Keys<K>(es: seq<Entry<K>>): (ks: seq<K>)
    ensures |ks| == |es|
    ensures forall i :: 0 <= i < |es| ==> ks[i] == es[i].key
  {
    if |es| == 0 then [] else Keys(es[..|es| - 1]) + [es[|es| - 1].key]
  }

  predicate Distinct<K(==)>(ks: seq<K>)
  {
    forall i, j :: 0 <= i < j < |ks| ==> ks[i] != ks[j]
  }

  /** The running total stored under `k`, or 0 when `k` has no entry. */
  function Lookup<K(==)>(es: seq<Entry<K>>, k: K): int
  {
    if |es| == 0 then 0
    else if es[|es| - 1].key == k then es[|es| - 1].total
    else Lookup(es[..|es| - 1], k)
  }

  /** The sum of all running totals: `Object.values(acc)` summed. */
  function Grand<K>(es: seq<Entry<K>>): int
  {
    if |es| == 0 then 0 else Grand(es[..|es| - 1]) + es[|es| - 1].total
  }

  /** Where `k`'s entry sits, or -1 when it has none. */
  function Position<K(==)>(es: seq<Entry<K>>, k: K): (i: int)
    ensures -1 <= i < |es|
    ensures i >= 0 ==> es[i].key == k
    ensures i < 0 ==> k !in EntryKeys(es)
  {
    if |es| == 0 then -1
    else if es[|es| - 1].key == k then |es| - 1
    else Position(es[..|es| - 1], k)
  }

  /** Adds `v` under `k`: an existing entry is updated in place, a new key is appended. */
  function Bump<K(==)>(es: seq<Entry<K>>, k: K, v: int): seq<Entry<K>>
  {
    var i := Position(es, k);
    if i < 0 then es + [Entry(k, v)] else es[i := Entry(k, es[i].total + v)]
  }

  /** The dictionary after processing `items` in order. */
  function Tally<K(==)>(items: seq<Item<K>>): seq<Entry<K>>
  {
    if |items| == 0 then []
    else Bump(Tally(items[..|items| - 1]), items[|items| - 1].key, items[|items| - 1].amount)
  }

  /** Independent reference: the sum of the amounts of the items keyed `k`. */
  function SumFor<K(==)>(items: seq<Item<K>>, k: K): int
  {
    if |items| == 0 then 0
    else SumFor(items[..|items| - 1], k) + (if items[|items| - 1].key == k then items[|items| - 1].amount else 0)
  }

  function ItemKeys<K>(items: seq<Item<K>>): set<K>
  {
    set i | 0 <= i < |items| :: items[i].key
  }

  function EntryKeys<K>(es: seq<Entry<K>>): set<K>
  {
    set i | 0 <= i < |es| :: es[i].key
  }

  lemma {:induction false} LookupAbsent<K>(es: seq<Entry<K>>, k: K)
    requires k !in EntryKeys(es)
    ensures Lookup(es, k) == 0
  {
    if |es| > 0 {
      assert es[|es| - 1].key != k;
      LookupAbsent(es[..|es| - 1], k);
    }
  }

  /** Reading the dictionary back at a key finds that key's entry. */
  lemma {:induction false} LookupAt<K>(es: seq<Entry<K>>, i: nat)
    requires i < |es|
    requires Distinct(Keys(es))
    ensures Lookup(es, es[i].key) == es[i].total
  {
    var n := |es|;
    if i < n - 1 {
      assert Keys(es)[i] == es[i].key && Keys(es)[n - 1] == es[n - 1].key;
      assert Distinct(Keys(es[..n - 1])) by {
        assert forall j :: 0 <= j < n - 1 ==> Keys(es[..n - 1])[j] == Keys(es)[j];
      }
      LookupAt(es[..n - 1], i);
    }
  }

  lemma {:induction false} GrandUpdate<K>(es: seq<Entry<K>>, i: nat, e: Entry<K>)
    requires i < |es|
    ensures Grand(es[i := e]) == Grand(es) - es[i].total + e.total
  {
    var n := |es|;
    if i < n - 1 {
      assert es[i := e][..n - 1] == es[..n - 1][i := e];
      GrandUpdate(es[..n - 1], i, e);
    } else {
      assert es[i := e][..n - 1] == es[..n - 1];
    }
  }

  /** What one step of the fold does to the dictionary. */
  lemma BumpSpec<K>(es: seq<Entry<K>>, k: K, v: int)
    requires Distinct(Keys(es))
    ensures Distinct(Keys(Bump(es, k, v)))
    ensures EntryKeys(Bump(es, k, v)) == EntryKeys(es) + {k}
    ensures forall k' :: Lookup(Bump(es, k, v), k') == Lookup(es, k') + (if k' == k then v else 0)
    ensures Grand(Bump(es, k, v)) == Grand(es) + v
  {
    var b := Bump(es, k, v);
    var i := Position(es, k);
    if i < 0 {
      assert b == es + [Entry(k, v)];
      assert b[..|es|] == es;
      assert Keys(b) == Keys(es) + [k];
      assert EntryKeys(b) == EntryKeys(es) + {k} by {
        forall x | x in EntryKeys(b) ensures x in EntryKeys(es) + {k} {
          var j :| 0 <= j < |b| && b[j].key == x;
          if j < |es| { assert es[j].key == x; }
        }
        forall x | x in EntryKeys(es) ensures x in EntryKeys(b) {
          var j :| 0 <= j < |es| && es[j].key == x;
          assert b[j].key == x;
        }
      }
      forall k' ensures Lookup(b, k') == Lookup(es, k') + (if k' == k then v else 0) {
        if k' == k { LookupAbsent(es, k); }
      }
    } else {
      var e := Entry(k, es[i].total + v);
      assert b == es[i := e];
      assert forall j :: 0 <= j < |b| ==> b[j].key == es[j].key;
      assert Keys(b) == Keys(es);
      assert EntryKeys(b) == EntryKeys(es) by {
        forall x | x in EntryKeys(b) ensures x in EntryKeys(es) {
          var j :| 0 <= j < |b| && b[j].key == x;
          assert es[j].key == x;
        }
        forall x | x in EntryKeys(es) ensures x in EntryKeys(b) {
          var j :| 0 <= j < |es| && es[j].key == x;
          assert b[j].key == x;
        }
        assert es[i].key == k;
      }
      forall k' ensures Lookup(b, k') == Lookup(es, k') + (if k' == k then v else 0) {
        if k' == k {
          LookupAt(es, i);
          LookupAt(b, i);
        } else {
          var j := Position(es, k');
          if j < 0 {
            LookupAbsent(es, k');
            LookupAbsent(b, k');
          } else {
            assert j != i;
            LookupAt(es, j);
            LookupAt(b, j);
          }
        }
      }
      GrandUpdate(es, i, e);
    }
  }

  /** The tally lists every key that occurs among the items, each exactly once,
      with the sum of that key's amounts; the totals add up to the sum of all amounts. */
  lemma {:induction false} TallySpec<K>(items: seq<Item<K>>)
    ensures Distinct(Keys(Tally(items)))
    ensures EntryKeys(Tally(items)) == ItemKeys(items)
    ensures forall k :: Lookup(Tally(items), k) == SumFor(items, k)
    ensures Grand(Tally(items)) == SumOf(items, ItemAmount<K>)
  {
    if |items| > 0 {
      var init, last := items[..|items| - 1], items[|items| - 1];
      var before := Tally(init);
      assert Tally(items) == Bump(before, last.key, last.amount);
      TallySpec(init);
      BumpSpec(before, last.key, last.amount);
      ItemKeysStep(items);
    }
  }

  lemma ItemKeysStep<K>(items: seq<Item<K>>)
    requires |items| > 0
    ensures ItemKeys(items) == ItemKeys(items[..|items| - 1]) + {items[|items| - 1].key}
  {
    var init, last := items[..|items| - 1], items[|items| - 1];
    forall x | x in ItemKeys(items) ensures x in ItemKeys(init) + {last.key} {
      var i :| 0 <= i < |items| && items[i].key == x;
      if i < |items| - 1 { assert init[i].key == x; }
    }
    forall x | x in ItemKeys(init) ensures x in ItemKeys(items) {
      var i :| 0 <= i < |init| && init[i].key == x;
      assert items[i].key == x;
    }
  }
}
