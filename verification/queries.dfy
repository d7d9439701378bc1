/** ORDER BY: the rows of a query in the order of one of their columns. */
module Queries {

  /** `rows` lists the members of `items` once each, by falling rank. */
  ghost predicate Falling<K>(items: set<K>, rank: map<K, int>, rows: seq<K>)
  {
    && items <= rank.Keys
    && (forall i :: 0 <= i < |rows| ==> rows[i] in items)
    && (forall k :: k in items ==> k in rows)
    && (forall i, j :: 0 <= i < j < |rows| ==> rows[i] != rows[j] && rank[rows[i]] >= rank[rows[j]])
  }

  method Highest<K(==)>(items: set<K>, rank: map<K, int>) returns (best: K)
    requires items != {} && items <= rank.Keys
    ensures best in items && forall k :: k in items ==> rank[k] <= rank[best]
  {
    best :| best in items;
    var rest := items - {best};
    while rest != {}
      invariant rest <= items && best in items
      invariant forall k :: k in items && k !in rest ==> rank[k] <= rank[best]
      decreases |rest|
    {
      var k :| k in rest;
      if rank[k] > rank[best] {
        best := k;
      }
      rest := rest - {k};
    }
  }

  method Descending<K(==)>(items: set<K>, rank: map<K, int>) returns (rows: seq<K>)
    requires items <= rank.Keys
    ensures Falling(items, rank, rows)
  {
    rows := [];
    var rest := items;
    while rest != {}
      invariant rest <= items && Falling(items - rest, rank, rows)
      invariant forall k, i :: k in rest && 0 <= i < |rows| ==> rank[k] <= rank[rows[i]]
      decreases |rest|
    {
      var k := Highest(rest, rank);
      AppendLowest(items - rest, rank, rows, k);
      assert items - (rest - {k}) == (items - rest) + {k};
      rows, rest := rows + [k], rest - {k};
    }
    assert items - rest == items;
  }

  lemma AppendLowest<K>(items: set<K>, rank: map<K, int>, rows: seq<K>, k: K)
    requires Falling(items, rank, rows) && k !in items && k in rank
    requires forall i :: 0 <= i < |rows| ==> rank[k] <= rank[rows[i]]
    ensures Falling(items + {k}, rank, rows + [k])
  {
    forall x | x in items + {k}
      ensures x in rows + [k]
    {
      assert x in rows || (rows + [k])[|rows|] == x;
    }
  }

  function Taken<K>(rows: seq<K>, n: nat): set<K>
    requires n <= |rows|
  {
    set i | 0 <= i < n :: rows[i]
  }

  /** What was taken before position `n` ranks no lower than the row there, the rest no higher. */
  lemma TakeNext<K>(items: set<K>, rank: map<K, int>, rows: seq<K>, n: nat)
    requires Falling(items, rank, rows) && n < |rows|
    ensures rows[n] in items && rows[n] !in Taken(rows, n) && Taken(rows, n) <= items
    ensures forall k :: k in Taken(rows, n) ==> rank[k] >= rank[rows[n]]
    ensures forall k :: k in items && k !in Taken(rows, n) ==> rank[k] <= rank[rows[n]]
    ensures Taken(rows, n + 1) == Taken(rows, n) + {rows[n]}
  {
    forall k | k in items && k !in Taken(rows, n)
      ensures rank[k] <= rank[rows[n]]
    {
      var i :| 0 <= i < |rows| && rows[i] == k;
    }
    assert rows[n] in Taken(rows, n + 1);
  }

  lemma TakenAll<K>(items: set<K>, rank: map<K, int>, rows: seq<K>)
    requires Falling(items, rank, rows)
    ensures Taken(rows, |rows|) == items
  {
  }
}
