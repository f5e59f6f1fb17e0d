/**
 * Insertion-ordered dictionaries from keys to amounts: the Python
 * `Dict[str, float]` values that hold a portfolio's holdings.  A dictionary
 * is a sequence of (key, amount) entries in insertion order, with no key
 * twice (`DistinctKeys`).
 */
module Dicts {

  /** A ticker symbol such as "SPY". */
  type Ticker = string

  /** The keys of `d`. */
  function KeySet(d: seq<(Ticker, real)>): set<Ticker>
  {
    if |d| == 0 then {} else {d[0].0} + KeySet(d[1..])
  }

  /** No key appears in two entries. */
  predicate DistinctKeys(d: seq<(Ticker, real)>)
  {
    |d| == 0 || (d[0].0 !in KeySet(d[1..]) && DistinctKeys(d[1..]))
  }

  /**
   * The sum of the amounts stored under `k`; for a dictionary (distinct keys)
   * this is `d.get(k, 0)`, see ValueOfEntry and ValueOfAbsent.
   */
  function ValueOf(d: seq<(Ticker, real)>, k: Ticker): real
  {
    if |d| == 0 then 0.0 else (if d[0].0 == k then d[0].1 else 0.0) + ValueOf(d[1..], k)
  }

  /** `sum(d.values())` */
  function Total(d: seq<(Ticker, real)>): real
  {
    if |d| == 0 then 0.0 else d[0].1 + Total(d[1..])
  }

  lemma {:induction false} InKeySet(d: seq<(Ticker, real)>, k: Ticker)
    ensures k in KeySet(d) <==> exists i :: 0 <= i < |d| && d[i].0 == k
  {
    if |d| > 0 {
      InKeySet(d[1..], k);
      if k in KeySet(d[1..]) {
        var i :| 0 <= i < |d| - 1 && d[1..][i].0 == k;
        assert d[i + 1].0 == k;
      }
      forall i | 0 < i < |d| && d[i].0 == k ensures k in KeySet(d[1..]) {
        assert d[1..][i - 1].0 == k;
      }
    }
  }

  /** A key that is not in the dictionary has value 0. */
  lemma {:induction false} ValueOfAbsent(d: seq<(Ticker, real)>, k: Ticker)
    requires k !in KeySet(d)
    ensures ValueOf(d, k) == 0.0
  {
    if |d| > 0 {
      ValueOfAbsent(d[1..], k);
    }
  }

  /** In a dictionary, ValueOf reads back the amount stored under the key. */
  lemma {:induction false} ValueOfEntry(d: seq<(Ticker, real)>, i: nat)
    requires DistinctKeys(d) && i < |d|
    ensures ValueOf(d, d[i].0) == d[i].1
  {
    if i == 0 {
      ValueOfAbsent(d[1..], d[0].0);
    } else {
      ValueOfEntry(d[1..], i - 1);
      InKeySet(d[1..], d[i].0);
    }
  }

  lemma {:induction false} ValueOfAppend(d: seq<(Ticker, real)>, e: seq<(Ticker, real)>, k: Ticker)
    ensures ValueOf(d + e, k) == ValueOf(d, k) + ValueOf(e, k)
  {
    if |d| > 0 {
      assert (d + e)[1..] == d[1..] + e;
      ValueOfAppend(d[1..], e, k);
    } else {
      assert d + e == e;
    }
  }

  lemma {:induction false} TotalAppend(d: seq<(Ticker, real)>, e: seq<(Ticker, real)>)
    ensures Total(d + e) == Total(d) + Total(e)
  {
    if |d| > 0 {
      assert (d + e)[1..] == d[1..] + e;
      TotalAppend(d[1..], e);
    } else {
      assert d + e == e;
    }
  }

  lemma {:induction false} KeySetAppend(d: seq<(Ticker, real)>, e: seq<(Ticker, real)>)
    ensures KeySet(d + e) == KeySet(d) + KeySet(e)
  {
    if |d| > 0 {
      assert (d + e)[1..] == d[1..] + e;
      KeySetAppend(d[1..], e);
    } else {
      assert d + e == e;
    }
  }

  /** Appending an entry under a new key keeps the keys distinct. */
  lemma {:induction false} DistinctKeysAppendNew(d: seq<(Ticker, real)>, k: Ticker, a: real)
    requires DistinctKeys(d) && k !in KeySet(d)
    ensures DistinctKeys(d + [(k, a)])
  {
    if |d| > 0 {
      assert (d + [(k, a)])[1..] == d[1..] + [(k, a)];
      DistinctKeysAppendNew(d[1..], k, a);
      KeySetAppend(d[1..], [(k, a)]);
      assert KeySet([(k, a)]) == {k};
    }
  }

  /**
   * `d[k] = d.get(k, 0) + a`: adds `a` to the entry for `k` where it stands,
   * or appends a new entry when `k` is absent.
   */
  function AddTo(d: seq<(Ticker, real)>, k: Ticker, a: real): (r: seq<(Ticker, real)>)
    ensures KeySet(r) == KeySet(d) + {k}
    ensures forall t :: ValueOf(r, t) == ValueOf(d, t) + (if t == k then a else 0.0)
    ensures Total(r) == Total(d) + a
    ensures DistinctKeys(d) ==> DistinctKeys(r)
  {
    if |d| == 0 then
      [(k, a)]
    else if d[0].0 == k then
      assert ([(k, d[0].1 + a)] + d[1..])[1..] == d[1..];
      [(k, d[0].1 + a)] + d[1..]
    else
      var rest := AddTo(d[1..], k, a);
      assert ([d[0]] + rest)[1..] == rest;
      [d[0]] + rest
  }

  /** `for k, a in items: d[k] = d.get(k, 0) + a` */
  function AddAll(d: seq<(Ticker, real)>, items: seq<(Ticker, real)>): seq<(Ticker, real)>
  {
    if |items| == 0 then d
    else AddTo(AddAll(d, items[..|items| - 1]), items[|items| - 1].0, items[|items| - 1].1)
  }

  /**
   * Adding every item of `items` to `d` adds, key by key, what `items` holds
   * under that key, unites the key sets and adds the totals.
   */
  lemma {:induction false} AddAllFacts(d: seq<(Ticker, real)>, items: seq<(Ticker, real)>)
    ensures KeySet(AddAll(d, items)) == KeySet(d) + KeySet(items)
    ensures forall t :: ValueOf(AddAll(d, items), t) == ValueOf(d, t) + ValueOf(items, t)
    ensures Total(AddAll(d, items)) == Total(d) + Total(items)
    ensures DistinctKeys(d) ==> DistinctKeys(AddAll(d, items))
  {
    if |items| > 0 {
      var n := |items| - 1;
      var last := items[n];
      AddAllFacts(d, items[..n]);
      assert items == items[..n] + [last];
      KeySetAppend(items[..n], [last]);
      TotalAppend(items[..n], [last]);
      forall t ensures ValueOf(items, t) == ValueOf(items[..n], t) + (if t == last.0 then last.1 else 0.0) {
        ValueOfAppend(items[..n], [last], t);
      }
    }
  }
}
