// The accumulation every statistics view performs: walk a task list and,
// for each task that has a key, add a value to that key's running sum and
// count (`acc[key] = acc[key] || {sum: 0, count: 0}; acc[key].sum += v;
// acc[key].count++`).
module Tally {
  import opened Base

  datatype Bucket = Bucket(sum: int, count: nat)

  /** The accumulator after the whole list has been walked, written as a fold from the end. */
  function TallyOf<T, K(==)>(s: seq<T>, key: T -> Option<K>, val: T -> int): map<K, Bucket>
  {
    if |s| == 0 then map[]
    else
      var m := TallyOf(s[..|s| - 1], key, val);
      var t := s[|s| - 1];
      match key(t)
      case None => m
      case Some(k) => AddTo(m, k, val(t))
  }

  /** One step of the accumulation: `v` added to the bucket of `k`, which starts empty. */
  function AddTo<K>(m: map<K, Bucket>, k: K, v: int): map<K, Bucket>
  {
    m[k := if k in m then Bucket(m[k].sum + v, m[k].count + 1) else Bucket(v, 1)]
  }

  /** Number of elements of `s` whose key is `k`. */
  function CountWhere<T, K(==)>(s: seq<T>, key: T -> Option<K>, k: K): nat
  {
    if |s| == 0 then 0 else (if key(s[0]) == Some(k) then 1 else 0) + CountWhere(s[1..], key, k)
  }

  /** Sum of `val` over the elements of `s` whose key is `k`. */
  function SumWhere<T, K(==)>(s: seq<T>, key: T -> Option<K>, val: T -> int, k: K): int
  {
    if |s| == 0 then 0 else (if key(s[0]) == Some(k) then val(s[0]) else 0) + SumWhere(s[1..], key, val, k)
  }

  lemma {:induction false} WhereSnoc<T, K>(s: seq<T>, t: T, key: T -> Option<K>, val: T -> int, k: K)
    ensures CountWhere(s + [t], key, k) == CountWhere(s, key, k) + (if key(t) == Some(k) then 1 else 0)
    ensures SumWhere(s + [t], key, val, k) == SumWhere(s, key, val, k) + (if key(t) == Some(k) then val(t) else 0)
  {
    if |s| > 0 {
      assert (s + [t])[1..] == s[1..] + [t];
      WhereSnoc(s[1..], t, key, val, k);
    }
  }

  lemma {:induction false} SumWhereEmpty<T, K>(s: seq<T>, key: T -> Option<K>, val: T -> int, k: K)
    requires CountWhere(s, key, k) == 0
    ensures SumWhere(s, key, val, k) == 0
  {
    if |s| > 0 {
      SumWhereEmpty(s[1..], key, val, k);
    }
  }

  /**
   * A key is present exactly when some element carries it, and its bucket
   * holds the sum and the number of the elements carrying it.
   */
  lemma {:induction false} TallyAt<T, K>(s: seq<T>, key: T -> Option<K>, val: T -> int, k: K)
    ensures k in TallyOf(s, key, val) <==> CountWhere(s, key, k) > 0
    ensures k in TallyOf(s, key, val) ==>
      TallyOf(s, key, val)[k] == Bucket(SumWhere(s, key, val, k), CountWhere(s, key, k))
  {
    if |s| > 0 {
      var init := s[..|s| - 1];
      var t := s[|s| - 1];
      TallyAt(init, key, val, k);
      assert s == init + [t];
      WhereSnoc(init, t, key, val, k);
      if CountWhere(init, key, k) == 0 {
        SumWhereEmpty(init, key, val, k);
      }
      var m := TallyOf(init, key, val);
      assert TallyOf(s, key, val) == match key(t)
        case None => m
        case Some(k') => AddTo(m, k', val(t));
    }
  }

  /** An element carries the key exactly when the key's count is positive. */
  lemma {:induction false} CountWherePositive<T, K>(s: seq<T>, key: T -> Option<K>, k: K)
    ensures CountWhere(s, key, k) > 0 <==> exists i :: 0 <= i < |s| && key(s[i]) == Some(k)
  {
    if |s| > 0 {
      CountWherePositive(s[1..], key, k);
      if CountWhere(s[1..], key, k) > 0 {
        var i :| 0 <= i < |s[1..]| && key(s[1..][i]) == Some(k);
        assert key(s[i + 1]) == Some(k);
      }
      if exists i :: 0 <= i < |s| && key(s[i]) == Some(k) {
        var i :| 0 <= i < |s| && key(s[i]) == Some(k);
        if i > 0 {
          assert key(s[1..][i - 1]) == Some(k);
        }
      }
    }
  }

  /** Every bucket counts at least one element, so dividing by its count is safe. */
  lemma TallyCountPositive<T, K>(s: seq<T>, key: T -> Option<K>, val: T -> int, k: K)
    requires k in TallyOf(s, key, val)
    ensures TallyOf(s, key, val)[k].count >= 1
  {
    TallyAt(s, key, val, k);
  }

  /** If every counted value lies in [lo, hi], a bucket's sum lies between count*lo and count*hi. */
  lemma {:induction false} SumWhereBounds<T, K>(s: seq<T>, key: T -> Option<K>, val: T -> int, k: K, lo: int, hi: int)
    requires forall t :: t in s && key(t) == Some(k) ==> lo <= val(t) <= hi
    ensures CountWhere(s, key, k) * lo <= SumWhere(s, key, val, k) <= CountWhere(s, key, k) * hi
  {
    if |s| > 0 {
      assert forall t :: t in s[1..] ==> t in s;
      SumWhereBounds(s[1..], key, val, k, lo, hi);
      var n := CountWhere(s[1..], key, k);
      if key(s[0]) == Some(k) {
        assert s[0] in s;
        assert CountWhere(s, key, k) == 1 + n;
        assert (1 + n) * lo == lo + n * lo && (1 + n) * hi == hi + n * hi;
      } else {
        assert CountWhere(s, key, k) == n && SumWhere(s, key, val, k) == SumWhere(s[1..], key, val, k);
      }
    }
  }

  /** If no counted value is negative, no bucket's sum is. */
  lemma {:induction false} SumWhereNonNegative<T, K>(s: seq<T>, key: T -> Option<K>, val: T -> int, k: K)
    requires forall t :: t in s && key(t) == Some(k) ==> 0 <= val(t)
    ensures 0 <= SumWhere(s, key, val, k)
  {
    if |s| > 0 {
      assert forall t :: t in s[1..] ==> t in s;
      SumWhereNonNegative(s[1..], key, val, k);
    }
  }

  /** `s.reduce((sum, x) => sum + f(x), 0)`. */
  function Total<T>(s: seq<T>, f: T -> int): int
  {
    if |s| == 0 then 0 else f(s[0]) + Total(s[1..], f)
  }

  lemma {:induction false} TotalNonNegative<T>(s: seq<T>, f: T -> int)
    requires forall x :: x in s ==> f(x) >= 0
    ensures Total(s, f) >= 0
  {
    if |s| > 0 {
      assert forall x :: x in s[1..] ==> x in s;
      TotalNonNegative(s[1..], f);
    }
  }

  /** Changing one element changes the total by the difference of its two values. */
  lemma {:induction false} TotalChangeAt<T>(s: seq<T>, s': seq<T>, k: nat, f: T -> int)
    requires |s'| == |s| && k < |s|
    requires forall i :: 0 <= i < |s| && i != k ==> s'[i] == s[i]
    ensures Total(s', f) == Total(s, f) - f(s[k]) + f(s'[k])
  {
    if k == 0 {
      assert s'[1..] == s[1..];
    } else {
      TotalChangeAt(s[1..], s'[1..], k - 1, f);
    }
  }

  /** The number of elements whose key is one of the integers lo, lo + 1, ..., hi - 1. */
  function CountsBetween<T>(s: seq<T>, key: T -> Option<int>, lo: int, hi: int): nat
    decreases hi - lo
  {
    if lo >= hi then 0 else CountWhere(s, key, lo) + CountsBetween(s, key, lo + 1, hi)
  }

  lemma {:induction false} CountsBetweenCons<T>(s: seq<T>, key: T -> Option<int>, lo: int, hi: int)
    requires |s| > 0
    ensures CountsBetween(s, key, lo, hi) ==
      CountsBetween(s[1..], key, lo, hi) + (if key(s[0]).Some? && lo <= key(s[0]).value < hi then 1 else 0)
    decreases hi - lo
  {
    if lo < hi {
      CountsBetweenCons(s, key, lo + 1, hi);
    }
  }

  /** When every key is one of lo, ..., hi - 1, the counts of those keys add up to the length. */
  lemma {:induction false} CountsBetweenAll<T>(s: seq<T>, key: T -> Option<int>, lo: int, hi: int)
    requires forall x :: x in s ==> key(x).Some? && lo <= key(x).value < hi
    ensures CountsBetween(s, key, lo, hi) == |s|
  {
    if |s| > 0 {
      assert forall x :: x in s[1..] ==> x in s;
      CountsBetweenAll(s[1..], key, lo, hi);
      CountsBetweenCons(s, key, lo, hi);
    } else {
      CountsBetweenOfEmpty(s, key, lo, hi);
    }
  }

  lemma {:induction false} CountsBetweenOfEmpty<T>(s: seq<T>, key: T -> Option<int>, lo: int, hi: int)
    requires |s| == 0
    ensures CountsBetween(s, key, lo, hi) == 0
    decreases hi - lo
  {
    if lo < hi {
      CountsBetweenOfEmpty(s, key, lo + 1, hi);
    }
  }

  /** Rows holding the counts of keys lo, lo + 1, ... total the counts of that range. */
  lemma {:induction false} TotalOfCounts<T, R>(rows: seq<R>, f: R -> int, s: seq<T>, key: T -> Option<int>, lo: int)
    requires forall i :: 0 <= i < |rows| ==> f(rows[i]) == CountWhere(s, key, lo + i)
    ensures Total(rows, f) == CountsBetween(s, key, lo, lo + |rows|)
  {
    if |rows| > 0 {
      TotalOfCounts(rows[1..], f, s, key, lo + 1);
    }
  }

  /** The keys of `s` in the order they first occur: the key order of a dictionary built by the walk. */
  function FirstSeenKeys<T, K(==)>(s: seq<T>, key: T -> Option<K>): seq<K>
  {
    if |s| == 0 then []
    else
      var init := FirstSeenKeys(s[..|s| - 1], key);
      match key(s[|s| - 1])
      case None => init
      case Some(k) => if k in init then init else init + [k]
  }

  /** Each key occurs once, and exactly the keys some element carries occur. */
  lemma {:induction false} FirstSeenKeysAre<T, K>(s: seq<T>, key: T -> Option<K>)
    ensures forall i, j :: 0 <= i < j < |FirstSeenKeys(s, key)| ==> FirstSeenKeys(s, key)[i] != FirstSeenKeys(s, key)[j]
    ensures forall k :: k in FirstSeenKeys(s, key) <==> CountWhere(s, key, k) > 0
  {
    if |s| > 0 {
      var init := s[..|s| - 1];
      var t := s[|s| - 1];
      FirstSeenKeysAre(init, key);
      assert s == init + [t];
      forall k ensures CountWhere(s, key, k) == CountWhere(init, key, k) + (if key(t) == Some(k) then 1 else 0) {
        WhereSnoc(init, t, key, (x: T) => 0, k);
      }
    }
  }

  /** Walking one more element adds its key at the end when it is new. */
  lemma FirstSeenKeysSnoc<T, K>(s: seq<T>, t: T, key: T -> Option<K>)
    ensures FirstSeenKeys(s + [t], key) ==
      match key(t)
      case None => FirstSeenKeys(s, key)
      case Some(k) => if k in FirstSeenKeys(s, key) then FirstSeenKeys(s, key) else FirstSeenKeys(s, key) + [k]
  {
    assert (s + [t])[..|s|] == s;
  }

  /** The forEach loop itself, building the accumulator in place. */
  method Accumulate<T, K(==)>(s: seq<T>, key: T -> Option<K>, val: T -> int) returns (acc: map<K, Bucket>)
    ensures acc == TallyOf(s, key, val)
  {
    acc := map[];
    var i := 0;
    while i < |s|
      invariant 0 <= i <= |s|
      invariant acc == TallyOf(s[..i], key, val)
    {
      var t := s[i];
      assert s[..i + 1][..i] == s[..i];
      match key(t) {
        case None =>
        case Some(k) =>
          if k in acc {
            acc := acc[k := Bucket(acc[k].sum + val(t), acc[k].count + 1)];
          } else {
            acc := acc[k := Bucket(val(t), 1)];
          }
      }
      i := i + 1;
    }
    assert s[..i] == s;
  }
}
