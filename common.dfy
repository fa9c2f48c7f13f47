// Shared vocabulary for the whole model: optional values, the Python
// exceptions the core raises, sums over sequences of floats (modelled as
// reals), integer powers, and Python dictionaries kept as association lists
// so that their insertion order is part of the value.

module Common {

  datatype Option<T> = None | Some(value: T)
  {
    function GetOr(default: T): T
    {
      if Some? then value else default
    }
  }

  /** The exceptions that escape from the core, by Python class. */
  datatype Error =
    | KeyError(key: string)
    | RowKeyError(row: int)   // a missing row label, such as a year's December 31
    | ZeroDivisionError
    | ValueError(message: string)
    | NameError(name: string)
    | AttributeError(attribute: string)
    | IndexError
    | EdgeKeyError(fromNode: string, toNode: string)   // a missing (from, to) line key
    | StopIteration   // next() on an empty iterator

  datatype Result<T> = Ok(value: T) | Err(error: Error)

  /** Result of an operation that changes state and returns nothing. */
  datatype Outcome = Pass | Fail(error: Error)

  /** The values of a sequence of steps run in order, or the error of the
      first step that fails (a loop that stops at the first exception). */
  function Collect<T>(s: seq<Result<T>>): (r: Result<seq<T>>)
    ensures r.Ok? ==> |r.value| == |s|
  {
    if |s| == 0 then Ok([])
    else
      match Collect(s[..|s| - 1])
      case Err(e) => Err(e)
      case Ok(prefix) =>
        match s[|s| - 1]
        case Err(e) => Err(e)
        case Ok(x) => Ok(prefix + [x])
  }

  /** A collection succeeds exactly when every step does, and then holds
      each step's value at its position. */
  lemma {:induction false} CollectAt<T>(s: seq<Result<T>>)
    ensures Collect(s).Ok? <==> forall i :: 0 <= i < |s| ==> s[i].Ok?
    ensures Collect(s).Ok? ==> forall i :: 0 <= i < |s| ==> s[i] == Ok(Collect(s).value[i])
  {
    if |s| > 0 {
      var n := |s| - 1;
      CollectAt(s[..n]);
      assert forall i :: 0 <= i < n ==> s[..n][i] == s[i];
      if Collect(s).Ok? {
        assert Collect(s).value[..n] == Collect(s[..n]).value;
        forall i | 0 <= i < n
          ensures s[i] == Ok(Collect(s).value[i])
        {
          assert Collect(s).value[..n][i] == Collect(s).value[i];
        }
      }
    }
  }

  /** A collection fails with the error of its first failing step. */
  lemma {:induction false} CollectFirstError<T>(s: seq<Result<T>>, k: nat)
    requires k < |s| && s[k].Err?
    requires forall i :: 0 <= i < k ==> s[i].Ok?
    ensures Collect(s) == Err(s[k].error)
  {
    var n := |s| - 1;
    if k == n {
      CollectAt(s[..n]);
      assert forall i :: 0 <= i < n ==> s[..n][i] == s[i];
    } else {
      CollectFirstError(s[..n], k);
      assert s[..n][k] == s[k];
    }
  }

  /** Once a prefix fails, the whole collection fails with its error. */
  lemma {:induction false} CollectPrefixError<T>(s: seq<Result<T>>, k: nat)
    requires k <= |s| && Collect(s[..k]).Err?
    ensures Collect(s) == Collect(s[..k])
    decreases |s|
  {
    if k < |s| {
      var n := |s| - 1;
      assert s[..n][..k] == s[..k];
      CollectPrefixError(s[..n], k);
    } else {
      assert s[..k] == s;
    }
  }

  // ---------------------------------------------------------------------
  // Arithmetic helpers

  function Min(a: real, b: real): real { if a <= b then a else b }

  function Max(a: real, b: real): real { if a >= b then a else b }

  function Abs(x: real): real { if x < 0.0 then -x else x }

  /** numpy.clip(x, lo, hi) = minimum(maximum(x, lo), hi). */
  function Clip(x: real, lo: real, hi: real): (r: real)
    requires lo <= hi
    ensures lo <= r <= hi
    ensures lo <= x <= hi ==> r == x
  {
    Min(Max(x, lo), hi)
  }

  /** Python's `b ** n` for a natural exponent. */
  function Pow(b: real, n: nat): (r: real)
    ensures b > 0.0 ==> r > 0.0
    ensures b != 0.0 ==> r != 0.0
  {
    if n == 0 then 1.0 else b * Pow(b, n - 1)
  }

  /** Python's `b ** n` for a float base and an int exponent raises
      ZeroDivisionError exactly when a zero base meets a negative exponent. */
  predicate PowDefined(b: real, n: int)
  {
    b != 0.0 || n >= 0
  }

  /** Python's `b ** n` for an integer exponent, where it is defined. */
  function IntPow(b: real, n: int): (r: real)
    requires PowDefined(b, n)
    ensures b > 0.0 ==> r > 0.0
    ensures b != 0.0 ==> r != 0.0
    ensures n == 0 ==> r == 1.0
  {
    if n >= 0 then Pow(b, n) else 1.0 / Pow(b, -n)
  }

  /** One more factor of b, for any integer exponent. */
  lemma IntPowStep(b: real, n: int)
    requires b != 0.0
    ensures IntPow(b, n + 1) == b * IntPow(b, n)
  {
    if n == -1 {
      assert IntPow(b, n) == 1.0 / b;
    } else if n < -1 {
      var p := Pow(b, -n - 1);
      assert Pow(b, -n) == b * p;
      assert p != 0.0;
      assert IntPow(b, n + 1) == 1.0 / p;
      assert IntPow(b, n) == 1.0 / (b * p);
    }
  }

  /** Two more factors of b, for any integer exponent. */
  lemma IntPowTwoSteps(b: real, n: int)
    requires b != 0.0
    ensures IntPow(b, n + 2) == b * b * IntPow(b, n)
  {
    IntPowStep(b, n);
    IntPowStep(b, n + 1);
    var x := IntPow(b, n);
    assert IntPow(b, n + 2) == b * (b * x);
  }

  lemma ScaleMonotone(x: real, y: real, k: real)
    requires x <= y && k >= 0.0
    ensures x * k <= y * k
  {
    assert y * k - x * k == (y - x) * k;
  }

  // ---------------------------------------------------------------------
  // Sums

  /** Python's sum() over floats, accumulated from the left. */
  function Sum(s: seq<real>): real
  {
    if |s| == 0 then 0.0 else Sum(s[..|s| - 1]) + s[|s| - 1]
  }

  lemma {:induction false} SumAppend(a: seq<real>, b: seq<real>)
    ensures Sum(a + b) == Sum(a) + Sum(b)
  {
    if |b| == 0 {
      assert a + b == a;
    } else {
      assert (a + b)[..|a + b| - 1] == a + b[..|b| - 1];
      SumAppend(a, b[..|b| - 1]);
    }
  }

  lemma {:induction false} SumNonNegative(s: seq<real>)
    requires forall i :: 0 <= i < |s| ==> s[i] >= 0.0
    ensures Sum(s) >= 0.0
  {
    if |s| > 0 {
      SumNonNegative(s[..|s| - 1]);
    }
  }

  /** Summing two sequences of the same length, element by element. */
  lemma {:induction false} SumMonotone(a: seq<real>, b: seq<real>)
    requires |a| == |b|
    requires forall i :: 0 <= i < |a| ==> a[i] <= b[i]
    ensures Sum(a) <= Sum(b)
  {
    if |a| > 0 {
      SumMonotone(a[..|a| - 1], b[..|b| - 1]);
    }
  }

  lemma {:induction false} SumScaled(s: seq<real>, k: real, t: seq<real>)
    requires |t| == |s|
    requires forall i :: 0 <= i < |s| ==> t[i] == k * s[i]
    ensures Sum(t) == k * Sum(s)
  {
    if |s| > 0 {
      SumScaled(s[..|s| - 1], k, t[..|t| - 1]);
    }
  }

  lemma {:induction false} SumDivided(s: seq<real>, k: real, t: seq<real>)
    requires k != 0.0 && |t| == |s|
    requires forall i :: 0 <= i < |s| ==> t[i] == s[i] / k
    ensures Sum(t) == Sum(s) / k
  {
    if |s| > 0 {
      var n := |s| - 1;
      SumDivided(s[..n], k, t[..n]);
      assert Sum(s[..n]) / k + s[n] / k == (Sum(s[..n]) + s[n]) / k;
    }
  }

  /** A sequence of n copies of x, as in Python's `[x] * n`. */
  function Repeat(x: real, n: nat): (r: seq<real>)
    ensures |r| == n
    ensures forall i :: 0 <= i < n ==> r[i] == x
  {
    seq(n, i => x)
  }

  lemma {:induction false} SumRepeat(x: real, n: nat)
    ensures Sum(Repeat(x, n)) == n as real * x
  {
    if n > 0 {
      assert Repeat(x, n)[..n - 1] == Repeat(x, n - 1);
      SumRepeat(x, n - 1);
    }
  }

  /** Arithmetic mean; the mean of nothing is NaN in pandas, here None. */
  function Mean(s: seq<real>): (r: Option<real>)
    ensures r.Some? <==> |s| > 0
  {
    if |s| == 0 then None else Some(Sum(s) / |s| as real)
  }

  /** How many flags are set. */
  function Count(flags: seq<bool>): (n: nat)
    ensures n <= |flags|
  {
    if |flags| == 0 then 0
    else Count(flags[..|flags| - 1]) + (if flags[|flags| - 1] then 1 else 0)
  }

  /** The mean of a boolean Series: the share of set flags (NaN when empty). */
  function Fraction(flags: seq<bool>): (r: Option<real>)
    ensures r.Some? <==> |flags| > 0
    ensures r.Some? ==> 0.0 <= r.value <= 1.0
  {
    if |flags| == 0 then None else Some(Count(flags) as real / |flags| as real)
  }

  // ---------------------------------------------------------------------
  // Dictionaries as association lists (insertion order kept)

  /** Appending an element and then a sequence regroups freely. */
  lemma AppendAssoc<T>(a: seq<T>, x: T, b: seq<T>)
    ensures (a + [x]) + b == a + ([x] + b)
  {
  }

  function Keys<K, V>(d: seq<(K, V)>): (ks: seq<K>)
    ensures |ks| == |d|
    ensures forall i :: 0 <= i < |d| ==> ks[i] == d[i].0
  {
    seq(|d|, i requires 0 <= i < |d| => d[i].0)
  }

  function Values<K, V>(d: seq<(K, V)>): (vs: seq<V>)
    ensures |vs| == |d|
    ensures forall i :: 0 <= i < |d| ==> vs[i] == d[i].1
  {
    seq(|d|, i requires 0 <= i < |d| => d[i].1)
  }

  /** `d[k]` for the first entry with key k; None when the key is absent
      (Python raises KeyError). */
  function Find<K(==), V>(d: seq<(K, V)>, k: K): Option<V>
  {
    if |d| == 0 then None
    else if d[0].0 == k then Some(d[0].1)
    else Find(d[1..], k)
  }

  lemma {:induction false} FindPresent<K, V>(d: seq<(K, V)>, k: K)
    ensures Find(d, k).Some? <==> k in Keys(d)
    ensures Find(d, k).Some? ==> (k, Find(d, k).value) in d
  {
    if |d| > 0 {
      KeysFirst(d);
      FindPresent(d[1..], k);
    }
  }

  /** `d[k] = v`: replaces the value in place when k is present (the key keeps
      its position), appends otherwise. */
  function Put<K(==), V>(d: seq<(K, V)>, k: K, v: V): (r: seq<(K, V)>)
    ensures |r| == if k in Keys(d) then |d| else |d| + 1
  {
    if |d| == 0 then [(k, v)]
    else if d[0].0 == k then [(k, v)] + d[1..]
    else
      assert Keys(d) == [d[0].0] + Keys(d[1..]);
      [d[0]] + Put(d[1..], k, v)
  }

  /** After `d[k] = v`, k maps to v and every other key is unchanged. */
  lemma {:induction false} PutFind<K, V>(d: seq<(K, V)>, k: K, v: V, j: K)
    ensures Find(Put(d, k, v), j) == if j == k then Some(v) else Find(d, j)
  {
    if |d| > 0 && d[0].0 != k {
      var r := Put(d, k, v);
      assert r[0] == d[0] && r[1..] == Put(d[1..], k, v);
      PutFind(d[1..], k, v, j);
    } else if |d| > 0 {
      assert Put(d, k, v)[1..] == d[1..];
    }
  }

  /** `d[k] = v` keeps the key order and appends a new key at the end. */
  lemma {:induction false} PutKeys<K, V>(d: seq<(K, V)>, k: K, v: V)
    ensures Keys(Put(d, k, v)) == if k in Keys(d) then Keys(d) else Keys(d) + [k]
  {
    var r := Put(d, k, v);
    if |d| == 0 {
      assert r == [(k, v)];
    } else {
      KeysFirst(d);
      KeysFirst(r);
      if d[0].0 == k {
        assert r[0].0 == k && r[1..] == d[1..];
      } else {
        assert r[0] == d[0] && r[1..] == Put(d[1..], k, v);
        PutKeys(d[1..], k, v);
        if k in Keys(d[1..]) {
          assert k in Keys(d);
        } else {
          assert k !in Keys(d);
          assert [d[0].0] + (Keys(d[1..]) + [k]) == Keys(d) + [k];
        }
      }
    }
  }

  lemma KeysFirst<K, V>(d: seq<(K, V)>)
    requires |d| > 0
    ensures Keys(d) == [d[0].0] + Keys(d[1..])
  {
  }

  /** Keys appear at most once, as in a Python dict. */
  predicate DistinctKeys<K(==), V>(d: seq<(K, V)>)
  {
    forall i, j :: 0 <= i < j < |d| ==> d[i].0 != d[j].0
  }

  /** Storing under a key keeps the keys distinct. */
  lemma PutDistinct<K, V>(d: seq<(K, V)>, k: K, v: V)
    requires DistinctKeys(d)
    ensures DistinctKeys(Put(d, k, v))
  {
    PutKeys(d, k, v);
    var r := Put(d, k, v);
    assert forall i :: 0 <= i < |r| ==> r[i].0 == Keys(r)[i];
    assert forall i :: 0 <= i < |d| ==> d[i].0 == Keys(d)[i];
  }

  /** Adds v to the entry for k, creating it at the end when absent. */
  function AddTo<K(==)>(d: seq<(K, real)>, k: K, v: real): seq<(K, real)>
  {
    if |d| == 0 then [(k, v)]
    else if d[0].0 == k then [(k, d[0].1 + v)] + d[1..]
    else [d[0]] + AddTo(d[1..], k, v)
  }

  /** Adding to entry k changes entry k only, by v. */
  lemma {:induction false} AddToFind<K>(d: seq<(K, real)>, k: K, v: real, j: K)
    ensures Find(AddTo(d, k, v), j) == if j == k then Some(Find(d, k).GetOr(0.0) + v) else Find(d, j)
  {
    if |d| > 0 {
      var r := AddTo(d, k, v);
      if d[0].0 == k {
        assert r[0] == (k, d[0].1 + v) && r[1..] == d[1..];
      } else {
        assert r[0] == d[0] && r[1..] == AddTo(d[1..], k, v);
        AddToFind(d[1..], k, v, j);
      }
    }
  }

  lemma SumFirst(x: real, s: seq<real>)
    ensures Sum([x] + s) == x + Sum(s)
  {
    SumAppend([x], s);
    assert [x][..0] == [];
  }

  lemma {:induction false} AddToTotal<K>(d: seq<(K, real)>, k: K, v: real)
    ensures Sum(Values(AddTo(d, k, v))) == Sum(Values(d)) + v
  {
    var r := AddTo(d, k, v);
    if |d| == 0 {
      assert r == [(k, v)];
      ValuesFirst(r);
      SumFirst(v, []);
    } else {
      ValuesFirst(d);
      SumFirst(d[0].1, Values(d[1..]));
      ValuesFirst(r);
      if d[0].0 == k {
        assert r[0].1 == d[0].1 + v && r[1..] == d[1..];
        SumFirst(d[0].1 + v, Values(d[1..]));
      } else {
        assert r[0] == d[0] && r[1..] == AddTo(d[1..], k, v);
        SumFirst(d[0].1, Values(r[1..]));
        AddToTotal(d[1..], k, v);
      }
    }
  }

  lemma ValuesFirst<K>(d: seq<(K, real)>)
    requires |d| > 0
    ensures Values(d) == [d[0].1] + Values(d[1..])
  {
  }

  /** The entries after the first of a dictionary with distinct keys
      have distinct keys, none of them the first key. */
  lemma DistinctTail<K, V>(d: seq<(K, V)>)
    requires |d| > 0 && DistinctKeys(d)
    ensures DistinctKeys(d[1..]) && d[0].0 !in Keys(d[1..])
  {
    var rest := d[1..];
    forall i, j | 0 <= i < j < |rest|
      ensures rest[i].0 != rest[j].0
    {
      assert rest[i] == d[i + 1] && rest[j] == d[j + 1];
    }
    forall i | 0 <= i < |rest|
      ensures Keys(rest)[i] != d[0].0
    {
      assert Keys(rest)[i] == d[i + 1].0;
    }
  }

  /** A new key put in front of distinct keys keeps them distinct. */
  lemma DistinctCons<K, V>(x: (K, V), d: seq<(K, V)>)
    requires DistinctKeys(d) && x.0 !in Keys(d)
    ensures DistinctKeys([x] + d)
  {
    var r := [x] + d;
    forall i, j | 0 <= i < j < |r|
      ensures r[i].0 != r[j].0
    {
      if i == 0 {
        assert r[j].0 == Keys(d)[j - 1];
      } else {
        assert r[i] == d[i - 1] && r[j] == d[j - 1];
      }
    }
  }

  /** Adding to an entry keeps the keys distinct. */
  lemma {:induction false} AddToDistinct<K>(d: seq<(K, real)>, k: K, v: real)
    requires DistinctKeys(d)
    ensures DistinctKeys(AddTo(d, k, v))
  {
    var r := AddTo(d, k, v);
    if |d| > 0 {
      DistinctTail(d);
      if d[0].0 != k {
        var rest := AddTo(d[1..], k, v);
        assert r == [d[0]] + rest;
        AddToDistinct(d[1..], k, v);
        FindPresent(d[1..], d[0].0);
        AddToFind(d[1..], k, v, d[0].0);
        FindPresent(rest, d[0].0);
        DistinctCons(d[0], rest);
      } else {
        assert r == [(k, d[0].1 + v)] + d[1..];
        DistinctCons((k, d[0].1 + v), d[1..]);
      }
    }
  }
}
