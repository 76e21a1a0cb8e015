/** Vocabulary shared by the contract models: addresses, results, Rust's truncating division, and sums over maps. */
module Common {

  /** A party that can sign calls. A contract's own address is never one of these. */
  datatype Address = Address(key: nat)

  datatype Option<+T> = None | Some(value: T)

  datatype Result<+T, +E> = Ok(value: T) | Err(error: E)

  /** How a contract call ends: on success the specified value and state, on a panic or error the state of before. */
  predicate Matches<S(==), V(==), E(==)>(before: S, after: S, r: Result<V, E>, spec: Result<(S, V), E>) {
    match spec
    case Ok((s, v)) => r == Ok(v) && after == s
    case Err(e) => r == Err(e) && after == before
  }

  /** The same for a call that returns nothing. */
  predicate Ends<S(==), E(==)>(before: S, after: S, r: Result<(), E>, spec: Result<S, E>) {
    match spec
    case Ok(s) => r == Ok(()) && after == s
    case Err(e) => r == Err(e) && after == before
  }

  const I128_MAX: int := 0x7fff_ffff_ffff_ffff_ffff_ffff_ffff_ffff

  function Min(a: int, b: int): int { if a <= b then a else b }

  function Max(a: int, b: int): int { if a >= b then a else b }

  /** `i128` division: it rounds toward zero. */
  function TruncDiv(n: int, d: int): int
    requires d != 0
  {
    if n >= 0 then n / d else -((-n) / d)
  }

  lemma {:induction false} FloorDivBounds(n: int, d: int)
    requires 0 <= n && 0 < d
    ensures 0 <= (n / d) * d <= n < (n / d) * d + d
    ensures 0 <= n / d
  {
    var q := n / d;
    assert n == q * d + n % d;
  }

  lemma {:induction false} TruncDivBounds(n: int, d: int)
    requires d > 0
    ensures n >= 0 ==> 0 <= TruncDiv(n, d) * d <= n < TruncDiv(n, d) * d + d
    ensures n >= 0 ==> 0 <= TruncDiv(n, d)
    ensures n < 0 ==> TruncDiv(n, d) * d - d < n <= TruncDiv(n, d) * d <= 0
    ensures n <= 0 ==> TruncDiv(n, d) <= 0
  {
    if n >= 0 {
      FloorDivBounds(n, d);
    } else {
      FloorDivBounds(-n, d);
      var q := (-n) / d;
      assert (-q) * d == -(q * d);
    }
  }

  // ---------- Multiplication ----------

  lemma {:induction false} MulNonNegative(x: int, y: int)
    requires 0 <= x && 0 <= y
    ensures 0 <= x * y
  {
  }

  lemma {:induction false} MulMono(x: int, y: int, u: int, v: int)
    requires 0 <= x <= u && 0 <= y <= v
    ensures 0 <= x * y <= u * v
  {
    assert x * y <= x * v;
    assert x * v <= u * v;
  }

  lemma {:induction false} MulMonoLeft(x: int, y: int, r: int)
    requires x <= y && 0 <= r
    ensures x * r <= y * r
  {
  }

  lemma {:induction false} MulSwap(x: int, y: int)
    ensures x * y == y * x
  {
  }

  lemma {:induction false} MulExchange(x: int, y: int, z: int)
    ensures (x * y) * z == (x * z) * y
  {
  }

  /** A positive factor can be cancelled from both sides of an inequality. */
  lemma {:induction false} MulCancel(x: int, y: int, c: int)
    requires c > 0
    ensures x * c <= y * c ==> x <= y
    ensures x * c < y * c ==> x < y
  {
  }

  /** The quotient of a floor division is the largest number whose product stays below. */
  lemma {:induction false} QuotientIsGreatest(n: int, d: int, q: int)
    requires 0 <= n && 0 < d && q * d <= n
    ensures q <= n / d
  {
    FloorDivBounds(n, d);
    var p := n / d + 1;
    assert p * d == (n / d) * d + d;
    MulCancel(q, p, d);
  }

  /** `q` is `n / d` rounded toward zero, for a positive `d`: the bounds that single it out. */
  predicate Rounded(q: int, n: int, d: int) {
    if 0 <= n then q * d <= n < (q + 1) * d else (q - 1) * d < n <= q * d
  }

  lemma {:induction false} RoundedIsTruncDiv(q: int, n: int, d: int)
    requires 0 < d && Rounded(q, n, d)
    ensures q == TruncDiv(n, d)
  {
    TruncDivBounds(n, d);
    var k := TruncDiv(n, d);
    if 0 <= n { FloorsAgree(q, k, n, d); } else { FloorsAgree(-q, -k, -n, d); }
  }

  lemma {:induction false} FloorsAgree(q: int, k: int, n: int, d: int)
    requires 0 < d && q * d <= n < q * d + d && k * d <= n < k * d + d
    ensures q == k
  {
    assert (k + 1) * d == k * d + d && (q + 1) * d == q * d + d;
    MulCancel(q, k + 1, d);
    MulCancel(k, q + 1, d);
  }

  // ---------- Maps with a default, and their sums ----------

  /** A storage entry read with `unwrap_or(0)`. */
  function Get<K(==)>(m: map<K, int>, k: K): int {
    if k in m then m[k] else 0
  }

  /** Only the entry of `who` differs, and it is larger by `delta`. */
  ghost predicate Grown<K(!new)>(m: map<K, int>, m': map<K, int>, who: K, delta: int) {
    forall k :: Get(m', k) == Get(m, k) + (if k == who then delta else 0)
  }

  ghost function Sum<K>(m: map<K, int>): int
    decreases m.Keys
  {
    if m == map[] then 0
    else
      var k :| k in m;
      m[k] + Sum(m - {k})
  }

  lemma {:induction false} SumRemove<K>(m: map<K, int>, k: K)
    requires k in m
    ensures Sum(m) == m[k] + Sum(m - {k})
    decreases m.Keys
  {
    var j :| j in m && Sum(m) == m[j] + Sum(m - {j});
    if j != k {
      SumRemove(m - {j}, k);
      SumRemove(m - {k}, j);
      assert (m - {j}) - {k} == (m - {k}) - {j};
    }
  }

  /** Writing one entry moves the sum by exactly the change of that entry. */
  lemma {:induction false} SumUpdate<K>(m: map<K, int>, k: K, v: int)
    ensures Sum(m[k := v]) == Sum(m) - Get(m, k) + v
  {
    var m' := m[k := v];
    SumRemove(m', k);
    if k in m {
      SumRemove(m, k);
      assert m' - {k} == m - {k};
    } else {
      assert m' - {k} == m;
    }
  }

  ghost predicate NonNegative<K>(m: map<K, int>) {
    forall k :: k in m ==> 0 <= m[k]
  }

  lemma {:induction false} SumNonNegative<K>(m: map<K, int>)
    requires NonNegative(m)
    ensures 0 <= Sum(m)
    decreases m.Keys
  {
    if m != map[] {
      var k :| k in m;
      SumRemove(m, k);
      SumNonNegative(m - {k});
    }
  }

  lemma {:induction false} EntryAtMostSum<K>(m: map<K, int>, k: K)
    requires NonNegative(m)
    ensures 0 <= Get(m, k) <= Sum(m)
  {
    if k in m {
      SumRemove(m, k);
      SumNonNegative(m - {k});
    } else {
      SumNonNegative(m);
    }
  }

  ghost predicate AllZero<K>(m: map<K, int>) {
    forall k :: k in m ==> m[k] == 0
  }

  lemma {:induction false} SumOfZeros<K>(m: map<K, int>)
    requires AllZero(m)
    ensures Sum(m) == 0
    decreases m.Keys
  {
    if m != map[] {
      var k :| k in m;
      SumRemove(m, k);
      SumOfZeros(m - {k});
    }
  }

  // ---------- Lists used as indexes ----------

  ghost predicate NoDuplicates<T>(s: seq<T>) {
    forall i, j :: 0 <= i < j < |s| ==> s[i] != s[j]
  }

  lemma {:induction false} OccursOnce<T>(s: seq<T>, i: nat)
    requires i < |s| && NoDuplicates(s)
    ensures multiset(s)[s[i]] == 1
  {
    assert s == s[..i] + [s[i]] + s[i + 1..];
    assert s[i] !in s[..i] && s[i] !in s[i + 1..];
  }

  /** The list without the first occurrence of `x`. */
  function RemoveFirst<T(==)>(s: seq<T>, x: T): seq<T> {
    if s == [] then [] else if s[0] == x then s[1..] else [s[0]] + RemoveFirst(s[1..], x)
  }

  lemma {:induction false} RemoveFirstAt<T>(s: seq<T>, x: T, i: nat)
    requires i < |s| && s[i] == x && x !in s[..i]
    ensures RemoveFirst(s, x) == s[..i] + s[i + 1..]
  {
    if i > 0 {
      assert s[0] in s[..i];
      assert s[1..][..i - 1] == s[..i][1..];
      RemoveFirstAt(s[1..], x, i - 1);
    }
  }

  lemma {:induction false} RemoveFirstAbsent<T>(s: seq<T>, x: T)
    requires x !in s
    ensures RemoveFirst(s, x) == s
  {
    if s != [] { RemoveFirstAbsent(s[1..], x); }
  }

  lemma {:induction false} ConsNoDuplicates<T>(x: T, s: seq<T>)
    requires NoDuplicates(s)
    ensures x !in s ==> NoDuplicates([x] + s)
  {
  }

  /** On a list without duplicates exactly that element disappears. */
  lemma {:induction false} RemoveFirstMembers<T>(s: seq<T>, x: T)
    requires NoDuplicates(s)
    ensures NoDuplicates(RemoveFirst(s, x))
    ensures forall y :: y in RemoveFirst(s, x) <==> y in s && y != x
  {
    if s != [] {
      assert s == [s[0]] + s[1..];
      RemoveFirstMembers(s[1..], x);
      assert s[0] !in s[1..];
      ConsNoDuplicates(s[0], RemoveFirst(s[1..], x));
    }
  }

  /** Removes the first occurrence in place, found by a scan from the front. */
  method RemoveElement<T(==)>(s: seq<T>, x: T) returns (r: seq<T>)
    ensures r == RemoveFirst(s, x)
  {
    var i := 0;
    while i < |s|
      invariant 0 <= i <= |s|
      invariant x !in s[..i]
    {
      if s[i] == x {
        RemoveFirstAt(s, x, i);
        return s[..i] + s[i + 1..];
      }
      i := i + 1;
    }
    RemoveFirstAbsent(s, x);
    r := s;
  }
}
