/** Vocabulary shared by the models of the three Python back ends and the
    Java domain: optional values, the failures an HTTP handler answers
    with, identifiers, ASCII case folding and substring search, Python's
    slice semantics, Java's 32-bit `int`, first-match search, counting, and
    listing the keys of a map in some order. */
module Common {

  datatype Option<T> = None | Some(value: T) {
    /** The value, or `default` when there is none (Python's `dict.get(k, default)`). */
    function GetOr(default: T): T {
      match this
      case Some(v) => v
      case None => default
    }
  }

  /** What a handler answers instead of a value: a 404, or a Java runtime
      exception that the framework turns into a 500. */
  datatype Error = NotFound | NullPointer | IndexOutOfBounds | IllegalArgument

  datatype Result<T> = Ok(value: T) | Err(error: Error)

  /** Identifiers. The source draws them from uuid4 / UUID.randomUUID; the
      model draws them from a counter, so an identifier is a natural number. */
  type Id = nat

  function Min(a: int, b: int): int { if a <= b then a else b }

  // ---------------------------------------------------------------------
  // Strings

  /** ASCII lower-casing of one character. */
  function LowerChar(c: char): char {
    if 'A' <= c <= 'Z' then (c as int + 32) as char else c
  }

  /** `str.lower()`, restricted to ASCII letters. */
  function Lower(s: string): (r: string)
    ensures |r| == |s|
    ensures forall i | 0 <= i < |s| :: r[i] == LowerChar(s[i])
  {
    if s == [] then [] else [LowerChar(s[0])] + Lower(s[1..])
  }

  /** `sub in s` for strings: `sub` is a prefix of some suffix of `s`. */
  predicate HasSubstring(s: string, sub: string)
    decreases |s|
  {
    sub <= s || (|s| > 0 && HasSubstring(s[1..], sub))
  }

  /** The independent reading of `HasSubstring`: some window of `s` equals `sub`. */
  lemma {:induction false} HasSubstringAt(s: string, sub: string)
    ensures HasSubstring(s, sub) <==>
            exists i | 0 <= i && i + |sub| <= |s| :: sub == s[i..][..|sub|]
  {
    if sub <= s {
      assert sub == s[0..][..|sub|];
    } else if |s| > 0 {
      HasSubstringAt(s[1..], sub);
      if HasSubstring(s[1..], sub) {
        var i :| 0 <= i && i + |sub| <= |s[1..]| && sub == s[1..][i..][..|sub|];
        assert s[1..][i..] == s[i + 1..];
      } else {
        forall i | 0 <= i && i + |sub| <= |s|
          ensures sub != s[i..][..|sub|]
        {
          if i == 0 {
            assert s[0..] == s;
          } else {
            assert s[i..] == s[1..][i - 1..];
          }
        }
      }
    }
  }

  // ---------------------------------------------------------------------
  // Java's 32-bit int

  const INT32_MIN: int := -0x8000_0000
  const INT32_MAX: int := 0x7fff_ffff

  type Int32 = x: int | INT32_MIN <= x <= INT32_MAX

  /** Two's-complement wrap-around of a Java `int` result. */
  function Wrap32(x: int): (r: Int32)
    ensures INT32_MIN <= x <= INT32_MAX ==> r == x
    ensures (x - r) % 0x1_0000_0000 == 0
  {
    (x - INT32_MIN) % 0x1_0000_0000 + INT32_MIN
  }

  // ---------------------------------------------------------------------
  // Python slices

  /** A Python slice bound: a negative bound counts from the end; the result
      is clamped to `[0, len]`. */
  function SliceBound(i: int, len: nat): (r: nat)
    ensures r <= len
    ensures 0 <= i <= len ==> r == i
    ensures -(len as int) <= i < 0 ==> r == len + i
    ensures i > len ==> r == len
    ensures i < -(len as int) ==> r == 0
  {
    if i < 0 then (if i + len < 0 then 0 else i + len)
    else if i > len then len
    else i
  }

  /** Python's `s[start:end]`. */
  function PySlice<T>(s: seq<T>, start: int, end: int): (r: seq<T>)
    ensures |r| <= |s|
    ensures var lo, hi := SliceBound(start, |s|), SliceBound(end, |s|);
            r == if lo < hi then s[lo..hi] else []
  {
    var lo, hi := SliceBound(start, |s|), SliceBound(end, |s|);
    if lo < hi then s[lo..hi] else []
  }

  /** Python's `s[-n:]` for a positive `n`: the newest `n` elements. */
  function LastN<T>(s: seq<T>, n: nat): (r: seq<T>)
    requires n > 0
    ensures |r| == Min(|s|, n)
    ensures r == s[|s| - |r|..]
    ensures |s| <= n ==> r == s
    ensures s != [] ==> r != [] && r[|r| - 1] == s[|s| - 1]
  {
    PySlice(s, -(n as int), |s|)
  }

  // ---------------------------------------------------------------------
  // Search and counting

  /** The position of the first element that satisfies `p`, if any — the
      shape of every "for x in xs: if …: return x" loop of the source. */
  function FirstWhere<T>(s: seq<T>, p: T -> bool): (r: Option<nat>)
    ensures r.Some? ==> r.value < |s| && p(s[r.value])
    ensures r.Some? ==> forall j | 0 <= j < r.value :: !p(s[j])
    ensures r.None? <==> forall j | 0 <= j < |s| :: !p(s[j])
  {
    if s == [] then None
    else if p(s[0]) then Some(0)
    else match FirstWhere(s[1..], p)
      case None => None
      case Some(i) => Some(i + 1)
  }

  /** The number of elements that satisfy `p` (`len([x for x in s if p(x)])`). */
  function CountWhere<T>(s: seq<T>, p: T -> bool): (n: nat)
    ensures n <= |s|
    ensures n == 0 <==> forall i | 0 <= i < |s| :: !p(s[i])
    ensures n == |s| <==> forall i | 0 <= i < |s| :: p(s[i])
  {
    if s == [] then 0
    else CountWhere(s[..|s| - 1], p) + (if p(s[|s| - 1]) then 1 else 0)
  }

  /** The positions of `s` holding an element that satisfies `p`. */
  ghost function Positions<T>(s: seq<T>, p: T -> bool): set<nat> {
    set i: nat | i < |s| && p(s[i])
  }

  /** The count is the number of positions whose element satisfies `p`. */
  lemma {:induction false} CountWherePositions<T>(s: seq<T>, p: T -> bool)
    ensures CountWhere(s, p) == |Positions(s, p)|
  {
    if s == [] {
      assert Positions(s, p) == {};
    } else {
      var k := |s| - 1;
      var init := s[..k];
      CountWherePositions(init, p);
      assert Positions(s, p) == Positions(init, p) + (if p(s[k]) then {k} else {});
      assert k !in Positions(init, p);
    }
  }

  /** The elements that satisfy `p`, in their original order (a stream
      `filter`). */
  function Filter<T>(s: seq<T>, p: T -> bool): (r: seq<T>)
    ensures |r| <= |s|
    ensures forall i | 0 <= i < |r| :: r[i] in s && p(r[i])
    ensures forall i | 0 <= i < |s| && p(s[i]) :: s[i] in r
  {
    if s == [] then []
    else Filter(s[..|s| - 1], p) + (if p(s[|s| - 1]) then [s[|s| - 1]] else [])
  }

  /** Filtering one more element keeps the earlier result and adds the
      element at the end exactly when it passes. */
  lemma {:induction false} FilterAppend<T>(s: seq<T>, x: T, p: T -> bool)
    ensures Filter(s + [x], p) == Filter(s, p) + (if p(x) then [x] else [])
  {
    assert (s + [x])[..|s + [x]| - 1] == s;
  }

  /** Filtering distributes over concatenation, so the result keeps the
      original order and the original multiplicities. */
  lemma {:induction false} FilterConcat<T>(a: seq<T>, b: seq<T>, p: T -> bool)
    ensures Filter(a + b, p) == Filter(a, p) + Filter(b, p)
    decreases |b|
  {
    if b == [] {
      assert a + b == a;
    } else {
      var init, x := b[..|b| - 1], b[|b| - 1];
      assert b == init + [x];
      assert a + b == (a + init) + [x];
      FilterConcat(a, init, p);
      FilterAppend(a + init, x, p);
      FilterAppend(init, x, p);
    }
  }

  /** A subset is never larger than its superset. */
  lemma {:induction false} SubsetCardinality<T>(a: set<T>, b: set<T>)
    requires a <= b
    ensures |a| <= |b|
  {
    if a != {} {
      var x :| x in a;
      SubsetCardinality(a - {x}, b - {x});
    }
  }

  // ---------------------------------------------------------------------
  // Maps

  /** `ks` lists every key of `m` exactly once. */
  ghost predicate Enumerates<K, V>(ks: seq<K>, m: map<K, V>) {
    && |ks| == |m|
    && (forall i | 0 <= i < |ks| :: ks[i] in m)
    && (forall k | k in m :: k in ks)
    && (forall i, j | 0 <= i < j < |ks| :: ks[i] != ks[j])
  }

  /** The values of `m` in the order `ks` lists their keys. */
  function ValuesAt<K, V>(m: map<K, V>, ks: seq<K>): (vs: seq<V>)
    requires forall i | 0 <= i < |ks| :: ks[i] in m
    ensures |vs| == |ks|
    ensures forall i | 0 <= i < |ks| :: vs[i] == m[ks[i]]
  {
    if ks == [] then [] else [m[ks[0]]] + ValuesAt(m, ks[1..])
  }

  /** Lists the keys of `m` in an order the caller cannot predict: the
      iteration order of a Java `HashMap` is unspecified, so the model
      chooses it. */
  method Enumerate<K, V>(m: map<K, V>) returns (ks: seq<K>)
    ensures |ks| == |m|
    ensures forall i | 0 <= i < |ks| :: ks[i] in m
    ensures forall k | k in m :: k in ks
    ensures forall i, j | 0 <= i < j < |ks| :: ks[i] != ks[j]
  {
    ks := [];
    var rest := m.Keys;
    while rest != {}
      invariant rest <= m.Keys
      invariant |ks| + |rest| == |m.Keys|
      invariant forall i | 0 <= i < |ks| :: ks[i] in m && ks[i] !in rest
      invariant forall k | k in m :: k in ks || k in rest
      invariant forall i, j | 0 <= i < j < |ks| :: ks[i] != ks[j]
      decreases |rest|
    {
      var k :| k in rest;
      ks := ks + [k];
      rest := rest - {k};
    }
  }
}
