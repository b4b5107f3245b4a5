// Generic helpers shared by every module of the psyche engine: optional values,
// real-number clamps, the JavaScript string operations the engine relies on
// (lower-casing, trim, substring search, split, join) and a stable sort.

module Util {

  datatype Option<T> = None | Some(value: T)
  {
    /** The `??` / `||` fallback of JavaScript for a missing value. */
    function GetOr(d: T): T
    {
      if Some? then value else d
    }
  }

  // ---------------------------------------------------------------- reals

  function Min(a: real, b: real): real
  {
    if a <= b then a else b
  }

  function Max(a: real, b: real): real
  {
    if a >= b then a else b
  }

  function Abs(x: real): real
  {
    if x < 0.0 then -x else x
  }

  /** `Math.max(lo, Math.min(hi, x))`. */
  function Clamp(x: real, lo: real, hi: real): (r: real)
    requires lo <= hi
    ensures lo <= r <= hi
    ensures lo <= x <= hi ==> r == x
    ensures x < lo ==> r == lo
    ensures hi < x ==> r == hi
  {
    Max(lo, Min(hi, x))
  }

  /** A numeric `x || d`: JavaScript treats 0 as falsy, so 0 falls back to `d`. */
  function OrDefault(x: real, d: real): real
  {
    if x == 0.0 then d else x
  }

  function Pow(b: real, n: nat): real
  {
    if n == 0 then 1.0 else b * Pow(b, n - 1)
  }

  // ---------------------------------------------------------------- strings

  /**
   * The capitals `toLowerCase` lowers by adding 32: the ASCII ones and the
   * Latin-1 ones from À to Þ, but for the multiplication sign ×. The Spanish
   * capitals Á É Í Ó Ú Ü Ñ are among them.
   */
  predicate IsLatinCapital(c: char)
  {
    ('A' <= c <= 'Z') || ('\U{C0}' <= c <= '\U{DE}' && c != '\U{D7}')
  }

  function LowerChar(c: char): (r: char)
    ensures IsLatinCapital(c) ==> r as int == c as int + 32
    ensures !IsLatinCapital(c) ==> r == c
    ensures !IsLatinCapital(r)
  {
    if IsLatinCapital(c) then (c as int + 32) as char else c
  }

  /** `toLowerCase` on the ASCII and Latin-1 ranges. */
  function Lower(s: string): (r: string)
    ensures |r| == |s|
    ensures forall i :: 0 <= i < |s| ==> r[i] == LowerChar(s[i])
  {
    seq(|s|, i requires 0 <= i < |s| => LowerChar(s[i]))
  }

  /** The Spanish capitals Á É Í Ó Ú Ü Ñ lower to á é í ó ú ü ñ; the sign × is not a letter and stays. */
  lemma LowerSpanishCapitals()
    ensures Lower("\U{C1}\U{C9}\U{CD}\U{D3}\U{DA}\U{DC}\U{D1}") == "\U{E1}\U{E9}\U{ED}\U{F3}\U{FA}\U{FC}\U{F1}"
    ensures Lower("\U{D7}") == "\U{D7}"
  {
  }

  /** Lower-casing twice is lower-casing once. */
  lemma LowerIdempotent(s: string)
    ensures Lower(Lower(s)) == Lower(s)
  {
  }

  /** The characters matched by the `\s` class and removed by `trim`. */
  predicate IsSpace(c: char)
  {
    c == ' ' || c == '\t' || c == '\n' || c == '\r' || c == '\U{B}' || c == '\U{C}'
    || c == '\U{A0}' || c == '\U{1680}' || ('\U{2000}' <= c <= '\U{200A}')
    || c == '\U{2028}' || c == '\U{2029}' || c == '\U{202F}' || c == '\U{205F}'
    || c == '\U{3000}' || c == '\U{FEFF}'
  }

  function TrimStart(s: string): (r: string)
    ensures |r| <= |s|
    ensures r == s[|s| - |r|..]
    ensures r == [] || !IsSpace(r[0])
  {
    if s != [] && IsSpace(s[0]) then TrimStart(s[1..]) else s
  }

  function TrimEnd(s: string): (r: string)
    ensures |r| <= |s|
    ensures r == s[..|r|]
    ensures r == [] || !IsSpace(r[|r| - 1])
  {
    if s != [] && IsSpace(s[|s| - 1]) then TrimEnd(s[..|s| - 1]) else s
  }

  function Trim(s: string): string
  {
    TrimEnd(TrimStart(s))
  }

  /** `s.includes(sub)`. */
  predicate Contains(s: string, sub: string)
    decreases |s|
  {
    |sub| <= |s| && (s[..|sub|] == sub || Contains(s[1..], sub))
  }

  /** `s.startsWith(p)`. */
  predicate StartsWith(s: string, p: string)
  {
    |p| <= |s| && s[..|p|] == p
  }

  /** A substring never holds a character its host lacks. */
  lemma {:induction false} ContainsNeedsChar(s: string, sub: string, c: char)
    requires c in sub
    requires c !in s
    ensures !Contains(s, sub)
    decreases |s|
  {
    if |sub| <= |s| {
      var k :| 0 <= k < |sub| && sub[k] == c;
      assert s[..|sub|][k] != c;
      ContainsNeedsChar(s[1..], sub, c);
    }
  }

  /** Drops a leading run of `\s` characters. */
  function DropSpaces(s: string): (r: string)
    ensures |r| <= |s|
    ensures r == [] || !IsSpace(r[0])
  {
    if s != [] && IsSpace(s[0]) then DropSpaces(s[1..]) else s
  }

  /** `s.split(/\s+/)`: pieces between maximal whitespace runs, empty ends kept. */
  function SplitWs(s: string): seq<string>
  {
    SplitWsFrom(s, "")
  }

  function SplitWsFrom(s: string, cur: string): (r: seq<string>)
    ensures |r| > 0
    decreases |s|
  {
    if s == [] then [cur]
    else if IsSpace(s[0]) then [cur] + SplitWsFrom(DropSpaces(s), "")
    else SplitWsFrom(s[1..], cur + [s[0]])
  }

  /** `s.split(d)` for a one-character separator `d`. */
  function SplitOn(s: string, d: char): seq<string>
  {
    SplitOnFrom(s, d, "")
  }

  function SplitOnFrom(s: string, d: char, cur: string): (r: seq<string>)
    ensures |r| > 0
    decreases |s|
  {
    if s == [] then [cur]
    else if s[0] == d then [cur] + SplitOnFrom(s[1..], d, "")
    else SplitOnFrom(s[1..], d, cur + [s[0]])
  }

  /** `parts.join(sep)`. */
  function Join(parts: seq<string>, sep: string): string
  {
    if parts == [] then ""
    else if |parts| == 1 then parts[0]
    else parts[0] + sep + Join(parts[1..], sep)
  }

  /** `parts.some(p => s.includes(p))`. */
  predicate ContainsAny(s: string, parts: seq<string>)
  {
    exists i :: 0 <= i < |parts| && Contains(s, parts[i])
  }

  /**
   * `s.length`: JavaScript counts UTF-16 code units, so a character outside
   * the Basic Multilingual Plane counts twice.
   */
  function Utf16Length(s: string): (n: nat)
    ensures |s| <= n <= 2 * |s|
  {
    if s == [] then 0 else (if s[0] as int >= 0x1_0000 then 2 else 1) + Utf16Length(s[1..])
  }

  /** On text inside the Basic Multilingual Plane the UTF-16 length is the number of characters. */
  lemma {:induction false} Utf16LengthBmp(s: string)
    requires forall i :: 0 <= i < |s| ==> s[i] as int < 0x1_0000
    ensures Utf16Length(s) == |s|
  {
    if s != [] {
      Utf16LengthBmp(s[1..]);
    }
  }

  /** Each character outside the Basic Multilingual Plane adds two code units. */
  lemma Utf16LengthAstral(c: char, s: string)
    requires c as int >= 0x1_0000
    ensures Utf16Length([c] + s) == 2 + Utf16Length(s)
  {
    assert ([c] + s)[1..] == s;
  }

  // ---------------------------------------------------------------- sequences

  /** `s.slice(0, n)`. */
  function Take<T>(s: seq<T>, n: nat): (r: seq<T>)
    ensures |r| <= n && |r| <= |s|
    ensures |r| == if n < |s| then n else |s|
    ensures r == s[..|r|]
    ensures |s| <= n ==> r == s
  {
    if |s| <= n then s else s[..n]
  }

  /** No element occurs twice. */
  predicate Distinct<T(==)>(s: seq<T>)
  {
    forall i, j :: 0 <= i < j < |s| ==> s[i] != s[j]
  }

  /** Insertion-ordered set insertion: `x` is appended unless already present. */
  function AddUnique<T(==,!new)>(s: seq<T>, x: T): (r: seq<T>)
    ensures x in r
    ensures forall y :: y in r <==> y in s || y == x
    ensures Distinct(s) ==> Distinct(r)
    ensures x in s ==> r == s
    ensures x !in s ==> |r| == |s| + 1 && r[..|s|] == s
  {
    if x in s then s else s + [x]
  }

  /** Non-increasing order of `key`. */
  ghost predicate SortedDesc<T>(s: seq<T>, key: T -> real)
  {
    forall i, j :: 0 <= i < j < |s| ==> key(s[i]) >= key(s[j])
  }

  /** Inserts `x` before the first element whose key is not greater than its own. */
  function InsertDesc<T(==)>(x: T, s: seq<T>, key: T -> real): (r: seq<T>)
    ensures multiset(r) == multiset(s) + multiset{x}
    ensures |r| == |s| + 1
    decreases |s|
  {
    if s == [] || key(s[0]) <= key(x) then [x] + s
    else
      var r := [s[0]] + InsertDesc(x, s[1..], key);
      assert s == [s[0]] + s[1..];
      r
  }

  lemma {:induction false} InsertDescSorted<T>(x: T, s: seq<T>, key: T -> real)
    requires SortedDesc(s, key)
    ensures SortedDesc(InsertDesc(x, s, key), key)
    decreases |s|
  {
    if s != [] && key(s[0]) > key(x) {
      InsertDescSorted(x, s[1..], key);
      var rest := InsertDesc(x, s[1..], key);
      forall i | 0 <= i < |rest| ensures key(rest[i]) <= key(s[0])
      {
        assert rest[i] in multiset(rest);
        if rest[i] != x {
          assert rest[i] in multiset(s[1..]);
          var j :| 0 <= j < |s[1..]| && s[1..][j] == rest[i];
          assert s[j + 1] == rest[i];
        }
      }
      var r := [s[0]] + rest;
      forall i, j | 0 <= i < j < |r| ensures key(r[i]) >= key(r[j])
      {
        if i == 0 {
          assert r[j] == rest[j - 1];
        } else {
          assert r[i] == rest[i - 1] && r[j] == rest[j - 1];
        }
      }
    }
  }

  /**
   * `Array.prototype.sort((a, b) => key(b) - key(a))`: a stable sort into
   * non-increasing key order. Each element is inserted in front of every later
   * element with an equal key, so equal keys keep their original order.
   */
  function SortDesc<T(==)>(s: seq<T>, key: T -> real): (r: seq<T>)
    ensures multiset(r) == multiset(s)
    ensures |r| == |s|
    ensures SortedDesc(r, key)
    decreases |s|
  {
    if s == [] then []
    else
      assert s == [s[0]] + s[1..];
      InsertDescSorted(s[0], SortDesc(s[1..], key), key);
      InsertDesc(s[0], SortDesc(s[1..], key), key)
  }

  /** When no two keys differ the stable sort is the identity. */
  lemma {:induction false} SortDescOfEqualKeys<T>(s: seq<T>, key: T -> real, k: real)
    requires forall i :: 0 <= i < |s| ==> key(s[i]) == k
    ensures SortDesc(s, key) == s
    decreases |s|
  {
    if s != [] {
      SortDescOfEqualKeys(s[1..], key, k);
      assert s == [s[0]] + s[1..];
    }
  }

  function Sum<T>(s: seq<T>, f: T -> real): real
  {
    if s == [] then 0.0 else f(s[0]) + Sum(s[1..], f)
  }

  lemma {:induction false} SumAppend<T>(s: seq<T>, x: T, f: T -> real)
    ensures Sum(s + [x], f) == Sum(s, f) + f(x)
    decreases |s|
  {
    if s != [] {
      assert (s + [x])[1..] == s[1..] + [x];
      SumAppend(s[1..], x, f);
    }
  }

  lemma {:induction false} SumNonNegative<T>(s: seq<T>, f: T -> real)
    requires forall i :: 0 <= i < |s| ==> f(s[i]) >= 0.0
    ensures Sum(s, f) >= 0.0
    decreases |s|
  {
    if s != [] {
      SumNonNegative(s[1..], f);
    }
  }

  lemma {:induction false} SumBounds<T>(s: seq<T>, f: T -> real, hi: real)
    requires forall i :: 0 <= i < |s| ==> 0.0 <= f(s[i]) <= hi
    ensures 0.0 <= Sum(s, f) <= |s| as real * hi
    decreases |s|
  {
    if s != [] {
      SumBounds(s[1..], f, hi);
    }
  }

  function Filter<T>(s: seq<T>, p: T -> bool): (r: seq<T>)
    ensures |r| <= |s|
    ensures forall i :: 0 <= i < |r| ==> p(r[i])
  {
    if s == [] then []
    else if p(s[0]) then [s[0]] + Filter(s[1..], p)
    else Filter(s[1..], p)
  }

  lemma {:induction false} FilterAppend<T>(s: seq<T>, x: T, p: T -> bool)
    ensures Filter(s + [x], p) == Filter(s, p) + (if p(x) then [x] else [])
    decreases |s|
  {
    if s != [] {
      assert (s + [x])[1..] == s[1..] + [x];
      FilterAppend(s[1..], x, p);
    } else {
      assert s + [x] == [x];
    }
  }

  /** The concatenation of `f` over `s`, built left to right. */
  function FlatMap<T, U>(s: seq<T>, f: T -> seq<U>): seq<U>
  {
    if s == [] then [] else FlatMap(s[..|s| - 1], f) + f(s[|s| - 1])
  }

  lemma FlatMapStep<T, U>(s: seq<T>, f: T -> seq<U>, k: nat)
    requires k < |s|
    ensures FlatMap(s[..k + 1], f) == FlatMap(s[..k], f) + f(s[k])
  {
    assert s[..k + 1][..k] == s[..k];
  }

  lemma {:induction false} FlatMapEmpty<T, U>(s: seq<T>, f: T -> seq<U>)
    ensures FlatMap(s, f) == [] <==> forall k :: 0 <= k < |s| ==> f(s[k]) == []
    decreases |s|
  {
    if s != [] {
      var init := s[..|s| - 1];
      FlatMapEmpty(init, f);
      assert forall k :: 0 <= k < |init| ==> init[k] == s[k];
    }
  }

  /** Two maps that emit equally many items per element emit equally many in all. */
  lemma {:induction false} FlatMapSameLength<T, U, V>(s: seq<T>, f: T -> seq<U>, g: T -> seq<V>)
    requires forall k :: 0 <= k < |s| ==> |f(s[k])| == |g(s[k])|
    ensures |FlatMap(s, f)| == |FlatMap(s, g)|
    decreases |s|
  {
    if s != [] {
      var init := s[..|s| - 1];
      assert forall k :: 0 <= k < |init| ==> init[k] == s[k];
      FlatMapSameLength(init, f, g);
    }
  }

  /** A map that emits exactly one item per element keeps the order of the elements. */
  lemma {:induction false} FlatMapSingletons<T, U>(s: seq<T>, f: T -> seq<U>)
    requires forall k :: 0 <= k < |s| ==> |f(s[k])| == 1
    ensures |FlatMap(s, f)| == |s|
    ensures forall k :: 0 <= k < |s| ==> FlatMap(s, f)[k] == f(s[k])[0]
    decreases |s|
  {
    if s != [] {
      var init := s[..|s| - 1];
      assert forall k :: 0 <= k < |init| ==> init[k] == s[k];
      FlatMapSingletons(init, f);
    }
  }

  lemma {:induction false} FilterIff<T>(s: seq<T>, p: T -> bool, x: T)
    ensures x in Filter(s, p) <==> x in s && p(x)
    decreases |s|
  {
    if s != [] {
      FilterIff(s[1..], p, x);
      assert s == [s[0]] + s[1..];
    }
  }

  /** The value an object literal maps `key` to: the first entry with that key. */
  function Lookup<K(==), V>(table: seq<(K, V)>, key: K): (r: Option<V>)
    ensures r.None? <==> forall i :: 0 <= i < |table| ==> table[i].0 != key
    ensures r.Some? ==> exists i :: 0 <= i < |table| && table[i] == (key, r.value)
    decreases |table|
  {
    if table == [] then None
    else if table[0].0 == key then Some(table[0].1)
    else
      var r := Lookup(table[1..], key);
      assert forall i :: 0 < i < |table| ==> table[i] == table[1..][i - 1];
      r
  }

  /** An order-preserving filter of a sorted sequence is still sorted. */
  lemma {:induction false} FilterSorted<T>(s: seq<T>, p: T -> bool, key: T -> real)
    requires SortedDesc(s, key)
    ensures SortedDesc(Filter(s, p), key)
    decreases |s|
  {
    if s != [] {
      var rest := Filter(s[1..], p);
      FilterSorted(s[1..], p, key);
      if p(s[0]) {
        forall k | 0 <= k < |rest| ensures key(s[0]) >= key(rest[k])
        {
          FilterIff(s[1..], p, rest[k]);
          var j :| 0 <= j < |s[1..]| && s[1..][j] == rest[k];
          assert s[j + 1] == rest[k];
        }
        var r := [s[0]] + rest;
        forall i, j | 0 <= i < j < |r| ensures key(r[i]) >= key(r[j])
        {
          assert r[j] == rest[j - 1];
          if i > 0 {
            assert r[i] == rest[i - 1];
          }
        }
      }
    }
  }

  /** The filter over a list with a given first element. */
  lemma FilterCons<T>(x: T, s: seq<T>, p: T -> bool)
    ensures Filter([x] + s, p) == (if p(x) then [x] + Filter(s, p) else Filter(s, p))
  {
    assert ([x] + s)[0] == x && ([x] + s)[1..] == s;
  }

  /** An element whose key is at least the first key goes in front. */
  lemma InsertFront<T>(x: T, s: seq<T>, key: T -> real)
    requires s == [] || key(s[0]) <= key(x)
    ensures InsertDesc(x, s, key) == [x] + s
  {
  }

  /** An element whose key is below the first key goes behind the first element. */
  lemma InsertBehind<T>(x: T, y: T, s: seq<T>, key: T -> real)
    requires key(y) > key(x)
    ensures InsertDesc(x, [y] + s, key) == [y] + InsertDesc(x, s, key)
  {
    assert ([y] + s)[0] == y && ([y] + s)[1..] == s;
  }

  /** In a sorted list no element the filter keeps has a key above the first key. */
  lemma FilterHeadBelow<T>(s: seq<T>, key: T -> real, p: T -> bool)
    requires s != [] && SortedDesc(s, key)
    ensures Filter(s, p) == [] || key(Filter(s, p)[0]) <= key(s[0])
  {
    var f := Filter(s, p);
    if f != [] {
      FilterIff(s, p, f[0]);
      var j :| 0 <= j < |s| && s[j] == f[0];
    }
  }

  /** Inserting an element the filter drops leaves the filtered list as it was. */
  lemma {:induction false} FilterInsertSkip<T>(x: T, s: seq<T>, key: T -> real, p: T -> bool)
    requires !p(x)
    ensures Filter(InsertDesc(x, s, key), p) == Filter(s, p)
    decreases |s|
  {
    if s == [] || key(s[0]) <= key(x) {
      InsertFront(x, s, key);
      FilterCons(x, s, p);
    } else {
      assert s == [s[0]] + s[1..];
      InsertBehind(x, s[0], s[1..], key);
      FilterInsertSkip(x, s[1..], key, p);
      FilterCons(s[0], InsertDesc(x, s[1..], key), p);
      FilterCons(s[0], s[1..], p);
    }
  }

  /** Inserting an element the filter keeps into a sorted list commutes with the filter. */
  lemma {:induction false} FilterInsertKeep<T>(x: T, s: seq<T>, key: T -> real, p: T -> bool)
    requires p(x) && SortedDesc(s, key)
    ensures Filter(InsertDesc(x, s, key), p) == InsertDesc(x, Filter(s, p), key)
    decreases |s|
  {
    if s == [] || key(s[0]) <= key(x) {
      InsertFront(x, s, key);
      FilterCons(x, s, p);
      if s != [] {
        FilterHeadBelow(s, key, p);
      }
      InsertFront(x, Filter(s, p), key);
    } else {
      assert s == [s[0]] + s[1..];
      InsertBehind(x, s[0], s[1..], key);
      FilterInsertKeep(x, s[1..], key, p);
      FilterCons(s[0], InsertDesc(x, s[1..], key), p);
      FilterCons(s[0], s[1..], p);
      if p(s[0]) {
        InsertBehind(x, s[0], Filter(s[1..], p), key);
      }
    }
  }

  /**
   * Position `i` holds the first element, in list order, with the largest key
   * among those satisfying `p`.
   */
  ghost predicate FirstBest<T>(s: seq<T>, key: T -> real, p: T -> bool, i: nat)
    requires i < |s|
  {
    && p(s[i])
    && forall j :: 0 <= j < |s| && p(s[j]) ==> key(s[j]) <= key(s[i]) && (j < i ==> key(s[j]) < key(s[i]))
  }

  /** A first element that `p` keeps and that no later kept element outscores is the first best. */
  lemma FirstBestFront<T>(x: T, rest: seq<T>, key: T -> real, p: T -> bool)
    requires p(x)
    requires forall j :: 0 <= j < |rest| && p(rest[j]) ==> key(rest[j]) <= key(x)
    ensures FirstBest([x] + rest, key, p, 0)
  {
    var s := [x] + rest;
    forall j | 0 <= j < |s| && p(s[j]) ensures key(s[j]) <= key(s[0])
    {
      if j > 0 {
        assert s[j] == rest[j - 1];
      }
    }
  }

  /** The first best of the rest stays the first best behind a first element it outscores or `p` drops. */
  lemma FirstBestShift<T>(x: T, rest: seq<T>, key: T -> real, p: T -> bool, i: nat)
    requires i < |rest| && FirstBest(rest, key, p, i)
    requires p(x) ==> key(x) < key(rest[i])
    ensures FirstBest([x] + rest, key, p, i + 1)
  {
    var s := [x] + rest;
    forall j | 0 <= j < |s| && p(s[j]) ensures key(s[j]) <= key(s[i + 1]) && (j < i + 1 ==> key(s[j]) < key(s[i + 1]))
    {
      if j > 0 {
        assert s[j] == rest[j - 1];
      }
    }
  }

  /** `h` is the first element, in list order, with the largest key among those satisfying `p`. */
  ghost predicate IsFirstBest<T>(s: seq<T>, key: T -> real, p: T -> bool, h: T)
  {
    exists i :: 0 <= i < |s| && h == s[i] && FirstBest(s, key, p, i)
  }

  /** Nothing survives filtering a permutation of `s` only when no element of `s` satisfies `p`. */
  lemma NoneKept<T>(t: seq<T>, s: seq<T>, p: T -> bool)
    requires multiset(t) == multiset(s) && Filter(t, p) == []
    ensures forall j :: 0 <= j < |s| ==> !p(s[j])
  {
    forall j | 0 <= j < |s| ensures !p(s[j])
    {
      assert s[j] in multiset(s);
      FilterIff(t, p, s[j]);
    }
  }

  /** An element satisfying `p` survives filtering any permutation of its list. */
  lemma SomeKept<T>(t: seq<T>, s: seq<T>, p: T -> bool, j: nat)
    requires multiset(t) == multiset(s) && j < |s| && p(s[j])
    ensures Filter(t, p) != []
  {
    assert s[j] in multiset(s);
    FilterIff(t, p, s[j]);
  }

  /** When no element of `s` satisfies `p`, nothing survives filtering a permutation of `s`. */
  lemma NothingKept<T>(t: seq<T>, s: seq<T>, p: T -> bool)
    requires multiset(t) == multiset(s)
    requires forall j :: 0 <= j < |s| ==> !p(s[j])
    ensures Filter(t, p) == []
  {
    forall i | 0 <= i < |t| ensures !p(t[i])
    {
      assert t[i] in multiset(s);
      var k :| 0 <= k < |s| && s[k] == t[i];
    }
    if Filter(t, p) != [] {
      FilterIff(t, p, Filter(t, p)[0]);
    }
  }

  /** Elements kept by `p` score no more than the first best. */
  lemma BelowFirstBest<T>(s: seq<T>, key: T -> real, p: T -> bool, h: T, bound: real)
    requires IsFirstBest(s, key, p, h) && key(h) <= bound
    ensures forall j :: 0 <= j < |s| && p(s[j]) ==> key(s[j]) <= bound
  {
  }

  /** A first element `p` drops leaves the head of the filtered sort where it was. */
  lemma HeadSkip<T>(x: T, rest: seq<T>, t: seq<T>, key: T -> real, p: T -> bool)
    requires !p(x) && Filter(t, p) != [] && IsFirstBest(rest, key, p, Filter(t, p)[0])
    ensures Filter(InsertDesc(x, t, key), p) == Filter(t, p)
    ensures IsFirstBest([x] + rest, key, p, Filter(t, p)[0])
  {
    FilterInsertSkip(x, t, key, p);
    var i :| 0 <= i < |rest| && Filter(t, p)[0] == rest[i] && FirstBest(rest, key, p, i);
    FirstBestShift(x, rest, key, p, i);
    assert ([x] + rest)[i + 1] == rest[i];
  }

  /** A first element `p` keeps, scoring at least the rest's best, heads the filtered sort. */
  lemma HeadFront<T>(x: T, rest: seq<T>, t: seq<T>, key: T -> real, p: T -> bool)
    requires p(x) && SortedDesc(t, key) && multiset(t) == multiset(rest)
    requires Filter(t, p) == [] || (key(Filter(t, p)[0]) <= key(x) && IsFirstBest(rest, key, p, Filter(t, p)[0]))
    ensures Filter(InsertDesc(x, t, key), p) != []
    ensures Filter(InsertDesc(x, t, key), p)[0] == x
    ensures IsFirstBest([x] + rest, key, p, x)
  {
    var g := Filter(t, p);
    FilterInsertKeep(x, t, key, p);
    InsertFront(x, g, key);
    if g == [] {
      NoneKept(t, rest, p);
    } else {
      BelowFirstBest(rest, key, p, g[0], key(x));
    }
    FirstBestFront(x, rest, key, p);
    assert ([x] + rest)[0] == x;
  }

  /** A first element `p` keeps but the filtered rest's head outscores stays behind that head. */
  lemma HeadBehindFilter<T>(x: T, t: seq<T>, key: T -> real, p: T -> bool)
    requires p(x) && SortedDesc(t, key)
    requires Filter(t, p) != [] && key(Filter(t, p)[0]) > key(x)
    ensures Filter(InsertDesc(x, t, key), p) != []
    ensures Filter(InsertDesc(x, t, key), p)[0] == Filter(t, p)[0]
  {
    var g := Filter(t, p);
    FilterInsertKeep(x, t, key, p);
    assert g == [g[0]] + g[1..];
    InsertBehind(x, g[0], g[1..], key);
  }

  /** A first element `p` keeps but the rest's best outscores leaves that best the first best. */
  lemma HeadBehind<T>(x: T, rest: seq<T>, h: T, key: T -> real, p: T -> bool)
    requires key(h) > key(x) && IsFirstBest(rest, key, p, h)
    ensures IsFirstBest([x] + rest, key, p, h)
  {
    var i :| 0 <= i < |rest| && h == rest[i] && FirstBest(rest, key, p, i);
    FirstBestShift(x, rest, key, p, i);
    assert ([x] + rest)[i + 1] == rest[i];
  }

  /** Inserting one more element in front of the list keeps the head of the filtered sort the first best. */
  lemma HeadStep<T>(x: T, rest: seq<T>, t: seq<T>, key: T -> real, p: T -> bool)
    requires SortedDesc(t, key) && multiset(t) == multiset(rest)
    requires Filter(t, p) != [] ==> IsFirstBest(rest, key, p, Filter(t, p)[0])
    requires Filter(InsertDesc(x, t, key), p) != []
    ensures IsFirstBest([x] + rest, key, p, Filter(InsertDesc(x, t, key), p)[0])
  {
    var g := Filter(t, p);
    if !p(x) {
      FilterInsertSkip(x, t, key, p);
      HeadSkip(x, rest, t, key, p);
    } else if g == [] || key(g[0]) <= key(x) {
      HeadFront(x, rest, t, key, p);
    } else {
      HeadBehindFilter(x, t, key, p);
      HeadBehind(x, rest, g[0], key, p);
    }
  }

  /** Sorting a list with a given first element inserts it into the sorted rest. */
  lemma SortDescCons<T>(x: T, rest: seq<T>, key: T -> real)
    ensures SortDesc([x] + rest, key) == InsertDesc(x, SortDesc(rest, key), key)
  {
    assert ([x] + rest)[1..] == rest;
  }

  /** The stable sort puts first, among the elements satisfying `p`, the earliest one with the largest key. */
  lemma {:induction false} SortedFilterHead<T>(s: seq<T>, key: T -> real, p: T -> bool)
    requires Filter(SortDesc(s, key), p) != []
    ensures IsFirstBest(s, key, p, Filter(SortDesc(s, key), p)[0])
    decreases |s|
  {
    var x, rest := s[0], s[1..];
    assert s == [x] + rest;
    SortDescCons(x, rest, key);
    var t := SortDesc(rest, key);
    if Filter(t, p) != [] {
      SortedFilterHead(rest, key, p);
    }
    HeadStep(x, rest, t, key, p);
  }

  /** Filtering with a test that every element passes keeps the list. */
  lemma {:induction false} FilterAll<T>(s: seq<T>, p: T -> bool)
    requires forall i :: 0 <= i < |s| ==> p(s[i])
    ensures Filter(s, p) == s
    decreases |s|
  {
    if s != [] {
      FilterAll(s[1..], p);
      assert s == [s[0]] + s[1..];
    }
  }

  /**
   * `push` onto a queue, then one `shift` when it has grown past `cap`: the
   * oldest entry is evicted first, and a queue within the cap stays within it.
   */
  function PushBounded<T>(q: seq<T>, x: T, cap: nat): (r: seq<T>)
    requires cap > 0
    ensures |q| < cap ==> r == q + [x]
    ensures |q| >= cap ==> r == q[1..] + [x]
  {
    var p := q + [x];
    if |p| > cap then p[1..] else p
  }

  /** The queue never grows past its cap once within it, and ends with the newest entry. */
  lemma PushBoundedCap<T>(q: seq<T>, x: T, cap: nat)
    requires cap > 0
    ensures var r := PushBounded(q, x, cap);
      && |r| > 0 && r[|r| - 1] == x
      && (|q| <= cap ==> |r| <= cap)
      && |r| <= |q| + 1
      && (|q| >= cap ==> |r| == |q|)
  {
  }

  /** `slice(-limit)`: the last `limit` entries, or everything when `limit` is 0 (since -0 is 0). */
  function Recent<T>(h: seq<T>, limit: nat): (r: seq<T>)
    ensures limit == 0 || limit >= |h| ==> r == h
    ensures 0 < limit < |h| ==> |r| == limit
    ensures exists k :: 0 <= k <= |h| && r == h[k..]
  {
    if limit == 0 || limit >= |h| then
      assert h == h[0..];
      h
    else h[|h| - limit..]
  }

  /** An item is emitted by a flat map iff some element emits it. */
  lemma {:induction false} FlatMapMember<T, U>(s: seq<T>, f: T -> seq<U>, x: U)
    ensures x in FlatMap(s, f) <==> exists k :: 0 <= k < |s| && x in f(s[k])
    decreases |s|
  {
    if s != [] {
      var init := s[..|s| - 1];
      FlatMapMember(init, f, x);
      assert forall k :: 0 <= k < |init| ==> init[k] == s[k];
      if x in FlatMap(s, f) && x !in f(s[|s| - 1]) {
        var k :| 0 <= k < |init| && x in f(init[k]);
        assert x in f(s[k]);
      }
    }
  }

  /** Filters by two predicates that agree on every element keep the same elements. */
  lemma {:induction false} FilterCongruent<T>(s: seq<T>, p: T -> bool, q: T -> bool)
    requires forall i :: 0 <= i < |s| ==> p(s[i]) == q(s[i])
    ensures Filter(s, p) == Filter(s, q)
    decreases |s|
  {
    if s != [] {
      assert forall i :: 0 <= i < |s[1..]| ==> s[1..][i] == s[i + 1];
      FilterCongruent(s[1..], p, q);
    }
  }
}
