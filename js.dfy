/** The JavaScript built-ins the grocery-finder services rely on, stated on exact values:
    optional values, numbers with the non-finite results of division by zero, and the string
    operations `toLowerCase`, `indexOf`/`includes`, `replace` (first occurrence), `trim`,
    `split`, `join` and `[...new Set(xs)]`. */
module Js {

  datatype Option<+T> = None | Some(value: T)

  datatype Result<+T, +E> = Ok(value: T) | Err(error: E)

  /** JavaScript's `x || d` for an optional number: a present, non-zero value wins. */
  function OrElse(x: Option<real>, d: real): real
  {
    if x.Some? && x.value != 0.0 then x.value else d
  }

  /** A JavaScript number: a finite value, or one of the values division by zero yields. */
  datatype Number = Finite(v: real) | PosInfinity | NegInfinity | NaN

  /** `a / b` */
  function Div(a: real, b: real): (r: Number)
    ensures b != 0.0 ==> r == Finite(a / b)
    ensures b == 0.0 ==> !r.Finite? && (r.NaN? <==> a == 0.0)
  {
    if b != 0.0 then Finite(a / b)
    else if a > 0.0 then PosInfinity
    else if a < 0.0 then NegInfinity
    else NaN
  }

  /** `x * k` */
  function Mul(x: Number, k: real): (r: Number)
    ensures x.Finite? <==> r.Finite?
    ensures x.Finite? ==> r.v == x.v * k
  {
    match x
    case Finite(v) => Finite(v * k)
    case NaN => NaN
    case PosInfinity => if k > 0.0 then PosInfinity else if k < 0.0 then NegInfinity else NaN
    case NegInfinity => if k > 0.0 then NegInfinity else if k < 0.0 then PosInfinity else NaN
  }

  /** `x + y`: infinities of opposite signs cancel to NaN, and NaN is contagious. */
  function Add(x: Number, y: Number): (r: Number)
    ensures r.Finite? <==> x.Finite? && y.Finite?
    ensures r.Finite? ==> r.v == x.v + y.v
    ensures (x.NaN? || y.NaN?) ==> r.NaN?
  {
    match (x, y)
    case (Finite(a), Finite(b)) => Finite(a + b)
    case (NaN, _) => NaN
    case (_, NaN) => NaN
    case (PosInfinity, NegInfinity) => NaN
    case (NegInfinity, PosInfinity) => NaN
    case (PosInfinity, _) => PosInfinity
    case (NegInfinity, _) => NegInfinity
    case (Finite(_), _) => y
  }

  /** `x / n`; an infinity divided by zero keeps its sign. */
  function DivBy(x: Number, n: real): (r: Number)
    ensures x.Finite? && n != 0.0 ==> r == Finite(x.v / n)
    ensures x.NaN? ==> r.NaN?
  {
    match x
    case Finite(v) => Div(v, n)
    case NaN => NaN
    case PosInfinity => if n < 0.0 then NegInfinity else PosInfinity
    case NegInfinity => if n < 0.0 then PosInfinity else NegInfinity
  }

  /** `c - x` */
  function Minus(c: real, x: Number): Number
  {
    match x
    case Finite(v) => Finite(c - v)
    case PosInfinity => NegInfinity
    case NegInfinity => PosInfinity
    case NaN => NaN
  }

  /** `Math.abs(x)` */
  function Abs(x: Number): Number
  {
    match x
    case Finite(v) => Finite(if v < 0.0 then -v else v)
    case NaN => NaN
    case _ => PosInfinity
  }

  /** `Math.max(c, x)`: NaN is contagious. */
  function MaxWith(c: real, x: Number): Number
  {
    match x
    case Finite(v) => Finite(if v < c then c else v)
    case NegInfinity => Finite(c)
    case _ => x
  }

  /** `x < c`: every comparison with NaN is false. */
  predicate Less(x: Number, c: real)
  {
    match x
    case Finite(v) => v < c
    case NegInfinity => true
    case _ => false
  }

  /** `x > c` */
  predicate Greater(x: Number, c: real)
  {
    match x
    case Finite(v) => v > c
    case PosInfinity => true
    case _ => false
  }

  function MaxReal(a: real, b: real): real { if a < b then b else a }
  function MinReal(a: real, b: real): real { if a < b then a else b }

  // ---------------------------------------------------------------- strings

  /** `String.prototype.toLowerCase`, on the ASCII letters. */
  function ToLower(s: string): (r: string)
    ensures |r| == |s|
  {
    seq(|s|, i requires 0 <= i < |s| => if 'A' <= s[i] <= 'Z' then (s[i] as int + 32) as char else s[i])
  }

  /** `pat` occurs in `text` at position `j`. */
  predicate OccursAt(text: string, pat: string, j: int)
  {
    0 <= j && j + |pat| <= |text| && text[j..j + |pat|] == pat
  }

  /** The first position at or after `from` where `pat` occurs in `text` (`indexOf`). */
  function IndexOfFrom(text: string, pat: string, from: nat): (r: Option<nat>)
    requires from <= |text|
    ensures r.Some? ==> from <= r.value && OccursAt(text, pat, r.value)
    ensures forall j :: from <= j && (r.None? || j < r.value) ==> !OccursAt(text, pat, j)
    decreases |text| - from
  {
    if from + |pat| > |text| then None
    else if text[from..from + |pat|] == pat then Some(from)
    else IndexOfFrom(text, pat, from + 1)
  }

  /** A one-character pattern occurs exactly where that character is. */
  lemma OccursAtChar(text: string, c: char, j: int)
    ensures OccursAt(text, [c], j) <==> 0 <= j < |text| && text[j] == c
  {
    if 0 <= j < |text| {
      assert text[j..j + 1] == [text[j]];
    }
  }

  function IndexOf(text: string, pat: string): Option<nat>
  {
    IndexOfFrom(text, pat, 0)
  }

  /** `text.includes(pat)` */
  predicate Includes(text: string, pat: string)
  {
    IndexOf(text, pat).Some?
  }

  /** `s.replace(pat, rep)` with a string pattern: only the first occurrence is replaced. */
  function ReplaceFirst(s: string, pat: string, rep: string): string
  {
    match IndexOf(s, pat)
    case Some(i) => s[..i] + rep + s[i + |pat|..]
    case None => s
  }

  /** A template without the placeholder is left alone; otherwise exactly its first occurrence
      is replaced. */
  lemma ReplaceFirstSpec(s: string, pat: string, rep: string)
    ensures (forall j :: !OccursAt(s, pat, j)) ==> ReplaceFirst(s, pat, rep) == s
    ensures forall i :: OccursAt(s, pat, i) && (forall j :: 0 <= j < i ==> !OccursAt(s, pat, j))
                ==> ReplaceFirst(s, pat, rep) == s[..i] + rep + s[i + |pat|..]
  {
  }

  /** The characters `String.prototype.trim` removes: WhiteSpace and LineTerminator. */
  predicate IsSpace(c: char)
  {
    c == ' ' || c == '\t' || c == '\n' || c == '\r' || c == '\U{0B}' || c == '\U{0C}'
    || c == '\U{A0}' || c == '\U{FEFF}' || c == '\U{1680}' || ('\U{2000}' <= c <= '\U{200A}')
    || c == '\U{2028}' || c == '\U{2029}' || c == '\U{202F}' || c == '\U{205F}' || c == '\U{3000}'
  }

  function TrimStart(s: string): (r: string)
    ensures |r| <= |s| && r == s[|s| - |r|..]
    ensures r == [] || !IsSpace(r[0])
    ensures forall i :: 0 <= i < |s| - |r| ==> IsSpace(s[i])
  {
    if |s| > 0 && IsSpace(s[0]) then TrimStart(s[1..]) else s
  }

  function TrimEnd(s: string): (r: string)
    ensures |r| <= |s| && r == s[..|r|]
    ensures r == [] || !IsSpace(r[|r| - 1])
    ensures forall i :: |r| <= i < |s| ==> IsSpace(s[i])
  {
    if |s| > 0 && IsSpace(s[|s| - 1]) then TrimEnd(s[..|s| - 1]) else s
  }

  /** `s.trim()` */
  function Trim(s: string): string
  {
    TrimEnd(TrimStart(s))
  }

  /** Trimming a string that neither starts nor ends with white space changes nothing. */
  lemma TrimOfTrimmed(s: string)
    requires s != [] ==> !IsSpace(s[0]) && !IsSpace(s[|s| - 1])
    ensures Trim(s) == s
  {
  }

  /** `parts.join(sep)` */
  function Join(parts: seq<string>, sep: string): string
  {
    if |parts| == 0 then ""
    else if |parts| == 1 then parts[0]
    else Join(parts[..|parts| - 1], sep) + sep + parts[|parts| - 1]
  }

  /** The first two fields of `s.split(sep)` where `sep` is one character, as destructured by
      `const [a, b] = s.split(sep)`. Without a separator the second field is `undefined`. */
  function SplitFirstTwo(s: string, sep: char): (string, Option<string>)
  {
    match IndexOf(s, [sep])
    case None => (s, None)
    case Some(i) =>
      var rest := s[i + 1..];
      match IndexOf(rest, [sep])
      case None => (s[..i], Some(rest))
      case Some(j) => (s[..i], Some(rest[..j]))
  }

  /** `[...new Set(xs)]`: each value once, in the order of its first occurrence. */
  function Distinct<T(==)>(xs: seq<T>): (r: seq<T>)
    ensures forall i :: 0 <= i < |r| ==> r[i] in xs
    ensures forall i :: 0 <= i < |xs| ==> xs[i] in r
    ensures forall i, j :: 0 <= i < j < |r| ==> r[i] != r[j]
  {
    if |xs| == 0 then []
    else
      var d := Distinct(xs[..|xs| - 1]);
      assert forall i :: 0 <= i < |xs| - 1 ==> xs[..|xs| - 1][i] == xs[i];
      if xs[|xs| - 1] in d then d else d + [xs[|xs| - 1]]
  }

  /** Appending a value adds it to the distinct values unless it is already there. */
  lemma DistinctSnoc<T>(xs: seq<T>, x: T)
    ensures Distinct(xs + [x]) == if x in Distinct(xs) then Distinct(xs) else Distinct(xs) + [x]
  {
    assert (xs + [x])[..|xs|] == xs;
  }

  /** A sequence without repeats is its own list of distinct values. */
  lemma {:induction false} DistinctOfNoRepeats<T>(xs: seq<T>)
    requires forall i, j :: 0 <= i < j < |xs| ==> xs[i] != xs[j]
    ensures Distinct(xs) == xs
  {
    if |xs| > 0 {
      var init := xs[..|xs| - 1];
      DistinctOfNoRepeats(init);
      assert xs[|xs| - 1] !in init;
      assert init + [xs[|xs| - 1]] == xs;
    }
  }

  /** The position of the first occurrence of `x` in `xs`. */
  function FirstIndex<T(==)>(xs: seq<T>, x: T): (i: nat)
    requires x in xs
    ensures i < |xs| && xs[i] == x
    ensures forall j :: 0 <= j < i ==> xs[j] != x
  {
    if xs[0] == x then 0 else FirstIndex(xs[1..], x) + 1
  }

  /** The values of `Distinct(xs)` come in the order of their first occurrence in `xs`. */
  lemma {:induction false} DistinctKeepsFirstOccurrenceOrder<T>(xs: seq<T>, i: nat, j: nat)
    requires i < j < |Distinct(xs)|
    ensures FirstIndex(xs, Distinct(xs)[i]) < FirstIndex(xs, Distinct(xs)[j])
  {
    var n := |xs| - 1;
    var init := xs[..n];
    var d := Distinct(init);
    assert xs == init + [xs[n]];
    assert forall y :: y in init ==> FirstIndex(xs, y) == FirstIndex(init, y) by {
      forall y | y in init ensures FirstIndex(xs, y) == FirstIndex(init, y) {
        FirstIndexOfPrefix(init, [xs[n]], y);
      }
    }
    if j < |d| {
      DistinctKeepsFirstOccurrenceOrder(init, i, j);
    } else {
      // the last value of Distinct(xs) is xs[n], which does not occur in init
      assert Distinct(xs)[j] == xs[n] && xs[n] !in init;
      assert Distinct(xs)[i] in init;
      assert FirstIndex(xs, xs[n]) == n by {
        FirstIndexOfPrefixMiss(init, xs[n]);
      }
    }
  }

  lemma FirstIndexOfPrefix<T>(a: seq<T>, b: seq<T>, y: T)
    requires y in a
    ensures FirstIndex(a + b, y) == FirstIndex(a, y)
  {
    var k := FirstIndex(a, y);
    var ab := a + b;
    assert ab[..k] == a[..k];
    FirstIndexUnique(ab, y, k);
  }

  lemma FirstIndexOfPrefixMiss<T>(a: seq<T>, y: T)
    requires y !in a
    ensures FirstIndex(a + [y], y) == |a|
  {
    var ab := a + [y];
    assert ab[..|a|] == a;
    FirstIndexUnique(ab, y, |a|);
  }

  lemma FirstIndexUnique<T>(xs: seq<T>, y: T, k: nat)
    requires k < |xs| && xs[k] == y
    requires forall j :: 0 <= j < k ==> xs[j] != y
    ensures FirstIndex(xs, y) == k
  {
  }

  // ---------------------------------------------------------------- arrays and maps

  /** `m.get(k) || []`: an array is truthy, so the default only replaces a missing key. */
  function ListAt<K, V>(m: map<K, seq<V>>, k: K): seq<V>
  {
    if k in m then m[k] else []
  }

  /** Position `k` of `r` is position `s[k]` of `xs`, the positions `s` increase, and they are
      exactly the positions of `xs` whose element passes `f`. */
  ghost predicate SelectedAt<T>(xs: seq<T>, f: T -> bool, r: seq<T>, s: seq<int>)
  {
    && |s| == |r|
    && (forall k :: 0 <= k < |s| ==> 0 <= s[k] < |xs| && r[k] == xs[s[k]] && f(xs[s[k]]))
    && (forall k, l :: 0 <= k < l < |s| ==> s[k] < s[l])
    && (forall i :: 0 <= i < |xs| && f(xs[i]) ==> i in s)
  }

  /** `r` is the elements of `xs` that pass `f`, each occurrence once, in the order of `xs`. */
  ghost predicate Keeps<T>(xs: seq<T>, f: T -> bool, r: seq<T>)
  {
    exists s :: SelectedAt(xs, f, r, s)
  }

  /** Keeping from one more element keeps it at the end exactly when it passes. */
  lemma KeepsSnoc<T>(xs: seq<T>, f: T -> bool, r: seq<T>, x: T)
    requires Keeps(xs, f, r)
    ensures Keeps(xs + [x], f, if f(x) then r + [x] else r)
  {
    var s :| SelectedAt(xs, f, r, s);
    if f(x) {
      SelectedSnocPassing(xs, f, r, s, x);
    } else {
      SelectedSnocFailing(xs, f, r, s, x);
    }
  }

  lemma SelectedSnocPassing<T>(xs: seq<T>, f: T -> bool, r: seq<T>, s: seq<int>, x: T)
    requires SelectedAt(xs, f, r, s) && f(x)
    ensures SelectedAt(xs + [x], f, r + [x], s + [|xs|])
  {
    var ys, r', s' := xs + [x], r + [x], s + [|xs|];
    forall k | 0 <= k < |s'|
      ensures 0 <= s'[k] < |ys| && r'[k] == ys[s'[k]] && f(ys[s'[k]])
    {
      if k < |s| {
        assert s'[k] == s[k] && r'[k] == r[k] && ys[s[k]] == xs[s[k]];
      }
    }
    forall k, l | 0 <= k < l < |s'|
      ensures s'[k] < s'[l]
    {
      if l < |s| {
        assert s[k] < s[l];
      } else {
        assert s'[k] == s[k] < |xs|;
      }
    }
    forall i | 0 <= i < |ys| && f(ys[i])
      ensures i in s'
    {
      if i < |xs| {
        assert ys[i] == xs[i];
        assert i in s;
      }
    }
  }

  lemma SelectedSnocFailing<T>(xs: seq<T>, f: T -> bool, r: seq<T>, s: seq<int>, x: T)
    requires SelectedAt(xs, f, r, s) && !f(x)
    ensures SelectedAt(xs + [x], f, r, s)
  {
    var ys := xs + [x];
    forall k | 0 <= k < |s|
      ensures 0 <= s[k] < |ys| && r[k] == ys[s[k]] && f(ys[s[k]])
    {
      assert ys[s[k]] == xs[s[k]];
    }
    forall i | 0 <= i < |ys| && f(ys[i])
      ensures i in s
    {
      assert i < |xs| && ys[i] == xs[i];
    }
  }

  /** `xs.filter(f)` */
  function Filter<T(==)>(xs: seq<T>, f: T -> bool): (r: seq<T>)
    ensures |r| <= |xs|
    ensures forall i :: 0 <= i < |r| ==> r[i] in xs && f(r[i])
    ensures forall i :: 0 <= i < |xs| && f(xs[i]) ==> xs[i] in r
  {
    if |xs| == 0 then []
    else
      var r := Filter(xs[..|xs| - 1], f);
      assert forall i :: 0 <= i < |xs| - 1 ==> xs[..|xs| - 1][i] == xs[i];
      if f(xs[|xs| - 1]) then r + [xs[|xs| - 1]] else r
  }

  /** `xs.filter(f)` keeps the elements that pass `f`, each occurrence once, in their order. */
  lemma {:induction false} FilterKeeps<T>(xs: seq<T>, f: T -> bool)
    ensures Keeps(xs, f, Filter(xs, f))
  {
    if |xs| == 0 {
      assert SelectedAt(xs, f, [], []);
    } else {
      var init, x := xs[..|xs| - 1], xs[|xs| - 1];
      assert init + [x] == xs;
      FilterKeeps(init, f);
      KeepsSnoc(init, f, Filter(init, f), x);
    }
  }

  /** The specification determines the list: whatever keeps the passing elements in order is
      `xs.filter(f)`. */
  lemma {:induction false} KeepsIsFilter<T>(xs: seq<T>, f: T -> bool, r: seq<T>)
    requires Keeps(xs, f, r)
    ensures r == Filter(xs, f)
  {
    var s :| SelectedAt(xs, f, r, s);
    // with nothing to select from, nothing is selected
    assert 0 < |s| ==> r[0] == xs[s[0]];
    if |xs| > 0 {
      if f(xs[|xs| - 1]) {
        SelectedDropPassing(xs, f, r, s);
        KeepsIsFilter(xs[..|xs| - 1], f, r[..|r| - 1]);
      } else {
        SelectedDropFailing(xs, f, r, s);
        KeepsIsFilter(xs[..|xs| - 1], f, r);
      }
    }
  }

  /** A passing last element is the last one selected; the rest select from the prefix. */
  lemma SelectedDropPassing<T>(xs: seq<T>, f: T -> bool, r: seq<T>, s: seq<int>)
    requires SelectedAt(xs, f, r, s) && |xs| > 0 && f(xs[|xs| - 1])
    ensures |r| > 0 && r == r[..|r| - 1] + [xs[|xs| - 1]]
    ensures SelectedAt(xs[..|xs| - 1], f, r[..|r| - 1], s[..|s| - 1])
  {
    var n := |xs| - 1;
    assert n in s;
    var k :| 0 <= k < |s| && s[k] == n;
    var last := |s| - 1;
    assert k == last;
    var init, r', s' := xs[..n], r[..last], s[..last];
    forall i | 0 <= i < n && f(init[i])
      ensures i in s'
    {
      assert i in s;
      var j :| 0 <= j < |s| && s[j] == i;
      assert j < last && s'[j] == i;
    }
    forall j | 0 <= j < last
      ensures 0 <= s'[j] < |init| && r'[j] == init[s'[j]]
    {
      assert s[j] < s[last];
    }
  }

  /** A failing last element is not selected; the same positions select from the prefix. */
  lemma SelectedDropFailing<T>(xs: seq<T>, f: T -> bool, r: seq<T>, s: seq<int>)
    requires SelectedAt(xs, f, r, s) && |xs| > 0 && !f(xs[|xs| - 1])
    ensures SelectedAt(xs[..|xs| - 1], f, r, s)
  {
    var n := |xs| - 1;
    var init := xs[..n];
    forall k | 0 <= k < |s|
      ensures 0 <= s[k] < n && r[k] == init[s[k]]
    {
      assert s[k] != n;
    }
    forall i | 0 <= i < n && f(init[i])
      ensures i in s
    {
      assert init[i] == xs[i];
    }
  }

  /** Tests that agree on every element filter alike. */
  lemma {:induction false} FilterSame<T>(xs: seq<T>, f: T -> bool, g: T -> bool)
    requires forall x :: f(x) == g(x)
    ensures Filter(xs, f) == Filter(xs, g)
  {
    if |xs| > 0 {
      FilterSame(xs[..|xs| - 1], f, g);
    }
  }

  /** Filtering by `f` and then by `g` is filtering by the conjunction `h`. */
  lemma {:induction false} FilterOfFilter<T>(xs: seq<T>, f: T -> bool, g: T -> bool, h: T -> bool)
    requires forall x :: h(x) == (f(x) && g(x))
    ensures Filter(Filter(xs, f), g) == Filter(xs, h)
  {
    if |xs| > 0 {
      var init, x := xs[..|xs| - 1], xs[|xs| - 1];
      FilterOfFilter(init, f, g, h);
      if f(x) {
        var r := Filter(init, f);
        assert (r + [x])[..|r|] == r;
      }
    }
  }

  /** A test every element passes keeps the whole list. */
  lemma {:induction false} FilterAll<T>(xs: seq<T>, f: T -> bool)
    requires forall i :: 0 <= i < |xs| ==> f(xs[i])
    ensures Filter(xs, f) == xs
  {
    if |xs| > 0 {
      var init := xs[..|xs| - 1];
      FilterAll(init, f);
      assert init + [xs[|xs| - 1]] == xs;
    }
  }

  /** On a list without repetitions, the kept elements stay in their original order. */
  lemma {:induction false} FilterKeepsOrder<T>(xs: seq<T>, f: T -> bool, i: nat, j: nat)
    requires forall a, b :: 0 <= a < b < |xs| ==> xs[a] != xs[b]
    requires i < j < |Filter(xs, f)|
    ensures FirstIndex(xs, Filter(xs, f)[i]) < FirstIndex(xs, Filter(xs, f)[j])
  {
    var n := |xs| - 1;
    var init := xs[..n];
    var r := Filter(init, f);
    assert xs == init + [xs[n]];
    assert Filter(xs, f)[i] in init by {
      if i >= |r| {
        assert false;
      }
    }
    FirstIndexOfPrefix(init, [xs[n]], Filter(xs, f)[i]);
    if j < |r| {
      FilterKeepsOrder(init, f, i, j);
      FirstIndexOfPrefix(init, [xs[n]], Filter(xs, f)[j]);
    } else {
      assert Filter(xs, f)[j] == xs[n];
      assert xs[n] !in init;
      FirstIndexOfPrefixMiss(init, xs[n]);
    }
  }

  /** `xs.find(f)`: the first element passing the test, if any. */
  function Find<T>(xs: seq<T>, f: T -> bool): (r: Option<T>)
    ensures r.None? <==> forall i :: 0 <= i < |xs| ==> !f(xs[i])
    ensures r.Some? ==> exists k :: 0 <= k < |xs| && xs[k] == r.value && f(xs[k])
                                    && forall j :: 0 <= j < k ==> !f(xs[j])
  {
    if |xs| == 0 then None
    else if f(xs[0]) then Some(xs[0])
    else
      var r := Find(xs[1..], f);
      assert r.Some? ==> exists k :: 0 <= k < |xs| && xs[k] == r.value && f(xs[k])
                                     && forall j :: 0 <= j < k ==> !f(xs[j]) by {
        if r.Some? {
          var k' :| 0 <= k' < |xs[1..]| && xs[1..][k'] == r.value && f(xs[1..][k'])
                    && forall j :: 0 <= j < k' ==> !f(xs[1..][j]);
          assert forall j :: 0 < j < k' + 1 ==> xs[j] == xs[1..][j - 1];
        }
      }
      assert r.None? ==> forall i :: 0 < i < |xs| ==> xs[i] == xs[1..][i - 1];
      r
  }

  /** Filtering keeps the relative order: it distributes over concatenation. */
  lemma {:induction false} FilterConcat<T>(a: seq<T>, b: seq<T>, f: T -> bool)
    ensures Filter(a + b, f) == Filter(a, f) + Filter(b, f)
  {
    if |b| == 0 {
      assert a + b == a;
    } else {
      var init := b[..|b| - 1];
      assert (a + b)[..|a + b| - 1] == a + init;
      FilterConcat(a, init, f);
    }
  }

  /** Filtering twice with the same test is filtering once. */
  lemma {:induction false} FilterIdempotent<T>(xs: seq<T>, f: T -> bool)
    ensures Filter(Filter(xs, f), f) == Filter(xs, f)
  {
    if |xs| > 0 {
      var init, x := xs[..|xs| - 1], xs[|xs| - 1];
      FilterIdempotent(init, f);
      if f(x) {
        FilterConcat(Filter(init, f), [x], f);
        assert [x][..0] == [];
      }
    }
  }

  /** `xs.splice(i, 1)` */
  function RemoveAt<T>(xs: seq<T>, i: nat): (r: seq<T>)
    requires i < |xs|
    ensures |r| == |xs| - 1
    ensures multiset(r) == multiset(xs) - multiset{xs[i]}
    ensures forall j :: 0 <= j < i ==> r[j] == xs[j]
    ensures forall j :: i <= j < |r| ==> r[j] == xs[j + 1]
  {
    assert xs == xs[..i] + [xs[i]] + xs[i + 1..];
    xs[..i] + xs[i + 1..]
  }
}
