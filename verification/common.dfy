/**
 * Helpers shared by the modules of this model: an Option type, the ASCII case
 * fold that stands for JavaScript's `toLowerCase`/`toUpperCase`, substring
 * search (`String.prototype.includes`), and the array operations the
 * components use to build new lists (`filter`, `filter(..).length`).
 */
module Common {

  datatype Option<+T> = None | Some(value: T)

  /** Colours handed to the UI library's components. */
  datatype Color = Default | Primary | Info | Success | Warning | Error

  // ---------------------------------------------------------------------------
  // Case folding (ASCII only)

  function LowerChar(c: char): char {
    if 'A' <= c <= 'Z' then (c as int - 'A' as int + 'a' as int) as char else c
  }

  function UpperChar(c: char): char {
    if 'a' <= c <= 'z' then (c as int - 'a' as int + 'A' as int) as char else c
  }

  /** `s.toLowerCase()`, restricted to the ASCII letters. */
  function Lower(s: string): (r: string)
    ensures |r| == |s|
    ensures forall i :: 0 <= i < |s| ==> r[i] == LowerChar(s[i])
  {
    seq(|s|, i requires 0 <= i < |s| => LowerChar(s[i]))
  }

  // ---------------------------------------------------------------------------
  // Substring search

  /** `hay.includes(needle)`: needle occurs in hay at some position. */
  predicate Contains(hay: string, needle: string)
    decreases |hay|
  {
    needle <= hay || (hay != [] && Contains(hay[1..], needle))
  }

  /** Every string contains the empty string and itself. */
  lemma ContainsTrivial(s: string)
    ensures Contains(s, "") && Contains(s, s)
  {
  }

  /** Case-insensitive search as the components write it. */
  predicate MatchesQuery(text: string, query: string) {
    Contains(Lower(text), Lower(query))
  }

  // ---------------------------------------------------------------------------
  // Sequences

  /** a is obtained from b by deleting some elements, keeping the order. */
  predicate IsSubsequence<T(==)>(a: seq<T>, b: seq<T>)
    decreases |b|
  {
    if a == [] then true
    else if b == [] then false
    else (a[0] == b[0] && IsSubsequence(a[1..], b[1..])) || IsSubsequence(a, b[1..])
  }

  lemma {:induction false} SubsequenceRefl<T>(s: seq<T>)
    ensures IsSubsequence(s, s)
  {
    if s != [] {
      SubsequenceRefl(s[1..]);
    }
  }

  /** `s.map(f)`: one image per element, in order. */
  function Project<A, B>(s: seq<A>, f: A -> B): (r: seq<B>)
    ensures |r| == |s|
    ensures forall i :: 0 <= i < |s| ==> r[i] == f(s[i])
  {
    seq(|s|, i requires 0 <= i < |s| => f(s[i]))
  }

  /** `s.filter(keep)`: the order-preserving sublist of the elements that pass. */
  function Filter<T(!new)>(s: seq<T>, keep: T -> bool): (r: seq<T>)
    ensures |r| <= |s|
    ensures forall x :: x in r <==> x in s && keep(x)
    ensures forall x :: multiset(r)[x] == if keep(x) then multiset(s)[x] else 0
    ensures IsSubsequence(r, s)
  {
    if s == [] then []
    else
      assert s == [s[0]] + s[1..];
      assert multiset(s) == multiset{s[0]} + multiset(s[1..]);
      if keep(s[0]) then
        var rest := Filter(s[1..], keep);
        assert multiset([s[0]] + rest) == multiset{s[0]} + multiset(rest);
        [s[0]] + rest
      else Filter(s[1..], keep)
  }

  /** A filter whose test passes everywhere keeps everything. */
  lemma {:induction false} FilterAll<T(!new)>(s: seq<T>, keep: T -> bool)
    requires forall x :: x in s ==> keep(x)
    ensures Filter(s, keep) == s
  {
    if s != [] {
      FilterAll(s[1..], keep);
    }
  }

  /** A filter whose test fails everywhere keeps nothing. */
  lemma {:induction false} FilterNone<T(!new)>(s: seq<T>, keep: T -> bool)
    requires forall x :: x in s ==> !keep(x)
    ensures Filter(s, keep) == []
  {
    if s != [] {
      FilterNone(s[1..], keep);
    }
  }

  lemma {:induction false} FilterAppend<T(!new)>(a: seq<T>, b: seq<T>, keep: T -> bool)
    ensures Filter(a + b, keep) == Filter(a, keep) + Filter(b, keep)
  {
    if a == [] {
      assert a + b == b;
    } else {
      assert (a + b)[1..] == a[1..] + b;
      FilterAppend(a[1..], b, keep);
    }
  }

  /** `s.filter(keep).length`. */
  function Count<T(!new)>(s: seq<T>, keep: T -> bool): (n: nat)
    ensures n <= |s|
  {
    |Filter(s, keep)|
  }

  /** Counting under a weaker test never gives less. */
  lemma {:induction false} CountMonotone<T(!new)>(s: seq<T>, p: T -> bool, q: T -> bool)
    requires forall x :: x in s && p(x) ==> q(x)
    ensures Count(s, p) <= Count(s, q)
  {
    if s != [] {
      CountMonotone(s[1..], p, q);
    }
  }

  /** No value occurs twice. */
  predicate Distinct<T(==)>(s: seq<T>) {
    forall i, j :: 0 <= i < j < |s| ==> s[i] != s[j]
  }

  /** A value put in front of distinct values keeps them distinct when it is new. */
  lemma DistinctCons<T>(x: T, rest: seq<T>)
    requires Distinct(rest) && x !in rest
    ensures Distinct([x] + rest)
  {
    var s := [x] + rest;
    forall i, j | 0 <= i < j < |s| ensures s[i] != s[j] {
      assert s[j] == rest[j - 1];
      if i > 0 {
        assert s[i] == rest[i - 1];
      }
    }
  }

  /** A new value put after distinct values keeps them distinct. */
  lemma DistinctSnoc<T>(rest: seq<T>, x: T)
    requires Distinct(rest) && x !in rest
    ensures Distinct(rest + [x])
  {
    var s := rest + [x];
    forall i, j | 0 <= i < j < |s| ensures s[i] != s[j] {
      assert s[i] == rest[i];
    }
  }

  /** `Array.from(new Set(s))`: each value once, in order of first appearance. */
  function Dedup<T(==,!new)>(s: seq<T>): (r: seq<T>)
    ensures Distinct(r)
    ensures forall x :: x in r <==> x in s
  {
    DedupInto([], s)
  }

  /** Appends to `seen` every element of `rest` not seen before. */
  function DedupInto<T(==,!new)>(seen: seq<T>, rest: seq<T>): (r: seq<T>)
    requires Distinct(seen)
    ensures Distinct(r)
    ensures forall x :: x in r <==> x in seen || x in rest
    ensures |seen| <= |r| && r[..|seen|] == seen
    decreases |rest|
  {
    if rest == [] then seen
    else if rest[0] in seen then DedupInto(seen, rest[1..])
    else DedupInto(seen + [rest[0]], rest[1..])
  }

  /**
   * Extending the input by one element extends the result by that element
   * exactly when it is new: the values appear in order of first appearance.
   */
  lemma {:induction false} DedupIntoSnoc<T(!new)>(seen: seq<T>, rest: seq<T>, x: T)
    requires Distinct(seen)
    ensures DedupInto(seen, rest + [x]) ==
            if x in seen || x in rest then DedupInto(seen, rest) else DedupInto(seen, rest) + [x]
    decreases |rest|
  {
    if rest == [] {
      assert rest + [x] == [x];
      assert [x][1..] == [];
    } else {
      assert (rest + [x])[0] == rest[0];
      assert (rest + [x])[1..] == rest[1..] + [x];
      if rest[0] in seen {
        DedupIntoSnoc(seen, rest[1..], x);
      } else {
        DedupIntoSnoc(seen + [rest[0]], rest[1..], x);
      }
    }
  }

  lemma DedupSnoc<T(!new)>(s: seq<T>, x: T)
    ensures Dedup(s + [x]) == if x in s then Dedup(s) else Dedup(s) + [x]
  {
    DedupIntoSnoc([], s, x);
  }

  /** Values that are already distinct are kept as they are. */
  lemma {:induction false} DedupIntoDistinct<T(!new)>(seen: seq<T>, rest: seq<T>)
    requires Distinct(seen) && Distinct(seen + rest)
    ensures DedupInto(seen, rest) == seen + rest
    decreases |rest|
  {
    if rest == [] {
      assert seen + rest == seen;
    } else {
      assert (seen + rest)[|seen|] == rest[0];
      assert rest[0] !in seen by {
        forall i | 0 <= i < |seen| ensures seen[i] != rest[0] {
          assert (seen + rest)[i] == seen[i];
        }
      }
      assert seen + rest == (seen + [rest[0]]) + rest[1..];
      DedupIntoDistinct(seen + [rest[0]], rest[1..]);
    }
  }

  lemma DedupDistinct<T(!new)>(s: seq<T>)
    requires Distinct(s)
    ensures Dedup(s) == s
  {
    assert [] + s == s;
    DedupIntoDistinct([], s);
  }

  /** The position of the first occurrence of x in s. */
  function FirstIndex<T(==)>(s: seq<T>, x: T): (i: nat)
    requires x in s
    ensures i < |s| && s[i] == x
    ensures forall j :: 0 <= j < i ==> s[j] != x
  {
    if s[0] == x then 0 else 1 + FirstIndex(s[1..], x)
  }

  // ---------------------------------------------------------------------------
  // Decimal rendering of natural numbers (`n.toString()`)

  function DigitChar(d: nat): char
    requires d < 10
  {
    ('0' as int + d) as char
  }

  function DigitValue(c: char): int {
    c as int - '0' as int
  }

  predicate IsDigit(c: char) {
    '0' <= c <= '9'
  }

  function NatToString(n: nat): (s: string)
    ensures |s| >= 1
    ensures forall i :: 0 <= i < |s| ==> IsDigit(s[i])
  {
    if n < 10 then [DigitChar(n)] else NatToString(n / 10) + [DigitChar(n % 10)]
  }

  /** The value of a string of decimal digits. */
  function DigitsValue(s: string): int
  {
    if s == [] then 0 else DigitsValue(s[..|s| - 1]) * 10 + DigitValue(s[|s| - 1])
  }

  lemma {:induction false} NatToStringRoundTrip(n: nat)
    ensures DigitsValue(NatToString(n)) == n
  {
    var s := NatToString(n);
    if n >= 10 {
      NatToStringRoundTrip(n / 10);
      assert s[..|s| - 1] == NatToString(n / 10);
    }
  }
}
