/** Small building blocks shared by the components: an optional value, the
    error records the UI collects, and the few sequence and string operations
    (substring search, filter, findIndex, decimal rendering) that the
    JavaScript code takes from its standard library. */
module Common {

  /** JavaScript's null / undefined, or a present value. */
  datatype Option<+T> = None | Some(value: T)

  /** An error object as the views keep it: only its message is ever read. */
  datatype Error = Error(message: string)

  // ---------------------------------------------------------------------
  // Substring search (String.prototype.indexOf / includes / replace)
  // ---------------------------------------------------------------------

  /** `pat` occurs in `s` starting at index `j`. */
  predicate OccursAt(s: string, pat: string, j: nat)
  {
    j + |pat| <= |s| && s[j..j + |pat|] == pat
  }

  /** The index of the first occurrence of `pat` in `s`, as `indexOf` finds it. */
  function FindFirst(s: string, pat: string): (r: Option<nat>)
    ensures r.Some? ==> OccursAt(s, pat, r.value)
    ensures r.Some? ==> forall j: nat :: j < r.value ==> !OccursAt(s, pat, j)
    ensures r.None? ==> forall j: nat :: !OccursAt(s, pat, j)
    decreases |s|
  {
    if |pat| <= |s| && s[..|pat|] == pat then Some(0)
    else if |s| <= |pat| then None
    else
      var rest := FindFirst(s[1..], pat);
      assert forall j: nat :: 1 <= j ==> (OccursAt(s, pat, j) <==> OccursAt(s[1..], pat, j - 1)) by {
        forall j: nat | 1 <= j ensures OccursAt(s, pat, j) <==> OccursAt(s[1..], pat, j - 1) {
          if j + |pat| <= |s| {
            assert s[1..][j - 1..j - 1 + |pat|] == s[j..j + |pat|];
          }
        }
      }
      assert !OccursAt(s, pat, 0) by {
        assert s[0..|pat|] == s[..|pat|];
      }
      match rest
      case Some(k) => Some(k + 1)
      case None => None
  }

  /** `String.prototype.includes`. */
  predicate Contains(s: string, sub: string)
  {
    FindFirst(s, sub).Some?
  }

  /** `String.prototype.toLowerCase` on the ASCII letters. */
  function LowerAscii(s: string): (r: string)
    ensures |r| == |s|
    ensures forall i :: 0 <= i < |s| ==> r[i] == (if 'A' <= s[i] <= 'Z' then (s[i] as int + 32) as char else s[i])
  {
    seq(|s|, i requires 0 <= i < |s| => if 'A' <= s[i] <= 'Z' then (s[i] as int + 32) as char else s[i])
  }

  // ---------------------------------------------------------------------
  // Array.prototype.filter and Array.prototype.findIndex
  // ---------------------------------------------------------------------

  /** The elements of `s` that satisfy `p`, in their original order. */
  function Filter<T(!new)>(s: seq<T>, p: T -> bool): (r: seq<T>)
    ensures |r| <= |s|
    ensures forall x :: x in r <==> x in s && p(x)
    decreases |s|
  {
    if s == [] then []
    else (if p(s[0]) then [s[0]] else []) + Filter(s[1..], p)
  }

  /** Filtering a concatenation filters each part: the selection keeps order. */
  lemma {:induction false} FilterAppend<T(!new)>(a: seq<T>, b: seq<T>, p: T -> bool)
    ensures Filter(a + b, p) == Filter(a, p) + Filter(b, p)
    decreases |a|
  {
    if a == [] {
      assert a + b == b;
    } else {
      assert (a + b)[1..] == a[1..] + b;
      FilterAppend(a[1..], b, p);
    }
  }

  /** Each element is kept exactly as often as it occurs, when it satisfies `p`. */
  lemma {:induction false} FilterMultiplicity<T(!new)>(s: seq<T>, p: T -> bool, x: T)
    ensures multiset(Filter(s, p))[x] == if p(x) then multiset(s)[x] else 0
    decreases |s|
  {
    if s != [] {
      FilterMultiplicity(s[1..], p, x);
      assert s == [s[0]] + s[1..];
    }
  }

  /** Nothing is dropped when every element satisfies `p`. */
  lemma {:induction false} FilterAll<T(!new)>(s: seq<T>, p: T -> bool)
    requires forall i :: 0 <= i < |s| ==> p(s[i])
    ensures Filter(s, p) == s
    decreases |s|
  {
    if s != [] {
      FilterAll(s[1..], p);
    }
  }

  /** The index of the first element satisfying `p`, or -1 (`findIndex`). */
  method FindIndex<T>(s: seq<T>, p: T -> bool) returns (index: int)
    ensures -1 <= index < |s|
    ensures index == -1 <==> forall j :: 0 <= j < |s| ==> !p(s[j])
    ensures 0 <= index ==> p(s[index]) && forall j :: 0 <= j < index ==> !p(s[j])
  {
    index := 0;
    while index < |s|
      invariant 0 <= index <= |s|
      invariant forall j :: 0 <= j < index ==> !p(s[j])
    {
      if p(s[index]) {
        return;
      }
      index := index + 1;
    }
    index := -1;
  }

  // ---------------------------------------------------------------------
  // Sequences without repetitions
  // ---------------------------------------------------------------------

  predicate NoDup<T(==)>(s: seq<T>)
  {
    forall i, j :: 0 <= i < j < |s| ==> s[i] != s[j]
  }

  /** The set of elements of a sequence. */
  function Elements<T(!new)>(s: seq<T>): (r: set<T>)
    ensures forall x :: x in r <==> x in s
  {
    set x | x in s
  }

  /** A sequence without repetitions is as long as its set of elements is large. */
  lemma {:induction false} NoDupLength<T(!new)>(s: seq<T>)
    requires NoDup(s)
    ensures |Elements(s)| == |s|
    decreases |s|
  {
    if s != [] {
      var last := s[|s| - 1];
      var init := s[..|s| - 1];
      assert NoDup(init);
      NoDupLength(init);
      assert last !in init;
      assert s == init + [last];
      assert Elements(s) == Elements(init) + {last};
    }
  }

  /** The index of the first occurrence of `x` in `s`. */
  function FirstIndex<T(==)>(s: seq<T>, x: T): (k: nat)
    requires x in s
    ensures k < |s| && s[k] == x
    ensures forall j :: 0 <= j < k ==> s[j] != x
    decreases |s|
  {
    if s[0] == x then 0 else FirstIndex(s[1..], x) + 1
  }

  // ---------------------------------------------------------------------
  // Decimal rendering of a natural number (template-literal `${n}`)
  // ---------------------------------------------------------------------

  function Digit(d: nat): (c: char)
    requires d < 10
    ensures '0' <= c <= '9'
    ensures c as int - '0' as int == d
  {
    (d + '0' as int) as char
  }

  /** The decimal representation of `n`, without leading zeros. */
  function DecimalString(n: nat): (r: string)
    ensures |r| >= 1
    ensures forall i :: 0 <= i < |r| ==> '0' <= r[i] <= '9'
    ensures |r| == 1 <==> n < 10
    decreases n
  {
    if n < 10 then [Digit(n)] else DecimalString(n / 10) + [Digit(n % 10)]
  }

  /** Different numbers are written differently. */
  lemma {:induction false} DecimalStringInjective(a: nat, b: nat)
    requires DecimalString(a) == DecimalString(b)
    ensures a == b
    decreases a
  {
    if a >= 10 {
      var sa, sb := DecimalString(a), DecimalString(b);
      assert b >= 10;
      assert sa[|sa| - 1] == Digit(a % 10) && sb[|sb| - 1] == Digit(b % 10);
      assert DecimalString(a / 10) == sa[..|sa| - 1] == sb[..|sb| - 1] == DecimalString(b / 10);
      DecimalStringInjective(a / 10, b / 10);
    }
  }
}
