/** Shared result types, equalities of sequences, the order of strings, and white space. */
module Wrappers {
  /** Identifiers that are only compared for equality. */
  type Id = nat

  datatype Option<+T> = None | Some(value: T)

  datatype Result<+T, +E> = Ok(value: T) | Err(error: E)

  lemma TakeDrop<T>(s: seq<T>, n: nat)
    requires n <= |s|
    ensures s[..n] + s[n..] == s
  {
  }

  lemma TakeNext<T>(s: seq<T>, n: nat)
    requires n < |s|
    ensures s[..n + 1] == s[..n] + [s[n]] && s[..n + 1][..n] == s[..n]
  {
  }

  lemma TakeAll<T>(s: seq<T>)
    ensures s[..|s|] == s
  {
  }

  // The elements of a sequence that satisfy a predicate

  function Where<T>(s: seq<T>, p: T -> bool): seq<T> {
    if s == [] then [] else (if p(s[0]) then [s[0]] else []) + Where(s[1..], p)
  }

  lemma {:induction false} WhereIn<T>(s: seq<T>, p: T -> bool)
    ensures forall x :: x in Where(s, p) <==> x in s && p(x)
  {
    if s != [] {
      WhereIn(s[1..], p);
      assert s == [s[0]] + s[1..];
    }
  }

  /** The i-th element is the only one that satisfies p. */
  ghost predicate OnlyOne<T(!new)>(s: seq<T>, p: T -> bool, i: nat) {
    i < |s| && p(s[i]) && forall k :: 0 <= k < |s| && p(s[k]) ==> k == i
  }

  lemma {:induction false} WhereIsNone<T>(s: seq<T>, p: T -> bool)
    ensures Where(s, p) == [] <==> forall k :: 0 <= k < |s| ==> !p(s[k])
  {
    if s != [] {
      WhereIsNone(s[1..], p);
      assert forall k :: 0 < k < |s| ==> s[k] == s[1..][k - 1];
    }
  }

  lemma {:induction false} WhereIsOne<T(!new)>(s: seq<T>, p: T -> bool, i: nat)
    requires OnlyOne(s, p, i)
    ensures Where(s, p) == [s[i]]
  {
    if i == 0 {
      WhereIsNone(s[1..], p);
    } else {
      WhereIsOne(s[1..], p, i - 1);
    }
  }

  lemma {:induction false} OneIsOnly<T(!new)>(s: seq<T>, p: T -> bool) returns (i: nat)
    requires |Where(s, p)| == 1
    ensures OnlyOne(s, p, i)
  {
    if p(s[0]) {
      i := 0;
      WhereIsNone(s[1..], p);
      assert forall k :: 0 < k < |s| ==> s[k] == s[1..][k - 1];
    } else {
      i := OneIsOnly(s[1..], p);
      assert forall k :: 0 < k < |s| ==> s[k] == s[1..][k - 1];
      i := i + 1;
    }
  }

  lemma {:induction false} WhereSame<T>(s: seq<T>, p: T -> bool, q: T -> bool)
    requires forall k :: 0 <= k < |s| ==> (p(s[k]) <==> q(s[k]))
    ensures Where(s, p) == Where(s, q)
  {
    if s != [] { WhereSame(s[1..], p, q); }
  }

  lemma {:induction false} WhereTwice<T>(s: seq<T>, p: T -> bool, q: T -> bool, both: T -> bool)
    requires forall k :: 0 <= k < |s| ==> (both(s[k]) <==> p(s[k]) && q(s[k]))
    ensures Where(Where(s, p), q) == Where(s, both)
  {
    if s != [] {
      assert forall k :: 0 <= k < |s[1..]| ==> s[1..][k] == s[k + 1];
      WhereTwice(s[1..], p, q, both);
      if p(s[0]) {
        assert ([s[0]] + Where(s[1..], p))[1..] == Where(s[1..], p);
      } else {
        assert Where(s, p) == Where(s[1..], p);
      }
      assert both(s[0]) <==> p(s[0]) && q(s[0]);
    }
  }

  /** A set that may have gained one element. */
  lemma GrowsBy(a: set<nat>, b: set<nat>, n: nat, more: bool)
    requires n !in a && forall i :: i in b <==> i in a || (i == n && more)
    ensures |b| == |a| + if more then 1 else 0
  {
    assert b == if more then a + {n} else a;
  }

  /** The numbers below n that satisfy a predicate. */
  ghost function Below(n: nat, p: nat -> bool): set<nat> { set i: nat | i < n && p(i) }

  lemma BelowStep(n: nat, p: nat -> bool)
    ensures |Below(n + 1, p)| == |Below(n, p)| + if p(n) then 1 else 0
  {
    GrowsBy(Below(n, p), Below(n + 1, p), n, p(n));
  }

  // The order of strings, by code point

  predicate Less(a: string, b: string) {
    b != [] && (a == [] || a[0] < b[0] || (a[0] == b[0] && Less(a[1..], b[1..])))
  }

  lemma {:induction false} LessIsTotal(a: string, b: string)
    ensures Less(a, b) || a == b || Less(b, a)
  {
    if a != [] && b != [] && a[0] == b[0] {
      LessIsTotal(a[1..], b[1..]);
      assert a == [a[0]] + a[1..] && b == [b[0]] + b[1..];
    }
  }

  lemma {:induction false} LessIsTransitive(a: string, b: string, c: string)
    requires Less(a, b) && Less(b, c)
    ensures Less(a, c)
  {
    if a != [] && a[0] == b[0] == c[0] { LessIsTransitive(a[1..], b[1..], c[1..]); }
  }

  lemma {:induction false} LessIsStrict(a: string)
    ensures !Less(a, a)
  {
    if a != [] { LessIsStrict(a[1..]); }
  }

  /** White space as String.trim sees it. */
  predicate Space(c: char) {
    c in {'\t', '\n', '\U{B}', '\U{C}', '\r', ' ', '\U{A0}', '\U{1680}', '\U{2028}', '\U{2029}', '\U{202F}', '\U{205F}',
      '\U{3000}', '\U{FEFF}'}
    || '\U{2000}' <= c <= '\U{200A}'
  }

  predicate NotBlank(s: string) { exists i :: 0 <= i < |s| && !Space(s[i]) }
}
