/** Sequence combinators used by the filters and accumulating loops of the core. */
module Seqs {

  /** `s.filter(p)`. */
  function Filter<T(==)>(s: seq<T>, p: T -> bool): (r: seq<T>)
    ensures |r| <= |s|
    ensures forall i :: 0 <= i < |r| ==> p(r[i]) && r[i] in s
    ensures forall i :: 0 <= i < |s| && p(s[i]) ==> s[i] in r
  {
    if s == [] then [] else (if p(s[0]) then [s[0]] else []) + Filter(s[1..], p)
  }

  /** `r` is `s` with some elements removed and the rest kept in order. */
  predicate IsSubsequence<T(==)>(r: seq<T>, s: seq<T>) {
    if r == [] then true
    else if s == [] then false
    else if r[0] == s[0] then IsSubsequence(r[1..], s[1..])
    else IsSubsequence(r, s[1..])
  }

  lemma {:induction false} FilterIsSubsequence<T>(s: seq<T>, p: T -> bool)
    ensures IsSubsequence(Filter(s, p), s)
  {
    if s != [] {
      FilterIsSubsequence(s[1..], p);
      if p(s[0]) {
        assert Filter(s, p) == [s[0]] + Filter(s[1..], p);
        assert Filter(s, p)[1..] == Filter(s[1..], p);
      } else {
        assert Filter(s, p) == Filter(s[1..], p);
        SubsequenceOfTail(Filter(s[1..], p), s);
      }
    }
  }

  lemma {:induction false} SubsequenceOfTail<T>(r: seq<T>, s: seq<T>)
    requires s != [] && IsSubsequence(r, s[1..])
    ensures IsSubsequence(r, s)
    decreases |r| + |s|
  {
    if r != [] && r[0] == s[0] {
      SubsequenceDropHead(r, s[1..]);
    }
  }

  lemma {:induction false} SubsequenceDropHead<T>(r: seq<T>, s: seq<T>)
    requires r != [] && IsSubsequence(r, s)
    ensures IsSubsequence(r[1..], s)
    decreases |r| + |s|
  {
    if s != [] {
      if r[0] == s[0] {
        SubsequenceOfTail(r[1..], s);
      } else {
        SubsequenceDropHead(r, s[1..]);
        SubsequenceOfTail(r[1..], s);
      }
    }
  }

  /** Filtering with a predicate every element meets changes nothing. */
  lemma {:induction false} FilterKeepsAll<T>(s: seq<T>, p: T -> bool)
    requires forall i :: 0 <= i < |s| ==> p(s[i])
    ensures Filter(s, p) == s
  {
    if s != [] {
      FilterKeepsAll(s[1..], p);
    }
  }

  /** Filtering with a predicate no element meets leaves nothing. */
  lemma {:induction false} FilterKeepsNone<T>(s: seq<T>, p: T -> bool)
    requires forall i :: 0 <= i < |s| ==> !p(s[i])
    ensures Filter(s, p) == []
  {
    if s != [] {
      FilterKeepsNone(s[1..], p);
    }
  }

  /** Predicates that agree everywhere filter alike. */
  lemma {:induction false} FilterSamePredicate<T>(s: seq<T>, p: T -> bool, q: T -> bool)
    requires forall x :: p(x) == q(x)
    ensures Filter(s, p) == Filter(s, q)
  {
    if s != [] {
      FilterSamePredicate(s[1..], p, q);
    }
  }

  lemma {:induction false} FilterAppend<T>(a: seq<T>, b: seq<T>, p: T -> bool)
    ensures Filter(a + b, p) == Filter(a, p) + Filter(b, p)
  {
    if a == [] {
      assert a + b == b;
    } else {
      assert (a + b)[1..] == a[1..] + b;
      FilterAppend(a[1..], b, p);
    }
  }

  /** `ss.flat()`: the concatenation of the sequences in order. */
  function Flatten<T>(ss: seq<seq<T>>): seq<T> {
    if ss == [] then [] else ss[0] + Flatten(ss[1..])
  }

  function SumLengths<T>(ss: seq<seq<T>>): nat {
    if ss == [] then 0 else |ss[0]| + SumLengths(ss[1..])
  }

  lemma {:induction false} FlattenLength<T>(ss: seq<seq<T>>)
    ensures |Flatten(ss)| == SumLengths(ss)
  {
    if ss != [] {
      FlattenLength(ss[1..]);
    }
  }

  lemma {:induction false} FlattenSnoc<T>(ss: seq<seq<T>>, s: seq<T>)
    ensures Flatten(ss + [s]) == Flatten(ss) + s
  {
    if ss == [] {
      assert [] + [s] == [s];
    } else {
      assert (ss + [s])[1..] == ss[1..] + [s];
      FlattenSnoc(ss[1..], s);
    }
  }

  /** The number of `true` outcomes among calls `base`, ..., `base + n - 1`. */
  function CountTrue(ok: nat -> bool, base: nat, n: nat): (c: nat)
    ensures c <= n
  {
    if n == 0 then 0 else CountTrue(ok, base, n - 1) + (if ok(base + n - 1) then 1 else 0)
  }

  /** When every call succeeds, every call is counted. */
  lemma {:induction false} CountTrueAll(ok: nat -> bool, base: nat, n: nat)
    requires forall k :: base <= k < base + n ==> ok(k)
    ensures CountTrue(ok, base, n) == n
  {
    if n > 0 {
      CountTrueAll(ok, base, n - 1);
    }
  }

  /** Counts over consecutive ranges add up. */
  lemma {:induction false} CountTrueSplit(ok: nat -> bool, base: nat, n: nat, m: nat)
    ensures CountTrue(ok, base, n + m) == CountTrue(ok, base, n) + CountTrue(ok, base + n, m)
  {
    if m > 0 {
      CountTrueSplit(ok, base, n, m - 1);
    }
  }

  /** `s.slice(0, n)`, and `s.substring(0, n)` on strings. */
  function Prefix<T>(s: seq<T>, n: nat): (r: seq<T>)
    ensures |r| == if |s| <= n then |s| else n
    ensures r == s[..|r|]
  {
    if |s| <= n then s else s[..n]
  }

  lemma {:induction false} PrefixIsSubsequence<T>(s: seq<T>, n: nat)
    ensures IsSubsequence(Prefix(s, n), s)
    decreases n
  {
    var r := Prefix(s, n);
    if r != [] {
      assert r[1..] == Prefix(s[1..], n - 1);
      PrefixIsSubsequence(s[1..], n - 1);
    }
  }

  lemma {:induction false} SubsequenceTrans<T>(a: seq<T>, b: seq<T>, c: seq<T>)
    requires IsSubsequence(a, b) && IsSubsequence(b, c)
    ensures IsSubsequence(a, c)
    decreases |c|
  {
    if a != [] {
      if b[0] == c[0] {
        if a[0] == b[0] {
          SubsequenceTrans(a[1..], b[1..], c[1..]);
        } else {
          SubsequenceTrans(a, b[1..], c[1..]);
          SubsequenceOfTail(a, c);
        }
      } else {
        SubsequenceTrans(a, b, c[1..]);
        SubsequenceOfTail(a, c);
      }
    }
  }

  /** Capping, appending and capping again is appending and capping once. */
  lemma PrefixAppendPrefix<T>(a: seq<T>, b: seq<T>, n: nat)
    ensures Prefix(Prefix(a, n) + b, n) == Prefix(a + b, n)
  {
    if |a| <= n {
      assert Prefix(a, n) == a;
    } else {
      assert (a + b)[..n] == a[..n];
    }
  }

  /** Once the cap is reached, whatever follows is cut off. */
  lemma PrefixFull<T>(a: seq<T>, b: seq<T>, n: nat)
    requires |Prefix(a, n)| == n
    ensures Prefix(a + b, n) == Prefix(a, n)
  {
    assert (a + b)[..n] == a[..n];
  }

  /** Capping after one more element: it is kept exactly when there is room. */
  lemma PrefixSnoc<T>(before: seq<T>, added: seq<T>, n: nat)
    requires |added| <= 1
    ensures Prefix(before + added, n)
      == if added != [] && |Prefix(before, n)| < n then Prefix(before, n) + added else Prefix(before, n)
  {
    if added == [] {
      assert before + added == before;
    } else if |Prefix(before, n)| < n {
      assert Prefix(before, n) == before;
    } else {
      PrefixFull(before, added, n);
    }
  }

  /** `xs.map(f)`: `f` applied to each element, in order. */
  function Map<A, B>(xs: seq<A>, f: A -> B): (r: seq<B>)
    ensures |r| == |xs|
  {
    if xs == [] then [] else Map(xs[..|xs| - 1], f) + [f(xs[|xs| - 1])]
  }

  lemma {:induction false} MapAt<A, B>(xs: seq<A>, f: A -> B)
    ensures forall k :: 0 <= k < |xs| ==> Map(xs, f)[k] == f(xs[k])
  {
    if xs != [] {
      var front := xs[..|xs| - 1];
      MapAt(front, f);
      forall k | 0 <= k < |xs| ensures Map(xs, f)[k] == f(xs[k]) {
        if k < |front| {
          assert Map(xs, f)[k] == Map(front, f)[k];
          assert front[k] == xs[k];
        }
      }
    }
  }

  lemma MapSnoc<A, B>(xs: seq<A>, i: nat, f: A -> B)
    requires i < |xs|
    ensures Map(xs[..i + 1], f) == Map(xs[..i], f) + [f(xs[i])]
  {
    assert xs[..i + 1][..i] == xs[..i];
  }

  /** `xs.flatMap(f)`: the results of `f` on each element, concatenated in order. */
  function FlatMap<A, B>(xs: seq<A>, f: A -> seq<B>): seq<B> {
    if xs == [] then [] else FlatMap(xs[..|xs| - 1], f) + f(xs[|xs| - 1])
  }

  lemma FlatMapSnoc<A, B>(xs: seq<A>, i: nat, f: A -> seq<B>)
    requires i < |xs|
    ensures FlatMap(xs[..i + 1], f) == FlatMap(xs[..i], f) + f(xs[i])
  {
    assert xs[..i + 1][..i] == xs[..i];
  }

  /** Appending one more element's zero or one results to a capped flat map. */
  lemma FlatMapCappedSnoc<A, B>(init: seq<B>, xs: seq<A>, i: nat, f: A -> seq<B>, n: nat)
    requires i < |xs| && |f(xs[i])| <= 1
    ensures Prefix(init + FlatMap(xs[..i + 1], f), n)
      == if f(xs[i]) != [] && |Prefix(init + FlatMap(xs[..i], f), n)| < n
         then Prefix(init + FlatMap(xs[..i], f), n) + f(xs[i])
         else Prefix(init + FlatMap(xs[..i], f), n)
  {
    FlatMapSnoc(xs, i, f);
    assert init + FlatMap(xs[..i + 1], f) == (init + FlatMap(xs[..i], f)) + f(xs[i]);
    PrefixSnoc(init + FlatMap(xs[..i], f), f(xs[i]), n);
  }

  lemma {:induction false} FlatMapAppend<A, B>(a: seq<A>, b: seq<A>, f: A -> seq<B>)
    ensures FlatMap(a + b, f) == FlatMap(a, f) + FlatMap(b, f)
    decreases |b|
  {
    if b == [] {
      assert a + b == a;
    } else {
      assert (a + b)[..|a + b| - 1] == a + b[..|b| - 1];
      FlatMapAppend(a, b[..|b| - 1], f);
    }
  }

  /** Capped results after one more element: the capped result so far, extended and capped again. */
  lemma FlatMapCapStep<A, B>(head: seq<A>, xs: seq<A>, k: nat, f: A -> seq<B>, n: nat)
    requires k < |xs|
    ensures Prefix(Prefix(FlatMap(head + xs[..k], f), n) + f(xs[k]), n) == Prefix(FlatMap(head + xs[..k + 1], f), n)
  {
    var front := head + xs[..k];
    assert head + xs[..k + 1] == front + [xs[k]];
    FlatMapPush(front, xs[k], f);
    PrefixAppendPrefix(FlatMap(front, f), f(xs[k]), n);
  }

  lemma FlatMapPush<A, B>(front: seq<A>, x: A, f: A -> seq<B>)
    ensures FlatMap(front + [x], f) == FlatMap(front, f) + f(x)
  {
    assert (front + [x])[..|front|] == front;
  }

  /** Once the cap is met, the remaining elements add nothing to the capped result. */
  lemma FlatMapCapFull<A, B>(head: seq<A>, xs: seq<A>, k: nat, f: A -> seq<B>, n: nat)
    requires k <= |xs| && |Prefix(FlatMap(head + xs[..k], f), n)| == n
    ensures Prefix(FlatMap(head + xs, f), n) == Prefix(FlatMap(head + xs[..k], f), n)
  {
    assert head + xs == (head + xs[..k]) + xs[k..];
    FlatMapAppend(head + xs[..k], xs[k..], f);
    PrefixFull(FlatMap(head + xs[..k], f), FlatMap(xs[k..], f), n);
  }

  /** When `f` gives nothing on every element, the concatenation is empty. */
  lemma {:induction false} FlatMapNone<A, B>(xs: seq<A>, f: A -> seq<B>)
    requires forall i :: 0 <= i < |xs| ==> f(xs[i]) == []
    ensures FlatMap(xs, f) == []
  {
    if xs != [] {
      var front := xs[..|xs| - 1];
      assert forall i :: 0 <= i < |front| ==> front[i] == xs[i];
      FlatMapNone(front, f);
    }
  }

  /** Every element of the result comes from `f` on some element. */
  lemma {:induction false} FlatMapOrigin<A, B>(xs: seq<A>, f: A -> seq<B>, y: B)
    requires y in FlatMap(xs, f)
    ensures exists i :: 0 <= i < |xs| && y in f(xs[i])
  {
    var front := xs[..|xs| - 1];
    if y in FlatMap(front, f) {
      FlatMapOrigin(front, f, y);
      var i :| 0 <= i < |front| && y in f(front[i]);
      assert xs[i] == front[i];
    }
  }

  /** When every result has at most `k` elements, so has the concatenation, per element. */
  lemma {:induction false} FlatMapBounded<A, B>(xs: seq<A>, f: A -> seq<B>, k: nat)
    requires forall i :: 0 <= i < |xs| ==> |f(xs[i])| <= k
    ensures |FlatMap(xs, f)| <= k * |xs|
  {
    if xs != [] {
      var front := xs[..|xs| - 1];
      assert forall i :: 0 <= i < |front| ==> front[i] == xs[i];
      FlatMapBounded(front, f, k);
      assert |FlatMap(xs, f)| == |FlatMap(front, f)| + |f(xs[|xs| - 1])|;
      assert k * |xs| == k * |front| + k;
    }
  }

  /** The first index from `k` on, below `n`, where `p` fails; `n` when there is none. */
  function FirstNot(p: nat -> bool, k: nat, n: nat): (r: nat)
    requires k <= n
    ensures k <= r <= n
    decreases n - k
  {
    if k == n || !p(k) then k else FirstNot(p, k + 1, n)
  }

  lemma {:induction false} FirstNotIsFirst(p: nat -> bool, k: nat, n: nat)
    requires k <= n
    ensures FirstNot(p, k, n) < n ==> !p(FirstNot(p, k, n))
    ensures forall i :: k <= i < FirstNot(p, k, n) ==> p(i)
    decreases n - k
  {
    if k < n && p(k) {
      FirstNotIsFirst(p, k + 1, n);
    }
  }

  /** `s.some(p)`: whether some element meets `p`. */
  function Any<T>(s: seq<T>, p: T -> bool): (r: bool)
    ensures r <==> exists i :: 0 <= i < |s| && p(s[i])
  {
    if s == [] then false
    else if p(s[0]) then true
    else
      var r := Any(s[1..], p);
      assert forall i :: 1 <= i < |s| ==> s[i] == s[1..][i - 1];
      r
  }
}
