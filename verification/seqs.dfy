/** Order-preserving selection over sequences: the list-building loops of the locator. */
module Seqs {
  import opened Wrappers

  /** Greedy test that `a` occurs in `b` as a subsequence: same order, gaps allowed. */
  predicate Embeds<T(==)>(a: seq<T>, b: seq<T>)
    decreases |b|
  {
    if |a| == 0 then true
    else if |b| == 0 then false
    else if a[0] == b[0] then Embeds(a[1..], b[1..])
    else Embeds(a, b[1..])
  }

  /** `r` keeps exactly the elements of `s` that satisfy `p`, each as often as in `s`,
      in the order they have in `s`. */
  ghost predicate KeepsExactly<T(!new)>(p: T -> bool, r: seq<T>, s: seq<T>)
  {
    && Embeds(r, s)
    && forall x :: multiset(r)[x] == if p(x) then multiset(s)[x] else 0
  }

  /** The elements of `s` that satisfy `p`, in order: the loop
      `for (o : s) if (p(o)) out.add(o)`. */
  function Filter<T(==,!new)>(p: T -> bool, s: seq<T>): (r: seq<T>)
    ensures |r| <= |s|
    ensures forall i :: 0 <= i < |r| ==> p(r[i])
    ensures forall x :: x in r <==> x in s && p(x)
  {
    if |s| == 0 then []
    else
      var rest := Filter(p, s[1..]);
      assert s == [s[0]] + s[1..];
      if p(s[0]) then [s[0]] + rest else rest
  }

  /** The filter keeps exactly the passing elements, with their multiplicities, in order. */
  lemma {:induction false} FilterKeepsExactly<T(!new)>(p: T -> bool, s: seq<T>)
    ensures KeepsExactly(p, Filter(p, s), s)
  {
    if |s| > 0 {
      var rest := Filter(p, s[1..]);
      FilterKeepsExactly(p, s[1..]);
      assert s == [s[0]] + s[1..];
      assert multiset(s) == multiset{s[0]} + multiset(s[1..]);
      if p(s[0]) {
        assert ([s[0]] + rest)[1..] == rest;
      }
    }
  }

  /** The first element of `s` that satisfies `p`, if any: the loop
      `for (o : s) if (p(o)) return o; return null`. */
  function FirstMatch<T(==)>(p: T -> bool, s: seq<T>): (r: Option<T>)
    ensures r.None? <==> forall i :: 0 <= i < |s| ==> !p(s[i])
    ensures r.Some? ==> p(r.value) && r.value in s
    ensures r.Some? ==> exists i :: 0 <= i < |s| && s[i] == r.value && forall j :: 0 <= j < i ==> !p(s[j])
  {
    if |s| == 0 then None
    else if p(s[0]) then Some(s[0])
    else
      var r := FirstMatch(p, s[1..]);
      assert r.Some? ==> exists i :: 0 < i < |s| && s[i] == r.value && forall j :: 0 <= j < i ==> !p(s[j]) by {
        if r.Some? {
          var k :| 0 <= k < |s[1..]| && s[1..][k] == r.value && forall j :: 0 <= j < k ==> !p(s[1..][j]);
          assert forall j :: 0 <= j < k + 1 ==> !p(s[j]) by {
            forall j | 0 <= j < k + 1 ensures !p(s[j]) {
              if j > 0 { assert s[j] == s[1..][j - 1]; }
            }
          }
        }
      }
      r
  }

  /** The first match is the head of the filtered sequence. */
  lemma {:induction false} FirstMatchIsHeadOfFilter<T(!new)>(p: T -> bool, s: seq<T>)
    ensures FirstMatch(p, s) == if |Filter(p, s)| == 0 then None else Some(Filter(p, s)[0])
  {
    if |s| > 0 && !p(s[0]) {
      FirstMatchIsHeadOfFilter(p, s[1..]);
    }
  }

  /** Filtering distributes over concatenation, so it never reorders or merges parts. */
  lemma {:induction false} FilterConcat<T(!new)>(p: T -> bool, a: seq<T>, b: seq<T>)
    ensures Filter(p, a + b) == Filter(p, a) + Filter(p, b)
  {
    if |a| == 0 {
      assert a + b == b;
    } else {
      assert (a + b)[1..] == a[1..] + b;
      FilterConcat(p, a[1..], b);
    }
  }

  /** A filter that every element passes returns its input unchanged. */
  lemma {:induction false} FilterKeepsAll<T(!new)>(p: T -> bool, s: seq<T>)
    requires forall i :: 0 <= i < |s| ==> p(s[i])
    ensures Filter(p, s) == s
  {
    if |s| > 0 {
      FilterKeepsAll(p, s[1..]);
    }
  }

  /** A subsequence takes no element more often than its host has it. */
  lemma {:induction false} EmbedsMultiset<T>(a: seq<T>, b: seq<T>)
    requires Embeds(a, b)
    ensures multiset(a) <= multiset(b)
    decreases |b|
  {
    if |a| > 0 {
      assert b == [b[0]] + b[1..];
      if a[0] == b[0] {
        assert a == [a[0]] + a[1..];
        EmbedsMultiset(a[1..], b[1..]);
      } else {
        EmbedsMultiset(a, b[1..]);
      }
    }
  }

  /** KeepsExactly pins its result down: the filter is the only sequence meeting it. */
  lemma {:induction false} KeepsExactlyIsFilter<T(!new)>(p: T -> bool, r: seq<T>, s: seq<T>)
    requires KeepsExactly(p, r, s)
    ensures r == Filter(p, s)
    decreases |s|
  {
    if |s| == 0 {
    } else {
      var s0 := s[0];
      assert s == [s0] + s[1..];
      assert multiset(s) == multiset{s0} + multiset(s[1..]);
      if |r| > 0 && r[0] == s0 {
        assert r == [s0] + r[1..];
        assert p(s0) by {
          assert multiset(r)[s0] > 0;
        }
        assert KeepsExactly(p, r[1..], s[1..]) by {
          forall x
            ensures multiset(r[1..])[x] == if p(x) then multiset(s[1..])[x] else 0
          {
            assert multiset(r) == multiset{s0} + multiset(r[1..]);
          }
        }
        KeepsExactlyIsFilter(p, r[1..], s[1..]);
      } else {
        // s0 is not taken, so the rest of r embeds into the rest of s
        assert Embeds(r, s[1..]);
        EmbedsMultiset(r, s[1..]);
        assert multiset(r)[s0] <= multiset(s[1..])[s0] < multiset(s)[s0];
        assert !p(s0);
        assert KeepsExactly(p, r, s[1..]) by {
          forall x
            ensures multiset(r)[x] == if p(x) then multiset(s[1..])[x] else 0
          {
            if x == s0 {
              assert multiset(r)[x] <= multiset(s[1..])[x];
            }
          }
        }
        KeepsExactlyIsFilter(p, r, s[1..]);
      }
    }
  }
}
