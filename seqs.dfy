/** Generic list operations behind the TypeScript code's `filter`, `find`, `push`-in-a-loop
    and `Map` grouping, with the facts the detectors' proofs rely on. */
module Seqs {
  import opened Wrappers

  /** The elements of `s` that satisfy `p`, in order (`Array.prototype.filter`). */
  function Filter<A>(s: seq<A>, p: A -> bool): (r: seq<A>)
    ensures |r| <= |s|
  {
    if s == [] then [] else Filter(s[..|s| - 1], p) + (if p(s[|s| - 1]) then [s[|s| - 1]] else [])
  }

  /** The defined images of the elements of `s`, in order (a loop that pushes `f(x)` when it is not null). */
  function FilterMap<A, B>(s: seq<A>, f: A -> Option<B>): (r: seq<B>)
    ensures |r| <= |s|
  {
    if s == [] then []
    else FilterMap(s[..|s| - 1], f) + (match f(s[|s| - 1]) case Some(b) => [b] case None => [])
  }

  /** The image of every element of `s`, in order (`Array.prototype.map`). */
  function Map<A, B>(s: seq<A>, f: A -> B): (r: seq<B>)
    ensures |r| == |s| && forall i :: 0 <= i < |s| ==> r[i] == f(s[i])
  {
    if s == [] then [] else Map(s[..|s| - 1], f) + [f(s[|s| - 1])]
  }

  /** One more element adds its image (the step of a loop that pushes `f(x)`). */
  lemma MapStep<A, B>(s: seq<A>, k: nat, f: A -> B)
    requires k < |s|
    ensures Map(s[..k + 1], f) == Map(s[..k], f) + [f(s[k])]
  {
    assert s[..k + 1][..k] == s[..k];
  }

  /** The concatenation of `f(x)` over the elements of `s`, in order (`issues.push(...f(x))` in a loop). */
  function FlatMap<A, B>(s: seq<A>, f: A -> seq<B>): seq<B>
  {
    if s == [] then [] else FlatMap(s[..|s| - 1], f) + f(s[|s| - 1])
  }

  /** The concatenation of `f(s[k - 1], k)` over the first `n` elements, numbered from 1
      (a loop over the lines of a file that collects what each line yields). */
  function Numbered<A, B>(s: seq<A>, n: nat, f: (A, nat) -> seq<B>): seq<B>
    requires n <= |s|
  {
    if n == 0 then [] else Numbered(s, n - 1, f) + f(s[n - 1], n)
  }

  /** One more line adds what that line yields (the step of a loop over numbered lines). */
  lemma NumberedStep<A, B>(s: seq<A>, n: nat, f: (A, nat) -> seq<B>)
    requires n < |s|
    ensures Numbered(s, n + 1, f) == Numbered(s, n, f) + f(s[n], n + 1)
  {
  }

  /** Each element of `Numbered(s, n, f)` comes from some element `k` of the first `n`. */
  lemma {:induction false} NumberedOrigin<A, B>(s: seq<A>, n: nat, f: (A, nat) -> seq<B>, y: B) returns (k: nat)
    requires n <= |s| && y in Numbered(s, n, f)
    ensures 1 <= k <= n && y in f(s[k - 1], k)
  {
    if y in f(s[n - 1], n) {
      k := n;
    } else {
      k := NumberedOrigin(s, n - 1, f, y);
    }
  }

  /** The first element of `s` satisfying `p` (`Array.prototype.find`). */
  function First<A>(s: seq<A>, p: A -> bool): (r: Option<A>)
    ensures r.Some? ==> p(r.value)
  {
    if s == [] then None else if p(s[0]) then Some(s[0]) else First(s[1..], p)
  }

  /** The elements of `s` whose key is `k`. */
  function WithKey<A>(s: seq<A>, key: A -> string, k: string): seq<A>
  {
    if s == [] then [] else WithKey(s[..|s| - 1], key, k) + (if key(s[|s| - 1]) == k then [s[|s| - 1]] else [])
  }

  /** `WithKey` is filtering on the key. */
  lemma {:induction false} WithKeyFilter<A>(s: seq<A>, key: A -> string, k: string, p: A -> bool)
    requires forall x :: p(x) == (key(x) == k)
    ensures WithKey(s, key, k) == Filter(s, p)
  {
    if s != [] {
      WithKeyFilter(s[..|s| - 1], key, k, p);
    }
  }

  /** A `Map` from key to the list of elements with that key, filled in input order
      (`if (!map.has(k)) map.set(k, []); map.get(k).push(x)` in a loop). */
  function GroupBy<A>(s: seq<A>, key: A -> string): map<string, seq<A>>
  {
    if s == [] then map[]
    else
      var m := GroupBy(s[..|s| - 1], key);
      var k := key(s[|s| - 1]);
      m[k := (if k in m then m[k] else []) + [s[|s| - 1]]]
  }

  /** One more element of a prefix adds it when it passes (the step of a filtering loop). */
  lemma FilterStep<A>(s: seq<A>, k: nat, p: A -> bool)
    requires k < |s|
    ensures Filter(s[..k + 1], p) == Filter(s[..k], p) + (if p(s[k]) then [s[k]] else [])
  {
    assert s[..k + 1][..k] == s[..k];
  }

  /** Filtering with `p` then `q` is filtering with both. */
  lemma {:induction false} FilterFilter<A>(s: seq<A>, p: A -> bool, q: A -> bool, pq: A -> bool)
    requires forall x :: pq(x) == (p(x) && q(x))
    ensures Filter(Filter(s, p), q) == Filter(s, pq)
  {
    if s != [] {
      var init := s[..|s| - 1];
      FilterFilter(init, p, q, pq);
      var x := s[|s| - 1];
      FilterAppend(Filter(init, p), if p(x) then [x] else [], q);
      assert Filter([x], q) == Filter([], q) + (if q(x) then [x] else []);
    }
  }

  /** The elements that pass and those that fail add up to all of them. */
  lemma {:induction false} FilterComplement<A>(s: seq<A>, p: A -> bool, notP: A -> bool)
    requires forall x :: notP(x) == !p(x)
    ensures |Filter(s, p)| + |Filter(s, notP)| == |s|
  {
    if s != [] {
      FilterComplement(s[..|s| - 1], p, notP);
    }
  }

  /** One more element of a prefix adds its image (the step of a loop that pushes `...f(x)`). */
  lemma FlatMapStep<A, B>(s: seq<A>, k: nat, f: A -> seq<B>)
    requires k < |s|
    ensures FlatMap(s[..k + 1], f) == FlatMap(s[..k], f) + f(s[k])
  {
    assert s[..k + 1][..k] == s[..k];
  }

  /** Adding one element to the input adds it under its key, after that key's earlier elements. */
  lemma GroupBySnoc<A>(s: seq<A>, x: A, key: A -> string)
    ensures GroupBy(s + [x], key) ==
      var m := GroupBy(s, key);
      m[key(x) := (if key(x) in m then m[key(x)] else []) + [x]]
  {
    assert (s + [x])[..|s|] == s;
  }

  /** `a` is `b` with some elements removed, the rest keeping their order. */
  ghost predicate IsSubsequence<A>(a: seq<A>, b: seq<A>)
  {
    exists idx: seq<nat> ::
      |idx| == |a| &&
      (forall i :: 0 <= i < |idx| ==> idx[i] < |b| && b[idx[i]] == a[i]) &&
      (forall i, j :: 0 <= i < j < |idx| ==> idx[i] < idx[j])
  }

  lemma {:induction false} FilterMembership<A>(s: seq<A>, p: A -> bool, x: A)
    ensures x in Filter(s, p) <==> x in s && p(x)
  {
    if s != [] {
      FilterMembership(s[..|s| - 1], p, x);
      assert s == s[..|s| - 1] + [s[|s| - 1]];
    }
  }

  lemma {:induction false} FilterAppend<A>(a: seq<A>, b: seq<A>, p: A -> bool)
    ensures Filter(a + b, p) == Filter(a, p) + Filter(b, p)
  {
    if b != [] {
      assert (a + b)[..|a + b| - 1] == a + b[..|b| - 1];
      FilterAppend(a, b[..|b| - 1], p);
    } else {
      assert a + b == a;
    }
  }

  /** Filtering keeps everything when every element passes. */
  lemma {:induction false} FilterAll<A>(s: seq<A>, p: A -> bool)
    requires forall i :: 0 <= i < |s| ==> p(s[i])
    ensures Filter(s, p) == s
  {
    if s != [] {
      FilterAll(s[..|s| - 1], p);
    }
  }

  /** Filtering drops everything when no element passes. */
  lemma {:induction false} FilterNone<A>(s: seq<A>, p: A -> bool)
    requires forall i :: 0 <= i < |s| ==> !p(s[i])
    ensures Filter(s, p) == []
  {
    if s != [] {
      FilterNone(s[..|s| - 1], p);
    }
  }

  /** The positions in `s` of the elements `Filter` keeps, in increasing order. */
  function FilterPositions<A>(s: seq<A>, p: A -> bool): (idx: seq<nat>)
    ensures |idx| == |Filter(s, p)|
    ensures forall i :: 0 <= i < |idx| ==> idx[i] < |s| && s[idx[i]] == Filter(s, p)[i]
    ensures forall i, j :: 0 <= i < j < |idx| ==> idx[i] < idx[j]
  {
    if s == [] then []
    else
      var init := FilterPositions(s[..|s| - 1], p);
      assert forall i :: 0 <= i < |init| ==> s[init[i]] == s[..|s| - 1][init[i]];
      init + (if p(s[|s| - 1]) then [|s| - 1] else [])
  }

  /** `Filter` returns an order-preserving sublist of its input. */
  lemma FilterIsSubsequence<A>(s: seq<A>, p: A -> bool)
    ensures IsSubsequence(Filter(s, p), s)
  {
    var idx := FilterPositions(s, p);
    assert |idx| == |Filter(s, p)|;
  }

  lemma {:induction false} FilterMapMembership<A, B>(s: seq<A>, f: A -> Option<B>, y: B)
    ensures y in FilterMap(s, f) <==> exists i :: 0 <= i < |s| && f(s[i]) == Some(y)
  {
    if s != [] {
      var init := s[..|s| - 1];
      FilterMapMembership(init, f, y);
      if y in FilterMap(s, f) && y !in FilterMap(init, f) {
        assert f(s[|s| - 1]) == Some(y);
      }
      if exists i :: 0 <= i < |s| && f(s[i]) == Some(y) {
        var i :| 0 <= i < |s| && f(s[i]) == Some(y);
        if i < |s| - 1 {
          assert f(init[i]) == Some(y);
        }
      }
    }
  }

  lemma {:induction false} FilterMapAppend<A, B>(a: seq<A>, b: seq<A>, f: A -> Option<B>)
    ensures FilterMap(a + b, f) == FilterMap(a, f) + FilterMap(b, f)
  {
    if b != [] {
      assert (a + b)[..|a + b| - 1] == a + b[..|b| - 1];
      FilterMapAppend(a, b[..|b| - 1], f);
    } else {
      assert a + b == a;
    }
  }

  /** One more element of a prefix adds its image, if any (the step of a filtering loop). */
  lemma FilterMapStep<A, B>(s: seq<A>, k: nat, f: A -> Option<B>)
    requires k < |s|
    ensures FilterMap(s[..k + 1], f) == FilterMap(s[..k], f) + (if f(s[k]).Some? then [f(s[k]).value] else [])
  {
    assert s[..k + 1][..k] == s[..k];
  }

  lemma {:induction false} FlatMapAppend<A, B>(a: seq<A>, b: seq<A>, f: A -> seq<B>)
    ensures FlatMap(a + b, f) == FlatMap(a, f) + FlatMap(b, f)
  {
    if b != [] {
      assert (a + b)[..|a + b| - 1] == a + b[..|b| - 1];
      FlatMapAppend(a, b[..|b| - 1], f);
    } else {
      assert a + b == a;
    }
  }

  lemma {:induction false} FlatMapMembership<A, B>(s: seq<A>, f: A -> seq<B>, y: B)
    ensures y in FlatMap(s, f) <==> exists i :: 0 <= i < |s| && y in f(s[i])
  {
    if s != [] {
      var init := s[..|s| - 1];
      FlatMapMembership(init, f, y);
      if exists i :: 0 <= i < |s| && y in f(s[i]) {
        var i :| 0 <= i < |s| && y in f(s[i]);
        if i < |s| - 1 {
          assert y in f(init[i]);
        }
      }
    }
  }

  /** `First` finds the earliest element satisfying `p`, and finds one whenever one exists. */
  lemma {:induction false} FirstIsEarliest<A>(s: seq<A>, p: A -> bool)
    ensures First(s, p).None? <==> forall i :: 0 <= i < |s| ==> !p(s[i])
    ensures First(s, p).Some? ==>
      exists k :: 0 <= k < |s| && s[k] == First(s, p).value && forall j :: 0 <= j < k ==> !p(s[j])
  {
    if s != [] && !p(s[0]) {
      FirstIsEarliest(s[1..], p);
      if First(s, p).Some? {
        var k :| 0 <= k < |s[1..]| && s[1..][k] == First(s, p).value && forall j :: 0 <= j < k ==> !p(s[1..][j]);
        assert s[k + 1] == First(s, p).value;
        assert forall j :: 0 <= j < k + 1 ==> !p(s[j]) by {
          forall j | 0 <= j < k + 1 ensures !p(s[j]) {
            if j > 0 {
              assert s[j] == s[1..][j - 1];
            }
          }
        }
      } else {
        forall i | 0 <= i < |s| ensures !p(s[i]) {
          if i > 0 {
            assert s[i] == s[1..][i - 1];
          }
        }
      }
    } else if s != [] {
      assert s[0] == First(s, p).value;
    }
  }

  /** The grouping has a key exactly for the keys that occur, and holds under each key
      exactly that key's elements in input order; so each element is placed once. */
  lemma {:induction false} GroupBySpec<A>(s: seq<A>, key: A -> string, k: string)
    ensures k in GroupBy(s, key) <==> exists i :: 0 <= i < |s| && key(s[i]) == k
    ensures k in GroupBy(s, key) ==> GroupBy(s, key)[k] == WithKey(s, key, k)
    ensures k !in GroupBy(s, key) ==> WithKey(s, key, k) == []
  {
    if s != [] {
      var init := s[..|s| - 1];
      GroupBySpec(init, key, k);
      if exists i :: 0 <= i < |s| && key(s[i]) == k {
        var i :| 0 <= i < |s| && key(s[i]) == k;
        if i < |s| - 1 {
          assert key(init[i]) == k;
        }
      }
    }
  }
}
