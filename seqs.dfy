/**
 * Sequence helpers used throughout the model: the list comprehension with an
 * `if` (Filter), a fixed list of rules of which some fire (Select), Python's
 * `xs[:n]` (Prefix), duplicate-free listing of a set (`list(set(...))`,
 * ListSet) and the running maximum of a loop (MaxFrom).
 */
module Seqs {

  datatype Option<T> = None | Some(value: T)

  /** The first index in `[lo, hi)` where `f` holds: how `re.search` and `next(...)` pick a match. */
  function FindFirst(lo: nat, hi: nat, f: nat -> bool): (r: Option<nat>)
    ensures r.Some? ==> lo <= r.value < hi && f(r.value) && forall j :: lo <= j < r.value ==> !f(j)
    ensures r.None? ==> forall j :: lo <= j < hi ==> !f(j)
    decreases hi - lo
  {
    if lo >= hi then None else if f(lo) then Some(lo) else FindFirst(lo + 1, hi, f)
  }

  /** `ys` keeps some of the elements of `xs`, in their original order. */
  predicate IsSubseq<T(==)>(ys: seq<T>, xs: seq<T>)
    decreases |xs|
  {
    ys == [] || (xs != [] && ((ys[0] == xs[0] && IsSubseq(ys[1..], xs[1..])) || IsSubseq(ys, xs[1..])))
  }

  predicate NoDups<T(==)>(xs: seq<T>)
  {
    forall i, j :: 0 <= i < j < |xs| ==> xs[i] != xs[j]
  }

  /** `xs` lists each member of `s` exactly once, in some order. */
  ghost predicate Enumerates<T(!new)>(xs: seq<T>, s: set<T>)
  {
    NoDups(xs) && forall x :: x in xs <==> x in s
  }

  /** The members of `xs`, as a set. */
  function Elems<T>(xs: seq<T>): set<T>
  {
    set x | x in xs
  }

  /** A listing of a set has exactly that set as its members. */
  lemma EnumeratedElems<T(!new)>(xs: seq<T>, s: set<T>)
    requires Enumerates(xs, s)
    ensures Elems(xs) == s
  {
  }

  /** A selection from `xs` stays one when `xs` grows at the end, whether or not the new element is selected. */
  lemma {:induction false} SubseqAppend<T>(ys: seq<T>, xs: seq<T>, x: T)
    requires IsSubseq(ys, xs)
    ensures IsSubseq(ys, xs + [x]) && IsSubseq(ys + [x], xs + [x])
    decreases |xs|
  {
    if xs == [] {
      assert ys == [];
      assert ([x] + [])[1..] == [];
    } else {
      assert (xs + [x])[1..] == xs[1..] + [x];
      if ys != [] && ys[0] == xs[0] && IsSubseq(ys[1..], xs[1..]) {
        SubseqAppend(ys[1..], xs[1..], x);
        assert (ys + [x])[1..] == ys[1..] + [x];
      } else {
        SubseqAppend(ys, xs[1..], x);
      }
    }
  }

  /** A leading part of a selection is a selection too. */
  lemma {:induction false} PrefixSubseq<T>(ys: seq<T>, n: nat, xs: seq<T>)
    requires IsSubseq(ys, xs)
    ensures IsSubseq(Prefix(ys, n), xs)
    decreases |xs|
  {
    if ys != [] && n > 0 {
      if ys[0] == xs[0] && IsSubseq(ys[1..], xs[1..]) {
        PrefixSubseq(ys[1..], n - 1, xs[1..]);
        assert Prefix(ys, n)[1..] == Prefix(ys[1..], n - 1);
      } else {
        PrefixSubseq(ys, n, xs[1..]);
      }
    }
  }

  /** `[x for x in xs if p(x)]` */
  function Filter<T(!new)>(xs: seq<T>, p: T -> bool): (r: seq<T>)
    ensures |r| <= |xs|
    ensures forall x :: x in r <==> x in xs && p(x)
  {
    if xs == [] then [] else (if p(xs[0]) then [xs[0]] else []) + Filter(xs[1..], p)
  }

  lemma {:induction false} FilterIsSubseq<T(!new)>(xs: seq<T>, p: T -> bool)
    ensures IsSubseq(Filter(xs, p), xs)
  {
    if xs != [] {
      FilterIsSubseq(xs[1..], p);
      if p(xs[0]) {
        assert Filter(xs, p) == [xs[0]] + Filter(xs[1..], p);
        assert ([xs[0]] + Filter(xs[1..], p))[1..] == Filter(xs[1..], p);
      } else {
        assert Filter(xs, p) == Filter(xs[1..], p);
      }
    }
  }

  /** The two halves of a comprehension and its negation together account for every element. */
  lemma {:induction false} FilterPartition<T(!new)>(xs: seq<T>, p: T -> bool, q: T -> bool)
    requires forall x :: q(x) == !p(x)
    ensures |Filter(xs, p)| + |Filter(xs, q)| == |xs|
  {
    if xs != [] {
      FilterPartition(xs[1..], p, q);
    }
  }

  /** Preserving `p` element by element preserves the comprehension. */
  lemma {:induction false} FilterAppend<T(!new)>(xs: seq<T>, ys: seq<T>, p: T -> bool)
    ensures Filter(xs + ys, p) == Filter(xs, p) + Filter(ys, p)
  {
    if xs == [] {
      assert xs + ys == ys;
    } else {
      assert (xs + ys)[1..] == xs[1..] + ys;
      FilterAppend(xs[1..], ys, p);
    }
  }

  /** The comprehension over one element. */
  lemma FilterOne<T(!new)>(x: T, p: T -> bool)
    ensures Filter([x], p) == if p(x) then [x] else []
  {
    assert [x][1..] == [];
  }

  /** A comprehension whose condition holds everywhere keeps the whole list. */
  lemma {:induction false} FilterAll<T(!new)>(xs: seq<T>, p: T -> bool)
    requires forall x :: x in xs ==> p(x)
    ensures Filter(xs, p) == xs
  {
    if xs != [] {
      assert forall x :: x in xs[1..] ==> x in xs;
      FilterAll(xs[1..], p);
      assert xs == [xs[0]] + xs[1..];
    }
  }

  /** A comprehension whose condition fails everywhere keeps nothing. */
  lemma {:induction false} FilterNone<T(!new)>(xs: seq<T>, p: T -> bool)
    requires forall x :: x in xs ==> !p(x)
    ensures Filter(xs, p) == []
  {
    if xs != [] {
      assert forall x :: x in xs[1..] ==> x in xs;
      FilterNone(xs[1..], p);
    }
  }

  /** Number of `true` entries. */
  function CountTrue(bs: seq<bool>): nat
  {
    if bs == [] then 0 else (if bs[0] then 1 else 0) + CountTrue(bs[1..])
  }

  /**
   * The candidates whose flag is set, in candidate order: a fixed list of
   * independent rules, each appending its message when its condition holds.
   */
  function Select<T>(xs: seq<T>, keep: seq<bool>): (r: seq<T>)
    requires |keep| == |xs|
    ensures |r| <= |xs|
    ensures forall x :: x in r ==> x in xs
  {
    if xs == [] then [] else Rule(keep[0], xs[0]) + Select(xs[1..], keep[1..])
  }

  lemma {:induction false} SelectIsSubseq<T>(xs: seq<T>, keep: seq<bool>)
    requires |keep| == |xs|
    ensures IsSubseq(Select(xs, keep), xs)
  {
    if xs != [] {
      SelectIsSubseq(xs[1..], keep[1..]);
      var rest := Select(xs[1..], keep[1..]);
      if keep[0] {
        assert Select(xs, keep) == [xs[0]] + rest;
        assert ([xs[0]] + rest)[1..] == rest;
      } else {
        assert Select(xs, keep) == rest;
      }
    }
  }

  /** A candidate is selected when its flag is set. */
  lemma {:induction false} SelectedWhenKept<T>(xs: seq<T>, keep: seq<bool>, i: nat)
    requires |keep| == |xs| && i < |xs| && keep[i]
    ensures xs[i] in Select(xs, keep)
  {
    if i > 0 {
      SelectedWhenKept(xs[1..], keep[1..], i - 1);
    }
  }

  /** With distinct candidates, a candidate is selected exactly when its flag is set. */
  lemma {:induction false} SelectMember<T>(xs: seq<T>, keep: seq<bool>, i: nat)
    requires |keep| == |xs| && i < |xs| && NoDups(xs)
    ensures xs[i] in Select(xs, keep) <==> keep[i]
  {
    if i == 0 {
      if !keep[0] {
        assert xs[0] !in xs[1..];
      }
    } else {
      assert NoDups(xs[1..]);
      SelectMember(xs[1..], keep[1..], i - 1);
      assert xs[i] != xs[0];
    }
  }

  /** One rule of a list: its message when it fires, nothing otherwise. */
  function Rule<T>(fires: bool, message: T): (r: seq<T>)
    ensures |r| <= 1
    ensures r == [] <==> !fires
    ensures fires ==> message in r
  {
    if fires then [message] else []
  }

  /** Four rules in a row select the candidates whose flags are set. */
  lemma SelectFour<T>(xs: seq<T>, keep: seq<bool>)
    requires |xs| == |keep| == 4
    ensures Select(xs, keep) == Rule(keep[0], xs[0]) + Rule(keep[1], xs[1]) + Rule(keep[2], xs[2]) + Rule(keep[3], xs[3])
  {
    assert xs[1..][1..] == xs[2..] && keep[1..][1..] == keep[2..];
    assert xs[2..][1..] == xs[3..] && keep[2..][1..] == keep[3..];
    assert xs[3..][1..] == [] && keep[3..][1..] == [];
    var s3 := Select(xs[3..], keep[3..]);
    assert s3 == Rule(keep[3], xs[3]) + Select([], []);
    assert s3 == Rule(keep[3], xs[3]);
    var s2 := Select(xs[2..], keep[2..]);
    assert s2 == Rule(keep[2], xs[2]) + s3;
    var s1 := Select(xs[1..], keep[1..]);
    assert s1 == Rule(keep[1], xs[1]) + s2;
    var r0, r1, r2, r3 := Rule(keep[0], xs[0]), Rule(keep[1], xs[1]), Rule(keep[2], xs[2]), Rule(keep[3], xs[3]);
    assert Select(xs, keep) == r0 + (r1 + (r2 + r3));
    AppendAssoc(r0, r1, r2 + r3);
    AppendAssoc(r0 + r1, r2, r3);
  }

  /** Five rules in a row select the candidates whose flags are set. */
  lemma SelectFive<T>(xs: seq<T>, keep: seq<bool>)
    requires |xs| == |keep| == 5
    ensures Select(xs, keep)
         == Rule(keep[0], xs[0]) + Rule(keep[1], xs[1]) + Rule(keep[2], xs[2]) + Rule(keep[3], xs[3]) + Rule(keep[4], xs[4])
  {
    var a, k := xs[1..], keep[1..];
    SelectFour(a, k);
    assert a[0] == xs[1] && a[1] == xs[2] && a[2] == xs[3] && a[3] == xs[4];
    assert k[0] == keep[1] && k[1] == keep[2] && k[2] == keep[3] && k[3] == keep[4];
    var r0, r1, r2, r3, r4 := Rule(keep[0], xs[0]), Rule(keep[1], xs[1]), Rule(keep[2], xs[2]), Rule(keep[3], xs[3]), Rule(keep[4], xs[4]);
    assert Select(xs, keep) == r0 + (r1 + r2 + r3 + r4);
    AppendAssoc(r0, r1 + r2 + r3, r4);
    AppendAssoc(r0, r1 + r2, r3);
    AppendAssoc(r0, r1, r2);
  }

  /** Six rules in a row select the candidates whose flags are set. */
  lemma SelectSix<T>(xs: seq<T>, keep: seq<bool>)
    requires |xs| == |keep| == 6
    ensures Select(xs, keep)
         == Rule(keep[0], xs[0]) + Rule(keep[1], xs[1]) + Rule(keep[2], xs[2]) + Rule(keep[3], xs[3]) + Rule(keep[4], xs[4])
            + Rule(keep[5], xs[5])
  {
    var a, k := xs[1..], keep[1..];
    SelectFive(a, k);
    assert a[0] == xs[1] && a[1] == xs[2] && a[2] == xs[3] && a[3] == xs[4] && a[4] == xs[5];
    assert k[0] == keep[1] && k[1] == keep[2] && k[2] == keep[3] && k[3] == keep[4] && k[4] == keep[5];
    var r0, r1, r2, r3, r4, r5 := Rule(keep[0], xs[0]), Rule(keep[1], xs[1]), Rule(keep[2], xs[2]), Rule(keep[3], xs[3]), Rule(keep[4], xs[4]), Rule(keep[5], xs[5]);
    assert Select(xs, keep) == r0 + (r1 + r2 + r3 + r4 + r5);
    AppendAssoc(r0, r1 + r2 + r3 + r4, r5);
    AppendAssoc(r0, r1 + r2 + r3, r4);
    AppendAssoc(r0, r1 + r2, r3);
    AppendAssoc(r0, r1, r2);
  }

  /** Deciding one more candidate at the end appends it, or not, after the selection so far. */
  lemma {:induction false} SelectSnoc<T>(xs: seq<T>, keep: seq<bool>, x: T, k: bool)
    requires |xs| == |keep|
    ensures Select(xs + [x], keep + [k]) == Select(xs, keep) + Rule(k, x)
    decreases |xs|
  {
    if xs == [] {
      assert xs + [x] == [x] && keep + [k] == [k];
      assert [x][1..] == [] && [k][1..] == [];
      assert Select([x], [k]) == Rule(k, x) + Select([], []);
    } else {
      assert (xs + [x])[1..] == xs[1..] + [x] && (keep + [k])[1..] == keep[1..] + [k];
      SelectSnoc(xs[1..], keep[1..], x, k);
      AppendAssoc(Rule(keep[0], xs[0]), Select(xs[1..], keep[1..]), Rule(k, x));
    }
  }

  /** Taking one more element of a list appends it. */
  lemma TakeOneMore<T>(xs: seq<T>, i: nat)
    requires i < |xs|
    ensures xs[..i + 1] == xs[..i] + [xs[i]]
  {
  }

  /** A non-empty list is its front followed by its last element. */
  lemma InitLast<T>(xs: seq<T>)
    requires xs != []
    ensures xs[..|xs| - 1] + [xs[|xs| - 1]] == xs
  {
  }

  /** Appending two elements is appending one, then the other. */
  lemma SnocTwo<T>(xs: seq<T>, a: T, b: T)
    ensures xs + [a, b] == (xs + [a]) + [b]
  {
  }

  /** Filtering one more element of a list: the loop step of a comprehension. */
  lemma FilterTakeOneMore<T(!new)>(xs: seq<T>, i: nat, p: T -> bool)
    requires i < |xs|
    ensures Filter(xs[..i + 1], p) == Filter(xs[..i], p) + (if p(xs[i]) then [xs[i]] else [])
  {
    TakeOneMore(xs, i);
    FilterAppend(xs[..i], [xs[i]], p);
    assert Filter([xs[i]], p) == (if p(xs[i]) then [xs[i]] else []) + Filter([xs[i]][1..], p);
  }

  lemma AppendAssoc<T>(a: seq<T>, b: seq<T>, c: seq<T>)
    ensures a + b + c == a + (b + c)
  {
  }

  /** A duplicate-free listing of a set is as long as the set. */
  lemma {:induction false} NoDupsCard<T>(xs: seq<T>, s: set<T>)
    requires NoDups(xs)
    requires forall k :: k in xs <==> k in s
    ensures |xs| == |s|
    decreases |xs|
  {
    if xs != [] {
      assert NoDups(xs[1..]);
      assert xs[0] !in xs[1..];
      NoDupsCard(xs[1..], s - {xs[0]});
    } else {
      assert s == {};
    }
  }

  /** The results of `f` on each element, one after the other: a loop that extends a list per element. */
  function FlatMap<A, B>(f: A -> seq<B>, xs: seq<A>): (r: seq<B>)
    ensures forall y :: y in r ==> exists i :: 0 <= i < |xs| && y in f(xs[i])
    decreases |xs|
  {
    if xs == [] then []
    else
      var init := xs[..|xs| - 1];
      var front := FlatMap(f, init);
      var r := front + f(xs[|xs| - 1]);
      assert forall y :: y in r ==> exists i :: 0 <= i < |xs| && y in f(xs[i]) by {
        forall y | y in r ensures exists i :: 0 <= i < |xs| && y in f(xs[i]) {
          if y in front {
            var i :| 0 <= i < |init| && y in f(init[i]);
            assert xs[i] == init[i];
          } else {
            assert y in f(xs[|xs| - 1]);
          }
        }
      }
      r
  }

  /** Mapping two runs is mapping each, one after the other. */
  lemma {:induction false} FlatMapAppend<A, B>(f: A -> seq<B>, xs: seq<A>, ys: seq<A>)
    ensures FlatMap(f, xs + ys) == FlatMap(f, xs) + FlatMap(f, ys)
    decreases |ys|
  {
    if ys == [] {
      assert xs + ys == xs;
    } else {
      var init := ys[..|ys| - 1];
      var all := xs + ys;
      assert all[..|all| - 1] == xs + init;
      assert all[|all| - 1] == ys[|ys| - 1];
      FlatMapAppend(f, xs, init);
      AppendAssoc(FlatMap(f, xs), FlatMap(f, init), f(ys[|ys| - 1]));
    }
  }

  /** Whatever `f` gives for an element is in the result. */
  lemma {:induction false} FlatMapMember<A, B>(f: A -> seq<B>, xs: seq<A>, i: nat, y: B)
    requires i < |xs| && y in f(xs[i])
    ensures y in FlatMap(f, xs)
    decreases |xs|
  {
    if i < |xs| - 1 {
      FlatMapMember(f, xs[..|xs| - 1], i, y);
    }
  }

  /** One more element appends its results. */
  lemma FlatMapSnoc<A, B>(f: A -> seq<B>, xs: seq<A>, x: A)
    ensures FlatMap(f, xs + [x]) == FlatMap(f, xs) + f(x)
  {
    assert (xs + [x])[..|xs|] == xs;
  }

  /** Python's `xs[:n]`. */
  function Prefix<T>(xs: seq<T>, n: nat): (r: seq<T>)
    ensures |r| == if n < |xs| then n else |xs|
    ensures r == xs[..|r|]
  {
    if n < |xs| then xs[..n] else xs
  }

  /** The value a loop `m = max(m, x)` over `xs` ends with, starting from `m`. */
  function MaxFrom(m: nat, xs: seq<nat>): (r: nat)
    ensures r >= m
    ensures forall x :: x in xs ==> x <= r
    ensures r == m || r in xs
    decreases |xs|
  {
    if xs == [] then m
    else
      assert forall x :: x in xs ==> x == xs[0] || x in xs[1..];
      MaxFrom(if xs[0] > m then xs[0] else m, xs[1..])
  }

  lemma {:induction false} MaxFromAppend(m: nat, a: seq<nat>, b: seq<nat>)
    ensures MaxFrom(m, a + b) == MaxFrom(MaxFrom(m, a), b)
    decreases |a|
  {
    if a == [] {
      assert a + b == b;
    } else {
      assert (a + b)[1..] == a[1..] + b;
      MaxFromAppend(if a[0] > m then a[0] else m, a[1..], b);
    }
  }

  /**
   * `list(set(xs))`: Python lists a set in an order nobody promises, so this
   * method picks any order; callers only learn the elements and that none repeats.
   */
  method ListSet<T>(s: set<T>) returns (r: seq<T>)
    ensures NoDups(r)
    ensures forall x :: x in r <==> x in s
    ensures |r| == |s|
  {
    r := [];
    var rest := s;
    while rest != {}
      invariant rest <= s
      invariant NoDups(r)
      invariant forall x :: x in r <==> x in s && x !in rest
      invariant |r| + |rest| == |s|
      decreases |rest|
    {
      var x :| x in rest;
      r := r + [x];
      rest := rest - {x};
    }
  }
}
