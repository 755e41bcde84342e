/**
  Sequence helpers shared by every page: the `Array.prototype.filter` and
  the "map, changing only the selected records" shapes that all the page
  handlers are built from, plus the counting facts the summary cards rely on.
 */
module Collections {

  datatype Option<T> = None | Some(value: T)

  /** `s.filter(p)`: the elements of `s` satisfying `p`, in their original order. */
  function Keep<T>(s: seq<T>, p: T -> bool): (r: seq<T>)
    ensures |r| <= |s|
    ensures forall i :: 0 <= i < |r| ==> r[i] in s && p(r[i])
    ensures forall i :: 0 <= i < |s| && p(s[i]) ==> s[i] in r
  {
    if s == [] then []
    else (if p(s[0]) then [s[0]] else []) + Keep(s[1..], p)
  }

  /** `s.map(x => sel(x) ? f(x) : x)`: the selected elements are replaced, the others kept. */
  function MapWhere<T>(s: seq<T>, sel: T -> bool, f: T -> T): (r: seq<T>)
    ensures |r| == |s|
    ensures forall i :: 0 <= i < |s| && sel(s[i]) ==> r[i] == f(s[i])
    ensures forall i :: 0 <= i < |s| && !sel(s[i]) ==> r[i] == s[i]
  {
    if s == [] then []
    else [if sel(s[0]) then f(s[0]) else s[0]] + MapWhere(s[1..], sel, f)
  }

  /** `s.find(p)`: the first element satisfying `p`, if any. */
  function Find<T>(s: seq<T>, p: T -> bool): (r: Option<T>)
    ensures r.None? <==> forall i :: 0 <= i < |s| ==> !p(s[i])
    ensures r.Some? ==> exists k :: 0 <= k < |s| && s[k] == r.value && p(s[k]) && forall j :: 0 <= j < k ==> !p(s[j])
  {
    if s == [] then None
    else if p(s[0]) then Some(s[0])
    else
      var r := Find(s[1..], p);
      assert r.Some? ==> exists k :: 0 <= k < |s| - 1 && s[1..][k] == r.value && p(s[k + 1]) && forall j :: 0 <= j < k ==> !p(s[1..][j]);
      r
  }

  /** Filtering distributes over concatenation: the relative order of the survivors is kept. */
  lemma {:induction false} KeepAppend<T>(a: seq<T>, b: seq<T>, p: T -> bool)
    ensures Keep(a + b, p) == Keep(a, p) + Keep(b, p)
  {
    if a == [] {
      assert a + b == b;
    } else {
      assert (a + b)[1..] == a[1..] + b;
      KeepAppend(a[1..], b, p);
    }
  }

  /** A one-element sequence is kept whole or dropped whole: filtering never duplicates an element. */
  lemma KeepUnit<T>(x: T, p: T -> bool)
    ensures Keep([x], p) == if p(x) then [x] else []
  {
    assert [x][1..] == [];
  }

  /** Filtering with a predicate every element satisfies changes nothing. */
  lemma {:induction false} KeepAll<T>(s: seq<T>, p: T -> bool)
    requires forall i :: 0 <= i < |s| ==> p(s[i])
    ensures Keep(s, p) == s
  {
    if s != [] {
      KeepAll(s[1..], p);
    }
  }

  /** Filtering keeps exactly one element when exactly one element satisfies the predicate. */
  lemma {:induction false} KeepSingle<T>(s: seq<T>, p: T -> bool, k: nat)
    requires k < |s| && p(s[k])
    requires forall i :: 0 <= i < |s| && i != k ==> !p(s[i])
    ensures Keep(s, p) == [s[k]]
  {
    if k == 0 {
      assert forall i :: 0 <= i < |s[1..]| ==> !p(s[1..][i]);
      KeepNone(s[1..], p);
    } else {
      KeepSingle(s[1..], p, k - 1);
    }
  }

  /** Filtering with a predicate no element satisfies yields the empty sequence. */
  lemma {:induction false} KeepNone<T>(s: seq<T>, p: T -> bool)
    requires forall i :: 0 <= i < |s| ==> !p(s[i])
    ensures Keep(s, p) == []
  {
    if s != [] {
      KeepNone(s[1..], p);
    }
  }

  /** A filter comes back empty exactly when no element passes. */
  lemma KeepEmptyIff<T>(s: seq<T>, p: T -> bool)
    ensures Keep(s, p) == [] <==> forall i :: 0 <= i < |s| ==> !p(s[i])
  {
    if forall i :: 0 <= i < |s| ==> !p(s[i]) {
      KeepNone(s, p);
    }
  }

  function Either<T>(p: T -> bool, q: T -> bool): T -> bool {
    x => p(x) || q(x)
  }

  /** Two filters with disjoint predicates together select what their union selects, so at most every element once. */
  lemma {:induction false} KeepDisjoint<T>(s: seq<T>, p: T -> bool, q: T -> bool)
    requires forall i :: 0 <= i < |s| ==> !(p(s[i]) && q(s[i]))
    ensures |Keep(s, p)| + |Keep(s, q)| == |Keep(s, Either(p, q))|
    ensures |Keep(s, p)| + |Keep(s, q)| <= |s|
  {
    if s != [] {
      KeepDisjoint(s[1..], p, q);
    }
  }

  /** Filters whose predicates agree on every element select the same elements. */
  lemma {:induction false} KeepCongruent<T>(s: seq<T>, p: T -> bool, q: T -> bool)
    requires forall i :: 0 <= i < |s| ==> p(s[i]) == q(s[i])
    ensures Keep(s, p) == Keep(s, q)
  {
    if s != [] {
      KeepCongruent(s[1..], p, q);
    }
  }

  /** Two filters commute, and filtering first can only shrink the second filter's result. */
  lemma {:induction false} KeepCommute<T>(s: seq<T>, p: T -> bool, q: T -> bool)
    ensures Keep(Keep(s, p), q) == Keep(Keep(s, q), p)
    ensures |Keep(Keep(s, p), q)| <= |Keep(s, q)|
  {
    if s != [] {
      KeepCommute(s[1..], p, q);
      assert Keep(s, p) == (if p(s[0]) then [s[0]] else []) + Keep(s[1..], p);
      KeepAppend(if p(s[0]) then [s[0]] else [], Keep(s[1..], p), q);
      KeepAppend(if q(s[0]) then [s[0]] else [], Keep(s[1..], q), p);
    }
  }

  /** Two selective maps over the same selection, the first keeping it, act as one map by their composition. */
  lemma {:induction false} MapWhereCompose<T>(s: seq<T>, sel: T -> bool, f: T -> T, g: T -> T, h: T -> T)
    requires forall x :: sel(x) ==> sel(f(x)) && g(f(x)) == h(x)
    ensures MapWhere(MapWhere(s, sel, f), sel, g) == MapWhere(s, sel, h)
  {
    if s != [] {
      MapWhereCompose(s[1..], sel, f, g, h);
    }
  }

  /** Applying a selective map twice with an involutive update restores the sequence. */
  lemma MapWhereTwice<T>(s: seq<T>, sel: T -> bool, f: T -> T)
    requires forall x :: sel(x) ==> sel(f(x)) && f(f(x)) == x
    ensures MapWhere(MapWhere(s, sel, f), sel, f) == s
  {
    var once := MapWhere(s, sel, f);
    var twice := MapWhere(once, sel, f);
    assert |twice| == |s|;
    forall i | 0 <= i < |s| ensures twice[i] == s[i] {
      if sel(s[i]) {
        assert once[i] == f(s[i]);
      }
    }
  }
}
