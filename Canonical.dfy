/**
 * The route patterns and the path canonicaliser: flattening the five method
 * sets, sorting by pathname (`getPathSorted`), keeping the first occurrence
 * of each pathname (`getUniquePaths`), and the linear lookup `hasInSet`.
 */
module Canonical {
  import opened Wrappers
  import opened Strings

  /**
   * A registered `URLPattern`. Patterns are compared by object identity,
   * which `id` stands for; `pathname` is the template text. A JavaScript
   * object has one pathname for its whole life, but nothing here forbids two
   * values with one `id` and different pathnames; the lemmas hold for every
   * state, including those.
   */
  datatype Pattern = Pattern(id: nat, pathname: string)

  /** `list.map(it => it.pathname)`. */
  function Pathnames(ps: seq<Pattern>): (r: seq<string>)
    ensures |r| == |ps| && forall k :: 0 <= k < |ps| ==> r[k] == ps[k].pathname
  {
    if ps == [] then [] else [ps[0].pathname] + Pathnames(ps[1..])
  }

  predicate SortedByPathname(ps: seq<Pattern>) {
    forall i, j :: 0 <= i < j < |ps| ==> AtMost(ps[i].pathname, ps[j].pathname)
  }

  predicate Sorted(xs: seq<string>) {
    forall i, j :: 0 <= i < j < |xs| ==> AtMost(xs[i], xs[j])
  }

  /** Strictly ascending, hence free of duplicates. */
  predicate StrictlyAscending(xs: seq<string>) {
    forall i, j :: 0 <= i < j < |xs| ==> Below(xs[i], xs[j])
  }

  /** Inserts `p` after every pattern whose pathname is not above its own. */
  function Insert(p: Pattern, ps: seq<Pattern>): (r: seq<Pattern>)
    ensures multiset(r) == multiset(ps) + multiset{p}
  {
    if ps == [] then [p]
    else if Below(p.pathname, ps[0].pathname) then [p] + ps
    else
      assert ps == [ps[0]] + ps[1..];
      [ps[0]] + Insert(p, ps[1..])
  }

  /** Inserting into a list sorted by pathname keeps it sorted. */
  lemma {:induction false} InsertSorted(p: Pattern, ps: seq<Pattern>)
    requires SortedByPathname(ps)
    ensures SortedByPathname(Insert(p, ps))
  {
    if ps == [] {
    } else if Below(p.pathname, ps[0].pathname) {
      forall j | 0 <= j < |ps| ensures AtMost(p.pathname, ps[j].pathname) {
        AtMostTransitive(p.pathname, ps[0].pathname, ps[j].pathname);
      }
    } else {
      var rest := Insert(p, ps[1..]);
      InsertSorted(p, ps[1..]);
      NotBelowIsAtMost(p.pathname, ps[0].pathname);
      forall q | q in rest ensures AtMost(ps[0].pathname, q.pathname) {
        assert q in multiset(rest);
        if q != p {
          assert q in ps[1..];
        }
      }
    }
  }

  /**
   * `sortBy(list, it => it.pathname)`: a stable insertion sort. The result is
   * ordered by pathname and is a permutation of the input.
   */
  function SortByPathname(ps: seq<Pattern>): (r: seq<Pattern>)
    ensures SortedByPathname(r)
    ensures multiset(r) == multiset(ps)
  {
    if ps == [] then []
    else
      var init := ps[..|ps| - 1];
      assert ps == init + [ps[|ps| - 1]];
      InsertSorted(ps[|ps| - 1], SortByPathname(init));
      Insert(ps[|ps| - 1], SortByPathname(init))
  }

  /**
   * `Array.from(new Set(xs))`: each string at its first occurrence, in order.
   */
  function Distinct(xs: seq<string>): (r: seq<string>)
    ensures forall i, j :: 0 <= i < j < |r| ==> r[i] != r[j]
    ensures forall x :: x in r <==> x in xs
  {
    if xs == [] then []
    else
      var init := xs[..|xs| - 1];
      var d := Distinct(init);
      assert xs == init + [xs[|xs| - 1]];
      if xs[|xs| - 1] in d then d else d + [xs[|xs| - 1]]
  }

  /** `getPathSorted()` applied to the flattened method sets. */
  function PathSorted(all: seq<Pattern>): seq<Pattern> {
    SortByPathname(all)
  }

  /** `getUniquePaths()` applied to the flattened method sets. */
  function UniquePaths(all: seq<Pattern>): seq<string> {
    Distinct(Pathnames(PathSorted(all)))
  }

  // ------------------------------------------------------------ properties

  /** Deduplicating a sorted list leaves it strictly ascending. */
  lemma {:induction false} DistinctOfSorted(xs: seq<string>)
    requires Sorted(xs)
    ensures StrictlyAscending(Distinct(xs))
  {
    if xs != [] {
      var init, last := xs[..|xs| - 1], xs[|xs| - 1];
      DistinctOfSorted(init);
      var d := Distinct(init);
      if last !in d {
        forall i | 0 <= i < |d| ensures Below(d[i], last) {
          assert d[i] in init;
          var k :| 0 <= k < |init| && init[k] == d[i];
          assert AtMost(xs[k], xs[|xs| - 1]);
        }
      }
    }
  }

  lemma PathnamesMembership(ps: seq<Pattern>, s: string)
    ensures s in Pathnames(ps) <==> exists p :: p in ps && p.pathname == s
  {
  }

  /**
   * `getUniquePaths` lists every registered pathname exactly once, in
   * strictly ascending order, and nothing else.
   */
  lemma UniquePathsSpec(all: seq<Pattern>)
    ensures StrictlyAscending(UniquePaths(all))
    ensures forall s :: s in UniquePaths(all) <==> exists p :: p in all && p.pathname == s
  {
    var sorted := PathSorted(all);
    assert Sorted(Pathnames(sorted));
    DistinctOfSorted(Pathnames(sorted));
    forall s ensures s in UniquePaths(all) <==> exists p :: p in all && p.pathname == s {
      PathnamesMembership(sorted, s);
      forall p ensures p in sorted <==> p in all {
        assert p in sorted <==> multiset(sorted)[p] > 0;
      }
    }
  }

  // ------------------------------------------------------------ hasInSet

  /** The earliest-inserted pattern of `items` whose pathname is `pathname`. */
  function FirstWithPathname(items: seq<Pattern>, pathname: string): (r: Option<Pattern>)
    ensures r.None? <==> forall p :: p in items ==> p.pathname != pathname
    ensures r.Some? ==> exists i :: 0 <= i < |items| && items[i] == r.value &&
                                 r.value.pathname == pathname &&
                                 forall j :: 0 <= j < i ==> items[j].pathname != pathname
  {
    if items == [] then None
    else if items[0].pathname == pathname then Some(items[0])
    else
      var r := FirstWithPathname(items[1..], pathname);
      assert items == [items[0]] + items[1..];
      r
  }

  /**
   * `hasInSet(set, url)`: scans the set in insertion order and returns the
   * first pattern whose pathname equals the probe's, or nothing.
   */
  method HasInSet(items: seq<Pattern>, pathname: string) returns (found: Option<Pattern>)
    ensures found == FirstWithPathname(items, pathname)
    ensures found.None? <==> forall p :: p in items ==> p.pathname != pathname
    ensures found.Some? ==> found.value in items && found.value.pathname == pathname
  {
    for i := 0 to |items|
      invariant forall j :: 0 <= j < i ==> items[j].pathname != pathname
    {
      if items[i].pathname == pathname {
        return Some(items[i]);
      }
    }
    return None;
  }
}
