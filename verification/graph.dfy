/**
 The corpus: a closed hyperlink graph, as the dictionary that `crawl`
 builds, together with the sums over its pages that the two PageRank
 computations rely on.

 A Python dictionary iterates its keys in insertion order, and every loop
 of the program walks the corpus in that order. The model keeps that order
 explicitly: `order` lists each key of `links` exactly once.
 */
module Graph {

  type Page = string

  /** A corpus: the pages in dictionary order, and the links of each page. */
  datatype Corpus = Corpus(order: seq<Page>, links: map<Page, set<Page>>)

  /** The pages listed in a sequence, as a set. */
  function Members(ps: seq<Page>): set<Page>
  {
    set p | p in ps
  }

  /** No page occurs twice. */
  predicate Distinct(ps: seq<Page>) {
    forall a, b :: 0 <= a < b < |ps| ==> ps[a] != ps[b]
  }

  /** `order` is an iteration order of the dictionary: every key, once. */
  predicate Listed(c: Corpus) {
    Distinct(c.order) && c.links.Keys == Members(c.order)
  }

  /** Every link names a page of the corpus. */
  predicate Closed(c: Corpus) {
    forall p :: p in c.links ==> c.links[p] <= c.links.Keys
  }

  /** No page links to itself. */
  predicate NoSelfLinks(c: Corpus) {
    forall p :: p in c.links ==> p !in c.links[p]
  }

  /** The invariant that the link filter of `crawl` establishes. */
  predicate WellFormed(c: Corpus) {
    Listed(c) && NoSelfLinks(c) && Closed(c)
  }

  lemma {:induction false} DistinctPrefix(ps: seq<Page>, k: nat)
    requires Distinct(ps) && k <= |ps|
    ensures Distinct(ps[..k])
  {
  }

  /** A sequence without repetitions lists as many pages as it is long. */
  lemma {:induction false} DistinctCard(ps: seq<Page>)
    requires Distinct(ps)
    ensures |Members(ps)| == |ps|
  {
    if ps != [] {
      var init, last := ps[..|ps| - 1], ps[|ps| - 1];
      DistinctPrefix(ps, |ps| - 1);
      DistinctCard(init);
      assert ps == init + [last];
      MembersSnoc(init, last);
      LastIsNew(ps);
    }
  }

  /** `len(corpus)` is the number of pages the loops over the corpus visit. */
  lemma PageCount(c: Corpus)
    requires Listed(c)
    ensures |c.links| == |c.order|
  {
    DistinctCard(c.order);
    assert c.links.Keys == Members(c.order);
  }

  /** The sum of `m[p]` over the pages `p` of `ps`. */
  function Total(ps: seq<Page>, m: map<Page, real>): real
    requires Members(ps) <= m.Keys
  {
    if ps == [] then 0.0
    else
      assert ps[|ps| - 1] in ps;
      Total(ps[..|ps| - 1], m) + m[ps[|ps| - 1]]
  }

  /** How many pages of `ps` belong to `s`. */
  function Count(ps: seq<Page>, s: set<Page>): nat
  {
    if ps == [] then 0
    else Count(ps[..|ps| - 1], s) + (if ps[|ps| - 1] in s then 1 else 0)
  }

  /** Appending a page adds it to the members. */
  lemma MembersSnoc(init: seq<Page>, last: Page)
    ensures Members(init + [last]) == Members(init) + {last}
  {
    var ps := init + [last];
    forall p ensures p in Members(ps) <==> p in Members(init) + {last} {
      if p in ps {
        var i :| 0 <= i < |ps| && ps[i] == p;
        if i < |init| { assert init[i] == p; }
      }
      if p in init {
        var i :| 0 <= i < |init| && init[i] == p;
        assert ps[i] == p;
      }
    }
  }

  /** The first `k + 1` pages are the first `k` and page `k`. */
  lemma MembersStep(ps: seq<Page>, k: nat)
    requires k < |ps|
    ensures Members(ps[..k + 1]) == Members(ps[..k]) + {ps[k]}
  {
    assert ps[..k + 1] == ps[..k] + [ps[k]];
    MembersSnoc(ps[..k], ps[k]);
  }

  /** Without repetitions, `Count` is the size of the intersection. */
  lemma {:induction false} CountIsCard(ps: seq<Page>, s: set<Page>)
    requires Distinct(ps)
    ensures Count(ps, s) == |s * Members(ps)|
  {
    if ps != [] {
      var init, last := ps[..|ps| - 1], ps[|ps| - 1];
      DistinctPrefix(ps, |ps| - 1);
      CountIsCard(init, s);
      LastIsNew(ps);
      assert Members(ps) == Members(init) + {last} by {
        assert ps == init + [last];
        MembersSnoc(init, last);
      }
      SharedSnoc(s, Members(init), last);
    }
  }

  lemma SharedSnoc(s: set<Page>, before: set<Page>, x: Page)
    requires x !in before
    ensures |s * (before + {x})| == |s * before| + (if x in s then 1 else 0)
  {
    if x in s {
      assert s * (before + {x}) == (s * before) + {x};
    } else {
      assert s * (before + {x}) == s * before;
    }
  }

  /** In a sequence without repetitions, the last page is not among the others. */
  lemma LastIsNew(ps: seq<Page>)
    requires Distinct(ps) && ps != []
    ensures ps[|ps| - 1] !in Members(ps[..|ps| - 1])
  {
  }

  /** Appending a page not yet listed keeps a sequence without repetitions. */
  lemma DistinctSnoc(ps: seq<Page>, x: Page)
    requires Distinct(ps) && x !in ps
    ensures Distinct(ps + [x])
  {
    var qs := ps + [x];
    forall a, b | 0 <= a < b < |qs|
      ensures qs[a] != qs[b]
    {
      if b == |ps| {
        assert qs[a] == ps[a];
      }
    }
  }

  /** Two maps with the same keys and the same value at each key are equal. */
  lemma SameValues(a: map<Page, real>, b: map<Page, real>)
    requires a.Keys == b.Keys
    requires forall p :: p in a ==> a[p] == b[p]
    ensures a == b
  {
  }

  /** `x` split evenly among `n`. */
  function Share(x: real, n: nat): real
    requires n > 0
  {
    x / (n as real)
  }

  lemma ShareNonNegative(x: real, n: nat)
    requires n > 0 && 0.0 <= x
    ensures 0.0 <= Share(x, n)
  {
  }

  /** `a` added `k` times. */
  function Multiple(k: nat, a: real): real
  {
    if k == 0 then 0.0 else Multiple(k - 1, a) + a
  }

  lemma {:induction false} MultipleIsProduct(k: nat, a: real)
    ensures Multiple(k, a) == (k as real) * a
  {
    if k != 0 {
      MultipleIsProduct(k - 1, a);
      assert (k as real) * a == ((k - 1) as real) * a + a;
    }
  }

  /** The `n` shares of `x` add up to `x`. */
  lemma SharesAddUp(x: real, n: nat)
    requires n > 0
    ensures Multiple(n, Share(x, n)) == x
  {
    MultipleIsProduct(n, Share(x, n));
  }

  /**
   The total of values of the form `a`, plus `b` on the pages of `s`:
   `a` once per page and `b` once per page of `s`.
   */
  lemma {:induction false} TotalOfAffine(ps: seq<Page>, m: map<Page, real>, s: set<Page>, a: real, b: real)
    requires Members(ps) <= m.Keys
    requires forall p :: p in ps ==> m[p] == a + (if p in s then b else 0.0)
    ensures Total(ps, m) == Multiple(|ps|, a) + Multiple(Count(ps, s), b)
  {
    if ps != [] {
      var init, last := ps[..|ps| - 1], ps[|ps| - 1];
      assert last in ps;
      assert Members(init) <= Members(ps);
      TotalOfAffine(init, m, s, a, b);
    }
  }

  /** `TotalOfAffine` when the pages are listed once each and `s` is among them. */
  lemma TotalOfAffineListed(ps: seq<Page>, m: map<Page, real>, s: set<Page>, a: real, b: real)
    requires Distinct(ps) && s <= Members(ps)
    requires Members(ps) <= m.Keys
    requires forall p :: p in ps ==> m[p] == a + (if p in s then b else 0.0)
    ensures Total(ps, m) == Multiple(|ps|, a) + Multiple(|s|, b)
  {
    TotalOfAffine(ps, m, s, a, b);
    CountIsCard(ps, s);
    assert s * Members(ps) == s;
  }

  /**
   `b` times `x`, as a function: a sum lemma whose statement scales by a
   parameter keeps the product as one term.
   */
  function Scaled(b: real, x: real): real {
    b * x
  }

  /** Scaling distributes over addition. */
  lemma Distribute(b: real, x: real, y: real)
    ensures Scaled(b, x + y) == Scaled(b, x) + Scaled(b, y)
  {
  }

  /** On the pages of `ps`, `m` is `a` plus `b` times `x`. */
  predicate ScaledFrom(ps: seq<Page>, m: map<Page, real>, x: map<Page, real>, a: real, b: real)
    requires Members(ps) <= m.Keys && Members(ps) <= x.Keys
  {
    forall p :: p in ps ==> m[p] == a + Scaled(b, x[p])
  }

  /** The total of values of the form `a + b * x[p]`: `a` once per page, plus `b` times the total of `x`. */
  lemma {:induction false} TotalOfScaled(ps: seq<Page>, m: map<Page, real>, x: map<Page, real>, a: real, b: real)
    requires Members(ps) <= m.Keys && Members(ps) <= x.Keys
    requires ScaledFrom(ps, m, x, a, b)
    ensures Total(ps, m) == Multiple(|ps|, a) + Scaled(b, Total(ps, x))
  {
    if ps != [] {
      var init, last := ps[..|ps| - 1], ps[|ps| - 1];
      assert last in ps;
      assert Members(init) <= Members(ps);
      TotalOfScaled(init, m, x, a, b);
      Distribute(b, Total(init, x), x[last]);
    }
  }

  lemma {:induction false} TotalNonNegative(ps: seq<Page>, m: map<Page, real>)
    requires Members(ps) <= m.Keys
    requires forall p :: p in ps ==> 0.0 <= m[p]
    ensures 0.0 <= Total(ps, m)
  {
    if ps != [] {
      assert ps[|ps| - 1] in ps;
      TotalNonNegative(ps[..|ps| - 1], m);
    }
  }

  /** With non-negative values, no single value exceeds the total. */
  lemma {:induction false} TotalDominates(ps: seq<Page>, m: map<Page, real>, x: Page)
    requires Members(ps) <= m.Keys
    requires forall p :: p in ps ==> 0.0 <= m[p]
    requires x in ps
    ensures m[x] <= Total(ps, m)
  {
    var init, last := ps[..|ps| - 1], ps[|ps| - 1];
    assert ps == init + [last];
    assert last in ps;
    if x == last {
      TotalNonNegative(init, m);
    } else {
      assert x in init;
      TotalDominates(init, m, x);
    }
  }

  /**
   A probability distribution over the pages of the corpus: one value per
   page, each in [0, 1], summing to 1.
   */
  predicate IsDistribution(c: Corpus, m: map<Page, real>)
    requires Listed(c)
  {
    && m.Keys == c.links.Keys
    && (forall p :: p in m ==> 0.0 <= m[p] <= 1.0)
    && Total(c.order, m) == 1.0
  }

  /** Non-negative values that sum to 1 form a distribution. */
  lemma NonNegativeUnitMass(c: Corpus, m: map<Page, real>)
    requires Listed(c) && m.Keys == c.links.Keys
    requires forall p :: p in m ==> 0.0 <= m[p]
    requires Total(c.order, m) == 1.0
    ensures IsDistribution(c, m)
  {
    forall p | p in m
      ensures m[p] <= 1.0
    {
      TotalDominates(c.order, m, p);
    }
  }
}
