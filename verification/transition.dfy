/**
 `transition_model`: the probability distribution over the page a random
 surfer visits next, given the page it is on. With probability `d` it
 follows one of the page's links, chosen uniformly; otherwise it jumps to
 any page of the corpus, chosen uniformly. A page without links sends the
 surfer to any page of the corpus with the same probability.
 */
module Transition {
  import opened Graph

  /** The probability of moving from `page` to `i`, with damping factor `d`. */
  function Prob(c: Corpus, page: Page, d: real, i: Page): real
    requires page in c.links
  {
    var out := c.links[page];
    if out != {} then
      Share(1.0 - d, |c.links|) + (if i in out then Share(d, |out|) else 0.0)
    else
      Share(1.0, |c.links|)
  }

  /** The distribution that `transition_model` returns. */
  function Transition(c: Corpus, page: Page, d: real): (dist: map<Page, real>)
    requires page in c.links
    ensures dist.Keys == c.links.Keys
  {
    map i | i in c.links :: Prob(c, page, d, i)
  }

  /**
   What the distribution gives each page: a linked page gets the jump share
   `(1-d)/N` plus its link share `d/|links|`, any other page only the jump
   share; when `page` has no links, every page gets `1/N`.
   */
  lemma TransitionValues(c: Corpus, page: Page, d: real, i: Page)
    requires page in c.links && i in c.links
    ensures var dist, out, n := Transition(c, page, d), c.links[page], |c.links| as real;
      && (out != {} && i in out ==> dist[i] == (1.0 - d) / n + d / (|out| as real))
      && (out != {} && i !in out ==> dist[i] == (1.0 - d) / n)
      && (out == {} ==> dist[i] == 1.0 / n)
  {
  }

  /**
   `transition_model` (pagerank.py, lines 52-76). The loop over the corpus gives every page the jump
   probability and adds the link share to the linked ones; a page without
   links gives every page `1/N`. `page` must be a page of the corpus, as
   `corpus[page]` fails otherwise.
   */
  method TransitionModel(c: Corpus, page: Page, d: real) returns (dist: map<Page, real>)
    requires Listed(c)
    requires page in c.links
    ensures dist == Transition(c, page, d)
  {
    dist := map[];
    var n := |c.links|;
    if c.links[page] != {} {
      for k := 0 to |c.order|
        invariant BuiltUpTo(c, page, d, dist, k)
      {
        var i := c.order[k];
        ghost var before := dist;
        ProbAsComputed(c, page, d, i, n);
        dist := dist[i := (1.0 - d) / (n as real)];
        if i in c.links[page] {
          dist := dist[i := dist[i] + d / (|c.links[page]| as real)];
        }
        assert dist == before[i := dist[i]];
        BuildStep(c, page, d, before, k, dist[i]);
      }
    } else {
      for k := 0 to |c.order|
        invariant BuiltUpTo(c, page, d, dist, k)
      {
        var i := c.order[k];
        ProbAsComputed(c, page, d, i, n);
        BuildStep(c, page, d, dist, k, 1.0 / (n as real));
        dist := dist[i := 1.0 / (n as real)];
      }
    }
    BuildDone(c, page, d, dist);
  }

  /** The loops of `transition_model` after `k` pages: those pages, with their probability. */
  predicate BuiltUpTo(c: Corpus, page: Page, d: real, dist: map<Page, real>, k: nat)
    requires page in c.links && k <= |c.order|
  {
    && dist.Keys == Members(c.order[..k])
    && forall i :: i in dist ==> dist[i] == Prob(c, page, d, i)
  }

  lemma BuildStep(c: Corpus, page: Page, d: real, dist: map<Page, real>, k: nat, p: real)
    requires page in c.links && k < |c.order|
    requires BuiltUpTo(c, page, d, dist, k)
    requires p == Prob(c, page, d, c.order[k])
    ensures BuiltUpTo(c, page, d, dist[c.order[k] := p], k + 1)
  {
    MembersStep(c.order, k);
  }

  lemma BuildDone(c: Corpus, page: Page, d: real, dist: map<Page, real>)
    requires Listed(c) && page in c.links
    requires BuiltUpTo(c, page, d, dist, |c.order|)
    ensures dist == Transition(c, page, d)
  {
    assert c.order[..|c.order|] == c.order;
    SameValues(dist, Transition(c, page, d));
  }

  /** `Prob` in the terms the loops of `transition_model` compute it. */
  lemma ProbAsComputed(c: Corpus, page: Page, d: real, i: Page, n: nat)
    requires page in c.links && n == |c.links|
    ensures c.links[page] != {} && i in c.links[page] ==>
      Prob(c, page, d, i) == (1.0 - d) / (n as real) + d / (|c.links[page]| as real)
    ensures c.links[page] != {} && i !in c.links[page] ==> Prob(c, page, d, i) == (1.0 - d) / (n as real)
    ensures c.links[page] == {} ==> Prob(c, page, d, i) == 1.0 / (n as real)
  {
  }

  /**
   The docstring's reading of the model: for a damping factor in [0, 1] and
   a page whose links are pages of the corpus, the values form a
   probability distribution over the corpus.
   */
  lemma TransitionIsDistribution(c: Corpus, page: Page, d: real)
    requires Listed(c) && page in c.links
    requires c.links[page] <= c.links.Keys
    requires 0.0 <= d <= 1.0
    ensures IsDistribution(c, Transition(c, page, d))
  {
    var dist := Transition(c, page, d);
    PageCount(c);
    if c.links[page] != {} {
      LinkedMass(c, page, d);
      ShareNonNegative(1.0 - d, |c.links|);
      ShareNonNegative(d, |c.links[page]|);
    } else {
      DanglingMass(c, page, d);
      ShareNonNegative(1.0, |c.links|);
    }
    NonNegativeUnitMass(c, dist);
  }

  lemma LinkedMass(c: Corpus, page: Page, d: real)
    requires Listed(c) && page in c.links
    requires c.links[page] <= c.links.Keys && c.links[page] != {}
    requires |c.links| == |c.order|
    ensures Total(c.order, Transition(c, page, d)) == 1.0
  {
    var out := c.links[page];
    TotalOfAffineListed(c.order, Transition(c, page, d), out, Share(1.0 - d, |c.links|), Share(d, |out|));
    SharesAddUp(1.0 - d, |c.links|);
    SharesAddUp(d, |out|);
  }

  lemma DanglingMass(c: Corpus, page: Page, d: real)
    requires Listed(c) && page in c.links && c.links[page] == {}
    requires |c.links| == |c.order|
    ensures Total(c.order, Transition(c, page, d)) == 1.0
  {
    TotalOfAffineListed(c.order, Transition(c, page, d), {}, Share(1.0, |c.links|), 0.0);
    SharesAddUp(1.0, |c.links|);
  }
}
