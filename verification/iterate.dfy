/**
 `iterate_pagerank`: the rank of every page starts at `1/N`, and one update
 pass computes, from that snapshot, the new rank of every page: the jump
 share `(1-d)/N` plus `d` times what the other pages pass to it. A page
 with links passes its rank in equal parts to the pages it links to; a page
 without links passes its rank in equal parts to every page of the corpus.

 As the source is written, the `while condition` loop runs its body exactly
 once (the body ends by clearing `condition`), and the tolerance test that
 follows only copies the new ranks into `rank`. The result is one update
 pass applied to the uniform start.
 */
module Iterate {
  import opened Graph
  import Transition

  /** The rank `rank` assigns to every page of the corpus. */
  predicate Ranks(c: Corpus, rank: map<Page, real>) {
    rank.Keys == c.links.Keys
  }

  /**
   What page `j` passes to page `i` in one pass (the two `if`s of the
   inner loop of `iterate_pagerank`, pagerank.py lines 133-137): a share
   of its rank if it links to `i`, and a share of its rank to every page
   if it has no links.
   */
  function Contribution(c: Corpus, rank: map<Page, real>, i: Page, j: Page): real
    requires Ranks(c, rank) && j in c.links
  {
    (if i in c.links[j] then Share(rank[j], |c.links[j]|) else 0.0)
    + (if c.links[j] == {} then Share(rank[j], |c.links|) else 0.0)
  }

  /**
   What the pages of `sources` pass to `i`: the `number` that
   `iterate_pagerank` accumulates (pagerank.py, lines 131-137).
   */
  function Inflow(c: Corpus, rank: map<Page, real>, i: Page, sources: seq<Page>): real
    requires Ranks(c, rank) && Members(sources) <= c.links.Keys
  {
    if sources == [] then 0.0
    else
      assert sources[|sources| - 1] in sources;
      Inflow(c, rank, i, sources[..|sources| - 1]) + Contribution(c, rank, i, sources[|sources| - 1])
  }

  /**
   The assignment to `newRank[i]` in `iterate_pagerank` (pagerank.py,
   line 139): the jump share, plus `d` times what flows in.
   */
  function Update(c: Corpus, d: real, number: real): real
    requires |c.links| > 0
  {
    Share(1.0 - d, |c.links|) + d * number
  }

  /** The new rank of `i`, from the snapshot `rank`. */
  function PassValue(c: Corpus, d: real, rank: map<Page, real>, i: Page): real
    requires Listed(c) && Ranks(c, rank) && i in c.links
  {
    Update(c, d, Inflow(c, rank, i, c.order))
  }

  /** The ranks after one update pass. */
  function NewRank(c: Corpus, d: real, rank: map<Page, real>): (next: map<Page, real>)
    requires Listed(c) && Ranks(c, rank)
    ensures Ranks(c, next)
  {
    map i | i in c.links :: PassValue(c, d, rank, i)
  }

  /** The starting ranks of `iterate_pagerank` (pagerank.py, lines 124-125): `1/N` for every page. */
  function Uniform(c: Corpus): (rank: map<Page, real>)
    ensures Ranks(c, rank)
  {
    map p | p in c.links :: Share(1.0, |c.links|)
  }

  /** `math.isclose(a, b, abs_tol=0.001)`, with its default relative tolerance of 1e-9. */
  predicate IsClose(a: real, b: real) {
    var diff := if a >= b then a - b else b - a;
    var larger := if (if a >= 0.0 then a else -a) >= (if b >= 0.0 then b else -b)
                  then (if a >= 0.0 then a else -a) else (if b >= 0.0 then b else -b);
    diff <= (if 0.000000001 * larger >= 0.001 then 0.000000001 * larger else 0.001)
  }

  /**
   `iterate_pagerank` (pagerank.py, lines 112-149). Builds the uniform start, runs the `while` loop (whose
   body runs once), then copies the new ranks into `rank`.
   */
  method IteratePageRank(c: Corpus, d: real) returns (rank: map<Page, real>)
    requires Listed(c)
    ensures rank == NewRank(c, d, Uniform(c))
  {
    rank := map[];
    var newRank: map<Page, real> := map[];
    for k := 0 to |c.order|
      invariant rank.Keys == Members(c.order[..k])
      invariant forall p :: p in rank ==> p in c.links && rank[p] == Share(1.0, |c.links|)
    {
      var i := c.order[k];
      assert c.order[..k + 1] == c.order[..k] + [i];
      MembersSnoc(c.order[..k], i);
      rank := rank[i := 1.0 / (|c.links| as real)];
    }
    assert c.order[..|c.order|] == c.order;
    SameValues(rank, Uniform(c));

    var condition := true;
    while condition
      invariant rank == Uniform(c)
      invariant !condition ==> newRank == NewRank(c, d, rank)
      decreases if condition then 1 else 0
    {
      newRank := UpdatePass(c, d, rank);
      condition := false;
    }

    rank, condition := CopyRanks(c, rank, newRank);
  }

  /**
   The copy loop of `iterate_pagerank` (pagerank.py, lines 143-147): every page takes its new
   rank, and `condition` is set when some page moved by more than the
   tolerance of `math.isclose`. Nothing reads `condition` afterwards.
   */
  method CopyRanks(c: Corpus, rank: map<Page, real>, newRank: map<Page, real>)
    returns (copied: map<Page, real>, condition: bool)
    requires Listed(c) && Ranks(c, rank) && Ranks(c, newRank)
    ensures copied == newRank
    ensures condition <==> exists p :: p in c.links && !IsClose(newRank[p], rank[p])
  {
    copied := rank;
    condition := false;
    for k := 0 to |c.order|
      invariant CopiedUpTo(c, rank, newRank, copied, condition, k)
    {
      var i := c.order[k];
      CopyStep(c, rank, newRank, copied, condition, k);
      if !IsClose(newRank[i], copied[i]) {
        condition := true;
      }
      copied := copied[i := newRank[i]];
    }
    CopyDone(c, rank, newRank, copied, condition);
  }

  /**
   The state of the copy loop after `k` pages: those pages hold their new
   rank, the others still their old one, and `condition` says whether one
   of the first `k` pages moved.
   */
  predicate CopiedUpTo(c: Corpus, rank: map<Page, real>, newRank: map<Page, real>,
                       copied: map<Page, real>, condition: bool, k: nat)
    requires Listed(c) && Ranks(c, rank) && Ranks(c, newRank) && k <= |c.order|
  {
    && Ranks(c, copied)
    && (forall j :: 0 <= j < k ==> copied[c.order[j]] == newRank[c.order[j]])
    && (forall j :: k <= j < |c.order| ==> copied[c.order[j]] == rank[c.order[j]])
    && (condition <==> exists j :: 0 <= j < k && !IsClose(newRank[c.order[j]], rank[c.order[j]]))
  }

  /** One turn of the copy loop: page `k` still holds its old rank when it is compared. */
  lemma CopyStep(c: Corpus, rank: map<Page, real>, newRank: map<Page, real>,
                 copied: map<Page, real>, condition: bool, k: nat)
    requires Listed(c) && Ranks(c, rank) && Ranks(c, newRank) && k < |c.order|
    requires CopiedUpTo(c, rank, newRank, copied, condition, k)
    ensures c.order[k] in copied && copied[c.order[k]] == rank[c.order[k]]
    ensures CopiedUpTo(c, rank, newRank, copied[c.order[k] := newRank[c.order[k]]],
                       condition || !IsClose(newRank[c.order[k]], rank[c.order[k]]), k + 1)
  {
  }

  lemma CopyDone(c: Corpus, rank: map<Page, real>, newRank: map<Page, real>,
                 copied: map<Page, real>, condition: bool)
    requires Listed(c) && Ranks(c, rank) && Ranks(c, newRank)
    requires CopiedUpTo(c, rank, newRank, copied, condition, |c.order|)
    ensures copied == newRank
    ensures condition <==> exists p :: p in c.links && !IsClose(newRank[p], rank[p])
  {
    assert c.order[..|c.order|] == c.order;
    SameValues(copied, newRank);
  }

  /**
   The update pass of `iterate_pagerank` (pagerank.py, lines 130-139): for every page `i`, the inner loop over
   the corpus adds up what each page passes to `i`, reading only the
   snapshot `rank`, and the new rank of `i` is written to a separate map.
   */
  method UpdatePass(c: Corpus, d: real, rank: map<Page, real>) returns (newRank: map<Page, real>)
    requires Listed(c) && Ranks(c, rank)
    ensures newRank == NewRank(c, d, rank)
  {
    newRank := map[];
    for k := 0 to |c.order|
      invariant PassedUpTo(c, d, rank, newRank, k)
    {
      var i := c.order[k];
      var number := CollectInflow(c, rank, i);
      PassStep(c, d, rank, newRank, k, number);
      newRank := newRank[i := (1.0 - d) / (|c.links| as real) + d * number];
    }
    PassDone(c, d, rank, newRank);
  }

  /** The state of the update pass after `k` pages: those pages, with their new rank. */
  predicate PassedUpTo(c: Corpus, d: real, rank: map<Page, real>, newRank: map<Page, real>, k: nat)
    requires Listed(c) && Ranks(c, rank) && k <= |c.order|
  {
    newRank.Keys == Members(c.order[..k]) && Passed(c, d, rank, newRank)
  }

  /** Every page in `newRank` has its new rank. */
  predicate Passed(c: Corpus, d: real, rank: map<Page, real>, newRank: map<Page, real>)
    requires Listed(c) && Ranks(c, rank)
  {
    forall p :: p in newRank ==> p in c.links && newRank[p] == PassValue(c, d, rank, p)
  }

  /** One turn of the outer loop: the assignment to `newRank[i]` computes the new rank of page `k`. */
  lemma PassStep(c: Corpus, d: real, rank: map<Page, real>, newRank: map<Page, real>, k: nat, number: real)
    requires Listed(c) && Ranks(c, rank) && k < |c.order|
    requires PassedUpTo(c, d, rank, newRank, k)
    requires number == Inflow(c, rank, c.order[k], c.order)
    ensures PassedUpTo(c, d, rank, newRank[c.order[k] := (1.0 - d) / (|c.links| as real) + d * number], k + 1)
  {
    var i := c.order[k];
    MembersStep(c.order, k);
    UpdateAsComputed(c, d, number);
    PassedOne(c, d, rank, newRank, i, number, (1.0 - d) / (|c.links| as real) + d * number);
  }

  lemma PassedOne(c: Corpus, d: real, rank: map<Page, real>, newRank: map<Page, real>,
                  i: Page, number: real, value: real)
    requires Listed(c) && Ranks(c, rank) && i in c.links
    requires Passed(c, d, rank, newRank)
    requires number == Inflow(c, rank, i, c.order) && value == Update(c, d, number)
    ensures Passed(c, d, rank, newRank[i := value])
  {
  }

  /** `Update` in the terms the assignment to `newRank[i]` computes it. */
  lemma UpdateAsComputed(c: Corpus, d: real, number: real)
    requires |c.links| > 0
    ensures Update(c, d, number) == (1.0 - d) / (|c.links| as real) + d * number
  {
  }

  lemma PassDone(c: Corpus, d: real, rank: map<Page, real>, newRank: map<Page, real>)
    requires Listed(c) && Ranks(c, rank)
    requires PassedUpTo(c, d, rank, newRank, |c.order|)
    ensures newRank == NewRank(c, d, rank)
  {
    assert c.order[..|c.order|] == c.order;
    SameValues(newRank, NewRank(c, d, rank));
  }

  /**
   The inner loop of the update pass (pagerank.py, lines 131-137): what every page of
   the corpus passes to `i`, added up in dictionary order.
   */
  method CollectInflow(c: Corpus, rank: map<Page, real>, i: Page) returns (number: real)
    requires Listed(c) && Ranks(c, rank)
    ensures number == Inflow(c, rank, i, c.order)
  {
    number := 0.0;
    for m := 0 to |c.order|
      invariant number == Inflow(c, rank, i, c.order[..m])
    {
      var linkedPage := c.order[m];
      InflowStep(c, rank, i, c.order, m);
      if i in c.links[linkedPage] {
        number := number + rank[linkedPage] / (|c.links[linkedPage]| as real);
      }
      if c.links[linkedPage] == {} {
        number := number + rank[linkedPage] / (|c.links| as real);
      }
    }
    InflowStep(c, rank, i, c.order, |c.order|);
  }

  /**
   The inner loop's step: the first `m + 1` pages pass to `i` what the
   first `m` pass, plus what page `m` passes, in the terms the inner loop's two `if`s
   compute it; and the first `|sources|` pages are all of them.
   */
  lemma InflowStep(c: Corpus, rank: map<Page, real>, i: Page, sources: seq<Page>, m: nat)
    requires Ranks(c, rank) && Members(sources) <= c.links.Keys && m <= |sources|
    ensures Members(sources[..m]) <= c.links.Keys
    ensures m == |sources| ==> Inflow(c, rank, i, sources[..m]) == Inflow(c, rank, i, sources)
    ensures m < |sources| ==> sources[m] in c.links
    ensures m < |sources| ==>
      Inflow(c, rank, i, sources[..m + 1]) == Inflow(c, rank, i, sources[..m])
        + (if i in c.links[sources[m]] then rank[sources[m]] / (|c.links[sources[m]]| as real) else 0.0)
        + (if c.links[sources[m]] == {} then rank[sources[m]] / (|c.links| as real) else 0.0)
  {
    assert sources[..|sources|] == sources;
    if m < |sources| {
      assert sources[m] in sources;
      assert sources[..m + 1][..m] == sources[..m];
    }
  }

  /** What `j` passes to the pages of `targets`. */
  function Outflow(c: Corpus, rank: map<Page, real>, j: Page, targets: seq<Page>): real
    requires Ranks(c, rank) && j in c.links
  {
    if targets == [] then 0.0
    else Outflow(c, rank, j, targets[..|targets| - 1]) + Contribution(c, rank, targets[|targets| - 1], j)
  }

  /** What the pages of `sources` pass to the pages of `targets`, added up page by receiving page. */
  function InflowTotal(c: Corpus, rank: map<Page, real>, targets: seq<Page>, sources: seq<Page>): real
    requires Ranks(c, rank) && Members(sources) <= c.links.Keys
  {
    if targets == [] then 0.0
    else InflowTotal(c, rank, targets[..|targets| - 1], sources) + Inflow(c, rank, targets[|targets| - 1], sources)
  }

  /** The same amount, added up page by giving page. */
  function OutflowTotal(c: Corpus, rank: map<Page, real>, sources: seq<Page>, targets: seq<Page>): real
    requires Ranks(c, rank) && Members(sources) <= c.links.Keys
  {
    if sources == [] then 0.0
    else
      assert sources[|sources| - 1] in sources;
      OutflowTotal(c, rank, sources[..|sources| - 1], targets) + Outflow(c, rank, sources[|sources| - 1], targets)
  }

  /** Nothing flows from no pages. */
  lemma {:induction false} InflowTotalFromNone(c: Corpus, rank: map<Page, real>, targets: seq<Page>)
    requires Ranks(c, rank)
    ensures InflowTotal(c, rank, targets, []) == 0.0
  {
    if targets != [] {
      InflowTotalFromNone(c, rank, targets[..|targets| - 1]);
    }
  }

  /** One more giving page adds what it passes to every receiving page. */
  lemma {:induction false} InflowTotalSnoc(c: Corpus, rank: map<Page, real>, targets: seq<Page>, sources: seq<Page>)
    requires Ranks(c, rank) && Members(sources) <= c.links.Keys && sources != []
    ensures sources[|sources| - 1] in c.links && Members(sources[..|sources| - 1]) <= c.links.Keys
    ensures InflowTotal(c, rank, targets, sources)
         == InflowTotal(c, rank, targets, sources[..|sources| - 1]) + Outflow(c, rank, sources[|sources| - 1], targets)
  {
    assert sources[|sources| - 1] in sources;
    if targets != [] {
      InflowTotalSnoc(c, rank, targets[..|targets| - 1], sources);
    }
  }

  /** Adding up by receiving page or by giving page gives the same amount. */
  lemma {:induction false} Exchange(c: Corpus, rank: map<Page, real>, targets: seq<Page>, sources: seq<Page>)
    requires Ranks(c, rank) && Members(sources) <= c.links.Keys
    ensures InflowTotal(c, rank, targets, sources) == OutflowTotal(c, rank, sources, targets)
  {
    if sources == [] {
      InflowTotalFromNone(c, rank, targets);
    } else {
      InflowTotalSnoc(c, rank, targets, sources);
      Exchange(c, rank, targets, sources[..|sources| - 1]);
    }
  }

  /** What `j` passes to each page, as a map. */
  function Column(c: Corpus, rank: map<Page, real>, j: Page): (column: map<Page, real>)
    requires Ranks(c, rank) && j in c.links
    ensures column.Keys == c.links.Keys
  {
    map i | i in c.links :: Contribution(c, rank, i, j)
  }

  lemma {:induction false} OutflowIsTotal(c: Corpus, rank: map<Page, real>, j: Page, targets: seq<Page>)
    requires Ranks(c, rank) && j in c.links && Members(targets) <= c.links.Keys
    ensures Outflow(c, rank, j, targets) == Total(targets, Column(c, rank, j))
  {
    if targets != [] {
      assert targets[|targets| - 1] in targets;
      OutflowIsTotal(c, rank, j, targets[..|targets| - 1]);
    }
  }

  /**
   A page whose links are all pages of the corpus passes on exactly its
   rank: shared among its links, or among all pages when it has none.
   */
  lemma OutflowIsRank(c: Corpus, rank: map<Page, real>, j: Page)
    requires Listed(c) && Ranks(c, rank) && j in c.links
    requires c.links[j] <= c.links.Keys
    ensures Outflow(c, rank, j, c.order) == rank[j]
  {
    OutflowIsTotal(c, rank, j, c.order);
    PageCount(c);
    var out := c.links[j];
    if out != {} {
      ColumnOfLinked(c, rank, j);
    } else {
      ColumnOfDangling(c, rank, j);
    }
  }

  lemma ColumnOfLinked(c: Corpus, rank: map<Page, real>, j: Page)
    requires Listed(c) && Ranks(c, rank) && j in c.links
    requires c.links[j] <= c.links.Keys && c.links[j] != {}
    ensures Total(c.order, Column(c, rank, j)) == rank[j]
  {
    var out := c.links[j];
    TotalOfAffineListed(c.order, Column(c, rank, j), out, 0.0, Share(rank[j], |out|));
    MultipleIsProduct(|c.order|, 0.0);
    SharesAddUp(rank[j], |out|);
  }

  lemma ColumnOfDangling(c: Corpus, rank: map<Page, real>, j: Page)
    requires Listed(c) && Ranks(c, rank) && j in c.links && c.links[j] == {}
    requires |c.links| == |c.order|
    ensures Total(c.order, Column(c, rank, j)) == rank[j]
  {
    TotalOfAffineListed(c.order, Column(c, rank, j), {}, Share(rank[j], |c.links|), 0.0);
    SharesAddUp(rank[j], |c.links|);
  }

  /** In a corpus whose links are all pages of the corpus, every page passes on its rank. */
  lemma {:induction false} OutflowTotalIsMass(c: Corpus, rank: map<Page, real>, sources: seq<Page>)
    requires Listed(c) && Closed(c) && Ranks(c, rank) && Members(sources) <= c.links.Keys
    ensures OutflowTotal(c, rank, sources, c.order) == Total(sources, rank)
  {
    if sources != [] {
      var j := sources[|sources| - 1];
      assert j in sources;
      OutflowTotalIsMass(c, rank, sources[..|sources| - 1]);
      OutflowIsRank(c, rank, j);
    }
  }

  /** What flows into each page from the whole corpus. */
  function Inflows(c: Corpus, rank: map<Page, real>): (flows: map<Page, real>)
    requires Listed(c) && Ranks(c, rank)
    ensures flows.Keys == c.links.Keys
  {
    map i | i in c.links :: Inflow(c, rank, i, c.order)
  }

  lemma {:induction false} InflowsTotal(c: Corpus, rank: map<Page, real>, targets: seq<Page>)
    requires Listed(c) && Ranks(c, rank) && Members(targets) <= c.links.Keys
    ensures Total(targets, Inflows(c, rank)) == InflowTotal(c, rank, targets, c.order)
  {
    if targets != [] {
      var init := targets[..|targets| - 1];
      assert targets[|targets| - 1] in targets;
      assert Members(init) <= Members(targets);
      InflowsTotal(c, rank, init);
    }
  }

  /** `Update` as a jump share plus a scaled inflow. */
  lemma UpdateIsAffine(c: Corpus, d: real, number: real)
    requires |c.links| > 0
    ensures Update(c, d, number) == Share(1.0 - d, |c.links|) + Scaled(d, number)
  {
  }

  /** Each new rank is the jump share plus `d` times what flows in. */
  lemma NewRankIsAffine(c: Corpus, d: real, rank: map<Page, real>)
    requires Listed(c) && Ranks(c, rank) && |c.links| > 0
    ensures ScaledFrom(c.order, NewRank(c, d, rank), Inflows(c, rank), Share(1.0 - d, |c.links|), d)
  {
    forall p | p in c.order
      ensures NewRank(c, d, rank)[p] == Share(1.0 - d, |c.links|) + Scaled(d, Inflows(c, rank)[p])
    {
      UpdateIsAffine(c, d, Inflows(c, rank)[p]);
    }
  }

  /** The total of the new ranks: the jump shares, plus `d` times everything passed on. */
  lemma NewRankTotal(c: Corpus, d: real, rank: map<Page, real>)
    requires Listed(c) && Ranks(c, rank) && |c.links| > 0
    ensures Total(c.order, NewRank(c, d, rank))
         == Multiple(|c.links|, Share(1.0 - d, |c.links|)) + Scaled(d, Total(c.order, Inflows(c, rank)))
  {
    PageCount(c);
    NewRankIsAffine(c, d, rank);
    TotalOfScaled(c.order, NewRank(c, d, rank), Inflows(c, rank), Share(1.0 - d, |c.links|), d);
  }

  /**
   The docstring's promise that the values sum to 1, for one pass: in a
   corpus whose links are all pages of the corpus, a pass keeps the total
   rank at 1.
   */
  lemma PassConservesMass(c: Corpus, d: real, rank: map<Page, real>)
    requires Listed(c) && Closed(c) && Ranks(c, rank)
    requires Total(c.order, rank) == 1.0
    ensures Total(c.order, NewRank(c, d, rank)) == 1.0
  {
    InflowIsMass(c, rank);
    NewRankTotal(c, d, rank);
    JumpSharesAddUp(c, d);
    assert Scaled(d, 1.0) == d;
  }

  /** The jump shares of all pages add up to `1 - d`. */
  lemma JumpSharesAddUp(c: Corpus, d: real)
    requires |c.links| > 0
    ensures Multiple(|c.links|, Share(1.0 - d, |c.links|)) == 1.0 - d
  {
    SharesAddUp(1.0 - d, |c.links|);
  }

  /**
   In a corpus whose links are all pages of the corpus, what flows into
   the pages adds up to the total rank: no rank is lost or created.
   */
  lemma InflowIsMass(c: Corpus, rank: map<Page, real>)
    requires Listed(c) && Closed(c) && Ranks(c, rank)
    ensures Total(c.order, Inflows(c, rank)) == Total(c.order, rank)
  {
    InflowsTotal(c, rank, c.order);
    Exchange(c, rank, c.order, c.order);
    OutflowTotalIsMass(c, rank, c.order);
  }

  /** What flows into a page is never negative when no rank is. */
  lemma {:induction false} InflowNonNegative(c: Corpus, rank: map<Page, real>, i: Page, sources: seq<Page>)
    requires Ranks(c, rank) && Members(sources) <= c.links.Keys
    requires forall p :: p in rank ==> 0.0 <= rank[p]
    ensures 0.0 <= Inflow(c, rank, i, sources)
  {
    if sources != [] {
      var j := sources[|sources| - 1];
      assert j in sources;
      assert Members(sources[..|sources| - 1]) <= Members(sources);
      InflowNonNegative(c, rank, i, sources[..|sources| - 1]);
      if i in c.links[j] {
        ShareNonNegative(rank[j], |c.links[j]|);
      }
      if c.links[j] == {} {
        ShareNonNegative(rank[j], |c.links|);
      }
    }
  }

  /** For a damping factor in [0, 1], the assignment to `newRank[i]` never gives a negative rank. */
  lemma UpdateNonNegative(c: Corpus, d: real, number: real)
    requires |c.links| > 0 && 0.0 <= d <= 1.0 && 0.0 <= number
    ensures 0.0 <= Update(c, d, number)
  {
    ShareNonNegative(1.0 - d, |c.links|);
  }

  /**
   The docstring's promise for one pass: in a corpus whose links are all
   pages of the corpus, with a damping factor in [0, 1], a pass takes a
   probability distribution over the pages to a probability distribution.
   */
  lemma PassIsDistribution(c: Corpus, d: real, rank: map<Page, real>)
    requires Listed(c) && Closed(c) && 0.0 <= d <= 1.0
    requires IsDistribution(c, rank)
    ensures IsDistribution(c, NewRank(c, d, rank))
  {
    PassConservesMass(c, d, rank);
    PageCount(c);
    var next := NewRank(c, d, rank);
    forall p | p in next
      ensures 0.0 <= next[p]
    {
      InflowNonNegative(c, rank, p, c.order);
      UpdateNonNegative(c, d, Inflow(c, rank, p, c.order));
    }
    NonNegativeUnitMass(c, next);
  }

  /** The starting ranks of `iterate_pagerank` (pagerank.py, lines 124-125) form a probability distribution. */
  lemma UniformIsDistribution(c: Corpus)
    requires Listed(c) && |c.links| > 0
    ensures IsDistribution(c, Uniform(c))
  {
    PageCount(c);
    TotalOfAffineListed(c.order, Uniform(c), {}, Share(1.0, |c.links|), 0.0);
    SharesAddUp(1.0, |c.links|);
    ShareNonNegative(1.0, |c.links|);
    NonNegativeUnitMass(c, Uniform(c));
  }

  /**
   The docstring of `iterate_pagerank`: every value it returns is between 0
   and 1, and the values sum to 1, for a non-empty corpus whose links are
   all pages of the corpus (as `crawl` builds it) and a damping factor in
   [0, 1].
   */
  lemma IterateIsDistribution(c: Corpus, d: real)
    requires Listed(c) && Closed(c) && |c.links| > 0
    requires 0.0 <= d <= 1.0
    ensures IsDistribution(c, NewRank(c, d, Uniform(c)))
  {
    UniformIsDistribution(c);
    PassIsDistribution(c, d, Uniform(c));
  }

  /**
   What the pages of `sources` send to `i` in one step of the random
   surfer: the rank of each page times the probability that
   `transition_model` gives to moving from it to `i`.
   */
  function ChainInflow(c: Corpus, d: real, rank: map<Page, real>, i: Page, sources: seq<Page>): real
    requires Ranks(c, rank) && Members(sources) <= c.links.Keys
  {
    if sources == [] then 0.0
    else
      var j := sources[|sources| - 1];
      assert j in sources;
      ChainInflow(c, d, rank, i, sources[..|sources| - 1]) + Scaled(rank[j], Transition.Prob(c, j, d, i))
  }

  /** `x` times the `n`-th part of `y` is `y` times the `n`-th part of `x`. */
  lemma ShareSwap(x: real, y: real, n: nat)
    requires n > 0
    ensures Scaled(x, Share(y, n)) == Scaled(y, Share(x, n))
  {
  }

  /**
   One page's part of the random-surfer step: `rank[j]` times the
   transition probability is `d` times what the update pass moves from `j`
   to `i`, plus the jump share of `rank[j]`.
   */
  lemma ChainTerm(c: Corpus, d: real, rank: map<Page, real>, i: Page, j: Page)
    requires Ranks(c, rank) && j in c.links
    ensures Scaled(rank[j], Transition.Prob(c, j, d, i))
         == Scaled(d, Contribution(c, rank, i, j)) + Scaled(Share(1.0 - d, |c.links|), rank[j])
  {
    var r, out := rank[j], c.links[j];
    if out != {} {
      ShareSwap(r, d, |out|);
    } else {
      ShareSwap(r, 1.0, |c.links|);
      ShareSwap(r, 1.0 - d, |c.links|);
    }
  }

  lemma {:induction false} ChainSplit(c: Corpus, d: real, rank: map<Page, real>, i: Page, sources: seq<Page>)
    requires Ranks(c, rank) && Members(sources) <= c.links.Keys && |c.links| > 0
    ensures ChainInflow(c, d, rank, i, sources)
         == Scaled(d, Inflow(c, rank, i, sources)) + Scaled(Share(1.0 - d, |c.links|), Total(sources, rank))
  {
    if sources != [] {
      var init, j := sources[..|sources| - 1], sources[|sources| - 1];
      assert j in sources;
      assert Members(init) <= Members(sources);
      ChainSplit(c, d, rank, i, init);
      ChainTerm(c, d, rank, i, j);
      Distribute(d, Inflow(c, rank, i, init), Contribution(c, rank, i, j));
      Distribute(Share(1.0 - d, |c.links|), Total(init, rank), rank[j]);
    }
  }

  /**
   The update pass is one step of the random surfer of `transition_model`:
   when the ranks sum to 1, the new rank of `i` is the probability of
   being at `i` after one more step, the sum over all pages `j` of
   `rank[j]` times the probability of moving from `j` to `i`.
   */
  lemma PassIsChainStep(c: Corpus, d: real, rank: map<Page, real>, i: Page)
    requires Listed(c) && Ranks(c, rank) && i in c.links
    requires Total(c.order, rank) == 1.0
    ensures NewRank(c, d, rank)[i] == ChainInflow(c, d, rank, i, c.order)
  {
    ChainSplit(c, d, rank, i, c.order);
    UpdateIsAffine(c, d, Inflow(c, rank, i, c.order));
    ScaledByOne(Share(1.0 - d, |c.links|));
  }

  lemma ScaledByOne(x: real)
    ensures Scaled(x, 1.0) == x
  {
  }
}
