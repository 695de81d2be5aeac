# PageRank over a corpus of HTML pages

A model, in Dafny, of the PageRank computation of `pagerank.py`. The
program reads a directory of HTML pages into a corpus: a dictionary from each
page to the set of pages it links to. It then ranks the pages. The random
surfer's `transition_model` says where the surfer goes next from a page, and
`iterate_pagerank` updates the rank of every page from the ranks of the pages
that link to it.

The model has four modules:

- `Graph` (graph.dfy): the corpus, kept as its pages in dictionary order
  (`order`) plus the link sets (`links`). It also holds the sums over pages
  and the notion of a probability distribution over the corpus.
- `Crawl` (crawl.dfy): the two loops of `crawl`.
  - The reading loop turns each `.html` entry into the set of its href
    values, minus its own name.
  - The filter loop keeps only the links that name a page of the corpus.
- `Transition` (transition.dfy): `transition_model`, as a method that fills
  the distribution in a loop. It is specified by the function `Transition`.
- `Iterate` (iterate.dfy): `iterate_pagerank`, as a method with the
  program's loops: the uniform start, the `while condition` loop with its
  nested update pass, and the copy loop. It is specified by `NewRank` applied
  to `Uniform`.

The code sets `condition = False` inside the `while` loop, so the loop body
runs exactly once. The tolerance test after the loop only copies the new
ranks into `rank`. The function's docstring describes iterating until
convergence, but the code as written returns a single update pass from the
uniform start, and the model follows the code.

Probabilities are exact `real`s. Every dictionary loop walks the corpus in
its insertion order, which the model keeps explicitly as `Corpus.order`.

The properties proved:

- The filtered corpus is well formed: every page is listed once, no page
  links to itself, and every link names a page of the corpus.
- `transition_model` gives each page the stated value. For a damping factor
  in [0, 1] and a page whose links are all pages of the corpus, the result
  is a probability distribution over the corpus.
- On a corpus whose links are all pages of the corpus, one update pass
  conserves total rank: when the ranks sum to 1, so do the new ranks. This
  rests on exchanging the order of a double sum.
- For a damping factor in [0, 1], a pass takes a distribution to a
  distribution, so `iterate_pagerank` returns a distribution on any
  non-empty well-formed corpus.
- When the ranks sum to 1, the update pass is exactly one step of the
  random surfer that `transition_model` describes.

## Model

| member | source | states |
|---|---|---|
| Graph.PageCount | pagerank.py:62 | `len(corpus)` equals the number of pages the loops over the corpus visit |
| Crawl.HtmlNames | pagerank.py:34-36 | the keys in insertion order: exactly the listing's `.html` names, in listing order, each once when the listing names each file once |
| Crawl.OwnLinks | pagerank.py:40 | a page's raw link set is exactly its href values other than its own name: nothing else, and never its own name |
| Crawl.ReadLinks | pagerank.py:34-40 | after the reading loop, the keys are the `.html` names, each maps to its href values without its own name, and no page lists itself |
| Crawl.CorpusLinks | pagerank.py:44-47 | the filtered link set is the links of the page that are keys: a subset of both, holding every link that is a key |
| Crawl.KeepCorpusLinks | pagerank.py:43-47 | filtering keeps the key set, only removes links, and keeps exactly the links that name a page of the corpus |
| Crawl.FilterIsWellFormed | pagerank.py:40-47 | dropping the self-link, then filtering, gives a well-formed corpus: pages listed once, no self-links, every link a key |
| Crawl.FilterLinks | pagerank.py:43-47 | the in-place filter loop leaves the dictionary equal to `KeepCorpusLinks` of the dictionary it started from |
| Crawl.Crawl | pagerank.py:34-47 | the reading and filter loops build the corpus with `HtmlNames` as its order and the filtered `ReadLinks` as its links, and it is well formed |
| Transition.Transition | pagerank.py:61-76 | the distribution has exactly the corpus pages as keys |
| Transition.TransitionValues | pagerank.py:64-74 | a linked page gets `(1-d)/N + d/len(corpus[page])`, any other page `(1-d)/N`; from a page without links every page gets `1/N` |
| Transition.TransitionModel | pagerank.py:52-76 | the loops of `transition_model`, including the `+=` on linked pages, build exactly `Transition` |
| Transition.TransitionIsDistribution | pagerank.py:57-74 | with `0 <= d <= 1` and the page's links among the corpus pages, every value lies in [0, 1] and the values sum to 1 |
| Iterate.Uniform | pagerank.py:124-125 | the starting ranks have one entry per corpus page |
| Iterate.NewRank | pagerank.py:130-139 | an update pass has one new rank per corpus page |
| Iterate.CollectInflow | pagerank.py:131-137 | the inner loop's `number` is what the corpus passes to `i`: a share of each linking page's rank and a share of each dangling page's rank |
| Iterate.UpdatePass | pagerank.py:130-139 | the nested loops read only the old ranks and leave `newRank` equal to `NewRank` of them |
| Iterate.CopyRanks | pagerank.py:143-147 | the copy loop leaves every page at its new rank; `condition` is set exactly when some page moved beyond the `isclose` tolerance |
| Iterate.IteratePageRank | pagerank.py:112-149 | the function returns one update pass applied to the uniform start |
| Iterate.Exchange | pagerank.py:130-137 | the inflow summed over receiving pages equals the outflow summed over giving pages |
| Iterate.OutflowIsRank | pagerank.py:133-137 | a page whose links are corpus pages passes on exactly its rank, to its links or, without links, to every page |
| Iterate.InflowIsMass | pagerank.py:130-137 | on a corpus whose links are corpus pages, what flows into all pages adds up to the total rank |
| Iterate.NewRankTotal | pagerank.py:139 | the new ranks add up to `N` jump shares plus `d` times the total inflow |
| Iterate.PassConservesMass | pagerank.py:117-139 | on a corpus whose links are corpus pages, if the ranks sum to 1 the new ranks sum to 1 |
| Iterate.InflowNonNegative | pagerank.py:131-137 | the inflow of a page is not negative when no rank is |
| Iterate.UpdateNonNegative | pagerank.py:139 | with `0 <= d <= 1` and a non-negative inflow, the new rank is not negative |
| Iterate.PassIsDistribution | pagerank.py:117-139 | with `0 <= d <= 1`, a pass takes a probability distribution over the pages to a probability distribution |
| Iterate.UniformIsDistribution | pagerank.py:124-125 | the uniform start on a non-empty corpus is a probability distribution |
| Iterate.IterateIsDistribution | pagerank.py:112-149 | on a non-empty corpus whose links are corpus pages, with `0 <= d <= 1`, every returned value lies in [0, 1] and the values sum to 1 |
| Iterate.ChainSplit | pagerank.py:133-139 | summing `rank[j]` times the transition probability from `j` to `i` gives `d` times the inflow of `i` plus the jump share of the total rank |
| Iterate.PassIsChainStep | pagerank.py:130-139 | when the ranks sum to 1, the new rank of `i` is the sum over `j` of `rank[j]` times `transition_model`'s probability of moving from `j` to `i` |

## Left out

- `main` (pagerank.py:11-22): command-line handling and printing.
- Directory listing, file reading and the href regular expression (pagerank.py:34-39). The model takes as input a listing of entries, each a file name with the href values found in it.
- `sample_pagerank` (pagerank.py:78-110): it depends on random choice. As written it also cannot run, because of the calls at lines 97 and 101 and the dictionary division at line 108.
- Floating point: ranks and probabilities are exact reals. `math.isclose` is modelled on reals with its relative and absolute tolerances. Rounding is not modelled.
- The convergence loop the docstring of `iterate_pagerank` describes: the code runs one pass, and so does the model. Termination of a tolerance-based loop is not modelled.
- Iterate.IterateIsDistribution: stated for a non-empty corpus. On an empty corpus the program returns an empty dictionary, which sums to 0.
- Iterate.PassConservesMass: stated for a corpus whose links are all corpus pages, the invariant that `crawl` establishes. Links outside the corpus would lose rank.
- Transition.TransitionModel and Iterate.IteratePageRank: the dictionaries are values that the loops reassign. Aliasing of the caller's dictionary is not modelled.
