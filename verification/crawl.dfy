/**
 The link filter of `crawl`: how the corpus is built from the HTML files of
 a directory. Listing the directory, reading each file and extracting the
 href values of its anchors are input to the model; what `crawl` does with
 those values (drop the self-link, then keep only links to pages of the
 corpus) is modelled step by step.
 */
module Crawl {
  import opened Graph

  /**
   One entry of the directory listing: its file name, and the href values
   that the anchor pattern finds in the file's contents, in order.
   */
  datatype Entry = Entry(name: string, hrefs: seq<string>)

  /** The file name ends in ".html". */
  predicate IsHtml(name: string) {
    |name| >= 5 && name[|name| - 5..] == ".html"
  }

  /** A directory listing names each file once. */
  predicate DistinctNames(listing: seq<Entry>) {
    forall a, b :: 0 <= a < b < |listing| ==> listing[a].name != listing[b].name
  }

  /** The HTML files of the listing, in listing order: the key order of the corpus. */
  function HtmlNames(listing: seq<Entry>): (names: seq<Page>)
    ensures forall p :: p in names ==> IsHtml(p)
    ensures forall p :: p in names ==> exists k :: 0 <= k < |listing| && listing[k].name == p
    ensures forall k :: 0 <= k < |listing| && IsHtml(listing[k].name) ==> listing[k].name in names
    ensures DistinctNames(listing) ==> Distinct(names)
  {
    if listing == [] then []
    else
      var init, e := listing[..|listing| - 1], listing[|listing| - 1];
      var before := HtmlNames(init);
      assert forall k :: 0 <= k < |init| ==> init[k] == listing[k];
      assert DistinctNames(listing) && IsHtml(e.name) ==> Distinct(before + [e.name]) by {
        if DistinctNames(listing) && IsHtml(e.name) {
          assert DistinctNames(init);
          DistinctSnoc(before, e.name);
        }
      }
      before + (if IsHtml(e.name) then [e.name] else [])
  }

  /** The set of href values, without the file's own name. */
  function OwnLinks(e: Entry): (out: set<Page>)
    ensures e.name !in out
    ensures forall l :: l in out ==> l in e.hrefs
    ensures forall l :: l in e.hrefs && l != e.name ==> l in out
  {
    (set l | l in e.hrefs) - {e.name}
  }

  /**
   The dictionary after the reading loop: each HTML file maps to the set
   of its href values, without its own name.
   */
  function ReadLinks(listing: seq<Entry>): (pages: map<Page, set<Page>>)
    ensures pages.Keys == Members(HtmlNames(listing))
    ensures forall f :: f in pages ==> f !in pages[f]
    ensures DistinctNames(listing) ==>
      forall k :: 0 <= k < |listing| && IsHtml(listing[k].name) ==> pages[listing[k].name] == OwnLinks(listing[k])
  {
    if listing == [] then map[]
    else
      var init, e := listing[..|listing| - 1], listing[|listing| - 1];
      var before := ReadLinks(init);
      assert forall k :: 0 <= k < |init| ==> init[k] == listing[k];
      assert HtmlNames(listing) == HtmlNames(init) + (if IsHtml(e.name) then [e.name] else []);
      MembersSnoc(HtmlNames(init), e.name);
      if IsHtml(e.name) then before[e.name := OwnLinks(e)] else before
  }

  /** The links of `links` that name a page of the dictionary `pages`. */
  function CorpusLinks(links: set<Page>, pages: map<Page, set<Page>>): (kept: set<Page>)
    ensures kept <= links && kept <= pages.Keys
    ensures forall l :: l in links && l in pages ==> l in kept
  {
    set l | l in links && l in pages
  }

  /**
   The filter loop of `crawl` (pagerank.py, lines 43-47): every page keeps exactly those of its links that
   name a page of the corpus; the pages themselves are unchanged.
   */
  function KeepCorpusLinks(pages: map<Page, set<Page>>): (kept: map<Page, set<Page>>)
    ensures kept.Keys == pages.Keys
    ensures forall f :: f in kept ==> kept[f] <= pages[f] && kept[f] <= pages.Keys
    ensures forall f, l :: f in pages && l in pages[f] && l in pages ==> l in kept[f]
  {
    map f | f in pages :: CorpusLinks(pages[f], pages)
  }

  /**
   Filtering a dictionary without self-links, listed in a key order, gives a
   well-formed corpus.
   */
  lemma FilterIsWellFormed(order: seq<Page>, pages: map<Page, set<Page>>)
    requires Distinct(order) && pages.Keys == Members(order)
    requires forall f :: f in pages ==> f !in pages[f]
    ensures WellFormed(Corpus(order, KeepCorpusLinks(pages)))
  {
  }

  /**
   `crawl` from the directory listing on: the reading loop (pagerank.py, lines 34-40,
   with the file contents already reduced to their href values) and the
   filter loop (pagerank.py, lines 43-47).
   */
  method Crawl(listing: seq<Entry>) returns (corpus: Corpus)
    requires DistinctNames(listing)
    ensures corpus.order == HtmlNames(listing)
    ensures corpus.links == KeepCorpusLinks(ReadLinks(listing))
    ensures WellFormed(corpus)
  {
    var order: seq<Page> := [];
    var pages: map<Page, set<Page>> := map[];
    for k := 0 to |listing|
      invariant order == HtmlNames(listing[..k])
      invariant pages == ReadLinks(listing[..k])
    {
      var e := listing[k];
      ReadStep(listing, k);
      if !IsHtml(e.name) {
        continue;
      }
      pages := pages[e.name := OwnLinks(e)];
      order := order + [e.name];
    }
    assert listing[..|listing|] == listing;
    pages := FilterLinks(order, pages);
    FilterIsWellFormed(order, ReadLinks(listing));
    corpus := Corpus(order, pages);
  }

  /** One turn of the reading loop: entry `k` is added when it is an HTML file. */
  lemma ReadStep(listing: seq<Entry>, k: nat)
    requires k < |listing|
    ensures HtmlNames(listing[..k + 1])
         == HtmlNames(listing[..k]) + (if IsHtml(listing[k].name) then [listing[k].name] else [])
    ensures ReadLinks(listing[..k + 1])
         == if IsHtml(listing[k].name) then ReadLinks(listing[..k])[listing[k].name := OwnLinks(listing[k])]
            else ReadLinks(listing[..k])
  {
    assert listing[..k + 1][..k] == listing[..k];
  }

  /**
   The filter loop of `crawl` (pagerank.py, lines 43-47): each page in turn has its link
   set replaced by the links that name a page of the dictionary. The keys do
   not change while the loop runs, so every page is filtered against the
   same set of pages.
   */
  method FilterLinks(order: seq<Page>, pages: map<Page, set<Page>>) returns (kept: map<Page, set<Page>>)
    requires Distinct(order) && pages.Keys == Members(order)
    ensures kept == KeepCorpusLinks(pages)
  {
    kept := pages;
    for k := 0 to |order|
      invariant FilteredUpTo(order, pages, kept, k)
    {
      var filename := order[k];
      FilterStep(order, pages, kept, k);
      kept := kept[filename := CorpusLinks(kept[filename], kept)];
    }
    FilterDone(order, pages, kept);
  }

  /**
   The filter loop after `k` pages: those pages hold their filtered links,
   the others their links as read.
   */
  predicate FilteredUpTo(order: seq<Page>, pages: map<Page, set<Page>>, kept: map<Page, set<Page>>, k: nat)
    requires pages.Keys == Members(order) && k <= |order|
  {
    && kept.Keys == pages.Keys
    && (forall j :: 0 <= j < k ==> kept[order[j]] == CorpusLinks(pages[order[j]], pages))
    && (forall j :: k <= j < |order| ==> kept[order[j]] == pages[order[j]])
  }

  lemma FilterStep(order: seq<Page>, pages: map<Page, set<Page>>, kept: map<Page, set<Page>>, k: nat)
    requires Distinct(order) && pages.Keys == Members(order) && k < |order|
    requires FilteredUpTo(order, pages, kept, k)
    ensures order[k] in kept
    ensures FilteredUpTo(order, pages, kept[order[k] := CorpusLinks(kept[order[k]], kept)], k + 1)
  {
  }

  lemma FilterDone(order: seq<Page>, pages: map<Page, set<Page>>, kept: map<Page, set<Page>>)
    requires pages.Keys == Members(order)
    requires FilteredUpTo(order, pages, kept, |order|)
    ensures kept == KeepCorpusLinks(pages)
  {
    forall f | f in kept
      ensures kept[f] == KeepCorpusLinks(pages)[f]
    {
      var j :| 0 <= j < |order| && order[j] == f;
    }
  }
}
