/**
 * The enhanced admin console's statistics cards: main pages, subpages,
 * configured subpages, categorised pages and the slots left under the
 * advertised capacity, all computed from the stored enhanced pages.
 */
module EnhancedAdminStats {
  import opened Basics
  import opened Seqs
  import opened PageTypes
  import opened EnhancedManagePages

  /** The subpages whose embed URL is set (a non-empty string). */
  function Configured(subs: seq<SubPage>): (r: seq<SubPage>)
    ensures |r| <= |subs|
    ensures forall i :: 0 <= i < |r| ==> r[i] in subs && r[i].embedUrl != ""
    ensures forall i :: 0 <= i < |subs| && subs[i].embedUrl != "" ==> subs[i] in r
  {
    Filter(subs, (sp: SubPage) => sp.embedUrl != "")
  }

  /** `totalSubPages`: the subpage lists' lengths, summed over the pages. */
  function TotalSubPages(pages: seq<MainPage>): nat {
    if pages == [] then 0 else |pages[0].subPages| + TotalSubPages(pages[1..])
  }

  /** `configuredSubPages`: the configured subpages, summed over the pages; never more than all of them. */
  function ConfiguredSubPages(pages: seq<MainPage>): (n: nat)
    ensures n <= TotalSubPages(pages)
    ensures TotalSubPages(pages) == 0 ==> n == 0
  {
    if pages == [] then 0 else |Configured(pages[0].subPages)| + ConfiguredSubPages(pages[1..])
  }

  /** Both sums distribute over concatenation: a page added at the end adds exactly its own subpages. */
  lemma {:induction false} SumsAppend(a: seq<MainPage>, b: seq<MainPage>)
    ensures TotalSubPages(a + b) == TotalSubPages(a) + TotalSubPages(b)
    ensures ConfiguredSubPages(a + b) == ConfiguredSubPages(a) + ConfiguredSubPages(b)
  {
    if a == [] {
      assert a + b == b;
    } else {
      assert (a + b)[0] == a[0] && (a + b)[1..] == a[1..] + b;
      SumsAppend(a[1..], b);
    }
  }

  /** The page-management header's "two subpages per page" agrees with the real sum when every page has exactly two. */
  lemma {:induction false} TwoPerPageMatchesHeader(pages: seq<MainPage>)
    requires forall i :: 0 <= i < |pages| ==> |pages[i].subPages| == 2
    ensures TotalSubPages(pages) == SubPageTotalShown(pages)
  {
    if pages != [] {
      TwoPerPageMatchesHeader(pages[1..]);
    }
  }

  /** The header and the real sum part ways as soon as one page does not have two subpages. */
  lemma HeaderCanDisagree(p: MainPage)
    requires |p.subPages| != 2
    ensures TotalSubPages([p]) != SubPageTotalShown([p])
  {
    assert [p][1..] == [];
  }

  datatype Stats = Stats(
    totalPages: nat,
    totalSubPages: nat,
    configuredSubPages: nat,
    categorizedPages: nat,
    remainingSlots: nat)

  /** `loadStats`: the five counters; configured and categorised are bounded by their totals, and slots never go negative. */
  function LoadStats(pages: seq<MainPage>): (r: Stats)
    ensures r.totalPages == |pages|
    ensures r.totalSubPages == TotalSubPages(pages) && r.configuredSubPages == ConfiguredSubPages(pages)
    ensures r.categorizedPages == CategorizedCount(pages)
    ensures r.configuredSubPages <= r.totalSubPages
    ensures r.categorizedPages <= r.totalPages
    ensures r.remainingSlots == Max(0, 15 - |pages|)
  {
    Stats(|pages|, TotalSubPages(pages), ConfiguredSubPages(pages), CategorizedCount(pages),
          RemainingSlots(|pages|))
  }

  /** Creating one more page moves every card by exactly that page's own contribution. */
  lemma {:induction false} LoadStatsAfterCreate(pages: seq<MainPage>, p: MainPage)
    ensures var before := LoadStats(pages);
      var after := LoadStats(pages + [p]);
      after.totalPages == before.totalPages + 1 &&
      after.totalSubPages == before.totalSubPages + |p.subPages| &&
      after.configuredSubPages == before.configuredSubPages + |Configured(p.subPages)| &&
      after.categorizedPages == before.categorizedPages + (if p.classification != "" then 1 else 0) &&
      after.remainingSlots == Max(0, before.remainingSlots - 1)
  {
    SumsAppend(pages, [p]);
    assert [p][1..] == [];
    CategorizedCountAppend(pages, p);
  }

  /** Before anything is loaded the cards show zeros and fifteen free slots, which is what an empty store computes. */
  lemma EmptyStoreMatchesInitialState()
    ensures LoadStats([]) == Stats(0, 0, 0, 0, 15)
  {
  }
}
