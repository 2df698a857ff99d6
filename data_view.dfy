/** The browsing view: status and text filters over the fetched campaigns,
    the page arithmetic of the table, the summary counts, and the campaigns
    shown in detail for the current page. */
module DataView {
  import opened Text
  import Seqs
  import CampaignSchema

  type Campaign = CampaignSchema.Campaign

  predicate HasStatus(c: Campaign, statuses: seq<string>)
  {
    c.campaignStatus in statuses
  }

  /** `term in name.lower() or term in description.lower()`; the view
      lower-cases the term before it gets here. */
  predicate MatchesSearch(c: Campaign, term: string)
  {
    Contains(Lower(c.campaignName), term) || Contains(Lower(c.description), term)
  }

  /** The status filter as a test: a campaign passes when one of the
      selected statuses is its own. */
  function StatusFilter(statuses: seq<string>): (r: Campaign -> bool)
    ensures forall c :: r(c) <==> exists j :: 0 <= j < |statuses| && statuses[j] == c.campaignStatus
  {
    c => HasStatus(c, statuses)
  }

  /** The search filter as a test: a campaign passes when the term occurs,
      at some position, in its lower-cased name or description. */
  function SearchFilter(term: string): (r: Campaign -> bool)
    ensures forall c :: r(c) <==>
      (exists i :: OccursAt(Lower(c.campaignName), term, i)) ||
      (exists i :: OccursAt(Lower(c.description), term, i))
  {
    ContainsAtEverywhere();
    c => MatchesSearch(c, term)
  }

  /** `filter_campaign_data`: an empty status list and an empty term leave
      their filter out. */
  function FilterCampaigns(cs: seq<Campaign>, statuses: seq<string>, term: string): (r: seq<Campaign>)
    ensures |r| <= |cs|
  {
    var byStatus := if statuses != [] then Seqs.Keep(cs, StatusFilter(statuses)) else cs;
    if term != "" then Seqs.Keep(byStatus, SearchFilter(term)) else byStatus
  }

  /** The campaigns the filters let through, as one test. */
  predicate Passes(c: Campaign, statuses: seq<string>, term: string)
  {
    (statuses == [] || HasStatus(c, statuses)) && MatchesSearch(c, term)
  }

  function PassFilter(statuses: seq<string>, term: string): Campaign -> bool
  {
    c => Passes(c, statuses, term)
  }

  /** The empty term is in every string, so skipping the search for it
      changes nothing. */
  lemma EmptyTermMatchesAll(c: Campaign)
    ensures MatchesSearch(c, "")
  {
    ContainsEmpty(Lower(c.campaignName));
  }

  /** Both filters together are one filter on `Passes`. */
  lemma FilterIsKeep(cs: seq<Campaign>, statuses: seq<string>, term: string)
    ensures FilterCampaigns(cs, statuses, term) == Seqs.Keep(cs, PassFilter(statuses, term))
  {
    var passes := PassFilter(statuses, term);
    forall i | 0 <= i < |cs|
      ensures MatchesSearch(cs[i], "")
    {
      EmptyTermMatchesAll(cs[i]);
    }
    if statuses != [] && term != "" {
      Seqs.KeepKeep(cs, StatusFilter(statuses), SearchFilter(term), passes);
    } else if statuses != [] {
      Seqs.KeepCongruent(cs, StatusFilter(statuses), passes);
    } else if term != "" {
      Seqs.KeepCongruent(cs, SearchFilter(term), passes);
    } else {
      Seqs.KeepAll(cs, passes);
    }
  }

  /** With no status selected and no search term the list is unchanged. */
  lemma NoCriteriaKeepsAll(cs: seq<Campaign>)
    ensures FilterCampaigns(cs, [], "") == cs
  {
  }

  /** The filtered list keeps the fetched order. */
  lemma FilterKeepsOrder(cs: seq<Campaign>, statuses: seq<string>, term: string)
    ensures Seqs.IsSubsequence(FilterCampaigns(cs, statuses, term), cs)
  {
    FilterIsKeep(cs, statuses, term);
    Seqs.KeepIsSubsequence(cs, PassFilter(statuses, term));
  }

  /** Every campaign in the filtered list passes both filters. */
  lemma FilterSound(cs: seq<Campaign>, statuses: seq<string>, term: string)
    ensures forall i :: 0 <= i < |FilterCampaigns(cs, statuses, term)| ==>
      Passes(FilterCampaigns(cs, statuses, term)[i], statuses, term)
  {
    FilterIsKeep(cs, statuses, term);
  }

  /** No campaign that passes is dropped: each campaign occurs in the
      filtered list as often as it was fetched if it passes, and not at all
      otherwise. */
  lemma FilterComplete(cs: seq<Campaign>, statuses: seq<string>, term: string, c: Campaign)
    ensures multiset(FilterCampaigns(cs, statuses, term))[c] ==
      if Passes(c, statuses, term) then multiset(cs)[c] else 0
  {
    FilterIsKeep(cs, statuses, term);
    Seqs.KeepCounts(cs, PassFilter(statuses, term), c);
  }

  /** `n_pages`: the number of rows divided by the page size, rounded up. */
  /** `total_pages`: zero only when there is no row. */
  function PageCount(n: nat, size: nat): (r: nat)
    requires size > 0
    ensures n > 0 <==> r > 0
  {
    n / size + (if n % size > 0 then 1 else 0)
  }

  /** The page count is the least number of pages that hold every row. */
  lemma PageCountIsCeiling(n: nat, size: nat)
    requires size > 0
    ensures PageCount(n, size) * size >= n
    ensures PageCount(n, size) == 0 || (PageCount(n, size) - 1) * size < n
  {
    var q, r := n / size, n % size;
    assert n == q * size + r && 0 <= r < size;
    if r > 0 {
      MulSucc(q, size);
    } else if q > 0 {
      MulSucc(q - 1, size);
      MulMono(1, q, size);
    }
  }

  /** One more row of `size`. */
  lemma MulSucc(k: nat, size: nat)
    ensures k * size + size == (k + 1) * size
  {
  }

  /** Fewer rows of the same size take no more room. */
  lemma MulMono(a: nat, b: nat, size: nat)
    requires a <= b
    ensures a * size <= b * size
  {
    var d := b - a;
    assert b * size == a * size + d * size;
  }

  /** `start_idx` and `end_idx` of a page. */
  function PageStart(size: nat, page: nat): nat
    requires page >= 1
  {
    (page - 1) * size
  }

  function PageEnd(n: nat, size: nat, page: nat): nat
    requires page >= 1
  {
    if PageStart(size, page) + size < n then PageStart(size, page) + size else n
  }

  /** A page the page selector allows starts inside the rows and holds at
      most `size` of them. */
  lemma PageBounds(n: nat, size: nat, page: nat)
    requires size > 0 && 1 <= page <= PageCount(n, size)
    ensures PageStart(size, page) < PageEnd(n, size, page) <= n
    ensures PageEnd(n, size, page) - PageStart(size, page) <= size
    ensures PageEnd(n, size, page) == if page * size < n then page * size else n
  {
    PageCountIsCeiling(n, size);
    MulMono(page - 1, PageCount(n, size) - 1, size);
    MulSucc(page - 1, size);
  }

  /** `df.iloc[start_idx:end_idx]` for a page the page selector allows. */
  function Page<T>(rows: seq<T>, size: nat, page: nat): (r: seq<T>)
    requires size > 0 && 1 <= page <= PageCount(|rows|, size)
    ensures 0 < |r| <= size
    ensures r == rows[PageStart(size, page)..PageEnd(|rows|, size, page)]
  {
    PageBounds(|rows|, size, page);
    rows[PageStart(size, page)..PageEnd(|rows|, size, page)]
  }

  /** Pages `1` to `k` one after another. */
  function PagesUpTo<T>(rows: seq<T>, size: nat, k: nat): seq<T>
    requires size > 0 && k <= PageCount(|rows|, size)
  {
    if k == 0 then [] else PagesUpTo(rows, size, k - 1) + Page(rows, size, k)
  }

  /** The first `k` pages are the first `k * size` rows (or all of them). */
  lemma {:induction false} PagesUpToPrefix<T>(rows: seq<T>, size: nat, k: nat)
    requires size > 0 && k <= PageCount(|rows|, size)
    ensures PagesUpTo(rows, size, k) == rows[..if k * size < |rows| then k * size else |rows|]
  {
    if k > 0 {
      PagesUpToPrefix(rows, size, k - 1);
      PageBounds(|rows|, size, k);
      var start, end := PageStart(size, k), PageEnd(|rows|, size, k);
      assert (k - 1) * size == start;
      assert rows[..start] + rows[start..end] == rows[..end];
    }
  }

  /** Reading every page in turn shows every filtered row once, in order,
      with no gap and no repeat. */
  lemma PagesCoverRows<T>(rows: seq<T>, size: nat)
    requires size > 0
    ensures PagesUpTo(rows, size, PageCount(|rows|, size)) == rows
  {
    PagesUpToPrefix(rows, size, PageCount(|rows|, size));
    PageCountIsCeiling(|rows|, size);
  }

  /** The identifying columns of `flatten_campaign_data`; the formatted
      money and percentage columns are not part of this model. */
  datatype FlatCampaign = FlatCampaign(
    campaignId: string,
    campaignName: string,
    description: string,
    campaignGoal: string,
    targetAudienceCriteria: string,
    overallStartDate: string,
    overallEndDate: string,
    campaignStatus: string)

  function Flatten(c: Campaign): (r: FlatCampaign)
    ensures r.campaignId == c.campaignId && r.campaignStatus == c.campaignStatus
  {
    FlatCampaign(c.campaignId, c.campaignName, c.description, c.campaignGoal,
      c.targetAudienceCriteria, c.overallStartDate, c.overallEndDate, c.campaignStatus)
  }

  /** The two counts of `display_summary_metrics` this model covers. */
  datatype Summary = Summary(total: nat, active: nat)

  predicate IsActive(r: FlatCampaign)
  {
    r.campaignStatus == "Active"
  }

  function Summarize(rows: seq<FlatCampaign>): (s: Summary)
    ensures s.total == |rows| && s.active <= s.total
  {
    Summary(|rows|, Seqs.Count(rows, IsActive))
  }

  predicate CampaignActive(c: Campaign)
  {
    c.campaignStatus == "Active"
  }

  predicate CampaignNotActive(c: Campaign)
  {
    c.campaignStatus != "Active"
  }

  /** Over the filtered campaigns, the total is their number and the active
      count is the number whose status is exactly "Active"; every other
      campaign is counted as not active. */
  lemma SummaryOfFiltered(cs: seq<Campaign>)
    ensures Summarize(Seqs.Map(cs, Flatten)).total == |cs|
    ensures Summarize(Seqs.Map(cs, Flatten)).active == Seqs.Count(cs, CampaignActive)
    ensures Summarize(Seqs.Map(cs, Flatten)).active + Seqs.Count(cs, CampaignNotActive) == |cs|
  {
    Seqs.KeepMap(cs, Flatten, IsActive, CampaignActive);
    Seqs.CountSplit(cs, CampaignActive, CampaignNotActive);
  }

  /** `campaign_id` values shown on a page. */
  predicate OnPage(id: string, page: seq<FlatCampaign>)
  {
    exists j :: 0 <= j < |page| && page[j].campaignId == id
  }

  function SelectFilter(page: seq<FlatCampaign>): Campaign -> bool
  {
    (c: Campaign) => OnPage(c.campaignId, page)
  }

  /** The campaigns shown in detail: the filtered campaigns whose id occurs
      on the current page, in filtered order. */
  function Selected(cs: seq<Campaign>, page: seq<FlatCampaign>): (r: seq<Campaign>)
    ensures forall i :: 0 <= i < |r| ==> OnPage(r[i].campaignId, page)
  {
    Seqs.Keep(cs, SelectFilter(page))
  }

  /** The table rows of the current page, flattened from the filtered
      campaigns. */
  function Shown(cs: seq<Campaign>, size: nat, page: nat): (r: seq<FlatCampaign>)
    requires size > 0 && 1 <= page <= PageCount(|cs|, size)
    ensures |r| == PageEnd(|cs|, size, page) - PageStart(size, page)
    ensures forall j :: 0 <= j < |r| ==>
      PageStart(size, page) + j < |cs| && r[j] == Flatten(cs[PageStart(size, page) + j])
  {
    PageBounds(|cs|, size, page);
    Page(Seqs.Map(cs, Flatten), size, page)
  }

  predicate DistinctIds(cs: seq<Campaign>)
  {
    forall i, j :: 0 <= i < j < |cs| ==> cs[i].campaignId != cs[j].campaignId
  }

  /** With distinct ids a campaign's id is on the page exactly when the
      campaign itself is. */
  lemma OnPageIffInPage(cs: seq<Campaign>, size: nat, page: nat, i: nat)
    requires size > 0 && 1 <= page <= PageCount(|cs|, size)
    requires DistinctIds(cs) && i < |cs|
    ensures OnPage(cs[i].campaignId, Shown(cs, size, page)) <==>
      PageStart(size, page) <= i < PageEnd(|cs|, size, page)
  {
    var shown := Shown(cs, size, page);
    var a := PageStart(size, page);
    if a <= i < PageEnd(|cs|, size, page) {
      assert shown[i - a].campaignId == cs[i].campaignId;
    }
    if OnPage(cs[i].campaignId, shown) {
      var j :| 0 <= j < |shown| && shown[j].campaignId == cs[i].campaignId;
      assert cs[a + j].campaignId == cs[i].campaignId;
    }
  }

  /** With distinct ids the detailed list is exactly the campaigns of the
      current page. */
  lemma SelectedIsPage(cs: seq<Campaign>, size: nat, page: nat)
    requires size > 0 && 1 <= page <= PageCount(|cs|, size)
    requires DistinctIds(cs)
    ensures Selected(cs, Shown(cs, size, page)) == cs[PageStart(size, page)..PageEnd(|cs|, size, page)]
  {
    var shown := Shown(cs, size, page);
    var a, b := PageStart(size, page), PageEnd(|cs|, size, page);
    forall i | 0 <= i < |cs|
      ensures SelectFilter(shown)(cs[i]) <==> a <= i < b
    {
      OnPageIffInPage(cs, size, page, i);
    }
    PageBounds(|cs|, size, page);
    Seqs.KeepRange(cs, SelectFilter(shown), a, b);
  }

  /** Without distinct ids the detailed list can reach past the page: a
      campaign anywhere in the filtered list is shown whenever a campaign
      with the same id is on the page. */
  lemma SharedIdIsSelected(cs: seq<Campaign>, size: nat, page: nat, i: nat, j: nat)
    requires size > 0 && 1 <= page <= PageCount(|cs|, size)
    requires PageStart(size, page) <= i < PageEnd(|cs|, size, page) && j < |cs|
    requires cs[i].campaignId == cs[j].campaignId
    ensures cs[j] in Selected(cs, Shown(cs, size, page))
  {
    var shown := Shown(cs, size, page);
    assert shown[i - PageStart(size, page)] == Flatten(cs[i]);
    Seqs.KeepCounts(cs, SelectFilter(shown), cs[j]);
    assert cs[j] in multiset(cs);
  }
}
