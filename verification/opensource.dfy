/** The open-source section: the statistics shown above the pull-request
    cards, the labels each card shows, and the key each card is rendered
    under.

    The three GitHub search requests are not performed here: each one's
    outcome is an input. A response is either ok (with the fields of its JSON
    body the code reads), not ok, or the request threw (the fetch rejected,
    the body was not JSON, or a field the code dereferences was missing). */
module OpenSource {
  import opened Wrappers
  import opened Collections
  import opened Decimal
  import opened PullRequests
  import opened RepoPattern

  /** The component state `githubStats`. */
  datatype Stats = Stats(
    totalPRs: nat,
    mergedPRs: nat,
    organizations: nat,
    reposContributed: nat,
    isLoading: bool)

  /** The state before the effect runs: nothing counted yet, and already
      loading, so the effect's first update leaves it as it is. */
  function InitialStats(): (s: Stats)
    ensures s.isLoading
    ensures StartLoading(s) == s
  {
    Stats(0, 0, 0, 0, true)
  }

  /** The outcome of one search request: `total_count` and the
      `repository_url` of each item for an ok response. */
  datatype Response =
    | Ok(totalCount: nat, repositoryUrls: seq<string>)
    | NotOk
    | Threw

  /* Counting from the compiled-in records. */

  /** The state the page falls back on: every count taken from the records. */
  function FallbackStats(prs: seq<PullRequest>): (s: Stats)
    ensures !s.isLoading
    ensures s.totalPRs == |prs|
    ensures s.mergedPRs <= s.totalPRs
    ensures s.organizations <= s.totalPRs && s.reposContributed <= s.totalPRs
  {
    ElementsOfBounded(Organizations(prs));
    ElementsOfBounded(Repos(prs));
    Stats(
      |prs|,
      CountStatus(prs, Merged),
      |ElementsOf(Organizations(prs))|,
      |ElementsOf(Repos(prs))|,
      false)
  }

  /** No fallback count exceeds the number of records. */
  lemma FallbackBounded(prs: seq<PullRequest>)
    ensures FallbackStats(prs).mergedPRs <= FallbackStats(prs).totalPRs
    ensures FallbackStats(prs).organizations <= FallbackStats(prs).totalPRs
    ensures FallbackStats(prs).reposContributed <= FallbackStats(prs).totalPRs
    ensures FallbackStats(prs).totalPRs == 0 <==> FallbackStats(prs).reposContributed == 0
  {
    ElementsOfEmpty(Repos(prs));
  }

  /** With the compiled-in records the fallback shows 12 pull requests, 10
      merged, 3 organisations and 3 repositories. */
  lemma FixtureFallback()
    ensures FallbackStats(Fixture()) == Stats(12, 10, 3, 3, false)
  {
    FixtureStatusCounts();
    FixtureRepos();
    FixtureOrganizations();
  }

  /* Counting from a live search result. */

  /** `items.map(pr => match ? match[1] : null).filter(Boolean)`: the
      organisation segments of the URLs that have one, in order. */
  function OrgSegments(urls: seq<string>): (gs: seq<string>)
    ensures |gs| <= |urls|
    ensures forall i | 0 <= i < |gs| :: gs[i] != "" && '/' !in gs[i]
  {
    if urls == [] then []
    else
      (match OrgOf(urls[0])
       case Some(g) => if g != "" then [g] else []
       case None => [])
      + OrgSegments(urls[1..])
  }

  /** A name is among the segments exactly when some URL yields it. */
  lemma {:induction false} OrgSegmentsElements(urls: seq<string>, g: string)
    ensures g in OrgSegments(urls) <==> exists u | u in urls :: OrgOf(u) == Some(g)
  {
    if urls != [] {
      OrgSegmentsElements(urls[1..], g);
      assert forall u | u in urls :: u == urls[0] || u in urls[1..];
    }
  }

  /** The organisation a URL yields, or the empty string when it yields none. */
  function OrgKey(url: string): string {
    match OrgOf(url)
    case Some(g) => g
    case None => ""
  }

  /** Each organisation is read off one URL, so there are no more distinct
      organisations than distinct URLs. */
  lemma LiveOrgsBounded(urls: seq<string>)
    ensures |ElementsOf(OrgSegments(urls))| <= |ElementsOf(urls)|
  {
    var names := ElementsOf(OrgSegments(urls));
    var key: string -> string := OrgKey;
    var image := Image(ElementsOf(urls), key);
    forall g | g in names
      ensures g in image
    {
      OrgSegmentsElements(urls, g);
      var u :| u in urls && OrgOf(u) == Some(g);
      assert u in ElementsOf(urls) && key(u) == g;
    }
    SubsetBounded(names, image);
    ImageBounded(ElementsOf(urls), key);
  }

  /** The organisations a list of URLs names: every capture of the pattern
      over the list, each once. */
  function LiveOrganizations(urls: seq<string>): set<string> {
    set u | u in urls && OrgOf(u).Some? :: OrgOf(u).value
  }

  /** `new Set(orgs)` holds exactly the organisations the URLs name. */
  lemma OrgSegmentsNames(urls: seq<string>)
    ensures ElementsOf(OrgSegments(urls)) == LiveOrganizations(urls)
  {
    forall g
      ensures g in ElementsOf(OrgSegments(urls)) <==> g in LiveOrganizations(urls)
    {
      OrgSegmentsElements(urls, g);
      if g in LiveOrganizations(urls) {
        var u :| u in urls && OrgOf(u).Some? && OrgOf(u).value == g;
        assert OrgOf(u) == Some(g);
      }
    }
  }

  /* The effect `fetchGitHubStats`. */

  /** The first statement of the try block. */
  function StartLoading(prev: Stats): (s: Stats)
    ensures s.isLoading
    ensures s.(isLoading := prev.isLoading) == prev
  {
    prev.(isLoading := true)
  }

  /** The final `setGithubStats` of every path: all five fields replaced. */
  function Settle(prev: Stats, total: nat, merged: nat, orgs: nat, repos: nat): Stats {
    prev.(totalPRs := total, mergedPRs := merged, organizations := orgs,
          reposContributed := repos, isLoading := false)
  }

  /** The state after the effect, given the state before it, the records,
      and the outcomes of the primary, merged and all-pull-requests searches
      in the order they are awaited. */
  function FetchStats(prev: Stats, prs: seq<PullRequest>, primary: Response, merged: Response, all: Response): (s: Stats)
    ensures !s.isLoading
    ensures !LiveRun(primary, merged, all) ==> s == FallbackStats(prs)
    ensures LiveRun(primary, merged, all) ==>
      && s.totalPRs == primary.totalCount
      && s.mergedPRs == (if merged.Ok? then merged.totalCount else 0)
      && (all.NotOk? ==> s.organizations == 0 && s.reposContributed == 0)
  {
    var loading := StartLoading(prev);
    var fallback := FallbackStats(prs);
    var caught := Settle(loading, fallback.totalPRs, fallback.mergedPRs,
                         fallback.organizations, fallback.reposContributed);
    match primary
    case Threw => caught
    case NotOk =>
      Settle(loading, fallback.totalPRs, fallback.mergedPRs,
             fallback.organizations, fallback.reposContributed)
    case Ok(totalPRs, _) =>
      if merged.Threw? then caught
      else
        var mergedPRs := if merged.Ok? then merged.totalCount else 0;
        match all
        case Threw => caught
        case NotOk => Settle(loading, totalPRs, mergedPRs, 0, 0)
        case Ok(_, urls) =>
          Settle(loading, totalPRs, mergedPRs,
                 |ElementsOf(OrgSegments(urls))|, |ElementsOf(urls)|)
  }

  /** The live path: the primary search answered ok and no later request
      threw. */
  predicate LiveRun(primary: Response, merged: Response, all: Response) {
    primary.Ok? && !merged.Threw? && !all.Threw?
  }

  /** Every path ends with loading switched off, and nothing of the earlier
      state survives. */
  lemma FetchSettles(prev: Stats, prev': Stats, prs: seq<PullRequest>, primary: Response, merged: Response, all: Response)
    ensures !FetchStats(prev, prs, primary, merged, all).isLoading
    ensures FetchStats(prev, prs, primary, merged, all) == FetchStats(prev', prs, primary, merged, all)
  {
  }

  /** A primary response that is not ok, and an exception anywhere, both end
      in the very same state: the fallback counts. Live values fetched before
      the exception are discarded. */
  lemma FetchFallback(prev: Stats, prs: seq<PullRequest>, primary: Response, merged: Response, all: Response)
    requires !LiveRun(primary, merged, all)
    ensures FetchStats(prev, prs, primary, merged, all) == FallbackStats(prs)
  {
  }

  /** On the live path the total is the primary `total_count`, whatever the
      other two searches answer. */
  lemma FetchLiveTotal(prev: Stats, prs: seq<PullRequest>, primary: Response, merged: Response, all: Response)
    requires LiveRun(primary, merged, all)
    ensures FetchStats(prev, prs, primary, merged, all).totalPRs == primary.totalCount
  {
  }

  /** A merged search that is not ok counts zero merged, and the total still
      comes from the primary search. */
  lemma FetchMergedNotOk(prev: Stats, prs: seq<PullRequest>, primary: Response, all: Response)
    requires primary.Ok? && !all.Threw?
    ensures FetchStats(prev, prs, primary, NotOk, all).mergedPRs == 0
    ensures FetchStats(prev, prs, primary, NotOk, all).totalPRs == primary.totalCount
  {
  }

  /** A third search that is not ok zeroes the organisations and
      repositories and leaves total and merged as an ok one would. */
  lemma FetchAllNotOk(prev: Stats, prs: seq<PullRequest>, primary: Response, merged: Response, all: Response)
    requires primary.Ok? && !merged.Threw? && all.Ok?
    ensures FetchStats(prev, prs, primary, merged, NotOk).organizations == 0
    ensures FetchStats(prev, prs, primary, merged, NotOk).reposContributed == 0
    ensures FetchStats(prev, prs, primary, merged, NotOk).totalPRs
         == FetchStats(prev, prs, primary, merged, all).totalPRs
    ensures FetchStats(prev, prs, primary, merged, NotOk).mergedPRs
         == FetchStats(prev, prs, primary, merged, all).mergedPRs
  {
  }

  /** The outcomes of requests that are never made (after a primary that is
      not ok or threw, or after a merged search that threw) cannot matter. */
  lemma FetchUnreached(prev: Stats, prs: seq<PullRequest>, primary: Response, merged: Response, all: Response,
                       merged': Response, all': Response)
    ensures !primary.Ok? ==>
      FetchStats(prev, prs, primary, merged, all) == FetchStats(prev, prs, primary, merged', all')
    ensures primary.Ok? && merged.Threw? ==>
      FetchStats(prev, prs, primary, merged, all) == FetchStats(prev, prs, primary, merged, all')
  {
  }

  /** The counts of the live path: merged from the merged search when it is
      ok, and, when the third search is ok, the distinct repository URLs and
      the distinct organisations they name. */
  lemma FetchLiveCounts(prev: Stats, prs: seq<PullRequest>, primary: Response, merged: Response, all: Response)
    requires LiveRun(primary, merged, all)
    ensures merged.Ok? ==> FetchStats(prev, prs, primary, merged, all).mergedPRs == merged.totalCount
    ensures all.Ok? ==>
      FetchStats(prev, prs, primary, merged, all).reposContributed == |ElementsOf(all.repositoryUrls)|
    ensures all.Ok? ==>
      FetchStats(prev, prs, primary, merged, all).organizations == |LiveOrganizations(all.repositoryUrls)|
  {
    if all.Ok? {
      OrgSegmentsNames(all.repositoryUrls);
    }
  }

  /** On the live path there are never more organisations than
      repositories. */
  lemma FetchLiveOrgsBounded(prev: Stats, prs: seq<PullRequest>, primary: Response, merged: Response, all: Response)
    requires LiveRun(primary, merged, all)
    ensures FetchStats(prev, prs, primary, merged, all).organizations
         <= FetchStats(prev, prs, primary, merged, all).reposContributed
  {
    if all.Ok? {
      LiveOrgsBounded(all.repositoryUrls);
    }
  }

  /** On every path the merged, organisation and repository counts are
      bounded by the total whenever the fallback is taken. */
  lemma FetchFallbackBounded(prev: Stats, prs: seq<PullRequest>, primary: Response, merged: Response, all: Response)
    requires !LiveRun(primary, merged, all)
    ensures FetchStats(prev, prs, primary, merged, all).mergedPRs
         <= FetchStats(prev, prs, primary, merged, all).totalPRs
    ensures FetchStats(prev, prs, primary, merged, all).organizations
         <= FetchStats(prev, prs, primary, merged, all).totalPRs
    ensures FetchStats(prev, prs, primary, merged, all).reposContributed
         <= FetchStats(prev, prs, primary, merged, all).totalPRs
  {
    FallbackBounded(prs);
  }

  /* The cards. */

  /** A relative index of `Array.prototype.slice` resolved against a length:
      negative values count from the end, and the result is clamped to
      `[0, len]`. */
  function ResolveIndex(rel: int, len: nat): (k: nat)
    ensures k <= len
    ensures 0 <= rel <= len ==> k == rel
    ensures rel >= len ==> k == len
    ensures rel < 0 && -rel <= len ==> k == len + rel
    ensures -rel >= len ==> k == 0
  {
    if rel < 0 then (if len + rel < 0 then 0 else len + rel)
    else if rel < len then rel
    else len
  }

  /** `xs.slice(start, end)`. */
  function Slice<T>(xs: seq<T>, start: int, end: int): (r: seq<T>)
    ensures |r| <= |xs|
    ensures ResolveIndex(end, |xs|) <= ResolveIndex(start, |xs|) ==> r == []
    ensures ResolveIndex(start, |xs|) < ResolveIndex(end, |xs|) ==>
      |r| == ResolveIndex(end, |xs|) - ResolveIndex(start, |xs|)
    ensures forall i | 0 <= i < |r| :: r[i] == xs[ResolveIndex(start, |xs|) + i]
  {
    var k := ResolveIndex(start, |xs|);
    var f := ResolveIndex(end, |xs|);
    if f <= k then [] else xs[k..f]
  }

  /** `pr.labels.slice(0, 3)`: the labels a card shows. */
  function VisibleLabels(labels: seq<string>): (r: seq<string>)
    ensures |r| == if |labels| < 3 then |labels| else 3
    ensures r <= labels
  {
    Slice(labels, 0, 3)
  }

  /** A card shows all of its labels exactly when it has at most three, and
      trimming twice trims no further. */
  lemma VisibleLabelsAll(labels: seq<string>)
    ensures VisibleLabels(labels) == labels <==> |labels| <= 3
    ensures VisibleLabels(VisibleLabels(labels)) == VisibleLabels(labels)
  {
  }

  /** Labels that are distinct on a record are distinct on its card. */
  lemma VisibleLabelsDistinct(labels: seq<string>)
    requires forall i, j | 0 <= i < j < |labels| :: labels[i] != labels[j]
    ensures forall i, j | 0 <= i < j < |VisibleLabels(labels)| ::
      VisibleLabels(labels)[i] != VisibleLabels(labels)[j]
  {
  }

  /** The React key of a card: `${pr.repo}-${pr.number}`. */
  function CardKey(pr: PullRequest): (key: string)
    ensures |key| > |pr.repo| + 1
    ensures key[..|pr.repo|] == pr.repo && key[|pr.repo|] == '-'
    ensures Canonical(key[|pr.repo| + 1..])
    ensures ParseDecimal(key[|pr.repo| + 1..]) == pr.number
  {
    var key := pr.repo + "-" + DecimalString(pr.number);
    assert key[|pr.repo| + 1..] == DecimalString(pr.number);
    ParseDecimalString(pr.number);
    key
  }

  /** In `r + "-" + d` with `d` all digits, the `-` at `|r|` is the last
      one. */
  lemma KeyLayout(r: string, d: string)
    requires AllDigits(d)
    ensures (r + "-" + d)[|r|] == '-'
    ensures forall j | |r| < j < |r + "-" + d| :: (r + "-" + d)[j] != '-'
  {
    forall j | |r| < j < |r + "-" + d|
      ensures (r + "-" + d)[j] != '-'
    {
      assert (r + "-" + d)[j] == d[j - |r| - 1];
    }
  }

  /** The digits after the last `-` of a key are the number, so a key can be
      split back into its two parts. */
  lemma KeySplit(r1: string, d1: string, r2: string, d2: string)
    requires AllDigits(d1) && AllDigits(d2)
    requires r1 + "-" + d1 == r2 + "-" + d2
    ensures r1 == r2 && d1 == d2
  {
    KeyLayout(r1, d1);
    KeyLayout(r2, d2);
    var k := r1 + "-" + d1;
    assert |r1| == |r2|;
    assert r1 == k[..|r1|] && r2 == k[..|r2|];
    assert d1 == k[|r1| + 1..] && d2 == k[|r2| + 1..];
  }

  /** Two cards share a key exactly when they share repository and number. */
  lemma CardKeyInjective(a: PullRequest, b: PullRequest)
    ensures CardKey(a) == CardKey(b) <==> a.repo == b.repo && a.number == b.number
  {
    if CardKey(a) == CardKey(b) {
      KeySplit(a.repo, DecimalString(a.number), b.repo, DecimalString(b.number));
      DecimalStringInjective(a.number, b.number);
    }
  }

  /** The compiled-in cards all have different keys. */
  lemma FixtureKeysDistinct()
    ensures forall i, j | 0 <= i < j < |Fixture()| :: CardKey(Fixture()[i]) != CardKey(Fixture()[j])
  {
    FixtureNumbersDistinct();
    forall i, j | 0 <= i < j < |Fixture()|
      ensures CardKey(Fixture()[i]) != CardKey(Fixture()[j])
    {
      CardKeyInjective(Fixture()[i], Fixture()[j]);
    }
  }
}
