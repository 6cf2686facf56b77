# Portfolio site: open-source statistics, cards, typewriter and skill grids

A Dafny model of the pieces of the portfolio site that compute anything:

- **The open-source statistics** (`fetchGitHubStats` in
  `src/components/OpenSource.tsx`). Three GitHub search requests are awaited
  in sequence: the primary count, the merged count, and the list of all pull
  requests. Each request's outcome is an input to the model: ok with the
  fields the code reads (`total_count` and each item's `repository_url`),
  not ok, or threw. The effect is modelled as the pure function
  `OpenSource.FetchStats`. It maps the previous state, the static records
  and the three outcomes to the final `githubStats`.
  - A primary answer that is not ok falls back to counts over the static
    records.
  - An exception anywhere falls back the same way.
  - A merged or list answer that is merely not ok is zero-filled instead.
- **Organisation extraction**: `repository_url.match(/repos\/([^/]+)\//)`,
  as a search engine (`RepoPattern.OrgOf`). It is proved equal to the
  declarative reading of the regular expression: the leftmost match,
  `repos/`, then a non-empty run without `/`, then `/`.
- **The static records** of `src/data/pullrequests.ts`, as the datatype
  `PullRequests.PullRequest` and the twelve records in source order
  (`PullRequests.Fixture`). Their columns, counts, distinctness, dates and
  links are proved.
- **The cards**:
  - the labels a card shows (`labels.slice(0, 3)`, with `slice` modelled
    after `Array.prototype.slice`);
  - the card key `${pr.repo}-${pr.number}`, proved injective through a
    decimal printer and its parser.
- **The hero `TypeWriter`** (`src/components/Hero.tsx`): its state and the
  step one timeout performs. The shown text is always a prefix of the
  target, and it is complete after `|text|` steps.
- **The skills grid** (`src/components/Skills.tsx`): `getGridSize` as the
  integer ceiling square root, the container side `g * 180` px, and the four
  categories of the page.

Files, one module each:

- `wrappers.dfy`: `Option`.
- `collections.dfy`: `new Set(xs).size` and cardinality facts.
- `decimal.dfy`: number to decimal string and back.
- `pullrequests.dfy`: record type, fixture, status counting.
- `repopattern.dfy`: the regular expression.
- `opensource.dfy`: statistics, labels, card keys.
- `typewriter.dfy`
- `skills.dfy`

Some behaviour of the code is easy to misread, and the model follows the
code:

- Only a merged or list search that answers *not ok* is zero-filled. One
  that *throws* (network error, unreadable body, missing `items`) reaches the
  `catch` and discards every live value already fetched.
- The static list holds twelve records: ten merged, two open, none closed.
- The regular expression is unanchored and retries later positions. If the
  first `repos/` is followed directly by `/`, a later `repos/` can still
  match (`OrgOfLeftmost`).
- `organization` is a recorded field, not derived from `repo`. Record 334
  lives in `kubestellar/ui` but names `Kubeflow`.

## Model

| member | source | states |
|---|---|---|
| Collections.ElementsOfBounded | src/components/OpenSource.tsx:408-409 | a `Set` built from a list has at most as many elements as the list |
| Collections.ElementsOfEmpty | src/components/OpenSource.tsx:408-409 | a `Set` built from a list is empty exactly when the list is |
| Collections.SubsetBounded | src/components/OpenSource.tsx:390-396 | a subset is no larger than its superset |
| Collections.ImageBounded | src/components/OpenSource.tsx:390-396 | mapping a set of URLs through a function gives no more values than there were URLs |
| Decimal.DecimalString | src/components/OpenSource.tsx:593 | the number in the card key is written as canonical decimal digits, one digit exactly below 10 |
| Decimal.ParseDecimalString | src/components/OpenSource.tsx:593 | reading the written digits back gives the number |
| Decimal.DecimalStringInjective | src/components/OpenSource.tsx:593 | different numbers are written differently |
| Decimal.DecimalStringOfParse | src/components/OpenSource.tsx:593 | every canonical digit string is what some number is written as |
| PullRequests.CountStatusColumn | src/components/OpenSource.tsx:413 | counting records by status equals counting the status column |
| PullRequests.CountStatusAppend | src/components/OpenSource.tsx:413 | `filter(...).length` distributes over concatenation |
| PullRequests.CountStatusPartition | src/data/pullrequests.ts:7 | every record has exactly one of the three statuses, so the counts sum to the list length |
| PullRequests.CountStatus | src/components/OpenSource.tsx:413 | the number of records with a status never exceeds the number of records |
| PullRequests.CountStatusExtremes | src/components/OpenSource.tsx:413 | the count is the full length iff every record has the status, and zero iff none has |
| PullRequests.Pr3237Link | src/data/pullrequests.ts:21-29 | record 3237's link is its repository's pull page for its number |
| PullRequests.Pr3175Link | src/data/pullrequests.ts:32-40 | record 3175's link is its repository's pull page for its number |
| PullRequests.Pr3168Link | src/data/pullrequests.ts:43-51 | record 3168's link is its repository's pull page for its number |
| PullRequests.Pr57330Link | src/data/pullrequests.ts:54-63 | record 57330's link is its repository's pull page for its number |
| PullRequests.Pr3070Link | src/data/pullrequests.ts:66-74 | record 3070's link is its repository's pull page for its number |
| PullRequests.Pr3077Link | src/data/pullrequests.ts:77-85 | record 3077's link is its repository's pull page for its number |
| PullRequests.Pr3115Link | src/data/pullrequests.ts:88-96 | record 3115's link is its repository's pull page for its number |
| PullRequests.Pr3093Link | src/data/pullrequests.ts:99-107 | record 3093's link is its repository's pull page for its number |
| PullRequests.Pr334Link | src/data/pullrequests.ts:110-119 | record 334's link is its repository's pull page for its number |
| PullRequests.Pr274Link | src/data/pullrequests.ts:122-130 | record 274's link is its repository's pull page for its number |
| PullRequests.Pr754Link | src/data/pullrequests.ts:133-141 | record 754's link is its repository's pull page for its number |
| PullRequests.Pr353Link | src/data/pullrequests.ts:144-153 | record 353's link is its repository's pull page for its number |
| PullRequests.Fixture | src/data/pullrequests.ts:19-155 | the static list holds twelve records, each with at least one label |
| PullRequests.FixtureNumberColumn | src/data/pullrequests.ts:21-144 | the record numbers in order: 3237, 3175, 3168, 57330, 3070, 3077, 3115, 3093, 334, 274, 754, 353 |
| PullRequests.FixtureRepoColumn | src/data/pullrequests.ts:23-146 | the repositories in order: the first eight records are kubeflow/manifests except the fourth, which is istio/istio; the last four are kubestellar/ui |
| PullRequests.FixtureOrganizationColumn | src/data/pullrequests.ts:24-147 | the organisations in order, with Kubeflow on the ninth record although its repository is kubestellar/ui |
| PullRequests.FixtureStatusColumn | src/data/pullrequests.ts:25-149 | the statuses in order: open, merged, open, then nine merged |
| PullRequests.FixtureDateColumn | src/data/pullrequests.ts:26-150 | the dates in order |
| PullRequests.StatusColumnCounts | src/data/pullrequests.ts:25-149 | the status column holds ten merged, two open and no closed |
| PullRequests.FixtureStatusCounts | src/data/pullrequests.ts:19-155 | twelve records: ten merged, two open, none closed |
| PullRequests.FixtureRepos | src/data/pullrequests.ts:23-146 | the distinct repositories are exactly kubeflow/manifests, istio/istio and kubestellar/ui |
| PullRequests.FixtureOrganizations | src/data/pullrequests.ts:110-119 | the distinct organisations are exactly Kubeflow, Istio and KubeStellar; record 334 has repository kubestellar/ui but organisation Kubeflow |
| PullRequests.NumberColumnDistinct | src/data/pullrequests.ts:21-144 | no number occurs twice in the number column |
| PullRequests.FixtureNumbersDistinct | src/data/pullrequests.ts:21-144 | no two records share a number |
| PullRequests.DateColumnYearMonth | src/data/pullrequests.ts:26-150 | every date in the column is `YYYY-MM` with a month from 01 to 12 |
| PullRequests.FixtureDates | src/data/pullrequests.ts:26-150 | every record's date is `YYYY-MM` with a month from 01 to 12 |
| PullRequests.FixtureLinks | src/data/pullrequests.ts:29-153 | every record's link is `https://github.com/` + repo + `/pull/` + number |
| RepoPattern.RunEnd | src/components/OpenSource.tsx:392 | greedy `[^/]+` stops at the first `/` or the end: every character before it is not `/` |
| RepoPattern.AttemptAt | src/components/OpenSource.tsx:392 | an attempt that succeeds at a position reports a real match there |
| RepoPattern.SearchFrom | src/components/OpenSource.tsx:392 | the unanchored search reports only a capture of a match at or after its start position |
| RepoPattern.OrgOf | src/components/OpenSource.tsx:392-393 | a reported organisation is non-empty and contains no `/` |
| RepoPattern.RunEndAt | src/components/OpenSource.tsx:392 | a run of non-slash characters ending at a `/` is the run greedy matching takes |
| RepoPattern.MatchesRun | src/components/OpenSource.tsx:392 | a capture ends exactly where the greedy run after `repos/` ends |
| RepoPattern.MatchesUnique | src/components/OpenSource.tsx:392 | at a given position group 1 has only one possible value |
| RepoPattern.AttemptAtComplete | src/components/OpenSource.tsx:392 | whenever the pattern matches at a position, the attempt there finds that match |
| RepoPattern.SearchFromSound | src/components/OpenSource.tsx:392 | a search result matches at some position with nothing matching between the start and it |
| RepoPattern.SearchFromNone | src/components/OpenSource.tsx:392 | a failed search means no match at any later position |
| RepoPattern.SearchFromShape | src/components/OpenSource.tsx:392 | a search result is non-empty and free of `/` |
| RepoPattern.LeftmostUnique | src/components/OpenSource.tsx:392 | there is at most one leftmost match |
| RepoPattern.OrgOfLeftmost | src/components/OpenSource.tsx:392-393 | `match[1]` is `g` exactly when `g` is group 1 of the leftmost match |
| RepoPattern.OrgOfNoMatch | src/components/OpenSource.tsx:392-393 | `match` returns `null` exactly when the pattern matches nowhere in the URL |
| RepoPattern.SearchSkips | src/components/OpenSource.tsx:392 | a match cannot start where there is no `r`, so the search passes over such a stretch |
| RepoPattern.ApiBaseHasNoR | src/components/OpenSource.tsx:345 | the API base `https://api.github.com/` contains no `r` |
| RepoPattern.OrgOfRepositoryUrl | src/components/OpenSource.tsx:386-393 | for `repository_url` = API base + `repos/owner/name` the organisation is `owner` |
| OpenSource.InitialStats | src/components/OpenSource.tsx:330-336 | the initial state shows loading, so the effect's first update leaves it unchanged |
| OpenSource.FallbackStats | src/components/OpenSource.tsx:408-417 | the fallback is not loading, its total is the number of records, and merged, organisations and repositories are at most that total |
| OpenSource.FallbackBounded | src/components/OpenSource.tsx:408-415 | fallback merged, organisations and repositories are each at most the total; the total is zero iff there are no repositories |
| OpenSource.FixtureFallback | src/components/OpenSource.tsx:408-417 | with the static records the fallback state is 12 total, 10 merged, 3 organisations, 3 repositories, not loading |
| OpenSource.OrgSegments | src/components/OpenSource.tsx:390-395 | the filtered organisation list is no longer than the URL list, and holds only non-empty names without `/` |
| OpenSource.OrgSegmentsElements | src/components/OpenSource.tsx:390-395 | a name is in the filtered organisation list iff some URL yields it; URLs without a match add nothing |
| OpenSource.OrgSegmentsNames | src/components/OpenSource.tsx:390-396 | `new Set(orgs)` is exactly the set of organisations the URLs name |
| OpenSource.LiveOrgsBounded | src/components/OpenSource.tsx:385-396 | there are no more distinct organisations than distinct repository URLs |
| OpenSource.StartLoading | src/components/OpenSource.tsx:341 | the first update sets loading and changes nothing else |
| OpenSource.FetchStats | src/components/OpenSource.tsx:338-431 | once all awaited requests have settled, loading is off; every path other than the live one gives the fallback; on the live path the total is the primary `total_count`, merged is the merged `total_count` or 0, and a not-ok third search zeroes organisations and repositories |
| OpenSource.FetchSettles | src/components/OpenSource.tsx:399-430 | every path that settles ends with loading off, and the final state does not depend on the state before |
| OpenSource.FetchFallback | src/components/OpenSource.tsx:407-431 | a not-ok primary answer and an exception from any request give the same state, the fallback counts |
| OpenSource.FetchLiveTotal | src/components/OpenSource.tsx:353-406 | on the live path the total is the primary `total_count` |
| OpenSource.FetchMergedNotOk | src/components/OpenSource.tsx:366-370 | a not-ok merged answer gives zero merged, and the total is still the primary `total_count` |
| OpenSource.FetchAllNotOk | src/components/OpenSource.tsx:381-397 | a not-ok list answer gives zero organisations and repositories; total and merged are as with an ok list |
| OpenSource.FetchUnreached | src/components/OpenSource.tsx:353-379 | the outcomes of requests that are never issued do not affect the state |
| OpenSource.FetchLiveCounts | src/components/OpenSource.tsx:366-406 | on the live path merged is the merged `total_count` when that search is ok; with an ok third search repositories are the distinct URLs and organisations the distinct names they yield |
| OpenSource.FetchLiveOrgsBounded | src/components/OpenSource.tsx:381-406 | on the live path organisations are at most repositories |
| OpenSource.FetchFallbackBounded | src/components/OpenSource.tsx:407-430 | on a fallback path merged, organisations and repositories are at most the total |
| OpenSource.ResolveIndex | src/components/OpenSource.tsx:215 | a `slice` index resolves into `[0, len]`: an index in range is kept, an index at or past the end becomes `len`, a negative one counts back from the end and stops at 0 |
| OpenSource.Slice | src/components/OpenSource.tsx:215 | a slice is empty when the resolved end is not after the resolved start, and otherwise holds the elements between them, in order |
| OpenSource.VisibleLabels | src/components/OpenSource.tsx:215 | a card shows the first `min(3, |labels|)` labels, in order |
| OpenSource.VisibleLabelsAll | src/components/OpenSource.tsx:215 | all labels are shown iff there are at most three; trimming again changes nothing |
| OpenSource.VisibleLabelsDistinct | src/components/OpenSource.tsx:215-217 | distinct labels on a record stay distinct on its card, so a record with distinct labels gives its label elements distinct keys |
| OpenSource.CardKey | src/components/OpenSource.tsx:593 | a card key is the repository, a `-`, then canonical decimal digits that read back as the record's number |
| OpenSource.KeyLayout | src/components/OpenSource.tsx:593 | the `-` written between repository and number is the key's last `-` |
| OpenSource.KeySplit | src/components/OpenSource.tsx:593 | a key splits back into its repository and its digits |
| OpenSource.CardKeyInjective | src/components/OpenSource.tsx:593 | two cards share a key iff they share repository and number |
| OpenSource.FixtureKeysDistinct | src/components/OpenSource.tsx:592-594 | the twelve static cards have pairwise different keys |
| TypeWriter.Init | src/components/Hero.tsx:12-13 | the initial state has typed nothing, which agrees with any target text |
| TypeWriter.Step | src/components/Hero.tsx:15-24 | a step keeps the shown text equal to the first `currentIndex` characters, advances by one while text remains, and does nothing at the end |
| TypeWriter.After | src/components/Hero.tsx:15-24 | after `n` timeouts the shown text is the first `currentIndex` characters, with `currentIndex` at most `n` |
| TypeWriter.AfterShowsPrefix | src/components/Hero.tsx:11-24 | after `n` timeouts the state is the first `min(n, |text|)` characters and that index |
| TypeWriter.AfterIsPrefix | src/components/Hero.tsx:11-24 | the shown text is always a prefix of the target |
| TypeWriter.AfterFinished | src/components/Hero.tsx:16-20 | from `|text|` timeouts on the whole text is shown and further steps change nothing |
| TypeWriter.TypeOut | src/components/Hero.tsx:15-24 | running until no timeout is scheduled takes exactly `|text|` steps and ends showing the text |
| TypeWriter.HeroTyped | src/components/Hero.tsx:96 | the hero text has 43 characters and is complete after 43 timeouts |
| Skills.CeilSqrtFrom | src/components/Skills.tsx:110-112 | the upward search ends at the ceiling square root |
| Skills.GridSize | src/components/Skills.tsx:110-112 | the grid side `g` has `g*g >= n`, and `(g-1)*(g-1) < n` unless `g` is 0 |
| Skills.GridSizeUnique | src/components/Skills.tsx:110-112 | `g` is the ceiling square root of `n` iff `g` is the grid size |
| Skills.GridSizeProperties | src/components/Skills.tsx:110-112 | zero skills give size 0, `k*k` skills give `k`, and the size never decreases as skills are added |
| Skills.ContainerSide | src/components/Skills.tsx:156-160 | the container side is a multiple of 180 px, and side/180 is the ceiling square root of the skill count: the least grid side that holds every skill |
| Skills.SkillCategories | src/components/Skills.tsx:50-104 | the page has four categories, none of them empty |
| Skills.CategoryGrids | src/components/Skills.tsx:50-104 | Languages has 6 skills and grid 3, Frontend 6 and 3, Backend 11 and 4, DevOps & Cloud 8 and 3 |
| Skills.CategoryContainers | src/components/Skills.tsx:156-160 | the containers are 540, 540, 720 and 540 px |
| Skills.CategoryTitlesDistinct | src/components/Skills.tsx:139 | the category titles used as keys are pairwise different |

## Left out

- The `fetch` calls themselves: URLs, headers, `per_page=100` paging and the JSON decoding. Each request is an input outcome, ok, not ok or threw. `total_count` is taken to be a non-negative integer.
- `console.error` in the `catch`: logging only.
- React scheduling. That includes `useEffect`, `useState` batching, the effect running once per mount, and the `setTimeout` delay of the `TypeWriter` together with its cleanup.
- TypeWriter.Step: what happens when the `text` prop changes mid-typing is not modelled. The state is not reset, so a new text would continue from the old prefix. The site passes one constant text.
- Skills.GridSize: integers only. Floating-point `Math.sqrt` and `Math.ceil` are not modelled; for the small counts on the page they give the integer ceiling square root.
- `AnimatedCounter`: floating-point increments on a 60 Hz interval; it only animates the numbers modelled here.
- The `isLoading` spinners and all rendering: framer-motion animation, hover state, styling, and the `Cubes` component the grid size is passed to.
- Skill icons: React components, with no behaviour to model.
- The other sections: contact form (third-party e-mail, clipboard, toasts), navigation scroll tracking, blog date formatting, hero gradient colours, and static content (experience, projects, about, footer, theme toggle, index page).
- A request that never settles. The model's three outcomes are ok, not ok and threw. A `fetch` that hangs forever leaves the state loading, with `isLoading` still true; `FetchStats` describes only runs in which every awaited request settles.
- OpenSource.CardKey: `number` is modelled as a non-negative integer, and so are the `stats` fields. JavaScript numbers are doubles: negative or fractional values, and values from 10^21 up (written with an exponent), are not modelled. `CardKeyInjective` holds for every integer in the model; the site's numbers are all small.
- TypeWriter.Step: strings are sequences of Unicode scalar values, while `text.length` and `text[currentIndex]` count UTF-16 code units. A character outside the Basic Multilingual Plane is one step in the model but two timeouts in the page, with a lone surrogate shown in between. The hero text is ASCII, so its 43 steps agree.
