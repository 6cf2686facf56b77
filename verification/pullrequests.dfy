/** The contribution records of the site: the record type, the compiled-in
    list, and the facts about that list the page relies on. */
module PullRequests {
  import opened Wrappers
  import opened Collections
  import opened Decimal

  /** The closed set of states a record may carry. */
  datatype Status = Merged | Open | Closed

  /** Optional change statistics; each field may be absent on its own. */
  datatype ChangeStats = ChangeStats(
    additions: Option<nat>,
    deletions: Option<nat>,
    comments: Option<nat>,
    files: Option<nat>)

  datatype PullRequest = PullRequest(
    number: nat,
    title: string,
    repo: string,
    organization: string,
    description: Option<string>,
    status: Status,
    date: string,
    labels: seq<string>,
    stats: ChangeStats,
    link: string)

  /* Column projections: `prs.map(pr => pr.field)`. */

  function Numbers(prs: seq<PullRequest>): seq<nat> {
    seq(|prs|, i requires 0 <= i < |prs| => prs[i].number)
  }

  function Repos(prs: seq<PullRequest>): seq<string> {
    seq(|prs|, i requires 0 <= i < |prs| => prs[i].repo)
  }

  function Organizations(prs: seq<PullRequest>): seq<string> {
    seq(|prs|, i requires 0 <= i < |prs| => prs[i].organization)
  }

  function Dates(prs: seq<PullRequest>): seq<string> {
    seq(|prs|, i requires 0 <= i < |prs| => prs[i].date)
  }

  function Statuses(prs: seq<PullRequest>): seq<Status> {
    seq(|prs|, i requires 0 <= i < |prs| => prs[i].status)
  }

  /** The number of records with status `st`: the length of
      `prs.filter(pr => pr.status === st)`. */
  function CountStatus(prs: seq<PullRequest>, st: Status): (n: nat)
    ensures n <= |prs|
  {
    if prs == [] then 0
    else (if prs[0].status == st then 1 else 0) + CountStatus(prs[1..], st)
  }

  /** Occurrences of `st` in a column of statuses. */
  function Occurrences(ss: seq<Status>, st: Status): nat
  {
    if ss == [] then 0
    else (if ss[0] == st then 1 else 0) + Occurrences(ss[1..], st)
  }

  /** Counting records by status is counting the status column. */
  lemma {:induction false} CountStatusColumn(prs: seq<PullRequest>, st: Status)
    ensures CountStatus(prs, st) == Occurrences(Statuses(prs), st)
  {
    if prs != [] {
      CountStatusColumn(prs[1..], st);
      assert Statuses(prs)[1..] == Statuses(prs[1..]);
    }
  }

  /** Counting distributes over concatenation of record lists. */
  lemma {:induction false} CountStatusAppend(a: seq<PullRequest>, b: seq<PullRequest>, st: Status)
    ensures CountStatus(a + b, st) == CountStatus(a, st) + CountStatus(b, st)
  {
    if a == [] {
      assert a + b == b;
    } else {
      CountStatusAppend(a[1..], b, st);
      assert (a + b)[1..] == a[1..] + b;
    }
  }

  /** Every record has exactly one status, so the three counts partition the
      list. */
  lemma {:induction false} CountStatusPartition(prs: seq<PullRequest>)
    ensures CountStatus(prs, Merged) + CountStatus(prs, Open) + CountStatus(prs, Closed) == |prs|
  {
    if prs != [] {
      CountStatusPartition(prs[1..]);
    }
  }

  /** The count is the full length exactly when every record has that status,
      and zero exactly when none has. */
  lemma {:induction false} CountStatusExtremes(prs: seq<PullRequest>, st: Status)
    ensures CountStatus(prs, st) == |prs| <==> forall i :: 0 <= i < |prs| ==> prs[i].status == st
    ensures CountStatus(prs, st) == 0 <==> forall i :: 0 <= i < |prs| ==> prs[i].status != st
  {
    if prs != [] {
      CountStatusExtremes(prs[1..], st);
      assert forall i :: 1 <= i < |prs| ==> prs[i] == prs[1..][i - 1];
    }
  }

  /** A `"YYYY-MM"` partial date with a month from 01 to 12. */
  predicate IsYearMonth(d: string) {
    && |d| == 7
    && IsDigit(d[0]) && IsDigit(d[1]) && IsDigit(d[2]) && IsDigit(d[3])
    && d[4] == '-'
    && ((d[5] == '0' && '1' <= d[6] <= '9') || (d[5] == '1' && '0' <= d[6] <= '2'))
  }

  /** The pull-request page of a record on the hosting site. */
  function PullLink(repo: string, number: nat): string {
    "https://github.com/" + repo + "/pull/" + DecimalString(number)
  }

  /** The link of a record points at the record's own repository and number. */
  predicate LinkConsistent(pr: PullRequest) {
    pr.link == PullLink(pr.repo, pr.number)
  }


  /* The compiled-in records, one function each, in source order. Texts
     longer than twenty characters are written as concatenations of short
     pieces at word boundaries; each concatenation spells the record's
     literal exactly. The split has no meaning of its own: the verifier's
     work on a long string constant grows quickly with its length, and
     short pieces keep the facts about the whole list cheap to prove. */

  function Pr3237(): PullRequest
  {
    PullRequest(
      3237,
      "Pipeline Helm Charts",
      "kubeflow/manifests",
      "Kubeflow",
      None,
      Open,
      "2025-09",
      ["feature", "helm", "deployment", "kubeflow-pipelines"],
      ChangeStats(Some(11902), Some(15), Some(7), Some(135)),
      "https://github.com/" + "kubeflow/manifests" + "/pull/3237")
  }

  function Pr3175(): PullRequest
  {
    PullRequest(
      3175,
      "Helm Charts Model " + "Registry",
      "kubeflow/manifests",
      "Kubeflow",
      None,
      Merged,
      "2025-06",
      ["feature", "helm", "deployment", "kubeflow-pipelines"],
      ChangeStats(Some(5456), Some(0), Some(8), Some(52)),
      "https://github.com/" + "kubeflow/manifests" + "/pull/3175")
  }

  function Pr3168(): PullRequest
  {
    PullRequest(
      3168,
      " Helm Charts Katib",
      "kubeflow/manifests",
      "Kubeflow",
      None,
      Open,
      "2025-07",
      ["feature", "helm", "deployment", "kubeflow-pipelines"],
      ChangeStats(Some(5456), Some(0), Some(8), Some(52)),
      "https://github.com/" + "kubeflow/manifests" + "/pull/3168")
  }

  function Pr57330(): PullRequest
  {
    PullRequest(
      57330,
      "Add seccompProfile " + "configuration",
      "istio/istio",
      "Istio",
      Some("Add seccompProfile " + "configuration to " + "global proxy values"),
      Merged,
      "2025-08",
      ["enhancement", "istio", "security"],
      ChangeStats(Some(40), Some(0), Some(25), Some(3)),
      "https://github.com/" + "istio/istio" + "/pull/57330")
  }

  function Pr3070(): PullRequest
  {
    PullRequest(
      3070,
      "Add comprehensive " + "Kubeflow " + "integration test " + "GitHub Actions " + "workflow",
      "kubeflow/manifests",
      "Kubeflow",
      None,
      Merged,
      "2025-03",
      ["feature", "ci/cd", "automation"],
      ChangeStats(Some(284), Some(0), Some(43), Some(1)),
      "https://github.com/" + "kubeflow/manifests" + "/pull/3070")
  }

  function Pr3077(): PullRequest
  {
    PullRequest(
      3077,
      "end-to-end " + "integration tests",
      "kubeflow/manifests",
      "Kubeflow",
      None,
      Merged,
      "2025-03",
      ["ci/cd", "testing", "automation"],
      ChangeStats(Some(353), Some(338), Some(117), Some(24)),
      "https://github.com/" + "kubeflow/manifests" + "/pull/3077")
  }

  function Pr3115(): PullRequest
  {
    PullRequest(
      3115,
      "Making the " + "synchronize scripts " + "consistent ",
      "kubeflow/manifests",
      "Kubeflow",
      None,
      Merged,
      "2025-07",
      ["enhancement", "shell scripts", "manifests", "kubeflow"],
      ChangeStats(Some(552), Some(730), Some(15), Some(13)),
      "https://github.com/" + "kubeflow/manifests" + "/pull/3115")
  }

  function Pr3093(): PullRequest
  {
    PullRequest(
      3093,
      "improve the tests " + "with real KF " + "profile namespaces ",
      "kubeflow/manifests",
      "Kubeflow",
      None,
      Merged,
      "2025-03",
      ["enhancement", "testing", "kubeflow", "ci/cd"],
      ChangeStats(Some(345), Some(97), Some(51), Some(11)),
      "https://github.com/" + "kubeflow/manifests" + "/pull/3093")
  }

  function Pr334(): PullRequest
  {
    PullRequest(
      334,
      "Drag and Drop UI " + "for binding Policy ",
      "kubestellar/ui",
      "Kubeflow",
      Some("Enhance the Binding "
             + "Policy UI by "
             + "introducing a "
             + "drag-and-drop "
             + "interface that "
             + "enables users to "
             + "visually create "
             + "Binding Policies "
             + "instead of manually "
             + "writing YAML files."),
      Merged,
      "2025-03",
      ["enhancement", "ml", "operators"],
      ChangeStats(Some(8465), Some(184), Some(3), Some(34)),
      "https://github.com/" + "kubestellar/ui" + "/pull/334")
  }

  function Pr274(): PullRequest
  {
    PullRequest(
      274,
      "Migrate from " + "Context API to " + "Zustand",
      "kubestellar/ui",
      "KubeStellar",
      None,
      Merged,
      "2025-03",
      ["enhancement", "ui", "kubestellar", "zustand", "react-query"],
      ChangeStats(Some(181), Some(189), Some(11), Some(32)),
      "https://github.com/" + "kubestellar/ui" + "/pull/274")
  }

  function Pr754(): PullRequest
  {
    PullRequest(
      754,
      "Added Bulk edit Mode",
      "kubestellar/ui",
      "KubeStellar",
      None,
      Merged,
      "2025-04",
      ["feature", "ui", "kubestellar"],
      ChangeStats(Some(100), Some(0), Some(8), Some(1)),
      "https://github.com/" + "kubestellar/ui" + "/pull/754")
  }

  function Pr353(): PullRequest
  {
    PullRequest(
      353,
      "Update backend API " + "to support drag and " + "drop",
      "kubestellar/ui",
      "KubeStellar",
      Some("Enhanced the "
             + "backend API to "
             + "support drag and "
             + "drop functionality "
             + "in the UI."),
      Merged,
      "2025-03",
      ["enhancement", "backend", "golang", "api"],
      ChangeStats(Some(1051), Some(19), Some(0), Some(2)),
      "https://github.com/" + "kubestellar/ui" + "/pull/353")
  }

  lemma Pr3237Link()
    ensures LinkConsistent(Pr3237())
  {
  }

  lemma Pr3175Link()
    ensures LinkConsistent(Pr3175())
  {
  }

  lemma Pr3168Link()
    ensures LinkConsistent(Pr3168())
  {
  }

  lemma Pr57330Link()
    ensures LinkConsistent(Pr57330())
  {
  }

  lemma Pr3070Link()
    ensures LinkConsistent(Pr3070())
  {
  }

  lemma Pr3077Link()
    ensures LinkConsistent(Pr3077())
  {
  }

  lemma Pr3115Link()
    ensures LinkConsistent(Pr3115())
  {
  }

  lemma Pr3093Link()
    ensures LinkConsistent(Pr3093())
  {
  }

  lemma Pr334Link()
    ensures LinkConsistent(Pr334())
  {
  }

  lemma Pr274Link()
    ensures LinkConsistent(Pr274())
  {
  }

  lemma Pr754Link()
    ensures LinkConsistent(Pr754())
  {
  }

  lemma Pr353Link()
    ensures LinkConsistent(Pr353())
  {
  }

  /** The compiled-in `pullRequests` list, in source order. */
  function Fixture(): (prs: seq<PullRequest>)
    ensures |prs| == 12
    ensures forall i | 0 <= i < |prs| :: |prs[i].labels| > 0
  {
    [ Pr3237(), Pr3175(), Pr3168(), Pr57330(), Pr3070(), Pr3077(),
      Pr3115(), Pr3093(), Pr334(), Pr274(), Pr754(), Pr353() ]
  }

  /* The columns of the list, written out. */

  function NumberColumn(): seq<nat> {
    [3237, 3175, 3168, 57330, 3070, 3077, 3115, 3093, 334, 274, 754, 353]
  }

  function RepoColumn(): seq<string> {
    [ "kubeflow/manifests", "kubeflow/manifests", "kubeflow/manifests", "istio/istio",
      "kubeflow/manifests", "kubeflow/manifests", "kubeflow/manifests", "kubeflow/manifests",
      "kubestellar/ui", "kubestellar/ui", "kubestellar/ui", "kubestellar/ui" ]
  }

  function OrganizationColumn(): seq<string> {
    [ "Kubeflow", "Kubeflow", "Kubeflow", "Istio", "Kubeflow", "Kubeflow",
      "Kubeflow", "Kubeflow", "Kubeflow", "KubeStellar", "KubeStellar", "KubeStellar" ]
  }

  function StatusColumn(): seq<Status> {
    [ Open, Merged, Open, Merged, Merged, Merged, Merged, Merged, Merged, Merged, Merged, Merged ]
  }

  function DateColumn(): seq<string> {
    [ "2025-09", "2025-06", "2025-07", "2025-08", "2025-03", "2025-03",
      "2025-07", "2025-03", "2025-03", "2025-03", "2025-04", "2025-03" ]
  }

  /** The numbers of the records, in order. */
  lemma FixtureNumberColumn()
    ensures Numbers(Fixture()) == NumberColumn()
  {
  }

  /** The repositories of the records, in order. */
  lemma FixtureRepoColumn()
    ensures Repos(Fixture()) == RepoColumn()
  {
  }

  /** The organisation names of the records, in order. */
  lemma FixtureOrganizationColumn()
    ensures Organizations(Fixture()) == OrganizationColumn()
  {
  }

  /** The statuses of the records, in order. */
  lemma FixtureStatusColumn()
    ensures Statuses(Fixture()) == StatusColumn()
  {
  }

  /** The dates of the records, in order. */
  lemma FixtureDateColumn()
    ensures Dates(Fixture()) == DateColumn()
  {
  }


  /** Counting occurrences agrees with the multiplicity in the multiset of
      the column. */
  lemma {:induction false} OccurrencesMultiset(ss: seq<Status>, st: Status)
    ensures Occurrences(ss, st) == multiset(ss)[st]
  {
    if ss != [] {
      OccurrencesMultiset(ss[1..], st);
      assert ss == [ss[0]] + ss[1..];
    }
  }

  lemma StatusColumnCounts()
    ensures Occurrences(StatusColumn(), Merged) == 10
    ensures Occurrences(StatusColumn(), Open) == 2
    ensures Occurrences(StatusColumn(), Closed) == 0
  {
    OccurrencesMultiset(StatusColumn(), Merged);
    OccurrencesMultiset(StatusColumn(), Open);
    OccurrencesMultiset(StatusColumn(), Closed);
  }

  /** Twelve records: ten merged, two open, none closed. */
  lemma FixtureStatusCounts()
    ensures |Fixture()| == 12
    ensures CountStatus(Fixture(), Merged) == 10
    ensures CountStatus(Fixture(), Open) == 2
    ensures CountStatus(Fixture(), Closed) == 0
  {
    FixtureStatusColumn();
    StatusColumnCounts();
    CountStatusColumn(Fixture(), Merged);
    CountStatusColumn(Fixture(), Open);
    CountStatusColumn(Fixture(), Closed);
  }

  function FixtureRepoNames(): set<string> {
    {"kubeflow/manifests", "istio/istio", "kubestellar/ui"}
  }

  function FixtureOrganizationNames(): set<string> {
    {"Kubeflow", "Istio", "KubeStellar"}
  }

  /** Three distinct repositories. */
  lemma FixtureRepos()
    ensures ElementsOf(Repos(Fixture())) == FixtureRepoNames()
    ensures |ElementsOf(Repos(Fixture()))| == 3
  {
    FixtureRepoColumn();
    var col := RepoColumn();
    assert col[3] == "istio/istio" && col[8] == "kubestellar/ui";
    assert ElementsOf(col) == FixtureRepoNames();
  }

  /** Three distinct organisation names; the organisation is recorded, not
      derived from the repository (record 334 lives in `kubestellar/ui` but
      names Kubeflow). */
  lemma FixtureOrganizations()
    ensures ElementsOf(Organizations(Fixture())) == FixtureOrganizationNames()
    ensures |ElementsOf(Organizations(Fixture()))| == 3
    ensures Fixture()[8].number == 334 && Fixture()[8].repo == "kubestellar/ui"
    ensures Fixture()[8].organization == "Kubeflow"
  {
    FixtureOrganizationColumn();
    assert Fixture()[8] == Pr334();
    var col := OrganizationColumn();
    assert col[3] == "Istio" && col[9] == "KubeStellar";
    assert ElementsOf(col) == FixtureOrganizationNames();
  }

  lemma NumberColumnDistinct()
    ensures forall i, j :: 0 <= i < j < |NumberColumn()| ==> NumberColumn()[i] != NumberColumn()[j]
  {
  }

  /** No two records share a number, so no two share a repository and a
      number either. */
  lemma FixtureNumbersDistinct()
    ensures forall i, j :: 0 <= i < j < |Fixture()| ==> Fixture()[i].number != Fixture()[j].number
  {
    FixtureNumberColumn();
    NumberColumnDistinct();
  }

  lemma DateColumnYearMonth()
    ensures forall i | 0 <= i < |DateColumn()| :: IsYearMonth(DateColumn()[i])
  {
    forall i | 0 <= i < |DateColumn()|
      ensures IsYearMonth(DateColumn()[i])
    {
      assert DateColumn()[i] in {"2025-03", "2025-04", "2025-06", "2025-07", "2025-08", "2025-09"};
    }
  }

  /** Every date is a year and a month. */
  lemma FixtureDates()
    ensures forall i | 0 <= i < |Fixture()| :: IsYearMonth(Fixture()[i].date)
  {
    FixtureDateColumn();
    DateColumnYearMonth();
    assert forall i | 0 <= i < |Fixture()| :: Fixture()[i].date == Dates(Fixture())[i];
  }

  /** Every record's link is its repository's pull page for its number. */
  lemma FixtureLinks()
    ensures forall pr | pr in Fixture() :: LinkConsistent(pr)
  {
    Pr3237Link();
    Pr3175Link();
    Pr3168Link();
    Pr57330Link();
    Pr3070Link();
    Pr3077Link();
    Pr3115Link();
    Pr3093Link();
    Pr334Link();
    Pr274Link();
    Pr754Link();
    Pr353Link();
  }
}
