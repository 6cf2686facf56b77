/** The organisation segment of a repository URL: what
    `url.match(/repos\/([^/]+)\//)` captures in group 1.

    The engine below follows the regular expression's own semantics: an
    unanchored search tries every start position from the left, and at each
    one `[^/]+` is greedy; backtracking into it can never help, since a
    shorter run is followed by a character that is not `/`. The declarative
    reading `Matches` is the partner every lemma compares against. */
module RepoPattern {
  import opened Wrappers

  /** `repos/` occurs at position `p`. */
  predicate LeadAt(s: string, p: nat) {
    p + 6 <= |s| && s[p..p + 6] == "repos/"
  }

  /** The end of the longest run of characters other than `/` that starts at
      `i`: the first `/` at or after `i`, or the end of the string. */
  function RunEnd(s: string, i: nat): (j: nat)
    requires i <= |s|
    ensures i <= j <= |s|
    ensures forall k | i <= k < j :: s[k] != '/'
    ensures j < |s| ==> s[j] == '/'
    decreases |s| - i
  {
    if i == |s| || s[i] == '/' then i else RunEnd(s, i + 1)
  }

  /** The pattern matches `s` at `p` with group 1 equal to `g`: `repos/`,
      then `g`, non-empty and free of `/`, then `/`. */
  predicate Matches(s: string, p: nat, g: string) {
    && p + 6 + |g| < |s|
    && s[p..p + 6] == "repos/"
    && |g| > 0
    && (forall k | 0 <= k < |g| :: g[k] != '/')
    && s[p + 6..p + 6 + |g|] == g
    && s[p + 6 + |g|] == '/'
  }

  /** `g` is the match the search reports: it matches at `p`, and nothing
      matches anywhere to the left of `p`. */
  ghost predicate Leftmost(s: string, p: nat, g: string) {
    Matches(s, p, g) && forall q: nat, h: string | q < p :: !Matches(s, q, h)
  }

  /** One attempt of the engine at start position `p`. */
  function AttemptAt(s: string, p: nat): (r: Option<string>)
    ensures r.Some? ==> Matches(s, p, r.value)
  {
    if LeadAt(s, p) && p + 6 < RunEnd(s, p + 6) < |s| then
      Some(s[p + 6..RunEnd(s, p + 6)])
    else
      None
  }

  /** The unanchored search: start positions `p`, `p + 1`, ... up to `|s|`. */
  function SearchFrom(s: string, p: nat): (r: Option<string>)
    ensures r.Some? ==> exists q: nat | p <= q :: Matches(s, q, r.value)
    decreases |s| + 1 - p
  {
    if p > |s| then None
    else match AttemptAt(s, p)
      case Some(g) => Some(g)
      case None => SearchFrom(s, p + 1)
  }

  /** Group 1 of the first match in `url`, or `None` when `match` returns
      `null`. */
  function OrgOf(url: string): (r: Option<string>)
    ensures r.Some? ==> |r.value| > 0 && forall k | 0 <= k < |r.value| :: r.value[k] != '/'
  {
    var r := SearchFrom(url, 0);
    SearchFromShape(url, 0);
    r
  }

  /** A run of non-slash characters ending in `/` at `m` ends the run that
      `RunEnd` finds. */
  lemma {:induction false} RunEndAt(s: string, i: nat, m: nat)
    requires i <= m < |s| && s[m] == '/'
    requires forall k | i <= k < m :: s[k] != '/'
    ensures RunEnd(s, i) == m
    decreases m - i
  {
    if i < m {
      RunEndAt(s, i + 1, m);
    }
  }

  /** The characters of a capture are the run after `repos/`. */
  lemma MatchesRun(s: string, p: nat, g: string)
    requires Matches(s, p, g)
    ensures RunEnd(s, p + 6) == p + 6 + |g|
  {
    forall k | p + 6 <= k < p + 6 + |g|
      ensures s[k] != '/'
    {
      assert s[k] == g[k - p - 6];
    }
    RunEndAt(s, p + 6, p + 6 + |g|);
  }

  /** Group 1 is determined by where the match starts. */
  lemma MatchesUnique(s: string, p: nat, g: string, h: string)
    requires Matches(s, p, g) && Matches(s, p, h)
    ensures g == h
  {
    MatchesRun(s, p, g);
    MatchesRun(s, p, h);
  }

  /** The engine's attempt at `p` fails exactly when nothing matches at
      `p`, and otherwise reports the one capture there is. */
  lemma AttemptAtComplete(s: string, p: nat, g: string)
    requires Matches(s, p, g)
    ensures AttemptAt(s, p) == Some(g)
  {
    MatchesRun(s, p, g);
  }

  /** A search from `p0` that reports `g` found a match with capture `g`
      at some position from `p0` on, and none between `p0` and it. */
  lemma {:induction false} SearchFromSound(s: string, p0: nat, g: string)
    requires SearchFrom(s, p0) == Some(g)
    ensures exists p: nat ::
      (p0 <= p && Matches(s, p, g)
       && forall q: nat, h: string | p0 <= q < p :: !Matches(s, q, h))
    decreases |s| + 1 - p0
  {
    match AttemptAt(s, p0)
    case Some(g0) =>
      assert g0 == g;
      assert Matches(s, p0, g);
    case None =>
      SearchFromSound(s, p0 + 1, g);
      var p: nat :| p0 + 1 <= p && Matches(s, p, g)
        && forall q: nat, h: string | p0 + 1 <= q < p :: !Matches(s, q, h);
      forall h: string
        ensures !Matches(s, p0, h)
      {
        if Matches(s, p0, h) {
          AttemptAtComplete(s, p0, h);
        }
      }
      assert p0 <= p && Matches(s, p, g);
  }

  /** A search from `p0` that reports nothing passed no match at any
      position from `p0` on. */
  lemma {:induction false} SearchFromNone(s: string, p0: nat)
    requires SearchFrom(s, p0) == None
    ensures forall p: nat, h: string | p0 <= p :: !Matches(s, p, h)
    decreases |s| + 1 - p0
  {
    if p0 <= |s| {
      SearchFromNone(s, p0 + 1);
      forall h: string
        ensures !Matches(s, p0, h)
      {
        if Matches(s, p0, h) {
          AttemptAtComplete(s, p0, h);
        }
      }
    }
  }

  /** What a search from `p0` reports is a possible capture: non-empty and
      free of `/`. */
  lemma SearchFromShape(s: string, p0: nat)
    ensures SearchFrom(s, p0).Some? ==>
      (|SearchFrom(s, p0).value| > 0
       && forall k | 0 <= k < |SearchFrom(s, p0).value| :: SearchFrom(s, p0).value[k] != '/')
  {
    if SearchFrom(s, p0).Some? {
      SearchFromSound(s, p0, SearchFrom(s, p0).value);
    }
  }

  /** At most one position and capture are leftmost. */
  lemma LeftmostUnique(s: string, p: nat, g: string, p': nat, g': string)
    requires Leftmost(s, p, g) && Leftmost(s, p', g')
    ensures p == p' && g == g'
  {
    assert p' >= p;
    assert p >= p';
    MatchesUnique(s, p, g, g');
  }

  /** `OrgOf` reports `g` exactly when `g` is group 1 of the leftmost match. */
  lemma OrgOfLeftmost(url: string, g: string)
    ensures OrgOf(url) == Some(g) <==> exists p: nat :: Leftmost(url, p, g)
  {
    match SearchFrom(url, 0)
    case None =>
      SearchFromNone(url, 0);
    case Some(g') =>
      SearchFromSound(url, 0, g');
      var p': nat :| Matches(url, p', g')
        && forall q: nat, h: string | 0 <= q < p' :: !Matches(url, q, h);
      assert Leftmost(url, p', g');
      forall p: nat | Leftmost(url, p, g)
        ensures g == g'
      {
        LeftmostUnique(url, p, g, p', g');
      }
  }

  /** `OrgOf` reports nothing exactly when the pattern matches nowhere. */
  lemma OrgOfNoMatch(url: string)
    ensures OrgOf(url) == None <==> forall p: nat, g: string :: !Matches(url, p, g)
  {
    match SearchFrom(url, 0)
    case None =>
      SearchFromNone(url, 0);
    case Some(g) =>
      SearchFromSound(url, 0, g);
  }

  /** The search passes over a stretch without an `r`, where `repos/` cannot
      start. */
  lemma {:induction false} SearchSkips(s: string, p0: nat, p: nat)
    requires p0 <= p <= |s|
    requires forall q | p0 <= q < p :: s[q] != 'r'
    ensures SearchFrom(s, p0) == SearchFrom(s, p)
    decreases p - p0
  {
    if p0 < p {
      if p0 + 6 <= |s| {
        assert s[p0..p0 + 6][0] == s[p0];
      }
      SearchSkips(s, p0 + 1, p);
    }
  }

  /** The base the API puts in front of every `repository_url`. */
  function ApiBase(): string {
    "https://api.github.com/"
  }

  lemma ApiBaseHasNoR()
    ensures forall q | 0 <= q < |ApiBase()| :: ApiBase()[q] != 'r'
  {
  }

  /** The `repository_url` of a repository `owner/name` yields `owner`. */
  lemma OrgOfRepositoryUrl(owner: string, name: string)
    requires |owner| > 0 && forall k | 0 <= k < |owner| :: owner[k] != '/'
    ensures OrgOf(ApiBase() + "repos/" + owner + "/" + name) == Some(owner)
  {
    var s := ApiBase() + "repos/" + owner + "/" + name;
    var b := |ApiBase()|;
    ApiBaseHasNoR();
    assert forall q | 0 <= q < b :: s[q] == ApiBase()[q];
    SearchSkips(s, 0, b);
    assert s[b..b + 6] == "repos/";
    assert s[b + 6..b + 6 + |owner|] == owner;
    assert s[b + 6 + |owner|] == '/';
    assert Matches(s, b, owner);
    AttemptAtComplete(s, b, owner);
  }
}
