/**
 * The session-history state of the dashboard (src/components/Dashboard.js):
 * the paging filters, the list grown by "load more", the filter change that
 * restarts paging, and the CSS class of a scenario's skill badge.
 */
module Dashboard {
  import opened Wrappers
  import opened JsText

  /** The query of the session-history request. */
  datatype Filters = Filters(scenario: string, limit: nat, offset: nat)

  const InitialFilters: Filters := Filters("all", 6, 0)

  /** `handleFilterChange(filterType, value)` for each of the filter keys. */
  datatype FilterChange = SetScenario(scenario: string) | SetLimit(limit: nat) | SetOffset(offset: nat)

  datatype SessionRecord = SessionRecord(sessionId: string)

  /** The history response kept in `sessionsData`: its sessions and
      `pagination.hasMore` (an absent flag reads as false). */
  datatype SessionsData = SessionsData(sessions: seq<SessionRecord>, hasMore: bool)

  const InitialSessionsData: SessionsData := SessionsData([], false)

  datatype ScenarioCard = ScenarioCard(scenarioId: string, salesSkillArea: string)

  /** The filters of the next page: the same scenario and page size, the
      offset advanced by one page. */
  function NextPage(f: Filters): Filters {
    f.(offset := f.offset + f.limit)
  }

  /** The filters after `n` successful "load more" requests. */
  function AfterLoads(f: Filters, n: nat): Filters {
    if n == 0 then f else NextPage(AfterLoads(f, n - 1))
  }

  /** After `n` pages the scenario and page size are unchanged and the offset
      has moved by exactly `n` pages, so successive requests ask for adjacent,
      non-overlapping windows. */
  lemma {:induction false} AfterLoadsOffset(f: Filters, n: nat)
    ensures AfterLoads(f, n).scenario == f.scenario && AfterLoads(f, n).limit == f.limit
    ensures AfterLoads(f, n).offset == f.offset + n * f.limit
  {
    if n > 0 {
      AfterLoadsOffset(f, n - 1);
      assert (n - 1) * f.limit + f.limit == n * f.limit;
    }
  }

  /** From the initial filters, the `n`-th "load more" asks for offset 6n. */
  lemma InitialPaging(n: nat)
    ensures AfterLoads(InitialFilters, n) == Filters("all", 6, 6 * n)
  {
    AfterLoadsOffset(InitialFilters, n);
  }

  /** `{...sessionFilters, [filterType]: value, offset: 0}`: the named key takes
      the value, the other keys keep theirs, and the offset restarts at 0. */
  function WithFilter(f: Filters, change: FilterChange): (r: Filters)
    ensures r.offset == 0
    ensures r.scenario == (if change.SetScenario? then change.scenario else f.scenario)
    ensures r.limit == (if change.SetLimit? then change.limit else f.limit)
  {
    match change
    case SetScenario(s) => f.(scenario := s, offset := 0)
    case SetLimit(n) => f.(limit := n, offset := 0)
    case SetOffset(_) => f.(offset := 0)
  }

  /** A filter change forgets how far paging had gone, and applying it twice
      is the same as applying it once. */
  lemma WithFilterForgetsPaging(f: Filters, change: FilterChange, n: nat)
    ensures WithFilter(AfterLoads(f, n), change) == WithFilter(f, change)
    ensures WithFilter(WithFilter(f, change), change) == WithFilter(f, change)
  {
    AfterLoadsOffset(f, n);
  }

  /** `{...response.data, sessions: [...prev.sessions, ...response.data.sessions]}`. */
  function MergePage(prev: SessionsData, fetched: SessionsData): (r: SessionsData)
    ensures |r.sessions| == |prev.sessions| + |fetched.sessions|
    ensures r.sessions[..|prev.sessions|] == prev.sessions
    ensures r.sessions[|prev.sessions|..] == fetched.sessions
    ensures r.hasMore == fetched.hasMore
  {
    SessionsData(prev.sessions + fetched.sessions, fetched.hasMore)
  }

  /** The sessions of a list of pages, in order. */
  function Flatten(pages: seq<SessionsData>): seq<SessionRecord> {
    if pages == [] then [] else Flatten(pages[..|pages| - 1]) + pages[|pages| - 1].sessions
  }

  /** The result of merging the pages one after another. */
  function MergeAll(start: SessionsData, pages: seq<SessionsData>): SessionsData {
    if pages == [] then start else MergePage(MergeAll(start, pages[..|pages| - 1]), pages[|pages| - 1])
  }

  /** After any number of "load more" calls the list is the first page's
      sessions followed by every fetched page's, in fetch order, and the
      `hasMore` flag is the last page's. */
  lemma {:induction false} MergeAllIsConcatenation(start: SessionsData, pages: seq<SessionsData>)
    ensures MergeAll(start, pages).sessions == start.sessions + Flatten(pages)
    ensures pages != [] ==> MergeAll(start, pages).hasMore == pages[|pages| - 1].hasMore
    decreases |pages|
  {
    if pages != [] {
      MergeAllIsConcatenation(start, pages[..|pages| - 1]);
    }
  }

  /** The scan of `s.replace(/\s+/g, '-')`: `inRun` says whether the
      character before `s` was whitespace already replaced by `-`. */
  function DashRunsFrom(s: string, inRun: bool): string
    decreases |s|
  {
    if s == [] then []
    else if !IsWhitespace(s[0]) then [s[0]] + DashRunsFrom(s[1..], false)
    else if inRun then DashRunsFrom(s[1..], true)
    else "-" + DashRunsFrom(s[1..], true)
  }

  /** `s.replace(/\s+/g, '-')`: every maximal run of whitespace becomes one `-`. */
  function DashRuns(s: string): string {
    DashRunsFrom(s, false)
  }

  /** The skill-badge slug: lower-cased, whitespace runs turned into `-`. */
  function Slug(s: string): string {
    DashRuns(Lower(s))
  }

  /** The class attribute of a scenario card's skill badge: the fixed
      `skill-badge` class, then one class token with no whitespace in it,
      built from `-` and the lower-cased skill area's characters. */
  function SkillBadgeClass(card: ScenarioCard): (r: string)
    ensures |r| >= 12 && r[..12] == "skill-badge "
    ensures forall i :: 12 <= i < |r| ==> !IsWhitespace(r[i])
    ensures forall i :: 12 <= i < |r| ==> r[i] == '-' || r[i] in Lower(card.salesSkillArea)
  {
    DashRunsChars(Lower(card.salesSkillArea), false);
    "skill-badge " + Slug(card.salesSkillArea)
  }

  /** The slug contains no whitespace, and each of its characters is a `-` or
      a character of the input. */
  lemma {:induction false} DashRunsChars(s: string, inRun: bool)
    ensures forall i :: 0 <= i < |DashRunsFrom(s, inRun)| ==> !IsWhitespace(DashRunsFrom(s, inRun)[i])
    ensures forall i :: 0 <= i < |DashRunsFrom(s, inRun)| ==>
      DashRunsFrom(s, inRun)[i] == '-' || DashRunsFrom(s, inRun)[i] in s
    decreases |s|
  {
    if s != [] {
      var rest := DashRunsFrom(s[1..], IsWhitespace(s[0]));
      DashRunsChars(s[1..], IsWhitespace(s[0]));
      var head := DashRunsFrom(s, inRun)[..|DashRunsFrom(s, inRun)| - |rest|];
      assert DashRunsFrom(s, inRun) == head + rest;
      assert head == [] || head == "-" || head == [s[0]];
      forall i | 0 <= i < |DashRunsFrom(s, inRun)|
        ensures !IsWhitespace(DashRunsFrom(s, inRun)[i])
        ensures DashRunsFrom(s, inRun)[i] == '-' || DashRunsFrom(s, inRun)[i] in s
      {
        if i >= |head| {
          var x := rest[i - |head|];
          assert DashRunsFrom(s, inRun)[i] == x;
          if x != '-' {
            var j :| 0 <= j < |s[1..]| && s[1..][j] == x;
            assert s[j + 1] == x;
          }
        }
      }
    }
  }

  /** A string without whitespace is kept as it is. */
  lemma {:induction false} DashRunsKeepsWords(s: string, inRun: bool)
    requires forall i :: 0 <= i < |s| ==> !IsWhitespace(s[i])
    ensures DashRunsFrom(s, inRun) == s
    decreases |s|
  {
    if s != [] {
      DashRunsKeepsWords(s[1..], false);
    }
  }

  /** A run of whitespace becomes a single `-`, or nothing when it continues
      a run already replaced. */
  lemma {:induction false} DashRunsOfRun(s: string, inRun: bool)
    requires s != [] && AllWhitespace(s)
    ensures DashRunsFrom(s, inRun) == if inRun then "" else "-"
    decreases |s|
  {
    if |s| > 1 {
      DashRunsOfRun(s[1..], true);
    }
  }

  /** A character that is not whitespace separates the replacement: what is
      before it and what is after it are rewritten independently. */
  lemma {:induction false} DashRunsSplit(a: string, c: char, b: string, inRun: bool)
    requires !IsWhitespace(c)
    ensures DashRunsFrom(a + [c] + b, inRun) == DashRunsFrom(a, inRun) + [c] + DashRunsFrom(b, false)
    decreases |a|
  {
    if a == [] {
      assert a + [c] + b == [c] + b;
      assert ([c] + b)[1..] == b;
    } else {
      assert (a + [c] + b)[1..] == a[1..] + [c] + b;
      DashRunsSplit(a[1..], c, b, IsWhitespace(a[0]));
    }
  }

  /** Slugging a slug changes nothing. */
  lemma SlugIdempotent(s: string)
    ensures Slug(Slug(s)) == Slug(s)
  {
    var t := Slug(s);
    DashRunsChars(Lower(s), false);
    forall i | 0 <= i < |t| ensures LowerChar(t[i]) == t[i] {
      if t[i] != '-' {
        var j :| 0 <= j < |Lower(s)| && Lower(s)[j] == t[i];
      }
    }
    assert Lower(t) == t;
    DashRunsKeepsWords(t, false);
  }

  /** The dashboard's session-history state. */
  class DashboardState {
    var scenarios: seq<ScenarioCard>
    var sessions: seq<SessionRecord>
    var sessionsData: SessionsData
    var sessionFilters: Filters
    var loading: bool

    constructor ()
      ensures scenarios == [] && sessions == [] && loading
      ensures sessionsData == InitialSessionsData && sessionFilters == InitialFilters
    {
      scenarios, sessions := [], [];
      sessionsData := InitialSessionsData;
      sessionFilters := InitialFilters;
      loading := true;
    }

    /** `loadData`: asks for the scenarios and the history page of the current
        filters; on success both replace what was shown, on failure nothing
        does, and `loading` ends false either way. */
    method LoadData(response: Option<(seq<ScenarioCard>, SessionsData)>) returns (query: Filters)
      modifies this`scenarios, this`sessions, this`sessionsData, this`loading
      ensures query == sessionFilters
      ensures !loading
      ensures response.Some? ==>
        scenarios == response.value.0 && sessionsData == response.value.1 && sessions == response.value.1.sessions
      ensures response.None? ==>
        scenarios == old(scenarios) && sessionsData == old(sessionsData) && sessions == old(sessions)
    {
      query := sessionFilters;
      if response.Some? {
        scenarios := response.value.0;
        sessionsData := response.value.1;
        sessions := response.value.1.sessions;
      }
      loading := false;
    }

    /** `loadMoreSessions`: asks for the next page; on success the fetched
        sessions are appended and the filters advance to that page, on
        failure neither the list nor the filters change. */
    method LoadMoreSessions(response: Option<SessionsData>) returns (query: Filters)
      modifies this`sessionsData, this`sessionFilters
      ensures query == NextPage(old(sessionFilters))
      ensures response.Some? ==>
        sessionsData == MergePage(old(sessionsData), response.value) && sessionFilters == query
      ensures response.None? ==>
        sessionsData == old(sessionsData) && sessionFilters == old(sessionFilters)
    {
      query := NextPage(sessionFilters);
      if response.Some? {
        sessionsData := MergePage(sessionsData, response.value);
        sessionFilters := query;
      }
    }

    /** `handleFilterChange`: the new filters. The reload it schedules runs
        the `loadData` of the render before the change, which still holds
        the old filters; that reload is not modelled. */
    method HandleFilterChange(change: FilterChange)
      modifies this`sessionFilters
      ensures sessionFilters == WithFilter(old(sessionFilters), change)
    {
      sessionFilters := WithFilter(sessionFilters, change);
    }
  }
}
