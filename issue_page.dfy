/**
 * frontend/src/components/IssuePage.jsx: the search and filter over the
 * fetched issues, the comparator-driven sort of a copy of the filtered
 * list, the priority badge colours, and the page state that fetching and
 * deleting replace.
 */
module IssuePage {
  import opened Js
  import opened JsStrings
  import opened Seqs
  import opened IssueModel
  import opened Sorting

  const AllCategories := "All Categories"
  const AllPriority := "All Priority"

  const Latest := "Latest"
  const Oldest := "Oldest"
  const HighPriorityFirst := "High Priority First"
  const LowPriorityFirst := "Low Priority First"

  /** The `priorityOrder` table of the comparator. */
  const PriorityOrder: map<string, int> := map["critical" := 4, "high" := 3, "medium" := 2, "low" := 1]

  // ---------------------------------------------------------------- filter

  /**
   * The search test: the lower-cased query occurs in the lower-cased title
   * or, failing that, in the lower-cased description.
   */
  predicate MatchesSearch(x: Issue, query: string) {
    Includes(Lower(x.title), Lower(query)) ||
    (x.description.Some? && Includes(Lower(x.description.value), Lower(query)))
  }

  /** The whole test of `filteredIssues`: search, then the category and priority selections. */
  predicate Matches(x: Issue, query: string, category: string, priority: string) {
    && MatchesSearch(x, query)
    && (category == AllCategories || x.category == category)
    && (priority == AllPriority || x.priority == priority)
  }

  /**
   * The search never throws: it reads `issue.description.toLowerCase()`
   * only when the title does not match, and that throws for an issue
   * without a description, so such an issue must match by its title.
   */
  predicate Searchable(issues: seq<Issue>, query: string) {
    forall i :: 0 <= i < |issues| && issues[i].description.None? ==>
      Includes(Lower(issues[i].title), Lower(query))
  }

  /** A list whose every issue has a description can be searched with any query. */
  lemma DescribedIsSearchable(issues: seq<Issue>, query: string)
    requires Described(issues)
    ensures Searchable(issues, query)
  {
  }

  /** `filteredIssues`, for a list the search does not throw on. */
  function FilterIssues(issues: seq<Issue>, query: string, category: string, priority: string): seq<Issue>
    requires Searchable(issues, query)
  {
    Filter(issues, x => Matches(x, query, category, priority))
  }

  /**
   * The filtered list is an order-preserving selection of the issues: it
   * keeps each matching issue as often as it occurs and nothing else.
   */
  lemma FilterIsExactSelection(issues: seq<Issue>, query: string, category: string, priority: string)
    requires Searchable(issues, query)
    ensures IsSubsequence(FilterIssues(issues, query, category, priority), issues)
    ensures forall x :: multiset(FilterIssues(issues, query, category, priority))[x] ==
                        if Matches(x, query, category, priority) then multiset(issues)[x] else 0
  {
  }

  /**
   * Each kept issue has the lower-cased query at some position of its
   * lower-cased title or of its lower-cased description, and agrees with
   * every selection that is not the "All" sentinel.
   */
  lemma {:induction false} KeptIssuesMatch(issues: seq<Issue>, query: string, category: string, priority: string, i: nat)
    requires Searchable(issues, query)
    requires i < |FilterIssues(issues, query, category, priority)|
    ensures var x := FilterIssues(issues, query, category, priority)[i];
            && ((exists k :: OccursAt(Lower(x.title), Lower(query), k)) ||
                (x.description.Some? && exists k :: OccursAt(Lower(x.description.value), Lower(query), k)))
            && (category != AllCategories ==> x.category == category)
            && (priority != AllPriority ==> x.priority == priority)
  {
    var r := FilterIssues(issues, query, category, priority);
    var x := r[i];
    assert x in multiset(r);
    IncludesIffOccurs(Lower(x.title), Lower(query));
    if x.description.Some? {
      IncludesIffOccurs(Lower(x.description.value), Lower(query));
    }
  }

  /**
   * With an empty search and both "All" sentinels the filter keeps every
   * issue, in order: every title includes the empty query, so no
   * description is ever read.
   */
  lemma {:induction false} NoFilterKeepsAll(issues: seq<Issue>)
    ensures Searchable(issues, "")
    ensures FilterIssues(issues, "", AllCategories, AllPriority) == issues
  {
    assert Lower("") == "";
    forall i | 0 <= i < |issues| ensures Matches(issues[i], "", AllCategories, AllPriority) {
      IncludesEmpty(Lower(issues[i].title));
    }
    FilterKeepsAll(issues, x => Matches(x, "", AllCategories, AllPriority));
  }

  // ------------------------------------------------------------------ sort

  predicate IsPrioritySort(sortBy: string) {
    sortBy == HighPriorityFirst || sortBy == LowPriorityFirst
  }

  /** The comparator is a number for this issue: always, except for an unknown priority under a priority sort (NaN). */
  predicate RankDefined(x: Issue, sortBy: string) {
    IsPrioritySort(sortBy) ==> x.priority in PriorityOrder
  }

  predicate Sortable(xs: seq<Issue>, sortBy: string) {
    forall i :: 0 <= i < |xs| ==> RankDefined(xs[i], sortBy)
  }

  /** The comparator passed to `sort`, case by case on `sortBy`; unknown keys compare equal. */
  function Compare(a: Issue, b: Issue, sortBy: string): int
    requires RankDefined(a, sortBy) && RankDefined(b, sortBy)
  {
    if sortBy == Latest then b.createdAt - a.createdAt
    else if sortBy == Oldest then a.createdAt - b.createdAt
    else if sortBy == HighPriorityFirst then PriorityOrder[b.priority] - PriorityOrder[a.priority]
    else if sortBy == LowPriorityFirst then PriorityOrder[a.priority] - PriorityOrder[b.priority]
    else 0
  }

  /** A priority's weight in `priorityOrder`; only ever read for the four priorities of the table. */
  function Weight(priority: string): int {
    if priority in PriorityOrder then PriorityOrder[priority] else 0
  }

  /** The sort key the comparator compares: the smaller it is, the further forward the issue goes. */
  function Rank(x: Issue, sortBy: string): int {
    if sortBy == Latest then -x.createdAt
    else if sortBy == Oldest then x.createdAt
    else if sortBy == HighPriorityFirst then -Weight(x.priority)
    else if sortBy == LowPriorityFirst then Weight(x.priority)
    else 0
  }

  function SortKey(sortBy: string): Issue -> int {
    (x: Issue) => Rank(x, sortBy)
  }

  /** The comparator is the difference of the two keys, so it orders issues consistently. */
  lemma CompareIsRankDifference(a: Issue, b: Issue, sortBy: string)
    requires RankDefined(a, sortBy) && RankDefined(b, sortBy)
    ensures Compare(a, b, sortBy) == SortKey(sortBy)(a) - SortKey(sortBy)(b)
  {
  }

  /**
   * `[...filteredIssues].sort(comparator)`: the stable sort by the key the
   * comparator subtracts. A priority sort over an unknown priority is
   * excluded, since the comparator is then NaN.
   */
  function SortIssues(xs: seq<Issue>, sortBy: string): seq<Issue>
    requires Sortable(xs, sortBy)
  {
    SortBy(xs, SortKey(sortBy))
  }

  /** The sorted copy is a permutation of the list it was made from. */
  lemma SortIssuesPermutes(xs: seq<Issue>, sortBy: string)
    requires Sortable(xs, sortBy)
    ensures multiset(SortIssues(xs, sortBy)) == multiset(xs)
  {
    SortByPermutes(xs, SortKey(sortBy));
  }

  /** The sorted copy is ordered by the comparator's key. */
  lemma SortIssuesSorted(xs: seq<Issue>, sortBy: string)
    requires Sortable(xs, sortBy)
    ensures forall i, j :: 0 <= i < j < |SortIssues(xs, sortBy)| ==>
              Rank(SortIssues(xs, sortBy)[i], sortBy) <= Rank(SortIssues(xs, sortBy)[j], sortBy)
  {
    SortBySorted(xs, SortKey(sortBy));
  }

  /**
   * The sort is stable: for every key, the issues with that key appear in
   * the sorted copy in the order they had before.
   */
  lemma SortIssuesStable(xs: seq<Issue>, sortBy: string, k: int)
    requires Sortable(xs, sortBy)
    ensures WithKey(SortIssues(xs, sortBy), SortKey(sortBy), k) == WithKey(xs, SortKey(sortBy), k)
  {
    SortByStable(xs, SortKey(sortBy), k);
  }

  /**
   * What each option means for the sorted copy: 'Latest' newest first,
   * 'Oldest' oldest first, and the two priority options by the weight table.
   */
  lemma SortOrderMeaning(xs: seq<Issue>, sortBy: string)
    requires Sortable(xs, sortBy)
    ensures var r := SortIssues(xs, sortBy);
            && (IsPrioritySort(sortBy) ==> forall i :: 0 <= i < |r| ==> r[i].priority in PriorityOrder)
            && (sortBy == Latest ==> forall i, j :: 0 <= i < j < |r| ==> r[i].createdAt >= r[j].createdAt)
            && (sortBy == Oldest ==> forall i, j :: 0 <= i < j < |r| ==> r[i].createdAt <= r[j].createdAt)
            && (sortBy == HighPriorityFirst ==>
                  forall i, j :: 0 <= i < j < |r| ==> PriorityOrder[r[i].priority] >= PriorityOrder[r[j].priority])
            && (sortBy == LowPriorityFirst ==>
                  forall i, j :: 0 <= i < j < |r| ==> PriorityOrder[r[i].priority] <= PriorityOrder[r[j].priority])
  {
    var r := SortIssues(xs, sortBy);
    SortIssuesSorted(xs, sortBy);
    SortIssuesPermutes(xs, sortBy);
    if IsPrioritySort(sortBy) {
      forall i | 0 <= i < |r| ensures r[i].priority in PriorityOrder {
        assert r[i] in multiset(xs);
      }
    }
  }

  /** An unknown sort option makes every pair compare equal, which leaves the filtered order as it is. */
  lemma UnknownSortKeepsOrder(xs: seq<Issue>, sortBy: string)
    requires sortBy != Latest && sortBy != Oldest && !IsPrioritySort(sortBy)
    ensures SortIssues(xs, sortBy) == xs
  {
    SortByEqualKeys(xs, SortKey(sortBy), 0);
  }

  /** 'High Priority First' on low, critical, medium gives critical, medium, low. */
  lemma HighPriorityExample(a: Issue, b: Issue, c: Issue)
    requires a.priority == "low" && b.priority == "critical" && c.priority == "medium"
    ensures SortIssues([a, b, c], HighPriorityFirst) == [b, c, a]
  {
    var key := SortKey(HighPriorityFirst);
    assert key(a) == -1 && key(b) == -4 && key(c) == -2;
    assert [c][1..] == [] && [b, c][1..] == [c] && [a, b, c][1..] == [b, c];
    assert SortBy([c], key) == [c];
    assert SortBy([b, c], key) == InsertBy(b, [c], key) == [b, c];
    assert InsertBy(a, [c], key) == [c] + InsertBy(a, [], key) == [c, a];
    assert InsertBy(a, [b, c], key) == [b] + InsertBy(a, [c], key);
  }

  /**
   * `sortedIssues`: the filtered issues sorted; a permutation of the
   * filtered list (which is itself left as it was), ordered by the
   * comparator's key. Only the issues that pass the filter reach the
   * comparator, so only they need a known priority.
   */
  function VisibleIssues(issues: seq<Issue>, query: string, category: string, priority: string, sortBy: string): (r: seq<Issue>)
    requires Searchable(issues, query) && Sortable(FilterIssues(issues, query, category, priority), sortBy)
    ensures multiset(r) == multiset(FilterIssues(issues, query, category, priority))
    ensures forall i, j :: 0 <= i < j < |r| ==> Rank(r[i], sortBy) <= Rank(r[j], sortBy)
  {
    var filtered := FilterIssues(issues, query, category, priority);
    SortIssuesPermutes(filtered, sortBy);
    SortIssuesSorted(filtered, sortBy);
    SortIssues(filtered, sortBy)
  }

  // ---------------------------------------------------------------- badges

  const UnknownPriorityColor := "text-gray-700 bg-gray-100"

  /** `getPriorityColor`: one colour per priority of the weight table, grey for anything else. */
  function PriorityColor(priority: string): (r: string)
    ensures r == UnknownPriorityColor <==> priority !in PriorityOrder
  {
    if priority == "critical" then "text-red-700 bg-red-100"
    else if priority == "high" then "text-orange-700 bg-orange-100"
    else if priority == "medium" then "text-yellow-700 bg-yellow-100"
    else if priority == "low" then "text-green-700 bg-green-100"
    else UnknownPriorityColor
  }

  /** Distinct priorities of the table get distinct colours. */
  lemma PriorityColorsDistinct(p: string, q: string)
    requires p in PriorityOrder && q in PriorityOrder && p != q
    ensures PriorityColor(p) != PriorityColor(q)
  {
  }

  // ------------------------------------------------------------ page state

  /** The list after a successful delete: `issues.filter(issue => issue._id !== id)`. */
  function WithoutId(issues: seq<Issue>, id: nat): seq<Issue> {
    Filter(issues, (x: Issue) => x.id != id)
  }

  /** Deleting locally removes every issue with that id and keeps all others, in order. */
  lemma WithoutIdRemovesExactly(issues: seq<Issue>, id: nat)
    ensures IsSubsequence(WithoutId(issues, id), issues)
    ensures forall i :: 0 <= i < |WithoutId(issues, id)| ==> WithoutId(issues, id)[i].id != id
    ensures forall x: Issue :: x.id != id ==> multiset(WithoutId(issues, id))[x] == multiset(issues)[x]
  {
  }

  /** The reply to `DELETE /api/issues/:id` as the page sees it. */
  datatype DeleteFetch =
    | DeleteReplied(ok: bool, success: bool, message: Option<string>)
    | DeleteConnectionFailed

  /** The state the page's effects replace: the list, the spinner and the error banner. */
  class Page {
    var issues: seq<Issue>
    var loading: bool
    var error: Option<string>

    constructor ()
      ensures issues == [] && loading && error == None
    {
      issues := [];
      loading := true;
      error := None;
    }

    /**
     * `fetchIssues`: a successful reply replaces the list and clears the
     * error; anything else keeps the list and sets the error. The spinner
     * is off afterwards either way.
     */
    method FetchIssues(reply: ListFetch)
      modifies this
      ensures !loading
      ensures reply.Replied? && reply.ok && reply.success ==> issues == reply.data && error == None
      ensures reply.Replied? && !(reply.ok && reply.success) ==>
                issues == old(issues) && error == Some(OrElse(reply.message, "Failed to fetch issues"))
      ensures reply.ConnectionFailed? ==> issues == old(issues) && error == Some("Unable to connect to server")
    {
      loading := true;
      match reply {
        case Replied(ok, success, data, message) =>
          if ok && success {
            issues := data;
            error := None;
          } else {
            error := Some(OrElse(message, "Failed to fetch issues"));
          }
        case ConnectionFailed =>
          error := Some("Unable to connect to server");
      }
      loading := false;
    }

    /**
     * `deleteIssue`: nothing unless the user confirms; after a successful
     * reply the issues with that id leave the list. Returns the alert text.
     */
    method DeleteIssue(id: nat, confirmed: bool, reply: DeleteFetch) returns (alert: Option<string>)
      modifies this
      ensures loading == old(loading) && error == old(error)
      ensures !confirmed ==> alert == None && issues == old(issues)
      ensures confirmed && reply.DeleteReplied? && reply.ok && reply.success ==>
                issues == WithoutId(old(issues), id) && alert == Some("Issue deleted successfully!")
      ensures confirmed && reply.DeleteReplied? && !(reply.ok && reply.success) ==>
                issues == old(issues) && alert == Some(OrElse(reply.message, "Failed to delete issue"))
      ensures confirmed && reply.DeleteConnectionFailed? ==>
                issues == old(issues) && alert == Some("Unable to delete issue")
    {
      if !confirmed {
        return None;
      }
      match reply {
        case DeleteReplied(ok, success, message) =>
          if ok && success {
            issues := WithoutId(issues, id);
            alert := Some("Issue deleted successfully!");
          } else {
            alert := Some(OrElse(message, "Failed to delete issue"));
          }
        case DeleteConnectionFailed =>
          alert := Some("Unable to delete issue");
      }
    }
  }
}
