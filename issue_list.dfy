/**
 * The issue list of a repository page (`src/components/repo/issue-list.tsx`):
 * the issues shown are those that pass the difficulty filter and, when the
 * toggle is on, the good-first-issue filter, ordered newest first or by
 * fewest comments. `createdAt` is the instant in milliseconds that
 * `getTime()` yields.
 */
module IssueList {
  import opened Wrappers
  import opened Domain
  import Seqs
  import Sorting

  datatype IssueItem = IssueItem(
    id: string,
    number: nat,
    title: string,
    url: string,
    labels: seq<string>,
    commentCount: nat,
    createdAt: int,
    difficulty: Option<Difficulty>,
    isGoodFirstIssue: bool)

  /** `"ALL"` or one difficulty. */
  datatype DifficultyFilter = All | Only(level: Difficulty)

  datatype SortOption = Newest | LeastComments

  /** Passes the difficulty filter: everything under `ALL`, otherwise an equal difficulty (never `null`). */
  predicate MatchesDifficulty(filter: DifficultyFilter, issue: IssueItem) {
    filter.All? || issue.difficulty == Some(filter.level)
  }

  /** Shown at all under these filters. */
  predicate Shown(filter: DifficultyFilter, goodFirstIssueOnly: bool, issue: IssueItem) {
    MatchesDifficulty(filter, issue) && (goodFirstIssueOnly ==> issue.isGoodFirstIssue)
  }

  /**
   * The comparator as a key sorted in descending order: `dateB - dateA`
   * puts larger instants first, `a.commentCount - b.commentCount` puts
   * smaller counts first.
   */
  function SortKey(option: SortOption): IssueItem -> real {
    match option
    case Newest => (i: IssueItem) => i.createdAt as real
    case LeastComments => (i: IssueItem) => -(i.commentCount as real)
  }

  function GetFilteredAndSortedIssues(
    issues: seq<IssueItem>, difficultyFilter: DifficultyFilter,
    sortOption: SortOption, goodFirstIssueOnly: bool): seq<IssueItem>
  {
    var byDifficulty :=
      if difficultyFilter != All
      then Seqs.Filter(issues, (issue: IssueItem) => issue.difficulty == Some(difficultyFilter.level))
      else issues;
    var result :=
      if goodFirstIssueOnly
      then Seqs.Filter(byDifficulty, (issue: IssueItem) => issue.isGoodFirstIssue)
      else byDifficulty;
    Sorting.SortDesc(result, SortKey(sortOption))
  }

  /**
   * The list shown holds exactly the issues that pass both filters, each as
   * many times as it is given, and nothing else.
   */
  lemma ShownExactly(issues: seq<IssueItem>, filter: DifficultyFilter, option: SortOption, gfiOnly: bool)
    ensures forall x ::
      multiset(GetFilteredAndSortedIssues(issues, filter, option, gfiOnly))[x] ==
      if Shown(filter, gfiOnly, x) then multiset(issues)[x] else 0
  {
    var byDifficulty :=
      if filter != All
      then Seqs.Filter(issues, (issue: IssueItem) => issue.difficulty == Some(filter.level))
      else issues;
    if filter != All {
      Seqs.FilterMultiset(issues, (issue: IssueItem) => issue.difficulty == Some(filter.level));
    }
    if gfiOnly {
      Seqs.FilterMultiset(byDifficulty, (issue: IssueItem) => issue.isGoodFirstIssue);
    }
  }

  /** An issue appears in the list if and only if it is given and passes both filters. */
  lemma ShownIff(issues: seq<IssueItem>, filter: DifficultyFilter, option: SortOption, gfiOnly: bool, x: IssueItem)
    ensures x in GetFilteredAndSortedIssues(issues, filter, option, gfiOnly) <==> x in issues && Shown(filter, gfiOnly, x)
  {
    ShownExactly(issues, filter, option, gfiOnly);
    assert x in GetFilteredAndSortedIssues(issues, filter, option, gfiOnly) <==>
      multiset(GetFilteredAndSortedIssues(issues, filter, option, gfiOnly))[x] > 0;
    assert x in issues <==> multiset(issues)[x] > 0;
  }

  /** An issue without a difficulty is hidden by every difficulty but `ALL`. */
  lemma UnratedHidden(issues: seq<IssueItem>, level: Difficulty, option: SortOption, gfiOnly: bool, x: IssueItem)
    requires x.difficulty == None
    ensures x !in GetFilteredAndSortedIssues(issues, Only(level), option, gfiOnly)
  {
    ShownIff(issues, Only(level), option, gfiOnly, x);
  }

  /** "Newest first": creation instants never increase along the list. */
  lemma NewestFirst(issues: seq<IssueItem>, filter: DifficultyFilter, gfiOnly: bool)
    ensures var r := GetFilteredAndSortedIssues(issues, filter, Newest, gfiOnly);
      forall i, j :: 0 <= i < j < |r| ==> r[i].createdAt >= r[j].createdAt
  {
    var r := GetFilteredAndSortedIssues(issues, filter, Newest, gfiOnly);
    forall i, j | 0 <= i < j < |r| ensures r[i].createdAt >= r[j].createdAt {
      assert SortKey(Newest)(r[i]) >= SortKey(Newest)(r[j]);
    }
  }

  /** "Least comments": comment counts never decrease along the list. */
  lemma LeastCommentsFirst(issues: seq<IssueItem>, filter: DifficultyFilter, gfiOnly: bool)
    ensures var r := GetFilteredAndSortedIssues(issues, filter, LeastComments, gfiOnly);
      forall i, j :: 0 <= i < j < |r| ==> r[i].commentCount <= r[j].commentCount
  {
    var r := GetFilteredAndSortedIssues(issues, filter, LeastComments, gfiOnly);
    forall i, j | 0 <= i < j < |r| ensures r[i].commentCount <= r[j].commentCount {
      assert SortKey(LeastComments)(r[i]) >= SortKey(LeastComments)(r[j]);
    }
  }
}
