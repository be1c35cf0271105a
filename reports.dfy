/** The reports page (src/pages/Reports.tsx): the stored submissions, filtered by an optional
    task and an optional group. */
module Reports {
  import opened Records
  import opened Storage
  import Student

  /** The class groups the group filter offers after "all". */
  const Groups: seq<string> := ["2A", "2C", "2D", "2F Leona"]

  /** The options of the group filter, in the order the select lists them. */
  const GroupFilterOptions: seq<string> := ["all"] + Groups

  /** A selection that does not constrain: the select's "all" or nothing selected yet. */
  predicate Unconstrained(selection: string) {
    selection == "all" || selection == ""
  }

  /** The predicate the page filters with. */
  predicate Passes(sub: Submission, selectedTask: string, selectedGroup: string) {
    (selectedTask == "all" || selectedTask == "" || sub.taskId == selectedTask) &&
    (selectedGroup == "all" || selectedGroup == "" || sub.group == selectedGroup)
  }

  /** `filteredSubmissions`: the submissions that pass, in their original order. */
  function FilteredSubmissions(submissions: seq<Submission>, selectedTask: string, selectedGroup: string)
    : (r: seq<Submission>)
    ensures |r| <= |submissions|
    ensures IsSubsequence(r, submissions)
    ensures forall i :: 0 <= i < |r| ==> Passes(r[i], selectedTask, selectedGroup)
  {
    if submissions == [] then []
    else
      var rest := FilteredSubmissions(submissions[1..], selectedTask, selectedGroup);
      if Passes(submissions[0], selectedTask, selectedGroup) then [submissions[0]] + rest else rest
  }

  /** What the page shows: the submissions loaded from the store when it mounted, filtered. */
  function ReportedSubmissions(store: Store, selectedTask: string, selectedGroup: string)
    : (r: seq<Submission>)
    reads store
    ensures IsSubsequence(r, store.Submissions())
    ensures store.submissionsEntry.None? ==> r == []
  {
    FilteredSubmissions(store.Submissions(), selectedTask, selectedGroup)
  }

  /** A submission is shown exactly when it is stored and each selection is unset, "all", or
      equal to its task id or group. */
  lemma {:induction false} FilteredContains(
    submissions: seq<Submission>, selectedTask: string, selectedGroup: string, s: Submission)
    ensures s in FilteredSubmissions(submissions, selectedTask, selectedGroup) <==>
              s in submissions &&
              (Unconstrained(selectedTask) || s.taskId == selectedTask) &&
              (Unconstrained(selectedGroup) || s.group == selectedGroup)
  {
    if submissions != [] {
      FilteredContains(submissions[1..], selectedTask, selectedGroup, s);
      assert submissions == [submissions[0]] + submissions[1..];
    }
  }

  /** Filtering a concatenation filters each part, so the result keeps every passing record as
      often as it occurs. */
  lemma {:induction false} FilteredAppend(
    a: seq<Submission>, b: seq<Submission>, selectedTask: string, selectedGroup: string)
    ensures FilteredSubmissions(a + b, selectedTask, selectedGroup) ==
            FilteredSubmissions(a, selectedTask, selectedGroup) + FilteredSubmissions(b, selectedTask, selectedGroup)
  {
    if a != [] {
      assert (a + b)[0] == a[0];
      assert (a + b)[1..] == a[1..] + b;
      FilteredAppend(a[1..], b, selectedTask, selectedGroup);
    } else {
      assert a + b == b;
    }
  }

  /** With neither selection constraining, every submission is shown, unchanged and in order. */
  lemma {:induction false} FilteredUnconstrained(
    submissions: seq<Submission>, selectedTask: string, selectedGroup: string)
    requires Unconstrained(selectedTask) && Unconstrained(selectedGroup)
    ensures FilteredSubmissions(submissions, selectedTask, selectedGroup) == submissions
  {
    if submissions != [] {
      FilteredUnconstrained(submissions[1..], selectedTask, selectedGroup);
      assert submissions == [submissions[0]] + submissions[1..];
    }
  }

  /** Applying the same filter to its own result changes nothing. */
  lemma {:induction false} FilteredIdempotent(
    submissions: seq<Submission>, selectedTask: string, selectedGroup: string)
    ensures var once := FilteredSubmissions(submissions, selectedTask, selectedGroup);
            FilteredSubmissions(once, selectedTask, selectedGroup) == once
  {
    if submissions != [] {
      FilteredIdempotent(submissions[1..], selectedTask, selectedGroup);
      var rest := FilteredSubmissions(submissions[1..], selectedTask, selectedGroup);
      if Passes(submissions[0], selectedTask, selectedGroup) {
        assert ([submissions[0]] + rest)[1..] == rest;
      }
    }
  }

  /** Filtering on both keys is filtering on the task and then on the group. */
  lemma {:induction false} FilteredInTwoSteps(
    submissions: seq<Submission>, selectedTask: string, selectedGroup: string)
    ensures FilteredSubmissions(submissions, selectedTask, selectedGroup) ==
            FilteredSubmissions(FilteredSubmissions(submissions, selectedTask, "all"), "all", selectedGroup)
  {
    if submissions != [] {
      FilteredInTwoSteps(submissions[1..], selectedTask, selectedGroup);
      var byTask := FilteredSubmissions(submissions[1..], selectedTask, "all");
      if Passes(submissions[0], selectedTask, "all") {
        assert ([submissions[0]] + byTask)[1..] == byTask;
      }
    }
  }

  /** The group filter offers "all" followed by exactly the groups the student page offers. */
  lemma GroupFilterOptionsMatchStudent()
    ensures GroupFilterOptions[0] == "all" && GroupFilterOptions[1..] == Student.Groups
  {
  }

  /** The count line under "Trabajos Entregados": both words plural unless exactly one. */
  function CountLabel(count: nat): (r: string)
    ensures r == "trabajo encontrado" <==> count == 1
    ensures r == "trabajos encontrados" <==> count != 1
  {
    var suffix := if count != 1 then "s" else "";
    "trabajo" + suffix + " encontrado" + suffix
  }
}
