/** One pass through the three pages: the teacher creates a task, a group submits against it,
    and the reports page filters by group. Everything asserted follows from the method contracts
    and the function definitions. */
module Walkthrough {
  import opened Text
  import opened Records
  import opened Storage
  import opened Admin
  import opened Student
  import opened Reports

  const Essay := Task("t1", "Ensayo", "Historia", 3, "2025-03-01T10:00:00.000Z")
  const Delivery :=
    Submission("s1", "t1", "Ensayo", ["Ana", "Luis"], "2A", "https://x.test/doc", "2025-03-02T09:00:00.000Z")

  /** The sample inputs: which of them a form check treats as blank. */
  lemma SampleTexts()
    ensures !IsBlank("Ensayo") && !IsBlank("Historia") && IsBlank("   ")
    ensures !IsBlank("Ana") && !IsBlank("Luis") && IsBlank("")
    ensures !IsBlank("https://x.test/doc")
  {
    assert !IsWhitespace("Ensayo"[0]) && !IsWhitespace("Historia"[0]);
    assert !IsWhitespace("Ana"[0]) && !IsWhitespace("Luis"[0]);
    assert !IsWhitespace("https://x.test/doc"[0]);
  }

  /** Three slots with a blank one in the middle keep the outer two. */
  lemma RosterWithBlankMiddle(a: string, b: string, c: string)
    requires !IsBlank(a) && IsBlank(b) && !IsBlank(c)
    ensures FilledMembers([a, b, c]) == [a, c]
  {
    TrimEmptyIffBlank(a);
    TrimEmptyIffBlank(b);
    TrimEmptyIffBlank(c);
    assert [a, b, c][1..] == [b, c] && [b, c][1..] == [c] && [c][1..] == [];
    assert FilledMembers([c]) == [c];
    assert FilledMembers([b, c]) == [c];
  }

  /** A wrong password is refused, the right one unlocks the page. */
  method TeacherLogsIn(admin: AdminPage)
    requires admin.Valid() && !admin.isAuthenticated
    modifies admin
    ensures admin.Valid() && admin.isAuthenticated
  {
    admin.EnterPassword("1234");
    var granted := admin.HandleLogin();
    assert !granted && !admin.isAuthenticated;
    admin.EnterPassword("2707");
    granted := admin.HandleLogin();
    assert granted && admin.isAuthenticated;
  }

  /** A blank subject is refused and leaves the store alone; a complete form creates the task. */
  method TeacherCreatesTask(admin: AdminPage)
    requires admin.Valid() && admin.store.tasksEntry == None
    modifies admin, admin.store
    ensures admin.store.Valid() && admin.store.tasksEntry == Some([Essay])
    ensures admin.store.submissionsEntry == old(admin.store.submissionsEntry)
  {
    SampleTexts();
    admin.EnterTaskName("Ensayo");
    admin.EnterSubject("   ");
    var created := admin.HandleCreateTask("t1", "2025-03-01T10:00:00.000Z");
    assert !created && admin.store.tasksEntry == None;

    admin.EnterSubject("Historia");
    admin.SelectMaxMembers("3");
    assert admin.maxMembers == MaxMembersChoices[2];
    assert admin.NewTask("t1", "2025-03-01T10:00:00.000Z") == Essay;
    created := admin.HandleCreateTask("t1", "2025-03-01T10:00:00.000Z");
    assert created && admin.taskName == "" && admin.maxMembers == "1";
    assert admin.store.tasksEntry == Some([] + [Essay]);
    assert [] + [Essay] == [Essay];
  }

  /** Picking the task opens three empty slots; two names go in, the middle slot stays empty. */
  method GroupFillsForm(student: StudentPage)
    requires student.Valid() && student.tasks == [Essay] && student.selectedTask == ""
    modifies student
    ensures student.Valid() && student.tasks == [Essay] && student.selectedTask == "t1"
    ensures student.members == ["Ana", "", "Luis"]
    ensures student.group == "2A" && student.link == "https://x.test/doc"
  {
    student.SelectTask("t1");
    assert FindTask([Essay], "t1") == Some(Essay);
    assert student.members == ["", "", ""];
    student.ChangeMember(0, "Ana");
    student.ChangeMember(2, "Luis");
    student.SelectGroup("2A");
    student.EnterLink("https://x.test/doc");
  }

  /** The filled form is accepted and stored with the blank slot dropped. */
  method GroupSubmits(student: StudentPage)
    requires student.Valid() && student.tasks == [Essay] && student.selectedTask == "t1"
    requires student.members == ["Ana", "", "Luis"]
    requires student.group == "2A" && student.link == "https://x.test/doc"
    requires student.store.submissionsEntry == None
    modifies student, student.store
    ensures student.store.submissionsEntry == Some([Delivery])
  {
    SampleTexts();
    RosterWithBlankMiddle("Ana", "", "Luis");
    assert student.NewSubmission("s1", "2025-03-02T09:00:00.000Z") == Delivery;
    var submitted := student.HandleSubmit("s1", "2025-03-02T09:00:00.000Z");
    assert submitted && student.selectedTask == "" && student.group == "" && student.link == "";
    assert student.store.submissionsEntry == Some([] + [Delivery]);
    assert [] + [Delivery] == [Delivery];
  }

  /** The reports page finds the delivery under its group and its task, and not under another
      group. */
  method ReportsFilter(store: Store)
    requires store.submissionsEntry == Some([Delivery])
  {
    assert ReportedSubmissions(store, "all", "2C") == [];
    assert ReportedSubmissions(store, "", "2A") == [Delivery];
    assert CountLabel(|ReportedSubmissions(store, "t1", "all")|) == "trabajo encontrado";
  }

  /** The three pages in turn, on a store that starts empty. */
  method TaskSubmissionReport() {
    var store := new Store(None, None);
    var admin := new AdminPage(store);
    TeacherLogsIn(admin);
    TeacherCreatesTask(admin);
    var student := new StudentPage(store);
    GroupFillsForm(student);
    GroupSubmits(student);
    ReportsFilter(store);
  }
}
