/** The teacher page (src/pages/Admin.tsx): a password gate, then a form that appends tasks to
    the store and a list of the stored tasks. */
module Admin {
  import opened Text
  import opened Records
  import opened Storage

  /** The one password the gate accepts. */
  const Password: string := "2707"

  /** The values the "maximum members" select offers, and the label it shows for each. */
  const MaxMembersChoices: seq<string> := ["1", "2", "3", "4"]
  const MaxMembersChoiceLabels: seq<string> :=
    ["1 integrante", "2 integrantes", "3 integrantes", "4 integrantes"]

  predicate IsDigits(s: string) {
    forall i :: 0 <= i < |s| ==> '0' <= s[i] <= '9'
  }

  /** The decimal value of a string of digits (the empty string is worth 0). */
  function DigitsValue(s: string): nat
    requires IsDigits(s)
  {
    if s == [] then 0 else 10 * DigitsValue(s[..|s| - 1]) + (s[|s| - 1] as int - '0' as int)
  }

  /** `parseInt(s)` on a non-empty string of decimal digits. */
  function ParseInt(s: string): nat
    requires |s| > 0 && IsDigits(s)
  {
    DigitsValue(s)
  }

  /** The noun after a member count: plural exactly when the count exceeds one. */
  function MemberNoun(n: int): (r: string)
    ensures r == "integrantes" <==> n > 1
    ensures r == "integrante" <==> n <= 1
  {
    "integrante" + (if n > 1 then "s" else "")
  }

  /** Every value of the select parses to its position plus one, so to a count in 1..4, and
      the label the select shows is that count followed by `MemberNoun` of it. */
  lemma MaxMembersChoice(i: nat)
    requires i < |MaxMembersChoices|
    ensures |MaxMembersChoices[i]| > 0 && IsDigits(MaxMembersChoices[i])
    ensures ParseInt(MaxMembersChoices[i]) == i + 1
    ensures 1 <= ParseInt(MaxMembersChoices[i]) <= 4
    ensures MaxMembersChoiceLabels[i] == MaxMembersChoices[i] + " " + MemberNoun(i + 1)
  {
  }

  /** The check of `handleCreateTask`: neither field trims to the empty string. */
  predicate TaskFormComplete(name: string, subject: string)
    ensures TaskFormComplete(name, subject) <==> !IsBlank(name) && !IsBlank(subject)
  {
    TrimEmptyIffBlank(name);
    TrimEmptyIffBlank(subject);
    Trim(name) != "" && Trim(subject) != ""
  }

  /** The page's state (its `useState` hooks) and the store it writes to. */
  class AdminPage {
    const store: Store
    var isAuthenticated: bool
    var password: string
    var taskName: string
    var subject: string
    var maxMembers: string

    /** The select can only hold one of its own values, and the store only well-formed tasks. */
    ghost predicate Valid()
      reads this, store
    {
      store.Valid() && maxMembers in MaxMembersChoices
    }

    /** The page as first rendered: locked, empty form, one member selected. */
    constructor (store: Store)
      requires store.Valid()
      ensures Valid() && this.store == store
      ensures !isAuthenticated && password == ""
      ensures taskName == "" && subject == "" && maxMembers == "1"
    {
      this.store := store;
      isAuthenticated := false;
      password := "";
      taskName := "";
      subject := "";
      maxMembers := "1";
    }

    /** Typing into the password field. */
    method EnterPassword(value: string)
      requires Valid()
      modifies this`password
      ensures Valid() && password == value
    {
      password := value;
    }

    /** Typing into the task-name field. */
    method EnterTaskName(value: string)
      requires Valid()
      modifies this`taskName
      ensures Valid() && taskName == value
    {
      taskName := value;
    }

    /** Typing into the subject field. */
    method EnterSubject(value: string)
      requires Valid()
      modifies this`subject
      ensures Valid() && subject == value
    {
      subject := value;
    }

    /** Picking a value in the maximum-members select, which offers only its four choices. */
    method SelectMaxMembers(choice: string)
      requires Valid() && choice in MaxMembersChoices
      modifies this`maxMembers
      ensures Valid() && maxMembers == choice
    {
      maxMembers := choice;
    }

    /** `handleLogin`: unlocks the page on the right password; a wrong one leaves the flag as it
        was, and no path ever sets it back to false. */
    method HandleLogin() returns (granted: bool)
      requires Valid()
      modifies this`isAuthenticated
      ensures Valid()
      ensures granted <==> password == Password
      ensures isAuthenticated == (old(isAuthenticated) || password == Password)
    {
      granted := password == Password;
      if granted {
        isAuthenticated := true;
      }
    }

    /** `handleCreateTask`: rejects a blank name or subject and then changes nothing; otherwise
        appends one task built from the fields as typed (untrimmed) and clears the form. */
    method HandleCreateTask(id: string, createdAt: string) returns (created: bool)
      requires Valid()
      modifies this`taskName, this`subject, this`maxMembers, store`tasksEntry
      ensures Valid()
      ensures created <==> !IsBlank(old(taskName)) && !IsBlank(old(subject))
      ensures !created ==> unchanged(this) && unchanged(store)
      ensures created ==> store.tasksEntry == Some(old(store.Tasks()) + [old(NewTask(id, createdAt))])
      ensures created ==> taskName == "" && subject == "" && maxMembers == "1"
      ensures created ==> GetTasks() == old(GetTasks()) + [old(NewTask(id, createdAt))]
      ensures !created ==> GetTasks() == old(GetTasks())
    {
      if !TaskFormComplete(taskName, subject) {
        return false;
      }
      store.AppendTask(NewTask(id, createdAt));
      taskName, subject, maxMembers := "", "", "1";
      created := true;
    }

    /** The record `handleCreateTask` builds from the current fields. */
    function NewTask(id: string, createdAt: string): (t: Task)
      requires Valid()
      reads this, store
      ensures t.id == id && t.createdAt == createdAt
      ensures t.name == taskName && t.subject == subject
      ensures forall i :: 0 <= i < |MaxMembersChoices| && maxMembers == MaxMembersChoices[i] ==>
                t.maxMembers == i + 1
      ensures 1 <= t.maxMembers <= 4
    {
      Task(id, taskName, subject, ParseInt(maxMembers), createdAt)
    }

    /** `getTasks`: the stored list, empty while the key is absent. What it returns after a
        creation is stated by `HandleCreateTask`. */
    function GetTasks(): seq<Task>
      reads this, store
    {
      store.Tasks()
    }
  }
}
