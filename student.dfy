/** The student page (src/pages/Student.tsx): pick a task, fill one slot per member, pick a
    group, paste a link, and append a submission to the store. */
module Student {
  import opened Text
  import opened Records
  import opened Storage

  /** The class groups the group select offers. */
  const Groups: seq<string> := ["2A", "2C", "2D", "2F Leona"]

  /** `tasks.find(t => t.id === id)`: the first task carrying `id`, if any. */
  function FindTask(tasks: seq<Task>, id: string): (r: Option<Task>)
    ensures r.None? <==> forall i :: 0 <= i < |tasks| ==> tasks[i].id != id
    ensures r.Some? ==> exists i :: 0 <= i < |tasks| && tasks[i] == r.value && r.value.id == id &&
                                   forall j :: 0 <= j < i ==> tasks[j].id != id
  {
    if tasks == [] then None
    else if tasks[0].id == id then Some(tasks[0])
    else
      var r := FindTask(tasks[1..], id);
      assert forall j :: 1 <= j < |tasks| ==> tasks[j] == tasks[1..][j - 1];
      r
  }

  /** The member slots after the effect that follows a change of the selected task: exactly
      `maxMembers` empty slots when the selection names a task, the old slots otherwise. */
  function MemberSlots(tasks: seq<Task>, selected: string, members: seq<string>): (r: seq<string>)
    requires MaxMembersInRange(tasks)
    ensures FindTask(tasks, selected).Some? ==>
              |r| == FindTask(tasks, selected).value.maxMembers && 1 <= |r| <= 4 &&
              forall i :: 0 <= i < |r| ==> r[i] == ""
    ensures FindTask(tasks, selected).None? ==> r == members
  {
    match FindTask(tasks, selected)
    case Some(t) => seq(t.maxMembers, _ => "")
    case None => members
  }

  /** `members.filter(m => m.trim() !== "")`: the entries that are not blank, untrimmed and in
      their original order. */
  function FilledMembers(members: seq<string>): (r: seq<string>)
    ensures forall i :: 0 <= i < |r| ==> !IsBlank(r[i])
    ensures IsSubsequence(r, members)
  {
    if members == [] then []
    else
      TrimEmptyIffBlank(members[0]);
      var rest := FilledMembers(members[1..]);
      if Trim(members[0]) != "" then [members[0]] + rest else rest
  }

  /** Filtering a concatenation filters each part: with `FilledMembersOfOne` this fixes the
      result completely, including how often each name appears. */
  lemma {:induction false} FilledMembersAppend(a: seq<string>, b: seq<string>)
    ensures FilledMembers(a + b) == FilledMembers(a) + FilledMembers(b)
  {
    if a != [] {
      assert (a + b)[0] == a[0];
      assert (a + b)[1..] == a[1..] + b;
      FilledMembersAppend(a[1..], b);
    } else {
      assert a + b == b;
    }
  }

  /** A single entry is kept exactly when it is not blank. */
  lemma FilledMembersOfOne(m: string)
    ensures FilledMembers([m]) == if IsBlank(m) then [] else [m]
  {
    TrimEmptyIffBlank(m);
    assert [m][1..] == [];
  }

  /** A name is among the filled members exactly when it was entered and is not blank. */
  lemma {:induction false} FilledMembersContains(members: seq<string>, m: string)
    ensures m in FilledMembers(members) <==> m in members && !IsBlank(m)
  {
    if members != [] {
      FilledMembersContains(members[1..], m);
      assert members == [members[0]] + members[1..];
      TrimEmptyIffBlank(members[0]);
    }
  }

  /** No member remains exactly when every slot is blank. */
  lemma {:induction false} FilledMembersEmptyIffAllBlank(members: seq<string>)
    ensures FilledMembers(members) == [] <==> forall i :: 0 <= i < |members| ==> IsBlank(members[i])
  {
    if members != [] {
      FilledMembersEmptyIffAllBlank(members[1..]);
      assert forall i :: 1 <= i < |members| ==> members[i] == members[1..][i - 1];
      TrimEmptyIffBlank(members[0]);
    }
  }

  /** The page's state (its `useState` hooks) and the store it writes to. */
  class StudentPage {
    const store: Store
    /** The task list as loaded once, when the page mounts. */
    var tasks: seq<Task>
    var selectedTask: string
    var members: seq<string>
    var group: string
    var link: string

    /** The loaded tasks offer 1..4 slots, there is always at least one slot, and the group is
        unset or one the group select offers. */
    ghost predicate Valid()
      reads this, store
    {
      store.Valid() && MaxMembersInRange(tasks) && |members| > 0 && (group == "" || group in Groups)
    }

    /** Mounting: load the stored tasks; nothing selected, one empty slot. The slot effect then
        runs once for the empty selection. */
    constructor (store: Store)
      requires store.Valid()
      ensures Valid() && this.store == store
      ensures tasks == store.Tasks()
      ensures selectedTask == "" && group == "" && link == ""
      ensures members == MemberSlots(tasks, "", [""])
    {
      this.store := store;
      var loaded := ReadList(store.tasksEntry);
      tasks := loaded;
      selectedTask := "";
      group := "";
      link := "";
      members := MemberSlots(loaded, "", [""]);
    }

    /** `currentTask`: the first loaded task whose id is the selection. */
    function CurrentTask(): Option<Task>
      reads this
    {
      FindTask(tasks, selectedTask)
    }

    /** Picking a task; when the selection changes the slot effect resets the member slots. */
    method SelectTask(id: string)
      requires Valid()
      modifies this`selectedTask, this`members
      ensures Valid() && selectedTask == id
      ensures members == if id == old(selectedTask) then old(members) else MemberSlots(tasks, id, old(members))
    {
      if id != selectedTask {
        selectedTask := id;
        members := MemberSlots(tasks, id, members);
      }
    }

    /** `handleMemberChange`: slot `index` becomes `value`, the others and the count stay. */
    method ChangeMember(index: nat, value: string)
      requires Valid() && index < |members|
      modifies this`members
      ensures Valid()
      ensures |members| == |old(members)| && members[index] == value
      ensures forall i :: 0 <= i < |members| && i != index ==> members[i] == old(members[i])
    {
      var newMembers := members;
      newMembers := newMembers[index := value];
      members := newMembers;
    }

    /** Picking a group in the group select, which offers only `Groups`. */
    method SelectGroup(g: string)
      requires Valid() && g in Groups
      modifies this`group
      ensures Valid() && group == g
    {
      group := g;
    }

    /** Typing into the link field. */
    method EnterLink(value: string)
      requires Valid()
      modifies this`link
      ensures Valid() && link == value
    {
      link := value;
    }

    /** The record `handleSubmit` builds from the current fields. */
    function NewSubmission(id: string, submittedAt: string): (s: Submission)
      reads this
      ensures s.id == id && s.submittedAt == submittedAt
      ensures s.taskId == selectedTask && s.group == group && s.link == link
      ensures s.members == FilledMembers(members)
      ensures CurrentTask().None? ==> s.taskName == ""
      ensures CurrentTask().Some? ==> s.taskName == CurrentTask().value.name
    {
      var taskName := match CurrentTask() case Some(t) => t.name case None => "";
      Submission(id, selectedTask, taskName, FilledMembers(members), group, link, submittedAt)
    }

    /** `handleSubmit`: rejects a missing task, a missing group, a blank link or an all-blank
        roster and then changes nothing; otherwise appends one submission and resets the form. */
    method HandleSubmit(id: string, submittedAt: string) returns (submitted: bool)
      requires Valid()
      modifies this`selectedTask, this`members, this`group, this`link, store`submissionsEntry
      ensures Valid()
      ensures submitted <==> old(selectedTask) != "" && old(group) != "" && !IsBlank(old(link)) &&
                             FilledMembers(old(members)) != []
      ensures !submitted ==> unchanged(this) && unchanged(store)
      ensures submitted ==> store.submissionsEntry == Some(old(store.Submissions()) + [old(NewSubmission(id, submittedAt))])
      ensures submitted ==> old(group) in Groups
      ensures submitted ==> selectedTask == "" && group == "" && link == ""
      ensures submitted ==> members == MemberSlots(tasks, "", [""])
    {
      TrimEmptyIffBlank(link);
      if selectedTask == "" || group == "" || Trim(link) == "" {
        return false;
      }
      var filledMembers := FilledMembers(members);
      if filledMembers == [] {
        return false;
      }
      store.AppendSubmission(NewSubmission(id, submittedAt));
      selectedTask, members, group, link := "", [""], "", "";
      members := MemberSlots(tasks, selectedTask, members);
      submitted := true;
    }
  }
}
