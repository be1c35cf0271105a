/** The browser's `localStorage`, narrowed to the two keys the pages use. Each key either holds a
    list or is `None`: absent, or holding the empty string, which the pages read the same way.
    The JSON text in between is not modelled. */
module Storage {
  import opened Records

  class Store {
    /** The `tasks` key: `None` while it is absent (or holds the empty string). */
    var tasksEntry: Option<seq<Task>>
    /** The `submissions` key. */
    var submissionsEntry: Option<seq<Submission>>

    /** Only the teacher page writes tasks, and it writes a member count chosen from 1..4. */
    ghost predicate Valid()
      reads this
    {
      MaxMembersInRange(Tasks())
    }

    /** A browser profile whose store holds `tasks` and `submissions` (either may be absent). */
    constructor (tasks: Option<seq<Task>>, submissions: Option<seq<Submission>>)
      requires MaxMembersInRange(ReadList(tasks))
      ensures Valid()
      ensures tasksEntry == tasks && submissionsEntry == submissions
    {
      tasksEntry := tasks;
      submissionsEntry := submissions;
    }

    /** The task list as every page reads it. */
    function Tasks(): seq<Task>
      reads this
    {
      ReadList(tasksEntry)
    }

    /** The submission list as every page reads it. */
    function Submissions(): seq<Submission>
      reads this
    {
      ReadList(submissionsEntry)
    }

    /** Read the `tasks` list (absent reads as empty), append `t`, write the list back. */
    method AppendTask(t: Task)
      requires Valid() && 1 <= t.maxMembers <= 4
      modifies this`tasksEntry
      ensures Valid()
      ensures tasksEntry == Some(old(Tasks()) + [t])
      ensures Tasks() == old(Tasks()) + [t]
    {
      var existing := ReadList(tasksEntry);
      tasksEntry := Some(existing + [t]);
    }

    /** Read the `submissions` list (absent reads as empty), append `s`, write the list back. */
    method AppendSubmission(s: Submission)
      requires Valid()
      modifies this`submissionsEntry
      ensures Valid()
      ensures submissionsEntry == Some(old(Submissions()) + [s])
      ensures Submissions() == old(Submissions()) + [s]
    {
      var existing := ReadList(submissionsEntry);
      submissionsEntry := Some(existing + [s]);
    }
  }
}
