/** The two record kinds the pages keep in the browser's local store, and how a stored list is
    read back. */
module Records {

  datatype Option<T> = None | Some(value: T)

  /** A teacher-defined assignment (src/pages/Admin.tsx, `interface Task`). `id` and `createdAt`
      are `Date.now()` and an ISO timestamp in the source; here they are whatever the caller
      supplies. */
  datatype Task = Task(id: string, name: string, subject: string, maxMembers: int, createdAt: string)

  /** A group's delivery against a task (src/pages/Student.tsx, `interface Submission`). */
  datatype Submission = Submission(
    id: string,
    taskId: string,
    taskName: string,
    members: seq<string>,
    group: string,
    link: string,
    submittedAt: string)

  /** Every task offers between one and four member slots. */
  predicate MaxMembersInRange(tasks: seq<Task>) {
    forall i :: 0 <= i < |tasks| ==> 1 <= tasks[i].maxMembers <= 4
  }

  /** `JSON.parse(localStorage.getItem(key) || "[]")`. `None` stands for a key that is absent or
      holds the empty string: `||` turns both into `"[]"`, so both read as the empty list. */
  function ReadList<T>(entry: Option<seq<T>>): seq<T> {
    match entry
    case None => []
    case Some(xs) => xs
  }

  /** `xs` is `ys` with some elements left out and the rest in their original order. */
  predicate IsSubsequence<T(==)>(xs: seq<T>, ys: seq<T>) {
    if xs == [] then true
    else if ys == [] then false
    else if xs[0] == ys[0] then IsSubsequence(xs[1..], ys[1..])
    else IsSubsequence(xs, ys[1..])
  }
}
