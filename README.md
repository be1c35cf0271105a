# linkshare-hub: task and submission registry

This is a Dafny model of the logic inside the three pages of linkshare-hub. linkshare-hub is a
single-page web application for school assignments:

- the teacher page unlocks with a fixed password and appends tasks (name, subject, maximum
  group size) to the browser's local store;
- the student page appends submissions (task, roster, class group, link) against one of the
  stored tasks;
- the reports page filters the stored submissions by task and by group.

The browser's `localStorage` is modelled as a `Store` object with two fields, one per key
(`tasks`, `submissions`). Each field either holds a list or is `None`, which stands for a key
that is absent or holds the empty string. The teacher and student pages are classes whose
fields are the page's `useState` hooks. Each of their event handlers is a method that updates
those fields and the store, and says in its `ensures` what the new state is. The reports page
has no handler that changes state, so it is modelled as plain functions. The pure parts are
functions with lemmas about them: JavaScript's `trim`, `Array.find`, the roster filter and the
report filter.

Files:

- `text.dfy` (module `Text`): JavaScript whitespace and `String.prototype.trim`.
- `records.dfy` (module `Records`): the `Task` and `Submission` records, and how a stored list is
  read back (`getItem(key) || "[]"`).
- `storage.dfy` (module `Storage`): the store and its two append operations.
- `admin.dfy` (module `Admin`): the teacher page, from `src/pages/Admin.tsx`.
- `student.dfy` (module `Student`): the student page, from `src/pages/Student.tsx`.
- `reports.dfy` (module `Reports`): the report filter, from `src/pages/Reports.tsx`.
- `walkthrough.dfy` (module `Walkthrough`): a client that goes through the three pages in turn.
  In it, a wrong password is refused, a blank subject is refused, a task is created, a roster
  with a blank middle slot is submitted, and the reports page filters by group. Every step is
  checked from the method contracts and the function definitions.

Points where the code does less than a reader might assume. The model follows the code:

- `handleSubmit` only checks that a group was chosen. It does not check that the group is one
  of `GROUPS`. That stored groups come from `GROUPS` follows only from the group select, which
  offers nothing else. The model keeps this as the page invariant `StudentPage.Valid`.
- `getItem(key) || "[]"` reads an absent key and a key holding the empty string as the empty
  list; both are `None` in the model. Any other stored text that is not valid JSON would make
  `JSON.parse` throw, and the model does not pretend otherwise (see Left out).
- The roster filter drops entries that are blank after `trim()` (whitespace-only, not just
  empty). The kept names are stored untrimmed. The same holds for the task name and subject,
  and for the link.
- The task name copied into a submission comes from the task list the student page loaded when
  it mounted, not from the store at submission time.
- The member-slot effect runs whenever the selected task changes, including the change back to
  `""` after a successful submission. So the slots after a submission are `[""]` unless some
  loaded task has the id `""`. In that case they are that task's empty slots.
  `HandleSubmit` states this through `MemberSlots`.

## Model

| member | source | states |
|---|---|---|
| `Text.TrimStartIsSuffix` | src/pages/Admin.tsx:40 | `trim()`'s leading part: the result is a suffix of the input; what it drops is all whitespace; it does not start with whitespace |
| `Text.TrimEndIsPrefix` | src/pages/Student.tsx:60 | `trim()`'s trailing part: the result is a prefix of the input; what it drops is all whitespace; it does not end with whitespace |
| `Text.TrimEmptyIffBlank` | src/pages/Student.tsx:65 | `s.trim()` is empty exactly when every character of `s` is JavaScript whitespace; the form checks and the roster filter rely on this |
| `Storage.Store.constructor` | src/pages/Admin.tsx:53 | a store holding any content for the two keys, either possibly absent, with every stored task offering 1..4 member slots |
| `Storage.Store.AppendTask` | src/pages/Admin.tsx:53-54 | the `tasks` key afterwards holds the old list (empty if it was absent) with exactly one task added at the end, and reading it back gives that list; the `submissions` key is untouched; adding a task with 1..4 member slots keeps every stored task within 1..4 |
| `Storage.Store.AppendSubmission` | src/pages/Student.tsx:81-82 | the `submissions` key afterwards holds the old list (empty if it was absent) with exactly one record added at the end, and reading it back gives that list; the `tasks` key is untouched, so stored tasks stay within 1..4 |
| `Admin.MemberNoun` | src/pages/Admin.tsx:212 | the member noun is the plural "integrantes" exactly when the count is greater than 1, otherwise the singular |
| `Admin.MaxMembersChoice` | src/pages/Admin.tsx:171-174 | each of the four select values parses to its position plus one, so to a count in 1..4, and its label is that count followed by the noun `MemberNoun` gives for it |
| `Admin.TaskFormComplete` | src/pages/Admin.tsx:40-43 | the task form passes validation exactly when neither the name nor the subject is blank |
| `Admin.AdminPage.constructor` | src/pages/Admin.tsx:21-25 | the first render: not authenticated, empty password, name and subject, maximum members "1" |
| `Admin.AdminPage.EnterPassword` | src/pages/Admin.tsx:87 | typing sets the password field and nothing else |
| `Admin.AdminPage.EnterTaskName` | src/pages/Admin.tsx:149 | typing sets the task-name field and nothing else |
| `Admin.AdminPage.EnterSubject` | src/pages/Admin.tsx:159 | typing sets the subject field and nothing else |
| `Admin.AdminPage.SelectMaxMembers` | src/pages/Admin.tsx:166 | choosing one of the four select values sets the maximum-members field and nothing else |
| `Admin.AdminPage.HandleLogin` | src/pages/Admin.tsx:27-35 | access is granted exactly when the password is "2707"; the flag becomes the old flag or that test, so a wrong password never clears it; nothing else changes |
| `Admin.AdminPage.HandleCreateTask` | src/pages/Admin.tsx:37-64 | a task is created exactly when neither the name nor the subject is blank. On rejection the page and the store are unchanged, and `getTasks` lists the same tasks as before. On success exactly one task, built from the fields as typed, is appended after the old list (empty if the key was absent), `getTasks` then lists the old tasks followed by the new one, and the form resets to "", "", "1". Stored tasks keep 1..4 member slots |
| `Admin.AdminPage.NewTask` | src/pages/Admin.tsx:45-51 | the new task carries the given id and timestamp, the name and subject untrimmed as typed, and as member count the parsed selection: the value at position i of the select ("1".."4") gives i + 1, so the count is in 1..4 |
| `Student.FindTask` | src/pages/Student.tsx:43 | no result exactly when no task has the id; otherwise the result has the id, and every task before it has a different id, so it is the first match |
| `Student.MemberSlots` | src/pages/Student.tsx:45-49 | after the selection changes, a selection naming a task gives exactly that task's `maxMembers` (1..4) empty slots; otherwise the slots are left as they were |
| `Student.FilledMembers` | src/pages/Student.tsx:65 | every kept entry is non-blank, and the kept entries are a subsequence of the slots, in their original order |
| `Student.FilledMembersAppend` | src/pages/Student.tsx:65 | filtering a concatenation is the concatenation of the filtered parts |
| `Student.FilledMembersOfOne` | src/pages/Student.tsx:65 | a single entry is kept, untrimmed, exactly when it is not blank; with `FilledMembersAppend` this fixes the roster exactly, multiplicities included |
| `Student.FilledMembersContains` | src/pages/Student.tsx:65 | a name is in the roster exactly when it was entered in some slot and is not blank |
| `Student.FilledMembersEmptyIffAllBlank` | src/pages/Student.tsx:66-69 | the roster is empty, which makes the submission rejected, exactly when every slot is blank |
| `Student.StudentPage.constructor` | src/pages/Student.tsx:32-41 | mounting loads the stored task list; the selection, group and link are empty; the slots are `[""]` as adjusted by the slot effect for the empty selection |
| `Student.StudentPage.SelectTask` | src/pages/Student.tsx:45-49 | the selection becomes the chosen id; if it changed, the slots become `MemberSlots` of the new selection; otherwise they are kept |
| `Student.StudentPage.ChangeMember` | src/pages/Student.tsx:51-55 | slot `index` becomes the value; the number of slots and every other slot stay the same |
| `Student.StudentPage.SelectGroup` | src/pages/Student.tsx:161-171 | choosing one of `GROUPS` sets the group field and nothing else |
| `Student.StudentPage.EnterLink` | src/pages/Student.tsx:181 | typing sets the link field and nothing else |
| `Student.StudentPage.NewSubmission` | src/pages/Student.tsx:71-79 | the record carries the given id and timestamp, the selected task id, the filtered roster, and the group and link as entered. Its task name is the name of the first loaded task with that id, or "" if there is none |
| `Student.StudentPage.HandleSubmit` | src/pages/Student.tsx:57-89 | accepted exactly when a task is selected, a group is chosen, the link is not blank and some slot is not blank. On rejection the page and the store are unchanged. On success exactly one record is appended after the old list, its group is one of `GROUPS`, and the selection, group and link reset to "" |
| `Reports.FilteredSubmissions` | src/pages/Reports.tsx:40-44 | the result is no longer than the input, is a subsequence of it in the same order, and every record in it passes both selections |
| `Reports.ReportedSubmissions` | src/pages/Reports.tsx:33-44 | the page shows a subsequence of the stored submissions, and nothing while the key is absent |
| `Reports.FilteredContains` | src/pages/Reports.tsx:40-44 | a record is shown exactly when it is loaded and each selection is "", "all", or equal to its task id or group |
| `Reports.FilteredAppend` | src/pages/Reports.tsx:40 | filtering a concatenation is the concatenation of the filtered parts, so every passing record is kept as often as it occurs |
| `Reports.FilteredUnconstrained` | src/pages/Reports.tsx:42-43 | with both selections "" or "all", the result is the loaded list unchanged |
| `Reports.FilteredIdempotent` | src/pages/Reports.tsx:42-43 | filtering the result again with the same selections changes nothing |
| `Reports.FilteredInTwoSteps` | src/pages/Reports.tsx:42-43 | filtering on both keys equals filtering on the task and then on the group |
| `Reports.GroupFilterOptionsMatchStudent` | src/pages/Reports.tsx:91-96 | the group filter offers "all" followed by exactly the groups the student page offers |
| `Reports.CountLabel` | src/pages/Reports.tsx:113 | the count words are the singular "trabajo encontrado" exactly when the count is 1, and the plural otherwise (0 included) |
| `Walkthrough.RosterWithBlankMiddle` | src/pages/Student.tsx:65 | three slots with a blank middle one are stored as the outer two, e.g. `["Ana", "", "Luis"]` becomes `["Ana", "Luis"]` |

## Left out

- Rendering (JSX), navigation, routing, toasts, and React's effect scheduling are not modelled.
  The handlers return a boolean saying which branch ran, in place of the toast.
  `src/pages/Index.tsx` and `src/App.tsx` are not part of this model: they hold only layout and
  routing.
- `JSON.parse`/`JSON.stringify` and the durability of `localStorage` are not modelled. The store
  holds lists directly. Stored text that is not valid JSON, which would make `JSON.parse` throw,
  is not modelled.
- `Date.now().toString()` ids and `new Date().toISOString()` timestamps are parameters of
  `HandleCreateTask` and `HandleSubmit`. No uniqueness is claimed, because the code guarantees
  none.
- The date display `toLocaleString("es-ES")` (src/pages/Reports.tsx:144) is not modelled: it is
  platform locale formatting.
- The password is modelled only as the equality test. The model says nothing about its security.
- The task and group selects of the reports page (src/pages/Reports.tsx:71-98) are two plain
  state setters. They are not modelled as methods: `FilteredSubmissions` takes both selections
  as parameters.
- The reports page loads the tasks too (src/pages/Reports.tsx:34), but uses them only to list
  select options. That load is not modelled.
- The number at the front of the count line (src/pages/Reports.tsx:113) and of the
  maximum-members label (src/pages/Admin.tsx:212) is not modelled. Only the words and their
  plural endings are.
- `Student.StudentPage.ChangeMember`: requires an index within the slots. The handler is only
  called from the inputs rendered one per slot, so it never sees another index. JavaScript
  would extend the array on an index past the end.
- The teacher form and the submit button are only rendered when the page is unlocked or a task
  is selected (src/pages/Admin.tsx:66, src/pages/Student.tsx:144). The handlers do not check
  this themselves, so the model does not require it either.
