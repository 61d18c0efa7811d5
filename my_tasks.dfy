/** A buyer's own tasks: editing the three text fields of a task and
    deleting a task. */
module MyTasks {
  import opened Wrappers
  import opened Records
  import opened Lists

  /** The edit form: the only fields a buyer can change after posting. */
  datatype EditForm = EditForm(title: string, detail: string, submissionInfo: string)

  /** The task list, the task under edit and the edit form. */
  datatype State = State(tasks: seq<Task>, edit: Option<Task>, form: EditForm)

  /** The form filled from a task (`handleUpdate`). */
  function FormOf(t: Task): (f: EditForm)
    ensures f.title == t.title && f.detail == t.detail && f.submissionInfo == t.submissionInfo
  {
    EditForm(t.title, t.detail, t.submissionInfo)
  }

  function StartEdit(s: State, t: Task): (r: State)
    ensures r.tasks == s.tasks && r.edit == Some(t) && r.form == FormOf(t)
  {
    s.(edit := Some(t), form := FormOf(t))
  }

  /** `{ ...x, ...editForm }`: the form's three fields over the task. */
  function Merge(x: Task, f: EditForm): (r: Task)
    ensures FormOf(r) == f
    ensures r.(title := x.title, detail := x.detail, submissionInfo := x.submissionInfo) == x
  {
    x.(title := f.title, detail := f.detail, submissionInfo := f.submissionInfo)
  }

  function MergeWith(f: EditForm): Task -> Task {
    x => Merge(x, f)
  }

  /** Merging a task's own form gives the task back. */
  lemma MergeOwnForm(x: Task)
    ensures Merge(x, FormOf(x)) == x
  {
  }

  /** `PATCH /tasks/<id>` with the form as body. */
  datatype Patch = Patch(id: string, form: EditForm)

  datatype SaveStep = SaveStep(state: State, sent: Option<Patch>)

  /** `handleSaveUpdate`: nothing without a task under edit; otherwise the
      form is sent for that task's id, and a success merges it into every
      listed task with that id and closes the editor. */
  function Save(s: State, ok: bool): (r: SaveStep)
    ensures s.edit.None? ==> r == SaveStep(s, None)
    ensures s.edit.Some? ==> r.sent == Some(Patch(s.edit.value.id, s.form))
    ensures s.edit.Some? && ok ==>
              r.state == State(UpdateKey(s.tasks, TaskId, s.edit.value.id, MergeWith(s.form)), None, s.form)
    ensures !ok ==> r.state == s
  {
    if s.edit.None? then SaveStep(s, None)
    else
      var patch := Patch(s.edit.value.id, s.form);
      if ok then SaveStep(State(UpdateKey(s.tasks, TaskId, patch.id, MergeWith(s.form)), None, s.form), Some(patch))
      else SaveStep(s, Some(patch))
  }

  /** A successful save rewrites the three text fields of the tasks with the
      edited id, leaves their other fields, and leaves every other task. */
  lemma SaveTouchesOnlyTheEditedTask(s: State, i: nat)
    requires s.edit.Some? && i < |s.tasks|
    ensures var t := Save(s, true).state.tasks;
      |t| == |s.tasks| &&
      (s.tasks[i].id == s.edit.value.id ==> FormOf(t[i]) == s.form) &&
      (s.tasks[i].id != s.edit.value.id ==> t[i] == s.tasks[i])
  {
  }

  /** No save changes a worker count, a pay rate or any non-text field. */
  lemma SaveKeepsWorkersAndPay(s: State, ok: bool, i: nat)
    requires i < |s.tasks|
    ensures var t := Save(s, ok).state.tasks;
      |t| == |s.tasks| &&
      t[i].requiredWorkers == s.tasks[i].requiredWorkers &&
      t[i].payableAmount == s.tasks[i].payableAmount &&
      t[i].id == s.tasks[i].id && t[i].completionDate == s.tasks[i].completionDate
  {
  }

  /** Saving a form nobody changed leaves the list exactly as it was. */
  lemma {:induction false} UnchangedFormKeepsList(s: State, t: Task)
    requires forall i :: 0 <= i < |s.tasks| && s.tasks[i].id == t.id ==> s.tasks[i] == t
    ensures Save(StartEdit(s, t), true).state.tasks == s.tasks
  {
    var r := Save(StartEdit(s, t), true).state.tasks;
    assert |r| == |s.tasks|;
    forall i | 0 <= i < |r| ensures r[i] == s.tasks[i] {
      if s.tasks[i].id == t.id {
        MergeOwnForm(t);
      }
    }
  }

  datatype DeleteStep = DeleteStep(state: State, sent: Option<string>)

  /** `handleDelete`: nothing unless the buyer confirms; then the id is sent,
      and a success drops the tasks with that id and closes the editor. */
  function Delete(s: State, id: string, confirmed: bool, ok: bool): (r: DeleteStep)
    ensures r.sent.Some? <==> confirmed
    ensures confirmed ==> r.sent == Some(id)
    ensures confirmed && ok ==> r.state == s.(tasks := RemoveKey(s.tasks, TaskId, id), edit := None)
    ensures !(confirmed && ok) ==> r.state == s
  {
    if !confirmed then DeleteStep(s, None)
    else if ok then DeleteStep(s.(tasks := RemoveKey(s.tasks, TaskId, id), edit := None), Some(id))
    else DeleteStep(s, Some(id))
  }

  /** A confirmed, successful delete keeps exactly the tasks with other ids. */
  lemma DeleteMembers(s: State, id: string, x: Task)
    ensures x in Delete(s, id, true, true).state.tasks <==> x in s.tasks && x.id != id
  {
    RemoveKeyMembers(s.tasks, TaskId, id, x);
  }

  /** With distinct ids, deleting the i-th task removes that entry only and
      keeps the others in their order. */
  lemma DeleteRemovesOne(s: State, i: nat)
    requires UniqueKeys(s.tasks, TaskId) && i < |s.tasks|
    ensures Delete(s, s.tasks[i].id, true, true).state.tasks == s.tasks[..i] + s.tasks[i + 1..]
  {
    RemoveKeyAt(s.tasks, TaskId, i);
  }
}
