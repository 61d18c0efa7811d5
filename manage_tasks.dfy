/** The admin's table of all tasks, where the only action is delete. */
module ManageTasks {
  import opened Records
  import opened Lists
  import opened Wrappers

  datatype DeleteStep = DeleteStep(tasks: seq<Task>, sent: Option<string>)

  /** `handleDelete`: nothing unless the admin confirms; then the id is sent,
      and a success drops the tasks with that id. */
  function Delete(tasks: seq<Task>, id: string, confirmed: bool, ok: bool): (r: DeleteStep)
    ensures r.sent.Some? <==> confirmed
    ensures confirmed ==> r.sent == Some(id)
    ensures confirmed && ok ==> r.tasks == RemoveKey(tasks, TaskId, id)
    ensures !(confirmed && ok) ==> r.tasks == tasks
  {
    if !confirmed then DeleteStep(tasks, None)
    else if ok then DeleteStep(RemoveKey(tasks, TaskId, id), Some(id))
    else DeleteStep(tasks, Some(id))
  }

  /** A confirmed, successful delete keeps exactly the tasks with other ids. */
  lemma DeleteMembers(tasks: seq<Task>, id: string, x: Task)
    ensures x in Delete(tasks, id, true, true).tasks <==> x in tasks && x.id != id
  {
    RemoveKeyMembers(tasks, TaskId, id, x);
  }

  /** The remaining tasks keep their order: deleting from a list split in
      two is deleting from each part. */
  lemma DeleteKeepsOrder(front: seq<Task>, back: seq<Task>, id: string)
    ensures Delete(front + back, id, true, true).tasks ==
            Delete(front, id, true, true).tasks + Delete(back, id, true, true).tasks
  {
    FilterConcat(front, back, KeyIsNot(TaskId, id));
  }

  /** With distinct ids, deleting the i-th task drops that entry only. */
  lemma DeleteRemovesOne(tasks: seq<Task>, i: nat)
    requires UniqueKeys(tasks, TaskId) && i < |tasks|
    ensures Delete(tasks, tasks[i].id, true, true).tasks == tasks[..i] + tasks[i + 1..]
  {
    RemoveKeyAt(tasks, TaskId, i);
  }
}
