/** A worker's view of one task: the submission guard, the request sent, and
    the local quota update once the server accepts the work. */
module TaskDetails {
  import opened Wrappers
  import opened Text
  import opened Records

  /** The messages under the submission form. */
  datatype Message =
    | EnterDetails  // "Please enter submission details."
    | Sent          // "Submission sent successfully."
    | Failed        // the server's message, or "Submission failed."

  /** The body of `POST /submissions`. */
  datatype SubmissionRequest = SubmissionRequest(taskId: string, details: string)

  /** The task as last loaded (`None` until it arrives or when loading
      failed), the text in the details box, and the message shown. */
  datatype Page = Page(task: Option<Task>, details: string, msg: Option<Message>)

  datatype Step = Step(page: Page, sent: Option<SubmissionRequest>)

  /** The local update after an accepted submission: one slot fewer; a task
      that is not loaded stays not loaded. */
  function TakeSlot(t: Option<Task>): (r: Option<Task>)
    ensures r.Some? <==> t.Some?
    ensures t.Some? ==> r.value.requiredWorkers == t.value.requiredWorkers - 1
    ensures t.Some? ==> r.value.(requiredWorkers := 0) == t.value.(requiredWorkers := 0)
  {
    match t
    case None => None
    case Some(task) => Some(task.(requiredWorkers := task.requiredWorkers - 1))
  }

  /** `handleSubmit` on the task whose route id is `id`, where `ok` is the
      outcome of the request. */
  function Submit(p: Page, id: string, ok: bool): (r: Step)
    ensures r.sent.None? <==> IsBlank(p.details)
    ensures IsBlank(p.details) ==> r.page == p.(msg := Some(EnterDetails))
    ensures r.sent.Some? ==> r.sent.value == SubmissionRequest(id, Trim(p.details))
    ensures r.sent.Some? && ok ==> r.page == Page(TakeSlot(p.task), "", Some(Sent))
    ensures r.sent.Some? && !ok ==> r.page == p.(msg := Some(Failed))
  {
    if IsBlank(p.details) then Step(p.(msg := Some(EnterDetails)), None)
    else
      var request := SubmissionRequest(id, Trim(p.details));
      if ok then Step(Page(TakeSlot(p.task), "", Some(Sent)), Some(request))
      else Step(p.(msg := Some(Failed)), Some(request))
  }

  /** What is sent is never blank and carries no surrounding whitespace. */
  lemma SentDetailsAreTrimmed(p: Page, id: string, ok: bool)
    requires Submit(p, id, ok).sent.Some?
    ensures var d := Submit(p, id, ok).sent.value.details;
      d != [] && !IsWhitespace(d[0]) && !IsWhitespace(d[|d| - 1])
  {
  }

  /** The submission form is rendered only for a loaded task with open slots. */
  predicate FormVisible(p: Page) {
    p.task.Some? && p.task.value.requiredWorkers > 0
  }

  /** Submitting through the visible form never takes the local quota below
      zero, and taking the last slot hides the form. */
  lemma SubmitFromVisibleForm(p: Page, id: string)
    requires FormVisible(p) && !IsBlank(p.details)
    ensures Submit(p, id, true).page.task.value.requiredWorkers >= 0
    ensures p.task.value.requiredWorkers == 1 ==> !FormVisible(Submit(p, id, true).page)
  {
  }

  /** After a success the box is empty, so pressing submit again sends
      nothing and only shows the prompt. */
  lemma NoDoubleSubmit(p: Page, id: string, ok: bool)
    requires Submit(p, id, true).sent.Some?
    ensures Submit(Submit(p, id, true).page, id, ok).sent.None?
  {
  }
}
