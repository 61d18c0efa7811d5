/** A buyer's review queue: approving or rejecting a pending submission,
    and reporting one as invalid. */
module TasksToReview {
  import opened Wrappers
  import opened Text
  import opened Records
  import opened Lists

  /** The pending list, the submission open in the modal, the report reason
      being typed, and the id whose report box is open. */
  datatype Review = Review(
    pending: seq<Submission>,
    modal: Option<Submission>,
    reportReason: string,
    reportingId: Option<string>)

  datatype Verdict = Approve | Reject

  /** `POST /submissions/<id>/approve` or `.../reject`. */
  datatype DecisionRequest = DecisionRequest(id: string, verdict: Verdict)

  /** `handleApprove` / `handleReject`: on success the submissions with that
      id leave the list and the modal closes; on failure nothing changes. */
  function Decide(s: Review, id: string, verdict: Verdict, ok: bool): (r: Review)
    ensures ok ==> r == s.(pending := RemoveKey(s.pending, SubmissionId, id), modal := None)
    ensures !ok ==> r == s
  {
    if ok then s.(pending := RemoveKey(s.pending, SubmissionId, id), modal := None) else s
  }

  function DecisionFor(id: string, verdict: Verdict): (d: DecisionRequest)
    ensures d.id == id && d.verdict == verdict
  {
    DecisionRequest(id, verdict)
  }

  /** A decision keeps exactly the other submissions. */
  lemma DecisionMembers(s: Review, id: string, verdict: Verdict, x: Submission)
    ensures x in Decide(s, id, verdict, true).pending <==> x in s.pending && x.id != id
  {
    RemoveKeyMembers(s.pending, SubmissionId, id, x);
  }

  /** With distinct ids, deciding on the i-th submission removes that one
      entry and keeps the others in their order. */
  lemma DecisionRemovesOne(s: Review, i: nat, verdict: Verdict)
    requires UniqueKeys(s.pending, SubmissionId) && i < |s.pending|
    ensures Decide(s, s.pending[i].id, verdict, true).pending == s.pending[..i] + s.pending[i + 1..]
  {
    RemoveKeyAt(s.pending, SubmissionId, i);
  }

  /** A decision on an id that is not listed leaves the list as it was. */
  lemma DecisionOnUnlistedId(s: Review, id: string, verdict: Verdict)
    requires forall i :: 0 <= i < |s.pending| ==> s.pending[i].id != id
    ensures Decide(s, id, verdict, true).pending == s.pending
  {
    RemoveKeyAbsent(s.pending, SubmissionId, id);
  }

  /** The body of `POST /reports`. */
  datatype ReportRequest = ReportRequest(submissionId: string, reason: string)

  datatype ReportStep = ReportStep(review: Review, sent: Option<ReportRequest>)

  /** `handleReport`: nothing happens without an open submission and a
      reason that is not blank; otherwise the open submission's id and the
      trimmed reason are sent, and a success clears the report box and
      closes the modal. */
  function Report(s: Review, ok: bool): (r: ReportStep)
    ensures r.sent.Some? <==> s.modal.Some? && !IsBlank(s.reportReason)
    ensures r.sent.Some? ==> r.sent.value == ReportRequest(s.modal.value.id, Trim(s.reportReason))
    ensures r.sent.Some? && ok ==> r.review == s.(modal := None, reportReason := "", reportingId := None)
    ensures r.sent.None? || !ok ==> r.review == s
  {
    if s.modal.None? || IsBlank(s.reportReason) then ReportStep(s, None)
    else
      var request := ReportRequest(s.modal.value.id, Trim(s.reportReason));
      if ok then ReportStep(s.(modal := None, reportReason := "", reportingId := None), Some(request))
      else ReportStep(s, Some(request))
  }

  /** Reporting never removes anything from the pending list. */
  lemma ReportKeepsPending(s: Review, ok: bool)
    ensures Report(s, ok).review.pending == s.pending
  {
  }
}
