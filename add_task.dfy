/** Posting a new task: field checks, the total cost `required_workers ×
    payable_amount`, the client-side balance check and the form reset. */
module AddTask {
  import opened Wrappers
  import opened Text

  /** The form as typed; the two number inputs hold `None` while empty. */
  datatype TaskForm = TaskForm(
    title: string,
    detail: string,
    requiredWorkers: Option<int>,
    payableAmount: Option<int>,
    completionDate: string,
    submissionInfo: string,
    imageUrl: string)

  /** Every field empty: the initial form and the one after a post. */
  const EmptyForm: TaskForm := TaskForm("", "", None, None, "", "", "")

  /** The messages of the form, in the order they are checked. */
  datatype AddTaskError =
    | TitleMissing           // "Please enter task title."
    | DetailMissing          // "Please enter task detail."
    | TooFewWorkers          // "Required workers must be at least 1."
    | PayTooLow              // "Payable amount must be at least 1."
    | DateMissing            // "Please select completion date."
    | SubmissionInfoMissing  // "Please enter submission info."
    | NotEnoughCoins         // "Not enough coins. Purchase coins first."
    | RequestFailed          // the server's message, or "Failed to add task."

  function Workers(f: TaskForm): int { NumberValue(f.requiredWorkers) }
  function Pay(f: TaskForm): int { NumberValue(f.payableAmount) }

  /** The coins the task will cost: every worker slot paid in full. */
  function TotalCost(f: TaskForm): int {
    Workers(f) * Pay(f)
  }

  /** The field checks of `handleSubmit`, in order. */
  function ValidateTask(f: TaskForm): (r: Outcome<AddTaskError>)
    ensures r == Pass <==>
      !IsBlank(f.title) && !IsBlank(f.detail) && Workers(f) >= 1 && Pay(f) >= 1
      && f.completionDate != [] && !IsBlank(f.submissionInfo)
    ensures r == Fail(TitleMissing) <==> IsBlank(f.title)
    ensures r == Fail(DetailMissing) <==> !IsBlank(f.title) && IsBlank(f.detail)
    ensures r == Fail(TooFewWorkers) <==> !IsBlank(f.title) && !IsBlank(f.detail) && Workers(f) < 1
    ensures r == Fail(PayTooLow) <==>
      !IsBlank(f.title) && !IsBlank(f.detail) && Workers(f) >= 1 && Pay(f) < 1
    ensures r == Fail(DateMissing) <==>
      !IsBlank(f.title) && !IsBlank(f.detail) && Workers(f) >= 1 && Pay(f) >= 1 && f.completionDate == []
    ensures r == Fail(SubmissionInfoMissing) <==>
      !IsBlank(f.title) && !IsBlank(f.detail) && Workers(f) >= 1 && Pay(f) >= 1
      && f.completionDate != [] && IsBlank(f.submissionInfo)
    ensures r.Fail? ==> r.error != NotEnoughCoins && r.error != RequestFailed
  {
    if IsBlank(f.title) then Fail(TitleMissing)
    else if IsBlank(f.detail) then Fail(DetailMissing)
    else if Workers(f) < 1 then Fail(TooFewWorkers)
    else if Pay(f) < 1 then Fail(PayTooLow)
    else if f.completionDate == [] then Fail(DateMissing)
    else if IsBlank(f.submissionInfo) then Fail(SubmissionInfoMissing)
    else Pass
  }

  /** A form that passes the checks costs at least as much as one slot and at
      least one coin per worker. */
  lemma ValidTaskCost(f: TaskForm)
    requires ValidateTask(f) == Pass
    ensures TotalCost(f) >= Pay(f) >= 1
    ensures TotalCost(f) >= Workers(f) >= 1
  {
    ProductCoversFactors(Workers(f), Pay(f));
  }

  lemma ProductCoversFactors(w: int, p: int)
    requires w >= 1 && p >= 1
    ensures w * p >= w && w * p >= p
  {
    assert w * p == (w - 1) * p + p;
    assert w * p == w * (p - 1) + w;
  }

  /** The task sent to the server: the form with the two counts as numbers. */
  datatype TaskPayload = TaskPayload(
    title: string,
    detail: string,
    requiredWorkers: int,
    payableAmount: int,
    completionDate: string,
    submissionInfo: string,
    imageUrl: string)

  function PayloadOf(f: TaskForm): (p: TaskPayload)
    ensures p.requiredWorkers == Workers(f) && p.payableAmount == Pay(f)
    ensures p.requiredWorkers * p.payableAmount == TotalCost(f)
    ensures p.title == f.title && p.detail == f.detail && p.submissionInfo == f.submissionInfo
    ensures p.completionDate == f.completionDate && p.imageUrl == f.imageUrl
  {
    TaskPayload(f.title, f.detail, Workers(f), Pay(f), f.completionDate, f.submissionInfo, f.imageUrl)
  }

  /** What the page shows and does after a submit. */
  datatype SubmitStep = SubmitStep(
    form: TaskForm,
    error: Option<AddTaskError>,
    navigateTo: Option<string>,
    posted: Option<TaskPayload>)

  const PurchaseCoinPath: string := "/dashboard/purchase-coin"
  const MyTasksPath: string := "/dashboard/my-tasks"

  /** `handleSubmit`. `balance` is the coin of the freshly fetched profile
      (`None` when that request failed) and `postOk` whether the post of the
      task succeeded. */
  function SubmitTask(f: TaskForm, balance: Option<int>, postOk: bool): (r: SubmitStep)
    ensures r.posted.Some? <==>
      ValidateTask(f) == Pass && balance.Some? && balance.value >= TotalCost(f)
    ensures r.posted.Some? ==> r.posted.value == PayloadOf(f)
    ensures ValidateTask(f).Fail? ==>
      r == SubmitStep(f, Some(ValidateTask(f).error), None, None)
    ensures r.error == Some(NotEnoughCoins) <==>
      ValidateTask(f) == Pass && balance.Some? && balance.value < TotalCost(f)
    ensures r.error == Some(NotEnoughCoins) ==> r.navigateTo == Some(PurchaseCoinPath) && r.form == f
    ensures r.form == if r.posted.Some? && postOk then EmptyForm else f
    ensures r.navigateTo == Some(MyTasksPath) <==> r.posted.Some? && postOk
    ensures r.error == None <==> r.posted.Some? && postOk
    ensures ValidateTask(f) == Pass && (balance.None? || (balance.value >= TotalCost(f) && !postOk)) ==>
              r.error == Some(RequestFailed) && r.navigateTo == None
  {
    match ValidateTask(f)
    case Fail(e) => SubmitStep(f, Some(e), None, None)
    case Pass =>
      if balance.None? then SubmitStep(f, Some(RequestFailed), None, None)
      else if balance.value < TotalCost(f) then SubmitStep(f, Some(NotEnoughCoins), Some(PurchaseCoinPath), None)
      else if postOk then SubmitStep(EmptyForm, None, Some(MyTasksPath), Some(PayloadOf(f)))
      else SubmitStep(f, Some(RequestFailed), None, Some(PayloadOf(f)))
  }

  /** A balance exactly equal to the total is enough to post. */
  lemma ExactBalanceSuffices(f: TaskForm, postOk: bool)
    requires ValidateTask(f) == Pass
    ensures SubmitTask(f, Some(TotalCost(f)), postOk).posted == Some(PayloadOf(f))
  {
  }

  /** The form left after a successful post is empty: submitting it again
      stops at the first check. */
  lemma ResetFormFailsFirstCheck()
    ensures Workers(EmptyForm) == 0 && Pay(EmptyForm) == 0 && TotalCost(EmptyForm) == 0
    ensures ValidateTask(EmptyForm) == Fail(TitleMissing)
  {
    assert EmptyForm.title == [];
    assert AllWhitespace(EmptyForm.title);
  }
}
