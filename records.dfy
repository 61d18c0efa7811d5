/** The rows the dashboard pages display, as the server sends them, and the
    three role names. */
module Records {
  import opened Wrappers

  const Worker: string := "worker"
  const Buyer: string := "buyer"
  const Admin: string := "admin"

  /** A task (`_id`, `task_title`, `task_detail`, `required_workers`,
      `payable_amount`, `completion_date`, `submission_info`,
      `task_image_url`, `buyer_name`). */
  datatype Task = Task(
    id: string,
    title: string,
    detail: string,
    requiredWorkers: int,
    payableAmount: int,
    completionDate: string,
    submissionInfo: string,
    imageUrl: string,
    buyerName: string)

  function TaskId(t: Task): string { t.id }

  /** A user (`email`, `name`, `photoURL`, `role`, `coin`); the coin may be
      missing. */
  datatype User = User(email: string, name: string, photoURL: string, role: string, coin: Option<int>)

  function UserEmail(u: User): string { u.email }

  /** `user?.coin ?? 0`, the balance shown in the header and used by the
      withdrawal page: the coin, or 0 when no user or no coin is known. */
  function CoinBalance(coin: Option<int>): (b: int)
    ensures coin.None? ==> b == 0
    ensures coin.Some? ==> b == coin.value
  {
    coin.GetOr(0)
  }

  /** A pending submission shown to its buyer for review. */
  datatype Submission = Submission(
    id: string,
    workerName: string,
    taskTitle: string,
    payableAmount: int,
    details: string)

  function SubmissionId(s: Submission): string { s.id }

  /** A pending withdrawal request shown to an admin. */
  datatype Withdrawal = Withdrawal(
    id: string,
    workerName: string,
    coins: int,
    amount: string,
    paymentSystem: string,
    date: string)

  function WithdrawalId(w: Withdrawal): string { w.id }
}
