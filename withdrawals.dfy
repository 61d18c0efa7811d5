/** A worker's withdrawal page: the 20-coins-per-dollar rate, the 200-coin
    minimum, the two guards of a request and the enable rule of its button. */
module Withdrawals {
  import opened Wrappers
  import opened Text

  const CoinsPerDollar: int := 20
  const MinCoins: int := 200

  /** The payout channels offered, the first being preselected. */
  const PaymentSystems: seq<string> := ["Stripe", "Bkash", "Rocket", "Nagad"]

  /** `Number(coin) || 0`: the coins typed, 0 while the box is empty. */
  function EnteredCoins(input: Option<int>): int {
    NumberValue(input)
  }

  /** The dollar value of `coins`, `coins / 20` shown with two decimals, in
      whole cents: the two decimals are exact, since a coin is 5 cents. */
  function DollarCents(coins: int): (cents: int)
    ensures cents * CoinsPerDollar == coins * 100
  {
    coins * 5
  }

  /** The minimum withdrawal is worth exactly ten dollars. */
  lemma MinimumIsTenDollars()
    ensures DollarCents(MinCoins) == 1000
  {
  }

  /** The form is offered only from 200 coins up. */
  predicate CanWithdraw(balance: int) {
    balance >= MinCoins
  }

  /** The messages of a request. */
  datatype WithdrawError =
    | BelowMinimum       // "Minimum withdrawal is 200 coins."
    | InsufficientCoins  // "Insufficient coins."
    | RequestFailed      // the server's message, or "Request failed."

  /** The two guards of `handleSubmit`: the minimum first, then the balance. */
  function CheckWithdrawal(coins: int, balance: int): (r: Outcome<WithdrawError>)
    ensures r == Pass <==> MinCoins <= coins <= balance
    ensures r == Fail(BelowMinimum) <==> coins < MinCoins
    ensures r == Fail(InsufficientCoins) <==> MinCoins <= coins && coins > balance
  {
    if coins < MinCoins then Fail(BelowMinimum)
    else if coins > balance then Fail(InsufficientCoins)
    else Pass
  }

  /** The button: `disabled={loading || coinNum < MIN_COINS || coinNum > totalCoin}`. */
  predicate SubmitEnabled(loading: bool, coins: int, balance: int) {
    !(loading || coins < MinCoins || coins > balance)
  }

  /** When nothing is loading, the button is enabled exactly when both guards pass. */
  lemma ButtonMatchesGuards(coins: int, balance: int)
    ensures SubmitEnabled(false, coins, balance) <==> CheckWithdrawal(coins, balance) == Pass
  {
  }

  /** An enabled button implies the form was offered at all. */
  lemma EnabledOnlyWhenOffered(loading: bool, coins: int, balance: int)
    requires SubmitEnabled(loading, coins, balance)
    ensures CanWithdraw(balance)
  {
  }

  datatype WithdrawForm = WithdrawForm(coin: Option<int>, paymentSystem: string, accountNumber: string)

  /** The form as the page opens: nothing typed, the first channel chosen. */
  const InitialForm: WithdrawForm := WithdrawForm(None, PaymentSystems[0], "")

  /** The request body: `withdrawal_coin`, `payment_system`, `account_number`. */
  datatype WithdrawRequest = WithdrawRequest(coins: int, paymentSystem: string, accountNumber: string)

  datatype Message = Submitted | Failed(error: WithdrawError)

  datatype SubmitStep = SubmitStep(form: WithdrawForm, message: Message, sent: Option<WithdrawRequest>)

  /** `handleSubmit`. `balance` is `Records.CoinBalance` of the user's coin,
      `ok` the outcome of the post, and `refreshOk` the outcome of the two
      refetches (`/auth/me` and the worker's list) that follow a successful
      post. A request that fails a guard sends nothing. A successful post
      clears the coin and account fields and keeps the payment system; if a
      refetch then fails, the fields stay cleared and the failure is shown. */
  function SubmitWithdrawal(f: WithdrawForm, balance: int, ok: bool, refreshOk: bool): (r: SubmitStep)
    ensures r.sent.Some? <==> CheckWithdrawal(EnteredCoins(f.coin), balance) == Pass
    ensures r.sent.Some? ==>
      r.sent.value == WithdrawRequest(EnteredCoins(f.coin), f.paymentSystem, f.accountNumber)
    ensures r.sent.Some? ==> MinCoins <= r.sent.value.coins <= balance
    ensures r.sent.None? ==> r.form == f && r.message == Failed(CheckWithdrawal(EnteredCoins(f.coin), balance).error)
    ensures r.message == Submitted <==> r.sent.Some? && ok && refreshOk
    ensures r.sent.Some? && !(ok && refreshOk) ==> r.message == Failed(RequestFailed)
    ensures r.form == if r.sent.Some? && ok then WithdrawForm(None, f.paymentSystem, "") else f
  {
    var coins := EnteredCoins(f.coin);
    match CheckWithdrawal(coins, balance)
    case Fail(e) => SubmitStep(f, Failed(e), None)
    case Pass =>
      var request := WithdrawRequest(coins, f.paymentSystem, f.accountNumber);
      var cleared := WithdrawForm(None, f.paymentSystem, "");
      if !ok then SubmitStep(f, Failed(RequestFailed), Some(request))
      else if refreshOk then SubmitStep(cleared, Submitted, Some(request))
      else SubmitStep(cleared, Failed(RequestFailed), Some(request))
  }

  /** A post that went through stays reflected in the form even when the
      refetch after it fails: the coin and account fields are already
      cleared. */
  lemma PostedThenRefreshFailed(f: WithdrawForm, balance: int)
    requires CheckWithdrawal(EnteredCoins(f.coin), balance) == Pass
    ensures var r := SubmitWithdrawal(f, balance, true, false);
      r.sent.Some? && r.message == Failed(RequestFailed) && r.form.coin.None? && r.form.accountNumber == ""
  {
  }

  /** The minimum is checked before the balance: too small a request is
      reported as below the minimum even when it also exceeds the balance. */
  lemma MinimumCheckedFirst(f: WithdrawForm, balance: int, ok: bool, refreshOk: bool)
    requires EnteredCoins(f.coin) < MinCoins
    ensures SubmitWithdrawal(f, balance, ok, refreshOk) == SubmitStep(f, Failed(BelowMinimum), None)
  {
  }

  /** An empty coin box is a request of 0 coins, which the minimum rejects. */
  lemma EmptyInputRejected(f: WithdrawForm, balance: int, ok: bool, refreshOk: bool)
    requires f.coin.None?
    ensures SubmitWithdrawal(f, balance, ok, refreshOk).message == Failed(BelowMinimum)
  {
  }

  /** The channel select only offers `PaymentSystems`, and a submit keeps the
      chosen channel: starting from the initial form, every request names an
      offered channel. */
  lemma PaymentSystemStaysOffered(f: WithdrawForm, balance: int, ok: bool, refreshOk: bool)
    requires f.paymentSystem in PaymentSystems
    ensures InitialForm.paymentSystem in PaymentSystems
    ensures var r := SubmitWithdrawal(f, balance, ok, refreshOk);
      r.form.paymentSystem in PaymentSystems
      && (r.sent.Some? ==> r.sent.value.paymentSystem in PaymentSystems)
  {
  }
}
