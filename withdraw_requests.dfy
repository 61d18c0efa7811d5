/** The admin's queue of pending withdrawals. The only transition offered
    is "Payment Success", which approves a request. */
module WithdrawRequests {
  import opened Records
  import opened Lists

  /** The actions the page offers: approving a request by id, nothing else. */
  datatype Action = PaymentSuccess(id: string)

  /** `handleApprove`: a success drops the requests with that id. */
  function Apply(pending: seq<Withdrawal>, a: Action, ok: bool): (r: seq<Withdrawal>)
    ensures ok ==> r == RemoveKey(pending, WithdrawalId, a.id)
    ensures !ok ==> r == pending
  {
    if ok then RemoveKey(pending, WithdrawalId, a.id) else pending
  }

  /** No action ever adds a request: what remains was pending before, and
      the approved id is gone. */
  lemma ApproveOnlyShrinks(pending: seq<Withdrawal>, a: Action, ok: bool, x: Withdrawal)
    ensures |Apply(pending, a, ok)| <= |pending|
    ensures x in Apply(pending, a, ok) ==> x in pending
    ensures ok && x in Apply(pending, a, ok) ==> x.id != a.id
  {
    RemoveKeyMembers(pending, WithdrawalId, a.id, x);
  }

  /** With distinct ids, approving the i-th request drops that entry only and
      keeps the others in their order. */
  lemma ApproveRemovesOne(pending: seq<Withdrawal>, i: nat)
    requires UniqueKeys(pending, WithdrawalId) && i < |pending|
    ensures Apply(pending, PaymentSuccess(pending[i].id), true) == pending[..i] + pending[i + 1..]
  {
    RemoveKeyAt(pending, WithdrawalId, i);
  }

  /** Any run of approvals leaves a subset of the original requests. */
  function Run(pending: seq<Withdrawal>, actions: seq<Action>, oks: seq<bool>): seq<Withdrawal>
    requires |oks| == |actions|
    decreases |actions|
  {
    if actions == [] then pending
    else Run(Apply(pending, actions[0], oks[0]), actions[1..], oks[1..])
  }

  lemma {:induction false} RunOnlyShrinks(pending: seq<Withdrawal>, actions: seq<Action>, oks: seq<bool>, x: Withdrawal)
    requires |oks| == |actions|
    ensures x in Run(pending, actions, oks) ==> x in pending
    decreases |actions|
  {
    if actions != [] {
      var next := Apply(pending, actions[0], oks[0]);
      RunOnlyShrinks(next, actions[1..], oks[1..], x);
      ApproveOnlyShrinks(pending, actions[0], oks[0], x);
    }
  }
}
