/** Buying coins: the fixed package catalogue, the index sent when a payment
    is set up, and the demo confirmation used when card payment is not
    configured. */
module PurchaseCoin {
  import opened Wrappers

  /** A package: `coins` for `price` dollars. */
  datatype Package = Package(coins: int, price: int)

  const Packages: seq<Package> :=
    [Package(10, 1), Package(150, 10), Package(500, 20), Package(1000, 35)]

  /** Along the catalogue, both the coins and the price strictly increase. */
  lemma CatalogueIncreasing()
    ensures forall i, j :: 0 <= i < j < |Packages| ==>
      Packages[i].coins < Packages[j].coins && Packages[i].price < Packages[j].price
  {
  }

  /** `PACKAGES.indexOf(pkg)`: the first position holding `p`, or -1. */
  function IndexOf(pkgs: seq<Package>, p: Package): (i: int)
    ensures i == -1 <==> p !in pkgs
    ensures i != -1 ==> 0 <= i < |pkgs| && pkgs[i] == p
    ensures i != -1 ==> forall j :: 0 <= j < i ==> pkgs[j] != p
  {
    if pkgs == [] then -1
    else if pkgs[0] == p then 0
    else
      var k := IndexOf(pkgs[1..], p);
      if k == -1 then -1 else k + 1
  }

  /** The index sent for a chosen package is its position in the catalogue. */
  lemma IndexOfChosenPackage(i: nat)
    requires i < |Packages|
    ensures IndexOf(Packages, Packages[i]) == i
  {
    CatalogueIncreasing();
  }

  /** The body of the demo confirmation: `coins` and `amount`. */
  datatype Confirmation = Confirmation(coins: int, amount: int)

  function DemoConfirmation(pkg: Package): (c: Confirmation)
    ensures c.coins == pkg.coins && c.amount == pkg.price
  {
    Confirmation(pkg.coins, pkg.price)
  }

  /** The messages of the checkout panel. */
  datatype CheckoutError =
    | StripeNotConfigured  // "Stripe not configured. Use demo payment."
    | CreateFailed         // "Failed to create payment."
    | PaymentFailed        // the server's message, or "Payment failed."

  /** The answer to the payment-intent request. */
  datatype IntentAnswer = DemoMode | ClientSecret(secret: string) | IntentFailed

  datatype Checkout = Checkout(clientSecret: string, error: Option<CheckoutError>)

  const NewCheckout: Checkout := Checkout("", None)

  /** The checkout once the payment intent has been answered. */
  function AfterIntent(c: Checkout, answer: IntentAnswer): (r: Checkout)
    ensures answer == DemoMode ==> r == c.(error := Some(StripeNotConfigured))
    ensures answer == IntentFailed ==> r == c.(error := Some(CreateFailed))
    ensures answer.ClientSecret? ==> r == c.(clientSecret := answer.secret)
  {
    match answer
    case DemoMode => c.(error := Some(StripeNotConfigured))
    case ClientSecret(s) => c.(clientSecret := s)
    case IntentFailed => c.(error := Some(CreateFailed))
  }

  /** `error && !clientSecret`: the demo-pay panel is shown. */
  predicate ShowsDemoPanel(c: Checkout) {
    c.error.Some? && c.clientSecret == ""
  }

  /** A fresh checkout shows the demo panel exactly when the intent answer
      was demo mode or a failure. */
  lemma DemoPanelAfterIntent(answer: IntentAnswer)
    ensures ShowsDemoPanel(AfterIntent(NewCheckout, answer)) <==> !answer.ClientSecret?
  {
  }

  datatype DemoPayStep = DemoPayStep(checkout: Checkout, sent: Confirmation, succeeded: bool)

  /** `handleDemoPay` with `ok` the outcome of the confirmation: the chosen
      package's coins and price are sent; a failure shows an error. */
  function DemoPay(c: Checkout, pkg: Package, ok: bool): (r: DemoPayStep)
    ensures r.sent == DemoConfirmation(pkg)
    ensures r.succeeded == ok
    ensures ok ==> r.checkout.error.None?
    ensures !ok ==> r.checkout.error == Some(PaymentFailed)
    ensures r.checkout.clientSecret == c.clientSecret
  {
    DemoPayStep(c.(error := if ok then None else Some(PaymentFailed)), DemoConfirmation(pkg), ok)
  }
}
