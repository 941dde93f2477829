/** The simulated payment provider and the price list
    (backend/payments.py). The random success draw, the `uuid4` hex
    digits, the clock and `time.sleep` are inputs or left out. */
module Payments {
  import opened Values

  const DummyKey := "dummy_key_12345"

  datatype Order = Order(id: string, amount: int, currency: string, receipt: string,
                         status: string, createdAt: int, key: string)

  datatype PaymentStatus = Captured | Failed

  datatype Payment = Payment(id: string, orderId: string, amount: int, currency: string,
                             status: PaymentStatus, paymentMethod: string, createdAt: int, processedAt: int)

  /** The dictionary `process_payment` returns. */
  datatype Outcome =
    | Succeeded(paymentId: string, orderId: string, amount: int, currency: string)
    | Declined(paymentId: string, orderId: string, error: string)

  datatype Refund = Refund(id: string, paymentId: string, amount: int, currency: string,
                           status: string, createdAt: int)

  predicate AllDigits(s: string) {
    forall i :: 0 <= i < |s| ==> '0' <= s[i] <= '9'
  }

  /** The number a string of decimal digits denotes, read left to right. */
  function DigitsValue(s: string): (v: nat)
    requires AllDigits(s)
    decreases |s|
  {
    if s == [] then 0 else DigitsValue(s[..|s| - 1]) * 10 + (s[|s| - 1] as int - '0' as int)
  }

  /** The decimal text of a clock reading (`str(int(time.time()))`): the
      digits read back as `n`, with no leading zero. */
  function Decimal(n: nat): (r: string)
    ensures r != [] && AllDigits(r)
    ensures DigitsValue(r) == n
    ensures r[0] == '0' ==> r == "0"
  {
    if n < 10 then [(n + '0' as int) as char]
    else
      var r := Decimal(n / 10) + [(n % 10 + '0' as int) as char];
      assert r[..|r| - 1] == Decimal(n / 10);
      r
  }

  /** The receipt an order records: the caller's when truthy, else
      `dummy_order_` followed by the clock's decimal text. */
  function ReceiptOrDefault(receipt: Option<string>, now: nat): (r: string)
    ensures PresentStr(receipt) ==> r == receipt.value
    ensures !PresentStr(receipt) ==>
              |r| > |"dummy_order_"| && r[..|"dummy_order_"|] == "dummy_order_"
              && AllDigits(r[|"dummy_order_"|..]) && DigitsValue(r[|"dummy_order_"|..]) == now
  {
    if PresentStr(receipt) then receipt.value
    else
      var r := "dummy_order_" + Decimal(now);
      assert r[|"dummy_order_"|..] == Decimal(now);
      r
  }

  class DummyPaymentManager {
    var payments: map<string, Payment>
    var orders: map<string, Order>

    /** Every record is filed under its own id, every order stays
        `"created"`, and every payment refers to a known order. */
    ghost predicate Valid()
      reads this
    {
      (forall id :: id in orders ==> orders[id].id == id && orders[id].status == "created")
      && (forall id :: id in payments ==> payments[id].id == id && payments[id].orderId in orders)
    }

    constructor ()
      ensures Valid() && payments == map[] && orders == map[]
    {
      payments, orders := map[], map[];
    }

    /** `create_order` (the caller's default currency is `"USD"`); `hex`
        stands for the first twelve hex digits of a fresh UUID. */
    method CreateOrder(amount: int, currency: string, receipt: Option<string>, hex: string, now: nat)
      returns (order: Order)
      requires Valid()
      modifies this`orders
      ensures Valid()
      ensures order == Order("order_" + hex, amount, currency, ReceiptOrDefault(receipt, now), "created", now, DummyKey)
      ensures orders == old(orders)[order.id := order]
    {
      var orderId := "order_" + hex;
      order := Order(orderId, amount, currency, ReceiptOrDefault(receipt, now), "created", now, DummyKey);
      orders := orders[orderId := order];
    }

    /** `process_payment` (the caller's default method is `"card"`):
        raises for an unknown order; otherwise stores a captured or failed
        payment copying the order's amount and currency. The order record
        is never updated. */
    method ProcessPayment(orderId: string, paymentMethod: string, success: bool, hex: string, now: int)
      returns (r: Result<Outcome>)
      requires Valid()
      modifies this`payments
      ensures Valid()
      ensures orderId !in orders ==> r == Err("Order not found") && payments == old(payments)
      ensures orderId in orders ==>
                var o := orders[orderId];
                var pid := "pay_" + hex;
                payments == old(payments)[pid := Payment(pid, orderId, o.amount, o.currency,
                                                         if success then Captured else Failed, paymentMethod, now, now)]
                && r == Ok(if success then Succeeded(pid, orderId, o.amount, o.currency)
                           else Declined(pid, orderId, "Payment failed - insufficient funds"))
                && (VerifyPayment(orderId, pid, None) <==> success)
    {
      if orderId !in orders {
        return Err("Order not found");
      }
      var o := orders[orderId];
      var pid := "pay_" + hex;
      payments := payments[pid := Payment(pid, orderId, o.amount, o.currency,
                                          if success then Captured else Failed, paymentMethod, now, now)];
      if success {
        r := Ok(Succeeded(pid, orderId, o.amount, o.currency));
      } else {
        r := Ok(Declined(pid, orderId, "Payment failed - insufficient funds"));
      }
    }

    /** `verify_payment`: the order id and the signature are not looked
        at; a payment verifies exactly when its details can be fetched
        and show it captured. */
    function VerifyPayment(orderId: string, paymentId: string, signature: Option<string>): (verified: bool)
      reads this
      ensures verified <==> GetPaymentDetails(paymentId).Ok? && GetPaymentDetails(paymentId).value.status == Captured
      ensures !verified <==> paymentId !in payments || payments[paymentId].status == Failed
    {
      paymentId in payments && payments[paymentId].status == Captured
    }

    /** `get_payment_details`. */
    function GetPaymentDetails(paymentId: string): (r: Result<Payment>)
      reads this
      ensures r.Err? <==> paymentId !in payments
      ensures r.Ok? ==> r.value == payments[paymentId]
    {
      if paymentId in payments then Ok(payments[paymentId]) else Err("Payment not found")
    }

    /** `refund_payment`: a refund record is built but stored nowhere. */
    function RefundPayment(paymentId: string, amount: Option<int>, hex: string, now: int): (r: Result<Refund>)
      reads this
      ensures r.Err? <==> paymentId !in payments
      ensures r.Ok? ==> r.value.paymentId == paymentId && r.value.status == "processed"
                        && r.value.currency == payments[paymentId].currency
                        && r.value.amount == (if amount.Some? then amount.value else payments[paymentId].amount)
    {
      if paymentId !in payments then Err("Payment not found")
      else
        var p := payments[paymentId];
        Ok(Refund("refund_" + hex, paymentId, amount.GetOr(p.amount), p.currency, "processed", now))
    }
  }

  /** The `PRICING` table (amounts as written; the INR entries are
      integers in the table and are reals here). */
  const ReportUnlock: map<string, real> := map["USD" := 4.99, "INR" := 299.0, "EUR" := 4.50]
  const LicenseUpgrade: map<string, map<string, real>> :=
    map["parent" := map["USD" := 9.99, "INR" := 599.0, "EUR" := 8.99],
        "doctor" := map["USD" := 24.99, "INR" := 1499.0, "EUR" := 22.99]]
  const PremiumSubscription: map<string, map<string, real>> :=
    map["monthly" := map["USD" := 9.99, "INR" := 599.0, "EUR" := 8.99],
        "yearly" := map["USD" := 99.99, "INR" := 5999.0, "EUR" := 89.99]]
  const GameSession: map<string, real> := map["USD" := 1.99, "INR" := 99.0, "EUR" := 1.79]

  const Currencies: set<string> := {"USD", "INR", "EUR"}

  /** A lookup whose missing key is caught by `except KeyError`. */
  function PriceIn(table: map<string, real>, currency: string): real {
    if currency in table then table[currency] else 0.0
  }

  function Nested(table: map<string, map<string, real>>, key: string, currency: string): real {
    if key in table then PriceIn(table[key], currency) else 0.0
  }

  /** `get_pricing` (defaults: no role, no subscription, `"USD"`). An
      unrecognised request raises `ValueError`, which the `except
      KeyError` does not catch; a missing role, subscription or currency
      key is caught and priced 0.0. */
  function GetPricing(itemType: string, userRole: Option<string>, subscriptionType: Option<string>, currency: string)
    : (r: Result<real>)
    ensures r.Err? <==> !(itemType == "report_unlock" || itemType == "game_session"
                         || (itemType == "license_upgrade" && PresentStr(userRole))
                         || (itemType == "premium_subscription" && PresentStr(subscriptionType)))
    ensures r.Err? ==> r.message == "Invalid pricing request"
  {
    if itemType == "report_unlock" then Ok(PriceIn(ReportUnlock, currency))
    else if itemType == "license_upgrade" && PresentStr(userRole) then Ok(Nested(LicenseUpgrade, userRole.value, currency))
    else if itemType == "premium_subscription" && PresentStr(subscriptionType) then
      Ok(Nested(PremiumSubscription, subscriptionType.value, currency))
    else if itemType == "game_session" then Ok(PriceIn(GameSession, currency))
    else Err("Invalid pricing request")
  }
}

module PaymentsProps {
  import opened Values
  import opened Payments

  /** Every listed currency has a positive price for each item the table
      knows. */
  lemma ListedItemsArePriced(itemType: string, userRole: Option<string>, subscriptionType: Option<string>, currency: string)
    requires currency in Currencies
    requires itemType in {"report_unlock", "game_session"}
             || (itemType == "license_upgrade" && userRole.Some? && userRole.value in {"parent", "doctor"})
             || (itemType == "premium_subscription" && subscriptionType.Some?
                 && subscriptionType.value in {"monthly", "yearly"})
    ensures GetPricing(itemType, userRole, subscriptionType, currency).Ok?
    ensures GetPricing(itemType, userRole, subscriptionType, currency).value > 0.0
  {
  }

  /** A price list whose every entry is non-negative and quoted in one of
      the three currencies. */
  predicate Quoted(table: map<string, real>) {
    forall c :: c in table ==> c in Currencies && table[c] >= 0.0
  }

  predicate QuotedNested(table: map<string, map<string, real>>) {
    forall k :: k in table ==> Quoted(table[k])
  }

  lemma PriceTables()
    ensures Quoted(ReportUnlock) && Quoted(GameSession)
    ensures QuotedNested(LicenseUpgrade) && QuotedNested(PremiumSubscription)
  {
    LicenseUpgradeQuoted();
    PremiumSubscriptionQuoted();
  }

  lemma LicenseUpgradeQuoted()
    ensures QuotedNested(LicenseUpgrade)
  {
    assert LicenseUpgrade.Keys == {"parent", "doctor"};
    assert Quoted(LicenseUpgrade["parent"]);
    assert Quoted(LicenseUpgrade["doctor"]);
  }

  lemma PremiumSubscriptionQuoted()
    ensures QuotedNested(PremiumSubscription)
  {
    assert PremiumSubscription.Keys == {"monthly", "yearly"};
    assert Quoted(PremiumSubscription["monthly"]);
    assert Quoted(PremiumSubscription["yearly"]);
  }

  lemma PriceInBounds(table: map<string, real>, currency: string)
    requires Quoted(table)
    ensures PriceIn(table, currency) >= 0.0
    ensures currency !in Currencies ==> PriceIn(table, currency) == 0.0
  {
  }

  lemma NestedBounds(table: map<string, map<string, real>>, key: string, currency: string)
    requires QuotedNested(table)
    ensures Nested(table, key, currency) >= 0.0
    ensures currency !in Currencies ==> Nested(table, key, currency) == 0.0
  {
    if key in table {
      PriceInBounds(table[key], currency);
    }
  }

  /** No request is ever priced below zero, and a currency outside USD,
      INR and EUR is caught as a missing key and priced 0.0, for every
      item. */
  lemma PricingBounds(itemType: string, userRole: Option<string>, subscriptionType: Option<string>, currency: string)
    ensures var r := GetPricing(itemType, userRole, subscriptionType, currency);
            r.Ok? ==> r.value >= 0.0 && (currency !in Currencies ==> r.value == 0.0)
  {
    PriceTables();
    if itemType == "report_unlock" {
      PriceInBounds(ReportUnlock, currency);
    } else if itemType == "license_upgrade" && PresentStr(userRole) {
      NestedBounds(LicenseUpgrade, userRole.value, currency);
    } else if itemType == "premium_subscription" && PresentStr(subscriptionType) {
      NestedBounds(PremiumSubscription, subscriptionType.value, currency);
    } else if itemType == "game_session" {
      PriceInBounds(GameSession, currency);
    }
  }

  /** A role or plan the table does not list is priced 0.0 rather than
      refused. */
  lemma UnlistedKeyIsFree(itemType: string, userRole: Option<string>, subscriptionType: Option<string>, currency: string)
    requires (itemType == "license_upgrade" && PresentStr(userRole) && userRole.value !in LicenseUpgrade)
             || (itemType == "premium_subscription" && PresentStr(subscriptionType)
                 && subscriptionType.value !in PremiumSubscription)
    ensures GetPricing(itemType, userRole, subscriptionType, currency) == Ok(0.0)
  {
  }

  /** The upgrade of a doctor's licence costs more than a parent's in
      every currency. */
  lemma DoctorUpgradeCostsMore(currency: string)
    requires currency in Currencies
    ensures GetPricing("license_upgrade", Some("parent"), None, currency).value
            < GetPricing("license_upgrade", Some("doctor"), None, currency).value
  {
  }
}
