/** The checkout saga of `SummaryStepComponent.placeOrder`: check the address,
    create the order, create the payment record, create the hosted payment
    session, redirect. Each stage's reply is a parameter; a bad reply or an
    error callback ends the saga. */
module Checkout {
  import opened Common
  import opened Payments

  datatype PaymentMethod = Card

  /** The parts of each stage's reply that the saga reads. */
  datatype CreatedOrder = CreatedOrder(id: int)
  datatype CreatedPayment = CreatedPayment(id: Option<int>)
  datatype CheckoutSession = CheckoutSession(url: Option<string>)

  /** The remote calls the saga issues. */
  datatype SagaCall =
    | CreateOrder(shippingAddress: string)
    | CreatePayment(orderId: int, paymentMethod: PaymentMethod, totalAmount: int, createdBy: Option<string>)
    | CreateSession(orderId: int)

  /** The stage at which the saga stopped. */
  datatype Stage = AddressCheck | OrderStage | PaymentStage | SessionStage

  /** `Redirect(url)` stands for the assignment to `window.location.href`. */
  datatype SagaOutcome = Failed(stage: Stage) | Redirect(url: string)

  // ---------------------------------------------------------------------------
  // The shipping-address string
  // ---------------------------------------------------------------------------

  /** `${street}, ${city}, ${country}, ${zipCode}`. */
  function ShippingAddress(a: Address): (r: string)
    ensures |r| == |a.street| + |a.city| + |a.country| + |a.zipCode| + 6
    ensures r[..|a.street|] == a.street
    ensures r[|r| - |a.zipCode|..] == a.zipCode
  {
    a.street + ", " + a.city + ", " + a.country + ", " + a.zipCode
  }

  /** `s.split(',')`. */
  function SplitCommas(s: string): (parts: seq<string>)
    ensures |parts| >= 1
  {
    if s == [] then [""]
    else
      var rest := SplitCommas(s[1..]);
      if s[0] == ',' then [""] + rest else [[s[0]] + rest[0]] + rest[1..]
  }

  lemma {:induction false} SplitWithoutComma(x: string)
    requires ',' !in x
    ensures SplitCommas(x) == [x]
  {
    if x != [] {
      assert x[0] in x;
      SplitWithoutComma(x[1..]);
      assert [x[0]] + x[1..] == x;
    }
  }

  lemma {:induction false} SplitAtFirstComma(x: string, y: string)
    requires ',' !in x
    ensures SplitCommas(x + [','] + y) == [x] + SplitCommas(y)
  {
    if x == [] {
      assert x + [','] + y == [','] + y;
    } else {
      var s := x + [','] + y;
      assert x[0] in x;
      assert s[0] == x[0] && s[1..] == x[1..] + [','] + y;
      SplitAtFirstComma(x[1..], y);
      var rest := SplitCommas(s[1..]);
      assert rest == [x[1..]] + SplitCommas(y);
      assert rest[1..] == SplitCommas(y);
      assert [x[0]] + x[1..] == x;
    }
  }

  /** Reads an address back from its shipping string: four comma-separated
      parts, the last three each after one space. */
  function ParseAddress(s: string): Option<Address>
  {
    var p := SplitCommas(s);
    if |p| == 4 && |p[1]| >= 1 && |p[2]| >= 1 && |p[3]| >= 1 && p[1][0] == ' ' && p[2][0] == ' ' && p[3][0] == ' '
    then Some(Address(p[0], p[1][1..], p[2][1..], p[3][1..]))
    else None
  }

  /** The shipping string determines the address whenever no field holds a
      comma: the server receives no ambiguity. */
  lemma ShippingAddressRoundTrip(a: Address)
    requires ',' !in a.street && ',' !in a.city && ',' !in a.country && ',' !in a.zipCode
    ensures ParseAddress(ShippingAddress(a)) == Some(a)
  {
    SplitShippingAddress(a);
    ParseSpacedParts(ShippingAddress(a), a);
  }

  /** The shipping string splits into the street and the three other fields,
      each after its space. */
  lemma SplitShippingAddress(a: Address)
    requires ',' !in a.street && ',' !in a.city && ',' !in a.country && ',' !in a.zipCode
    ensures SplitCommas(ShippingAddress(a)) == [a.street, " " + a.city, " " + a.country, " " + a.zipCode]
  {
    var c, t, z := " " + a.city, " " + a.country, " " + a.zipCode;
    SpacedHasNoComma(a.city);
    SpacedHasNoComma(a.country);
    SpacedHasNoComma(a.zipCode);
    var tail2 := t + [','] + z;
    var tail1 := c + [','] + tail2;
    assert SplitCommas(tail2) == [t, z] by {
      SplitWithoutComma(z);
      SplitAtFirstComma(t, z);
    }
    assert SplitCommas(tail1) == [c, t, z] by {
      SplitAtFirstComma(c, tail2);
    }
    assert ShippingAddress(a) == a.street + [','] + tail1;
    SplitAtFirstComma(a.street, tail1);
  }

  lemma SpacedHasNoComma(x: string)
    requires ',' !in x
    ensures ',' !in " " + x
  {
    assert forall i :: 1 <= i < |" " + x| ==> (" " + x)[i] == x[i - 1];
  }

  /** Four parts, the last three each after a space, parse to their address. */
  lemma ParseSpacedParts(s: string, a: Address)
    requires SplitCommas(s) == [a.street, " " + a.city, " " + a.country, " " + a.zipCode]
    ensures ParseAddress(s) == Some(a)
  {
    var p := SplitCommas(s);
    assert p[1][1..] == a.city && p[2][1..] == a.country && p[3][1..] == a.zipCode;
  }

  /** Two different addresses can share one shipping string once a field
      holds ", ". */
  lemma CommaInFieldIsAmbiguous()
    ensures ShippingAddress(Address("1 Main St, Apt 2", "Cairo", "Egypt", "11511"))
      == ShippingAddress(Address("1 Main St", "Apt 2, Cairo", "Egypt", "11511"))
  {
  }

  // ---------------------------------------------------------------------------
  // The saga
  // ---------------------------------------------------------------------------

  /** The order reply passes: `isSuccess` with a result. */
  predicate OrderCreated(reply: Delivery<ApiEnvelope<CreatedOrder>>)
  {
    reply.Delivered? && reply.value.isSuccess && reply.value.result.Some?
  }

  /** The payment reply passes: present, with a truthy id. */
  predicate PaymentCreated(reply: Delivery<Option<CreatedPayment>>)
  {
    reply.Delivered? && reply.value.Some? && TruthyId(reply.value.value.id)
  }

  /** The session reply passes: present, with a non-empty url. */
  predicate SessionReady(reply: Delivery<Option<CheckoutSession>>)
  {
    reply.Delivered? && reply.value.Some? && TruthyText(reply.value.value.url)
  }

  /** `SummaryStepComponent`: reads the checkout state and runs the saga. */
  class SummaryStep {
    const service: PaymentService

    constructor(service: PaymentService)
      ensures this.service == service
    {
      this.service := service;
    }

    /** `placeOrder`. `total` is the payment-state total and `user` the current
        user at the time of the payment stage. */
    method PlaceOrder(total: int, user: Option<User>,
                      orderReply: Delivery<ApiEnvelope<CreatedOrder>>,
                      paymentReply: Delivery<Option<CreatedPayment>>,
                      sessionReply: Delivery<Option<CheckoutSession>>)
      returns (calls: seq<SagaCall>, outcome: SagaOutcome)
      // no address: stop before any remote call
      ensures service.addressData.None? ==> calls == [] && outcome == Failed(AddressCheck)
      // the first call sends the formatted address
      ensures service.addressData.Some? ==> |calls| >= 1 && calls[0] == CreateOrder(ShippingAddress(service.addressData.value))
      // a bad order reply stops the saga before payment and session
      ensures service.addressData.Some? && !OrderCreated(orderReply) ==> |calls| == 1 && outcome == Failed(OrderStage)
      // the payment carries the order id, Card, the total and the user id
      ensures |calls| >= 2 ==>
        OrderCreated(orderReply) && calls[1] == CreatePayment(orderReply.value.result.value.id, Card, total,
                                     if user.Some? then Some(user.value.id) else None)
      // a bad payment reply stops the saga before the session
      ensures |calls| >= 2 && !PaymentCreated(paymentReply) ==> |calls| == 2 && outcome == Failed(PaymentStage)
      // the session is keyed by the order id, not the payment id
      ensures |calls| == 3 ==> PaymentCreated(paymentReply) && calls[2] == CreateSession(orderReply.value.result.value.id)
      ensures |calls| <= 3
      ensures service.addressData.Some? && OrderCreated(orderReply) ==> |calls| >= 2
      ensures |calls| >= 2 && PaymentCreated(paymentReply) ==> |calls| == 3
      // redirect exactly to the session url, and only when every stage passed
      ensures outcome.Redirect? <==> |calls| == 3 && SessionReady(sessionReply)
      ensures outcome.Redirect? ==> outcome.url == sessionReply.value.value.url.value
      ensures |calls| == 3 && !SessionReady(sessionReply) ==> outcome == Failed(SessionStage)
    {
      calls := [];
      var addr := service.addressData;
      if addr.None? {
        outcome := Failed(AddressCheck);
        return;
      }
      var shippingAddress := ShippingAddress(addr.value);

      calls := calls + [CreateOrder(shippingAddress)];
      if orderReply.Errored? || !orderReply.value.isSuccess || orderReply.value.result.None? {
        outcome := Failed(OrderStage);
        return;
      }
      var orderId := orderReply.value.result.value.id;

      var createdBy := if user.Some? then Some(user.value.id) else None;
      calls := calls + [CreatePayment(orderId, Card, total, createdBy)];
      if paymentReply.Errored? || paymentReply.value.None? || !TruthyId(paymentReply.value.value.id) {
        outcome := Failed(PaymentStage);
        return;
      }

      calls := calls + [CreateSession(orderId)];
      if sessionReply.Errored? || sessionReply.value.None? || !TruthyText(sessionReply.value.value.url) {
        outcome := Failed(SessionStage);
        return;
      }
      outcome := Redirect(sessionReply.value.value.url.value);
    }
  }
}
