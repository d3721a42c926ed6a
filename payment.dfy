/**
 * The payment service (services/payment/main.py): the guards create_payment
 * applies to the booking it is paying for, the generated transaction id, the
 * non-staff filter of the payment list, and the complete/refund status
 * machine with the invoice status that follows it.
 */
module Payments {
  import opened Wrappers
  import opened Text
  import opened Dependencies

  /** A payment row. Amounts are whole currency units. */
  datatype Payment = Payment(id: int, bookingId: int, amount: int, payMethod: string, status: string,
                             transactionId: string, notes: Option<string>)

  /** The invoice issued with a payment (tax, discount and dates are not modelled). */
  datatype Invoice = Invoice(paymentId: int, bookingId: int, customerId: int, totalAmount: int, status: string)

  /** A PaymentCreate body; `status` already holds pydantic's default "pending" when it was omitted. */
  datatype PaymentRequest = PaymentRequest(bookingId: int, amount: int, payMethod: string, status: string,
                                           transactionId: Option<string>, notes: Option<string>)

  /** The fields create_payment reads from the booking service's answer for `bookings/{booking_id}`. */
  datatype RemoteBooking = RemoteBooking(id: int, customerId: int, status: string)

  /** A payment with its invoice, as the handlers return it. */
  datatype PaymentWithInvoice = PaymentWithInvoice(payment: Payment, invoice: Option<Invoice>)

  predicate IsLowerHex(c: char)
  {
    IsDigit(c) || 'a' <= c <= 'f'
  }

  predicate IsUpperHex(c: char)
  {
    IsDigit(c) || 'A' <= c <= 'F'
  }

  /** `uuid.uuid4().hex`: 32 lower-case hexadecimal digits. */
  predicate IsUuidHex(h: string)
  {
    |h| == 32 && forall i :: 0 <= i < |h| ==> IsLowerHex(h[i])
  }

  /**
   * `payment_data.transaction_id or f"TXN-{uuid.uuid4().hex[:12].upper()}"`:
   * a non-empty supplied id is kept; otherwise "TXN-" and the first twelve
   * digits of a fresh UUID, upper-cased. `uuidHex` stands for the fresh UUID.
   */
  function TransactionId(supplied: Option<string>, uuidHex: string): (t: string)
    requires IsUuidHex(uuidHex)
    ensures TruthyString(supplied) ==> t == supplied.value
    ensures !TruthyString(supplied) ==>
      && |t| == 16 && t[..4] == "TXN-"
      && (forall i :: 4 <= i < 16 ==> IsUpperHex(t[i]))
  {
    if TruthyString(supplied) then supplied.value else "TXN-" + Upper(uuidHex[..12])
  }

  /**
   * The checks on the looked-up booking (lines 75-107): a failed lookup is
   * 404, a cancelled booking 400, and a caller without an elevated role
   * paying for someone else's booking 403.
   */
  function BookingCheck(user: Payload, booking: Option<RemoteBooking>): (r: Result<RemoteBooking>)
    ensures booking.None? ==> r == Fail(404, "Booking not found")
    ensures booking.Some? && booking.value.status == "cancelled" ==>
      r == Fail(400, "Cannot process payment for cancelled booking")
    ensures booking.Some? && booking.value.status != "cancelled" && !MayActOn(user, booking.value.customerId) ==>
      r == Fail(403, "You can only create payments for your own bookings")
    ensures r.Ok? <==> booking.Some? && booking.value.status != "cancelled" && MayActOn(user, booking.value.customerId)
    ensures r.Ok? ==> r.value == booking.value
  {
    match booking
    case None => Fail(404, "Booking not found")
    case Some(b) =>
      if b.status == "cancelled" then Fail(400, "Cannot process payment for cancelled booking")
      else if !IsElevated(user.roles) && b.customerId != user.sub then
        Fail(403, "You can only create payments for your own bookings")
      else Ok(b)
  }

  /** A caller without an elevated role can only pay for a live booking of their own. */
  lemma NonStaffPaysOnlyOwnBookings(user: Payload, booking: Option<RemoteBooking>)
    requires !IsElevated(user.roles)
    ensures BookingCheck(user, booking).Ok? ==> booking.value.customerId == user.sub
    ensures booking.Some? && booking.value.customerId != user.sub ==>
      BookingCheck(user, booking).Err? && BookingCheck(user, booking).error.status in {400, 403}
  {
  }

  /** complete_payment: 400 only for a payment already "paid"; anything else becomes "paid". */
  function CompleteTransition(p: Payment): (r: Result<Payment>)
    ensures r.Err? <==> p.status == "paid"
    ensures r.Err? ==> r == Fail(400, "Payment is already completed")
    ensures r.Ok? ==> r.value.status == "paid" && r.value == p.(status := r.value.status)
  {
    if p.status == "paid" then Fail(400, "Payment is already completed")
    else Ok(p.(status := "paid"))
  }

  /** refund_payment: only a "paid" payment becomes "refunded"; anything else is 400. */
  function RefundTransition(p: Payment): (r: Result<Payment>)
    ensures r.Ok? <==> p.status == "paid"
    ensures r.Err? ==> r == Fail(400, "Only paid payments can be refunded")
    ensures r.Ok? ==> r.value.status == "refunded" && r.value == p.(status := r.value.status)
  {
    if p.status != "paid" then Fail(400, "Only paid payments can be refunded")
    else Ok(p.(status := "refunded"))
  }

  /** The invoice status that goes with each transition: "paid" on complete, "cancelled" on refund. */
  function InvoiceAfter(inv: Option<Invoice>, status: string): (r: Option<Invoice>)
    ensures r.Some? <==> inv.Some?
    ensures r.Some? ==> r.value == inv.value.(status := status)
  {
    match inv
    case None => None
    case Some(i) => Some(i.(status := status))
  }

  /** Completing twice fails the second time, and so does refunding twice. */
  lemma RepeatedTransitionsFail(p: Payment)
    ensures CompleteTransition(p).Ok? ==> CompleteTransition(CompleteTransition(p).value).Err?
    ensures RefundTransition(p).Ok? ==> RefundTransition(RefundTransition(p).value).Err?
  {
  }

  /** A pending payment can be completed and then refunded, after which neither step applies again. */
  lemma PaymentHappyPath(p: Payment)
    requires p.status == "pending"
    ensures RefundTransition(p).Err?
    ensures var paid := CompleteTransition(p);
      && paid.Ok?
      && RefundTransition(paid.value).Ok?
      && RefundTransition(RefundTransition(paid.value).value).Err?
      && RefundTransition(paid.value).value == p.(status := "refunded")
  {
  }

  /** Nothing stops a refunded payment from being completed again: complete only refuses "paid". */
  lemma RefundedCanBeCompletedAgain(p: Payment)
    requires p.status == "paid"
    ensures var refunded := RefundTransition(p).value;
      CompleteTransition(refunded).Ok? && CompleteTransition(refunded).value == p
  {
  }

  /** The optional filters of GET /payments; falsy values (None, 0, "") filter nothing. */
  datatype PaymentQuery = PaymentQuery(bookingId: Option<int>, status: Option<string>, payMethod: Option<string>)

  predicate MatchesPaymentQuery(p: Payment, q: PaymentQuery)
  {
    && (TruthyInt(q.bookingId) ==> p.bookingId == q.bookingId.value)
    && (TruthyString(q.status) ==> p.status == q.status.value)
    && (TruthyString(q.payMethod) ==> p.payMethod == q.payMethod.value)
  }

  /**
   * get_payments. Staff see every payment that matches the filters. Anyone
   * else first needs a bearer token (401 otherwise); `ownBookings` is the list
   * of booking ids the booking service returned for `bookings?customer_id=<sub>`,
   * None when that call raised. A failed call or an empty list gives [].
   */
  function VisiblePayments(payments: map<int, Payment>, user: Payload, authorization: Option<string>,
                           ownBookings: Option<seq<int>>, q: PaymentQuery): (r: Result<set<Payment>>)
    ensures IsElevated(user.roles) ==>
      r.Ok? && forall p :: p in r.value <==> p in payments.Values && MatchesPaymentQuery(p, q)
    ensures !IsElevated(user.roles) && GetToken(authorization).Err? ==> r == Err(GetToken(authorization).error)
    ensures !IsElevated(user.roles) && GetToken(authorization).Ok? && (ownBookings.None? || ownBookings.value == []) ==>
      r == Ok({})
    ensures !IsElevated(user.roles) && r.Ok? ==>
      forall p :: p in r.value <==>
        p in payments.Values && MatchesPaymentQuery(p, q) && ownBookings.Some? && p.bookingId in ownBookings.value
  {
    if IsElevated(user.roles) then
      Ok(set p | p in payments.Values && MatchesPaymentQuery(p, q))
    else
      var token :- GetToken(authorization);
      match ownBookings
      case None => Ok({})
      case Some(ids) =>
        if ids == [] then Ok({})
        else Ok(set p | p in payments.Values && p.bookingId in ids && MatchesPaymentQuery(p, q))
  }

  /** The table of payments and the invoices issued with them. */
  class PaymentService {
    var payments: map<int, Payment>
    var invoices: map<int, Invoice>
    var nextId: int

    /**
     * Payments are stored under their own ids; every invoice belongs to a
     * stored payment and is stored under that payment's id (one per payment);
     * transaction ids are unique, as the column's unique constraint demands.
     */
    predicate Valid()
      reads this
    {
      && 0 < nextId
      && (forall id :: id in payments ==> payments[id].id == id && 0 < id < nextId)
      && (forall id :: id in invoices ==> id in payments && invoices[id].paymentId == id)
      && (forall i, j :: i in payments && j in payments && i != j ==>
            payments[i].transactionId != payments[j].transactionId)
    }

    constructor ()
      ensures Valid() && payments == map[] && invoices == map[]
    {
      payments := map[];
      invoices := map[];
      nextId := 1;
    }

    predicate TransactionIdUsed(t: string)
      reads this
    {
      exists id :: id in payments && payments[id].transactionId == t
    }

    /**
     * create_payment: get_token, then BookingCheck on the booking service's
     * answer; `customerId` is the id the customer service returned, None
     * when that call raised (the booking's customer id is used instead).
     * A transaction id already in the table breaks the unique constraint at
     * the insert (500). On success the payment gets a fresh id and a
     * "pending" invoice for the full amount is stored with it.
     */
    method CreatePayment(user: Payload, authorization: Option<string>, req: PaymentRequest,
                         booking: Option<RemoteBooking>, customerId: Option<int>, uuidHex: string)
      returns (r: Result<PaymentWithInvoice>)
      requires Valid() && IsUuidHex(uuidHex)
      modifies this
      ensures Valid()
      ensures GetToken(authorization).Err? ==> r == Err(GetToken(authorization).error)
      ensures GetToken(authorization).Ok? && BookingCheck(user, booking).Err? ==>
        r == Err(BookingCheck(user, booking).error)
      ensures (GetToken(authorization).Ok? && BookingCheck(user, booking).Ok?
               && old(TransactionIdUsed(TransactionId(req.transactionId, uuidHex)))) ==>
        r.Err? && r.error.status == 500
      ensures r.Ok? <==>
        && GetToken(authorization).Ok? && BookingCheck(user, booking).Ok?
        && !old(TransactionIdUsed(TransactionId(req.transactionId, uuidHex)))
      ensures r.Err? ==> unchanged(this)
      ensures r.Ok? ==>
        && GetToken(authorization).Ok? && BookingCheck(user, booking).Ok?
        && var p := Payment(old(nextId), req.bookingId, req.amount, req.payMethod, req.status,
                            TransactionId(req.transactionId, uuidHex), req.notes);
        && var inv := Invoice(p.id, booking.value.id,
                              if customerId.Some? then customerId.value else booking.value.customerId,
                              req.amount, "pending");
        && r.value == PaymentWithInvoice(p, Some(inv))
        && payments == old(payments)[p.id := p]
        && invoices == old(invoices)[p.id := inv]
    {
      var token := GetToken(authorization);
      if token.Err? {
        return Err(token.error);
      }
      var check := BookingCheck(user, booking);
      if check.Err? {
        return Err(check.error);
      }
      var b := check.value;
      var customer := if customerId.Some? then customerId.value else b.customerId;
      var txn := TransactionId(req.transactionId, uuidHex);
      if TransactionIdUsed(txn) {
        return Fail(500, "Internal Server Error");
      }
      var p := Payment(nextId, req.bookingId, req.amount, req.payMethod, req.status, txn, req.notes);
      var inv := Invoice(p.id, b.id, customer, req.amount, "pending");
      payments := payments[p.id := p];
      invoices := invoices[p.id := inv];
      nextId := nextId + 1;
      r := Ok(PaymentWithInvoice(p, Some(inv)));
    }

    /** The invoice of a payment, if one was issued. */
    function InvoiceOf(paymentId: int): (r: Option<Invoice>)
      reads this
      ensures r.Some? <==> paymentId in invoices
      ensures r.Some? ==> r.value == invoices[paymentId]
    {
      if paymentId in invoices then Some(invoices[paymentId]) else None
    }

    /** complete_payment: 404, then CompleteTransition; the invoice, if any, becomes "paid". */
    method CompletePayment(paymentId: int) returns (r: Result<PaymentWithInvoice>)
      requires Valid()
      modifies this
      ensures Valid()
      ensures paymentId !in old(payments) ==> r == Fail(404, "Payment not found") && unchanged(this)
      ensures paymentId in old(payments) && CompleteTransition(old(payments)[paymentId]).Err? ==>
        r == Fail(400, "Payment is already completed") && unchanged(this)
      ensures paymentId in old(payments) && CompleteTransition(old(payments)[paymentId]).Ok? ==>
        && var p := CompleteTransition(old(payments)[paymentId]).value;
        && payments == old(payments)[paymentId := p]
        && r == Ok(PaymentWithInvoice(p, InvoiceAfter(old(InvoiceOf(paymentId)), "paid")))
        && (paymentId in old(invoices) ==> invoices == old(invoices)[paymentId := old(invoices)[paymentId].(status := "paid")])
        && (paymentId !in old(invoices) ==> invoices == old(invoices))
        && nextId == old(nextId)
    {
      if paymentId !in payments {
        return Fail(404, "Payment not found");
      }
      var t := CompleteTransition(payments[paymentId]);
      if t.Err? {
        return Err(t.error);
      }
      var inv := InvoiceAfter(InvoiceOf(paymentId), "paid");
      payments := payments[paymentId := t.value];
      if inv.Some? {
        invoices := invoices[paymentId := inv.value];
      }
      r := Ok(PaymentWithInvoice(t.value, inv));
    }

    /** refund_payment: 404, then RefundTransition; the invoice, if any, becomes "cancelled". */
    method RefundPayment(paymentId: int) returns (r: Result<PaymentWithInvoice>)
      requires Valid()
      modifies this
      ensures Valid()
      ensures paymentId !in old(payments) ==> r == Fail(404, "Payment not found") && unchanged(this)
      ensures paymentId in old(payments) && RefundTransition(old(payments)[paymentId]).Err? ==>
        r == Fail(400, "Only paid payments can be refunded") && unchanged(this)
      ensures paymentId in old(payments) && RefundTransition(old(payments)[paymentId]).Ok? ==>
        && var p := RefundTransition(old(payments)[paymentId]).value;
        && payments == old(payments)[paymentId := p]
        && r == Ok(PaymentWithInvoice(p, InvoiceAfter(old(InvoiceOf(paymentId)), "cancelled")))
        && (paymentId in old(invoices) ==>
              invoices == old(invoices)[paymentId := old(invoices)[paymentId].(status := "cancelled")])
        && (paymentId !in old(invoices) ==> invoices == old(invoices))
        && nextId == old(nextId)
    {
      if paymentId !in payments {
        return Fail(404, "Payment not found");
      }
      var t := RefundTransition(payments[paymentId]);
      if t.Err? {
        return Err(t.error);
      }
      var inv := InvoiceAfter(InvoiceOf(paymentId), "cancelled");
      payments := payments[paymentId := t.value];
      if inv.Some? {
        invoices := invoices[paymentId := inv.value];
      }
      r := Ok(PaymentWithInvoice(t.value, inv));
    }

    /** get_payments over the current table. */
    method GetPayments(user: Payload, authorization: Option<string>, ownBookings: Option<seq<int>>, q: PaymentQuery)
      returns (r: Result<set<Payment>>)
      ensures r == VisiblePayments(payments, user, authorization, ownBookings, q)
      ensures r.Ok? ==> r.value <= payments.Values
    {
      r := VisiblePayments(payments, user, authorization, ownBookings, q);
    }
  }
}
