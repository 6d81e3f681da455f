/** Payment settlement (utils/paymentService.js): the voucher discount, the payment record and
    the gateway request at checkout, and the update of the record on the gateway's callback. */
module PaymentService {
  import opened Common
  import opened VoucherModel
  import opened VnpayService

  datatype PaymentStatus = Pending | Success | Failed

  const VnPay: string := "VNPay"

  /** A payment document (models/paymentModel.js); `note` is never written by the service. */
  datatype Payment = Payment(
    order: string,
    amount: real,
    paymentMethod: string,
    status: PaymentStatus,
    paymentDate: int,
    transactionId: string,
    discountCode: Option<string>,
    discountAmount: real,
    appliedVoucher: Option<Id>)

  /** What `createPayment` hands back: the gateway URL and the signed parameters. */
  datatype PaymentRequest = PaymentRequest(vnpayUrl: string, vnpayParams: Params)

  const OrderNotFound: Error := Thrown("Order not found")
  const InvalidPaymentResponse: Error := Thrown("Invalid payment response")
  const PaymentNotFound: Error := Thrown("Payment not found")
  const VoucherValidationFailed: Error := Thrown("Voucher validation failed")
  /** The ReferenceError raised where the record reads `voucher` outside its block. */
  const VoucherNotDefined: Error := Thrown("voucher is not defined")

  // ---------------------------------------------------------------- the discount

  /** `Voucher.findOne({ code, status: 'active' })`: the voucher stored under `code`, if it is
      active. */
  function FindActiveVoucher(vouchers: map<string, Voucher>, code: string): (r: Option<Voucher>)
    ensures r.Some? ==> code in vouchers && r.value == vouchers[code] && r.value.status == Active
    ensures r.None? ==> code !in vouchers || vouchers[code].status != Active
  {
    if code in vouchers && vouchers[code].status == Active then Some(vouchers[code]) else None
  }

  /** A found voucher is still usable: not past its expiry date and not used up. */
  predicate Usable(v: Voucher, now: int) {
    v.expiryDate > now && v.quantity > 0.0
  }

  /** The voucher whose discount a checkout applies: a non-empty code naming an active voucher
      that is still usable. */
  function AppliedVoucher(vouchers: map<string, Voucher>, discountCode: Option<string>, now: int)
    : (r: Option<Voucher>)
    ensures !TruthyText(discountCode) ==> r.None?
    ensures r.Some? ==>
      && discountCode.Some? && discountCode.value in vouchers
      && r.value == vouchers[discountCode.value]
      && r.value.status == Active && Usable(r.value, now)
    ensures r.None? && TruthyText(discountCode) && discountCode.value in vouchers ==>
      var v := vouchers[discountCode.value];
      v.status != Active || !Usable(v, now)
  {
    if !TruthyText(discountCode) then None
    else
      var found := FindActiveVoucher(vouchers, discountCode.value);
      if found.Some? && Usable(found.value, now) then found else None
  }

  /** The discount before the cap: a percentage of the order total, or the fixed amount. */
  function RawDiscount(v: Voucher, total: real): real {
    if v.discountType == Percentage then (total * v.discount) / 100.0 else v.discount
  }

  /** The discount of voucher `v` on an order of `total`: the raw discount, capped by
      `maxDiscountAmount` when that is positive; a cap of 0 means no cap. */
  function Discount(v: Voucher, total: real): (d: real)
    ensures v.maxDiscountAmount > 0.0 ==> d <= v.maxDiscountAmount && d <= RawDiscount(v, total)
    ensures v.maxDiscountAmount > 0.0 ==> d == RawDiscount(v, total) || d == v.maxDiscountAmount
    ensures v.maxDiscountAmount <= 0.0 ==> d == RawDiscount(v, total)
  {
    var raw := RawDiscount(v, total);
    if v.maxDiscountAmount > 0.0 then (if raw <= v.maxDiscountAmount then raw else v.maxDiscountAmount)
    else raw
  }

  /** A percentage voucher that passed the schema's validator never takes off more than the
      order total, nor less than nothing. */
  lemma PercentageWithinTotal(v: Voucher, total: real)
    requires v.discountType == Percentage && DiscountValidator(v.discountType, v.discount)
    requires total >= 0.0 && v.maxDiscountAmount >= 0.0
    ensures 0.0 <= Discount(v, total) <= total
  {
    ProductNonNegative(total, v.discount);
    ProductNonNegative(total, 100.0 - v.discount);
    assert total * (100.0 - v.discount) == total * 100.0 - total * v.discount;
    assert 0.0 <= RawDiscount(v, total) <= total;
  }

  lemma ProductNonNegative(a: real, b: real)
    requires a >= 0.0 && b >= 0.0
    ensures a * b >= 0.0
  {
  }

  /** A fixed voucher worth more than the order leaves a negative amount to pay: the amount is
      not clamped at zero. */
  lemma FixedDiscountNotClamped(v: Voucher, total: real)
    requires v.discountType == Fixed && v.maxDiscountAmount == 0.0 && v.discount > total
    ensures total - Discount(v, total) < 0.0
  {
  }

  /** The voucher as `voucher.quantity -= 1` leaves it. */
  function Redeemed(v: Voucher): (r: Voucher)
    ensures r.quantity == v.quantity - 1.0 && r.(quantity := v.quantity) == v
  {
    v.(quantity := v.quantity - 1.0)
  }

  /** The discount of a checkout: that of the applied voucher, else 0. */
  function CheckoutDiscount(applied: Option<Voucher>, total: real): (d: real)
    ensures applied.None? ==> d == 0.0
    ensures applied.Some? ==> d == Discount(applied.value, total)
  {
    if applied.Some? then Discount(applied.value, total) else 0.0
  }

  /** The payment record `createPayment` saves, with `applied_voucher` the id of the voucher
      whose discount was applied. */
  function NewPayment(orderId: string, total: real, discountCode: Option<string>,
                      applied: Option<Voucher>, now: int): (p: Payment)
    ensures p.order == orderId && p.transactionId == orderId
    ensures p.amount == total - p.discountAmount
    ensures p.discountAmount == CheckoutDiscount(applied, total)
    ensures p.status == Pending && p.paymentMethod == VnPay && p.paymentDate == now
    ensures p.discountCode == discountCode
    ensures p.appliedVoucher.Some? <==> applied.Some?
    ensures applied.Some? ==> p.appliedVoucher == Some(applied.value.id)
  {
    var d := CheckoutDiscount(applied, total);
    Payment(orderId, total - d, VnPay, Pending, now, orderId, discountCode, d,
            if applied.Some? then Some(applied.value.id) else None)
  }

  // ---------------------------------------------------------------- the payment collection

  class PaymentTable {
    var payments: seq<Payment>

    constructor ()
      ensures payments == []
    {
      payments := [];
    }
  }

  // ---------------------------------------------------------------- createPayment

  /** What the gateway request of a checkout carries: the gateway URL, the amount due (total less
      discount) in the gateway's units (hundredths), the order id as transaction reference, and a signature that
      the gateway's own check accepts. */
  predicate RequestFor(req: PaymentRequest, g: Gateway, orderId: string, total: real, discount: real) {
    && req.vnpayUrl == g.url
    && Get(req.vnpayParams, "vnp_Amount") == Some(Number((total - discount) * 100.0))
    && Get(req.vnpayParams, "vnp_TxnRef") == Some(Text(orderId))
    && VerifyResult(g, req.vnpayParams)
  }

  /** The voucher step of `createPayment` (lines 17-38): the voucher applied, if any. Applying
      a voucher decrements its quantity by one and saves it; the save validates the whole
      document and fails, changing nothing, when it does not pass the schema. */
  method ApplyVoucher(table: VoucherTable, discountCode: Option<string>, now: int)
    returns (r: Result<Option<Voucher>>)
    requires table.Valid()
    modifies table
    ensures table.Valid() && table.nextId == old(table.nextId)
    ensures var applied := AppliedVoucher(old(table.vouchers), discountCode, now);
      && (applied.None? ==> r == Ok(None) && table.vouchers == old(table.vouchers))
      && (applied.Some? && SchemaValid(Redeemed(applied.value), now) ==>
            r == Ok(applied) && table.vouchers == old(table.vouchers)[applied.value.code := Redeemed(applied.value)])
      && (applied.Some? && !SchemaValid(Redeemed(applied.value), now) ==>
            r == Err(VoucherValidationFailed) && table.vouchers == old(table.vouchers))
  {
    var applied := AppliedVoucher(table.vouchers, discountCode, now);
    if applied.None? {
      return Ok(None);
    }
    var voucher := Redeemed(applied.value);
    if !SchemaValid(voucher, now) {
      return Err(VoucherValidationFailed);
    }
    table.vouchers := table.vouchers[voucher.code := voucher];
    r := Ok(applied);
  }

  /** `createVnpayPaymentRequest(order, discountAmount)` as `createPayment` calls it (line 41). */
  method BuildRequest(g: Gateway, orderId: string, total: real, discount: real, createDate: string)
    returns (req: PaymentRequest)
    ensures RequestFor(req, g, orderId, total, discount)
  {
    var params, url := CreateVnpayPaymentRequest(g, orderId, total, discount, createDate);
    SignedRequestFacts(g, orderId, total, discount, createDate);
    req := PaymentRequest(url, params);
  }

  /** The end of `createPayment` (lines 41-57): the gateway request for the amount due, and the
      pending payment appended to the collection. */
  method RecordPayment(store: PaymentTable, g: Gateway, orderId: string, total: real,
                       discountCode: Option<string>, applied: Option<Voucher>, now: int,
                       createDate: string)
    returns (req: PaymentRequest)
    modifies store
    ensures RequestFor(req, g, orderId, total, CheckoutDiscount(applied, total))
    ensures store.payments == old(store.payments) + [NewPayment(orderId, total, discountCode, applied, now)]
  {
    req := BuildRequest(g, orderId, total, CheckoutDiscount(applied, total), createDate);
    store.payments := store.payments + [NewPayment(orderId, total, discountCode, applied, now)];
  }

  /** `createPayment(orderId, discountCode)`, with `orders` mapping each order id to its total:
      an unknown order fails before anything changes; otherwise the voucher step runs, the
      gateway request is built for the amount due, and a pending payment is appended. */
  method CreatePayment(orders: map<string, real>, vouchers: VoucherTable, store: PaymentTable,
                       g: Gateway, orderId: string, discountCode: Option<string>, now: int,
                       createDate: string)
    returns (r: Result<PaymentRequest>)
    requires vouchers.Valid()
    modifies vouchers, store
    ensures vouchers.Valid() && vouchers.nextId == old(vouchers.nextId)
    ensures orderId !in orders ==> r == Err(OrderNotFound)
    ensures r.Err? ==> store.payments == old(store.payments) && vouchers.vouchers == old(vouchers.vouchers)
    ensures orderId in orders ==>
      var applied := AppliedVoucher(old(vouchers.vouchers), discountCode, now);
      && (r.Ok? <==> applied.None? || SchemaValid(Redeemed(applied.value), now))
      && (applied.None? ==> vouchers.vouchers == old(vouchers.vouchers))
      && (applied.Some? && !SchemaValid(Redeemed(applied.value), now) ==> r == Err(VoucherValidationFailed))
      && (r.Ok? ==>
            && (applied.Some? ==> vouchers.vouchers == old(vouchers.vouchers)[applied.value.code := Redeemed(applied.value)])
            && RequestFor(r.value, g, orderId, orders[orderId], CheckoutDiscount(applied, orders[orderId]))
            && store.payments == old(store.payments) + [NewPayment(orderId, orders[orderId], discountCode, applied, now)])
  {
    if orderId !in orders {
      return Err(OrderNotFound);
    }
    var applied := ApplyVoucher(vouchers, discountCode, now);
    if applied.Err? {
      return Err(applied.error);
    }
    var req := RecordPayment(store, g, orderId, orders[orderId], discountCode, applied.value, now, createDate);
    r := Ok(req);
  }

  /** `createPayment` as written: the record reads `voucher`, which is only in scope inside the
      voucher block, so every call on an existing order throws after the voucher step and no
      payment is saved; a voucher may already have been decremented. The gateway request built
      just before the throw changes nothing and is not repeated here. */
  method CreatePaymentAsWritten(orders: map<string, real>, vouchers: VoucherTable, store: PaymentTable,
                                g: Gateway, orderId: string, discountCode: Option<string>, now: int,
                                createDate: string)
    returns (r: Result<PaymentRequest>)
    requires vouchers.Valid()
    modifies vouchers, store
    ensures vouchers.Valid()
    ensures r.Err? && store.payments == old(store.payments)
    ensures orderId !in orders ==> r == Err(OrderNotFound) && vouchers.vouchers == old(vouchers.vouchers)
    ensures orderId in orders && AppliedVoucher(old(vouchers.vouchers), discountCode, now).None? ==>
      r == Err(VoucherNotDefined) && vouchers.vouchers == old(vouchers.vouchers)
    ensures orderId in orders ==>
      var applied := AppliedVoucher(old(vouchers.vouchers), discountCode, now);
      applied.Some? && SchemaValid(Redeemed(applied.value), now) ==>
        r == Err(VoucherNotDefined)
        && vouchers.vouchers == old(vouchers.vouchers)[applied.value.code := Redeemed(applied.value)]
    ensures orderId in orders ==>
      var applied := AppliedVoucher(old(vouchers.vouchers), discountCode, now);
      applied.Some? && !SchemaValid(Redeemed(applied.value), now) ==>
        r == Err(VoucherValidationFailed) && vouchers.vouchers == old(vouchers.vouchers)
  {
    if orderId !in orders {
      return Err(OrderNotFound);
    }
    var applied := ApplyVoucher(vouchers, discountCode, now);
    if applied.Err? {
      return Err(applied.error);
    }
    r := Err(VoucherNotDefined);
  }

  // ---------------------------------------------------------------- paymentReturn

  /** `Payment.findOne({ transaction_id })`; an absent reference drops out of the filter, and
      a numeric one is cast to the string path as `String(n)`, which `numberText` stands for. */
  predicate Matches(p: Payment, txnRef: Option<Value>, numberText: real -> string) {
    match txnRef
    case None => true
    case Some(Text(s)) => p.transactionId == s
    case Some(Number(n)) => p.transactionId == numberText(n)
  }

  /** The position of the first payment that matches. */
  function FindPayment(payments: seq<Payment>, txnRef: Option<Value>, numberText: real -> string)
    : (r: Option<nat>)
    ensures r.Some? ==> r.value < |payments| && Matches(payments[r.value], txnRef, numberText)
    ensures r.Some? ==> forall j | 0 <= j < r.value :: !Matches(payments[j], txnRef, numberText)
    ensures r.None? ==> forall j | 0 <= j < |payments| :: !Matches(payments[j], txnRef, numberText)
  {
    if payments == [] then None
    else if Matches(payments[0], txnRef, numberText) then Some(0)
    else
      var rest := FindPayment(payments[1..], txnRef, numberText);
      if rest.Some? then Some(rest.value + 1) else None
  }

  /** The payment at `i` after `status = 'success'` and `payment_date = now`. */
  function MarkPaid(payments: seq<Payment>, i: nat, now: int): (r: seq<Payment>)
    requires i < |payments|
    ensures |r| == |payments|
    ensures r[i] == payments[i].(status := Success, paymentDate := now)
    ensures forall j | 0 <= j < |r| && j != i :: r[j] == payments[j]
  {
    payments[i := payments[i].(status := Success, paymentDate := now)]
  }

  /** Confirming the same payment twice leaves it confirmed, dated by the later call, and every
      other payment as it was. */
  lemma MarkPaidIdempotent(payments: seq<Payment>, txnRef: Option<Value>, numberText: real -> string,
                           now1: int, now2: int)
    requires FindPayment(payments, txnRef, numberText).Some?
    ensures var i := FindPayment(payments, txnRef, numberText).value;
      && FindPayment(MarkPaid(payments, i, now1), txnRef, numberText) == Some(i)
      && MarkPaid(MarkPaid(payments, i, now1), i, now2) == MarkPaid(payments, i, now2)
  {
    var i := FindPayment(payments, txnRef, numberText).value;
    var once := MarkPaid(payments, i, now1);
    FindPaymentSameKeys(payments, once, txnRef, numberText);
  }

  /** The search depends only on the transaction ids. */
  lemma {:induction false} FindPaymentSameKeys(a: seq<Payment>, b: seq<Payment>, txnRef: Option<Value>,
                                               numberText: real -> string)
    requires |a| == |b|
    requires forall j | 0 <= j < |a| :: a[j].transactionId == b[j].transactionId
    ensures FindPayment(a, txnRef, numberText) == FindPayment(b, txnRef, numberText)
    decreases |a|
  {
    if a != [] {
      FindPaymentSameKeys(a[1..], b[1..], txnRef, numberText);
    }
  }

  /** A numeric reference finds the same payment as the string it is cast to. */
  lemma {:induction false} NumericRefCast(payments: seq<Payment>, n: real, numberText: real -> string)
    ensures FindPayment(payments, Some(Number(n)), numberText)
         == FindPayment(payments, Some(Text(numberText(n))), numberText)
    decreases |payments|
  {
    if payments != [] {
      NumericRefCast(payments[1..], n, numberText);
    }
  }

  /** `paymentReturn(queryParams)`: reads `vnp_TxnRef`, verifies the hash (which deletes
      `vnp_SecureHash` from the query), and marks the first payment with that reference paid. */
  method PaymentReturn(g: Gateway, query: QueryParams, store: PaymentTable, numberText: real -> string, now: int)
    returns (r: Result<Payment>)
    requires query.Valid()
    modifies query, store
    ensures query.Valid()
    ensures query.entries == Remove(old(query.entries), SecureHashKey)
    ensures !VerifyResult(g, old(query.entries)) ==>
      r == Err(InvalidPaymentResponse) && store.payments == old(store.payments)
    ensures VerifyResult(g, old(query.entries))
            && FindPayment(old(store.payments), Get(old(query.entries), "vnp_TxnRef"), numberText).None? ==>
      r == Err(PaymentNotFound) && store.payments == old(store.payments)
    ensures VerifyResult(g, old(query.entries))
            && FindPayment(old(store.payments), Get(old(query.entries), "vnp_TxnRef"), numberText).Some? ==>
      var i := FindPayment(old(store.payments), Get(old(query.entries), "vnp_TxnRef"), numberText).value;
      && store.payments == MarkPaid(old(store.payments), i, now)
      && r == Ok(store.payments[i])
      && r.value.status == Success
  {
    var txnRef := Get(query.entries, "vnp_TxnRef");
    var isValid := VerifyPaymentReturn(g, query);
    if !isValid {
      return Err(InvalidPaymentResponse);
    }
    var found := FindPayment(store.payments, txnRef, numberText);
    if found.None? {
      return Err(PaymentNotFound);
    }
    store.payments := MarkPaid(store.payments, found.value, now);
    r := Ok(store.payments[found.value]);
  }
}
