/** The voucher handlers (controllers/voucherController.js): create, update and delete by code,
    lookup by code, and the filter of the listing. */
module VoucherController {
  import opened Common
  import opened VoucherModel

  const CodeExists: Error := BadRequest("Voucher code already exists")
  const DiscountOutOfRange: Error := BadRequest("Discount percentage must be between 0 and 100")
  const ExpiryNotFuture: Error := BadRequest("Expiry date must be in the future")
  const VoucherNotFound: Error := NotFound("Voucher not found")
  const SaveFailed: Error := ServerError("Server error")

  /** `findOne({ code })`: an absent code drops out of the filter, which then matches any
      voucher. */
  predicate CodeTaken(vouchers: map<string, Voucher>, code: Option<string>) {
    if code.Some? then code.value in vouchers else |vouchers| > 0
  }

  /** The handler's own checks on the body, shared by create and update: the error they reply
      with, if any. An absent discount or expiry date passes them (comparisons with `undefined`
      and with an invalid date are false). */
  function BodyCheck(input: VoucherInput, now: int): (r: Option<Error>)
    ensures r == Some(DiscountOutOfRange) <==>
      input.discountType == Some(Percentage) && input.discount.Some?
      && (input.discount.value < 0.0 || input.discount.value > 100.0)
    ensures r.None? <==>
      && (input.discountType == Some(Percentage) && input.discount.Some?
          ==> DiscountValidator(Percentage, input.discount.value))
      && (input.expiryDate.Some? ==> ExpiryValidator(input.expiryDate.value, now))
  {
    if input.discountType == Some(Percentage) && input.discount.Some?
       && (input.discount.value < 0.0 || input.discount.value > 100.0)
    then Some(DiscountOutOfRange)
    else if input.expiryDate.Some? && input.expiryDate.value <= now then Some(ExpiryNotFuture)
    else None
  }

  /** `createVoucher`: rejects a taken code, then a body that fails the handler's checks, then a
      document that fails the schema; otherwise stores one new active voucher under its code. */
  method CreateVoucher(table: VoucherTable, input: VoucherInput, now: int) returns (r: Result<Voucher>)
    requires table.Valid()
    modifies table
    ensures table.Valid()
    ensures r.Err? ==> table.vouchers == old(table.vouchers) && table.nextId == old(table.nextId)
    ensures CodeTaken(old(table.vouchers), input.code) ==> r == Err(CodeExists)
    ensures !CodeTaken(old(table.vouchers), input.code) && BodyCheck(input, now).Some? ==>
              r == Err(BodyCheck(input, now).value)
    ensures r.Ok? <==>
      && !CodeTaken(old(table.vouchers), input.code) && BodyCheck(input, now).None?
      && Instantiate(input.(status := Some(Active)), old(table.nextId), now).Some?
    ensures r.Ok? ==>
      && r.value == Instantiate(input.(status := Some(Active)), old(table.nextId), now).value
      && r.value.code !in old(table.vouchers)
      && r.value.status == Active
      && SchemaValid(r.value, now)
      && table.vouchers == old(table.vouchers)[r.value.code := r.value]
      && table.nextId == old(table.nextId) + 1
  {
    if CodeTaken(table.vouchers, input.code) {
      return Err(CodeExists);
    }
    var check := BodyCheck(input, now);
    if check.Some? {
      return Err(check.value);
    }
    var created := Instantiate(input.(status := Some(Active)), table.nextId, now);
    if created.None? {
      return Err(SaveFailed);
    }
    var v := created.value;
    table.vouchers := table.vouchers[v.code := v];
    table.nextId := table.nextId + 1;
    r := Ok(v);
  }

  /** The update document of `findOneAndUpdate`: every supplied field replaced, absent fields
      kept, `updatedDate` set. No schema validator runs on this path. */
  function Patch(v: Voucher, input: VoucherInput, now: int): (r: Voucher)
    ensures r.id == v.id && r.code == v.code && r.updatedDate == now
    ensures r.name == OrElse(input.name, v.name)
    ensures r.discountType == OrElse(input.discountType, v.discountType)
    ensures r.discount == OrElse(input.discount, v.discount)
    ensures r.expiryDate == OrElse(input.expiryDate, v.expiryDate)
    ensures r.minOrderValue == OrElse(input.minOrderValue, v.minOrderValue)
    ensures r.maxDiscountAmount == OrElse(input.maxDiscountAmount, v.maxDiscountAmount)
    ensures r.quantity == OrElse(input.quantity, v.quantity)
    ensures r.status == OrElse(input.status, v.status)
  {
    v.(name := OrElse(input.name, v.name),
       discountType := OrElse(input.discountType, v.discountType),
       discount := OrElse(input.discount, v.discount),
       expiryDate := OrElse(input.expiryDate, v.expiryDate),
       minOrderValue := OrElse(input.minOrderValue, v.minOrderValue),
       maxDiscountAmount := OrElse(input.maxDiscountAmount, v.maxDiscountAmount),
       quantity := OrElse(input.quantity, v.quantity),
       status := OrElse(input.status, v.status),
       updatedDate := now)
  }

  /** An update with no fields only refreshes `updatedDate`. */
  lemma PatchNothing(v: Voucher, now: int)
    ensures Patch(v, VoucherInput(None, None, None, None, None, None, None, None, None), now)
         == v.(updatedDate := now)
  {
  }

  /** `updateVoucher`: the handler's checks first; then an unknown code is not found; otherwise
      the voucher under `code` is patched and keeps its code. */
  method UpdateVoucher(table: VoucherTable, code: string, input: VoucherInput, now: int)
    returns (r: Result<Voucher>)
    requires table.Valid()
    modifies table
    ensures table.Valid()
    ensures table.nextId == old(table.nextId)
    ensures r.Err? ==> table.vouchers == old(table.vouchers)
    ensures BodyCheck(input, now).Some? ==> r == Err(BodyCheck(input, now).value)
    ensures BodyCheck(input, now).None? && code !in old(table.vouchers) ==> r == Err(VoucherNotFound)
    ensures r.Ok? <==> BodyCheck(input, now).None? && code in old(table.vouchers)
    ensures r.Ok? ==>
      && r.value == Patch(old(table.vouchers)[code], input, now)
      && r.value.code == code
      && table.vouchers == old(table.vouchers)[code := r.value]
  {
    var check := BodyCheck(input, now);
    if check.Some? {
      return Err(check.value);
    }
    if code !in table.vouchers {
      return Err(VoucherNotFound);
    }
    var v := Patch(table.vouchers[code], input, now);
    table.vouchers := table.vouchers[code := v];
    r := Ok(v);
  }

  /** `deleteVoucher`: removes exactly the voucher under `code`, or reports it not found. */
  method DeleteVoucher(table: VoucherTable, code: string) returns (r: Result<Voucher>)
    requires table.Valid()
    modifies table
    ensures table.Valid()
    ensures table.nextId == old(table.nextId)
    ensures code !in old(table.vouchers) ==> r == Err(VoucherNotFound) && table.vouchers == old(table.vouchers)
    ensures code in old(table.vouchers) ==>
      r == Ok(old(table.vouchers)[code]) && table.vouchers == old(table.vouchers) - {code}
  {
    if code !in table.vouchers {
      return Err(VoucherNotFound);
    }
    r := Ok(table.vouchers[code]);
    table.vouchers := table.vouchers - {code};
  }

  /** `getVoucherByCode`: the voucher whose code is `code`. */
  function GetVoucherByCode(vouchers: map<string, Voucher>, code: string): (r: Result<Voucher>)
    requires forall c | c in vouchers :: vouchers[c].code == c
    ensures r.Ok? ==> r.value.code == code && r.value in vouchers.Values
    ensures r.Err? ==> r == Err(VoucherNotFound) && forall v | v in vouchers.Values :: v.code != code
  {
    if code in vouchers then Ok(vouchers[code]) else Err(VoucherNotFound)
  }

  /** The query parameters of `getVouchers` that filter; `None` is an absent or empty parameter. */
  datatype VoucherFilter = VoucherFilter(
    status: Option<string>,
    minOrderValue: Option<real>,
    maxDiscountAmount: Option<real>,
    discountType: Option<string>)

  const NoFilter: VoucherFilter := VoucherFilter(None, None, None, None)

  /** The query object `getVouchers` builds: each supplied parameter adds one condition. */
  predicate Matches(v: Voucher, f: VoucherFilter) {
    && (f.status.Some? ==> v.status == f.status.value)
    && (f.minOrderValue.Some? ==> v.minOrderValue >= f.minOrderValue.value)
    && (f.maxDiscountAmount.Some? ==> v.maxDiscountAmount <= f.maxDiscountAmount.value)
    && (f.discountType.Some? ==> v.discountType == f.discountType.value)
  }

  /** The vouchers `getVouchers` returns, without search and ordering. */
  function GetVouchers(vouchers: map<string, Voucher>, f: VoucherFilter): (r: set<Voucher>)
    ensures r <= vouchers.Values
    ensures f == NoFilter ==> r == vouchers.Values
    ensures forall v | v in r :: Matches(v, f)
    ensures forall v | v in vouchers.Values && Matches(v, f) :: v in r
  {
    set v | v in vouchers.Values && Matches(v, f)
  }

  /** Each supplied criterion only narrows the result. */
  lemma FilterNarrows(vouchers: map<string, Voucher>, f: VoucherFilter, g: VoucherFilter)
    requires f.status.Some? ==> g.status == f.status
    requires f.minOrderValue.Some? ==> g.minOrderValue == f.minOrderValue
    requires f.maxDiscountAmount.Some? ==> g.maxDiscountAmount == f.maxDiscountAmount
    requires f.discountType.Some? ==> g.discountType == f.discountType
    ensures GetVouchers(vouchers, g) <= GetVouchers(vouchers, f)
  {
  }
}
