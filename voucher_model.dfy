/** The voucher document (models/voucherModel.js): its fields, the enumerations and defaults of
    the schema, the two custom validators, and the collection keyed by the unique code. */
module VoucherModel {
  import opened Common

  const Percentage: string := "percentage"
  const Fixed: string := "fixed"
  const Active: string := "active"
  const Expired: string := "expired"

  /** A stored voucher. `discountType` and `status` are kept as the strings the document holds:
      an update does not run the schema validators, so they are not always enumeration members. */
  datatype Voucher = Voucher(
    id: Id,
    name: string,
    code: string,
    discountType: string,
    discount: real,
    expiryDate: int,
    minOrderValue: real,
    maxDiscountAmount: real,
    quantity: real,
    status: string,
    updatedDate: int)

  /** The fields of a voucher as a request body supplies them; `None` is an absent field. */
  datatype VoucherInput = VoucherInput(
    name: Option<string>,
    code: Option<string>,
    discountType: Option<string>,
    discount: Option<real>,
    expiryDate: Option<int>,
    minOrderValue: Option<real>,
    maxDiscountAmount: Option<real>,
    quantity: Option<real>,
    status: Option<string>)

  predicate DiscountTypeValid(t: string) {
    t == Percentage || t == Fixed
  }

  predicate StatusValid(s: string) {
    s == Active || s == Expired
  }

  /** The validator of `discount`: a percentage lies in [0, 100]; a fixed amount is anything. */
  predicate DiscountValidator(discountType: string, value: real) {
    discountType == Percentage ==> 0.0 <= value <= 100.0
  }

  /** The validator of `expiryDate`: strictly after the moment of saving. */
  predicate ExpiryValidator(expiryDate: int, now: int) {
    expiryDate > now
  }

  /** A required string is present and not empty. */
  predicate RequiredText(s: Option<string>) {
    s.Some? && s.value != ""
  }

  /** Everything `save()` checks on a document before storing it. */
  predicate SchemaValid(v: Voucher, now: int) {
    && v.name != ""
    && v.code != ""
    && DiscountTypeValid(v.discountType)
    && DiscountValidator(v.discountType, v.discount)
    && ExpiryValidator(v.expiryDate, now)
    && StatusValid(v.status)
  }

  function OrElse<T>(x: Option<T>, default: T): T {
    if x.Some? then x.value else default
  }

  /** `new Voucher(fields)` followed by `save()`: the defaults filled in (`discountType`
      percentage, `maxDiscountAmount` 0, `status` active), then the document validated;
      `None` when validation fails. */
  function Instantiate(input: VoucherInput, id: Id, now: int): (r: Option<Voucher>)
    ensures r.Some? ==> SchemaValid(r.value, now)
    ensures r.Some? ==> r.value.id == id && r.value.updatedDate == now
    ensures r.Some? ==> Some(r.value.code) == input.code && Some(r.value.name) == input.name
    ensures r.Some? ==> Some(r.value.discount) == input.discount && Some(r.value.quantity) == input.quantity
    ensures r.Some? ==> Some(r.value.expiryDate) == input.expiryDate
    ensures r.Some? ==> Some(r.value.minOrderValue) == input.minOrderValue
    ensures r.Some? ==> r.value.discountType == OrElse(input.discountType, Percentage)
    ensures r.Some? ==> r.value.maxDiscountAmount == OrElse(input.maxDiscountAmount, 0.0)
    ensures r.Some? ==> r.value.status == OrElse(input.status, Active)
    ensures r.None? <==>
      || !RequiredText(input.name) || !RequiredText(input.code)
      || input.discount.None? || input.expiryDate.None?
      || input.minOrderValue.None? || input.quantity.None?
      || !DiscountTypeValid(OrElse(input.discountType, Percentage))
      || !StatusValid(OrElse(input.status, Active))
      || !DiscountValidator(OrElse(input.discountType, Percentage), input.discount.value)
      || !ExpiryValidator(input.expiryDate.value, now)
  {
    if !RequiredText(input.name) || !RequiredText(input.code) || input.discount.None?
       || input.expiryDate.None? || input.minOrderValue.None? || input.quantity.None?
    then None
    else
      var v := Voucher(
        id, input.name.value, input.code.value,
        OrElse(input.discountType, Percentage), input.discount.value, input.expiryDate.value,
        input.minOrderValue.value, OrElse(input.maxDiscountAmount, 0.0), input.quantity.value,
        OrElse(input.status, Active), now);
      if SchemaValid(v, now) then Some(v) else None
  }

  /** A percentage voucher whose discount is outside [0, 100] is never stored by `save()`, and
      neither is one that has already expired. */
  lemma SaveRejectsInvalid(input: VoucherInput, id: Id, now: int)
    requires input.discountType.None? || input.discountType == Some(Percentage)
    requires || (input.discount.Some? && (input.discount.value < 0.0 || input.discount.value > 100.0))
             || (input.expiryDate.Some? && input.expiryDate.value <= now)
    ensures Instantiate(input, id, now).None?
  {
  }

  /** Absent optional fields take the schema defaults. */
  lemma DefaultsApplied(input: VoucherInput, id: Id, now: int)
    requires input.discountType.None? && input.maxDiscountAmount.None? && input.status.None?
    requires Instantiate(input, id, now).Some?
    ensures Instantiate(input, id, now).value.discountType == Percentage
    ensures Instantiate(input, id, now).value.maxDiscountAmount == 0.0
    ensures Instantiate(input, id, now).value.status == Active
  {
  }

  /** The voucher collection: each voucher stored under its unique code. */
  class VoucherTable {
    var vouchers: map<string, Voucher>
    var nextId: nat

    ghost predicate Valid()
      reads this
    {
      forall c | c in vouchers :: vouchers[c].code == c && vouchers[c].id < nextId
    }

    constructor ()
      ensures Valid() && vouchers == map[] && nextId == 0
    {
      vouchers := map[];
      nextId := 0;
    }
  }
}
