// The pricing step: the paid toggle, the price and discount inputs with
// their shared clamp, and the discount's Clear button.

module PricingForm {
  import opened Wrappers
  import opened CourseFormSlice

  /**
   * The clamp in handlePricingChange, with the number parser's NaN as
   * None: empty or unparseable input and negative values store 0, any
   * other parsed value is stored as it is.
   */
  function ClampPrice(input: string, parsed: Option<real>): (r: real)
    ensures r >= 0.0
    ensures input != "" && parsed.Some? && parsed.value >= 0.0 ==> r == parsed.value
    ensures input == "" || parsed.None? || parsed.value < 0.0 ==> r == 0.0
  {
    if input == "" || parsed.None? then 0.0
    else if parsed.value < 0.0 then 0.0
    else parsed.value
  }

  /** The two inputs handlePricingChange serves, by their `name` attribute. */
  datatype PriceInput = PriceField | DiscountPriceField

  /** The updateBasicInfo payload for the input the change came from. */
  function PricingPayload(name: PriceInput, input: string, parsed: Option<real>): (p: seq<Write>)
    ensures PatchFits(p) && |p| == 1
    ensures name == PriceField ==> p[0] == Write(Price, Amount(ClampPrice(input, parsed)))
    ensures name == DiscountPriceField ==>
      p[0] == Write(DiscountPrice, OptionalAmount(Some(ClampPrice(input, parsed))))
  {
    var v := ClampPrice(input, parsed);
    match name
    case PriceField => [Write(Price, Amount(v))]
    case DiscountPriceField => [Write(DiscountPrice, OptionalAmount(Some(v)))]
  }

  /**
   * A pricing change writes only the named field, never stores a negative
   * amount, and so keeps the record's guarantees.
   */
  lemma PricingChangeKeepsGuarded(s: CourseFormState, name: PriceInput, input: string, parsed: Option<real>)
    requires Guarded(s)
    ensures var r := Reduce(s, UpdateBasicInfo(PricingPayload(name, input, parsed)));
      && Guarded(r)
      && (name == PriceField ==> r == s.(price := ClampPrice(input, parsed)))
      && (name == DiscountPriceField ==> r == s.(discountPrice := Some(ClampPrice(input, parsed))))
  {
    OneKeyPatch(s, PricingPayload(name, input, parsed)[0]);
  }

  /** Emptying the discount input stores a discount of 0, not "no discount". */
  lemma EmptiedDiscountIsZero(s: CourseFormState, parsed: Option<real>)
    ensures Reduce(s, UpdateBasicInfo(PricingPayload(DiscountPriceField, "", parsed))).discountPrice == Some(0.0)
  {
    OneKeyPatch(s, PricingPayload(DiscountPriceField, "", parsed)[0]);
  }

  /** The Clear button: the payload that removes the discount. */
  function ClearDiscountPayload(): (p: seq<Write>)
    ensures PatchFits(p)
    ensures forall s :: ApplyPatch(s, p).discountPrice.None?
  {
    [Write(DiscountPrice, OptionalAmount(None))]
  }

  /** handleToggleIsPaid: the payload storing the switch value. */
  function ToggleIsPaidPayload(checked: bool): (p: seq<Write>)
    ensures PatchFits(p)
    ensures forall s :: ApplyPatch(s, p).isPaid == checked
  {
    [Write(IsPaid, Flag(checked))]
  }

  /** Clear and the paid toggle change only their own field. */
  lemma ClearAndToggleWriteOnlyTheirField(s: CourseFormState, checked: bool)
    requires Guarded(s)
    ensures Reduce(s, UpdateBasicInfo(ClearDiscountPayload())) == s.(discountPrice := None)
    ensures Reduce(s, UpdateBasicInfo(ToggleIsPaidPayload(checked))) == s.(isPaid := checked)
    ensures Guarded(s.(discountPrice := None)) && Guarded(s.(isPaid := checked))
  {
    OneKeyPatch(s, ClearDiscountPayload()[0]);
    OneKeyPatch(s, ToggleIsPaidPayload(checked)[0]);
  }
}
