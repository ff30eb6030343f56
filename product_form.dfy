/**
 * The product form shared by the create and update dialogs: the value a
 * control can hold, the Angular validators the form attaches to each control,
 * the custom `integerValidator`, and the form's initial values.
 */
module ProductForm {
  import opened Wrappers
  import opened Products

  /** The value of a numeric control: a JavaScript number, a string, null or undefined. */
  datatype FormValue = Num(x: real) | Str(s: string) | Null | Undefined

  /** The value of the whole form: `{ name, category, price, quantity }`. */
  datatype FormState = FormState(name: string, category: string, price: FormValue, quantity: FormValue)

  /** The error object `{ integer: true }`. */
  datatype ValidationError = IntegerError

  // Angular's built-in validators, for the control kinds the form uses.

  /** A value Angular treats as empty: null, undefined or the empty string. */
  predicate IsEmptyInput(v: FormValue) {
    v.Null? || v.Undefined? || v == Str("")
  }

  /** Validators.required on a numeric control. */
  predicate Required(v: FormValue) {
    !IsEmptyInput(v)
  }

  /** Validators.min(m): empty values pass; a number must be at least m. */
  predicate Min(v: FormValue, m: real) {
    match v
    case Num(x) => x >= m
    case Str(s) => s == ""
    case _ => true
  }

  /** Validators.required on a text control. */
  predicate TextRequired(s: string) {
    s != ""
  }

  /** Validators.minLength(n) on `s.length`: the empty string passes (required reports it). */
  predicate MinLength(s: string, n: nat) {
    s == "" || JsLength(s) >= n
  }

  /** Validators.maxLength(n) on `s.length`. */
  predicate MaxLength(s: string, n: nat) {
    JsLength(s) <= n
  }

  /** The control value of an integral number. */
  function IntValue(n: int): FormValue {
    Num(n as real)
  }

  /** Number.isInteger: a number with no fractional part. */
  predicate IsInteger(v: FormValue) {
    v.Num? && v.x.Floor as real == v.x
  }

  /** integerValidator: None (null) for an integral number, otherwise `{ integer: true }`. */
  function IntegerValidator(v: FormValue): (r: Option<ValidationError>)
    ensures r.None? ==> v.Num?
  {
    if IsInteger(v) then None else Some(IntegerError)
  }

  // The rules the form attaches to each control.

  /** name and category: required, minLength(3), maxLength(20). */
  predicate LabelValid(s: string) {
    TextRequired(s) && MinLength(s, 3) && MaxLength(s, 20)
  }

  /** price: required, min(0). */
  predicate PriceValid(v: FormValue) {
    Required(v) && Min(v, 0.0)
  }

  /** quantity: required, min(1), integerValidator. */
  predicate QuantityValid(v: FormValue) {
    Required(v) && Min(v, 1.0) && IntegerValidator(v).None?
  }

  predicate FormValid(f: FormState) {
    LabelValid(f.name) && LabelValid(f.category) && PriceValid(f.price) && QuantityValid(f.quantity)
  }

  /** integerValidator accepts every integer, negative ones and zero included. */
  lemma IntegerValidatorAcceptsIntegers(n: int)
    ensures IntegerValidator(IntValue(n)) == None
  {
  }

  /** integerValidator accepts integers only. */
  lemma IntegerValidatorOnlyIntegers(v: FormValue)
    requires IntegerValidator(v) == None
    ensures exists n: int :: v == IntValue(n)
  {
    assert v == IntValue(v.x.Floor);
  }

  /** name and category: valid exactly when `length`, in UTF-16 code units, is between 3 and 20. */
  lemma LabelValidIff(s: string)
    ensures LabelValid(s) <==> 3 <= JsLength(s) <= 20
  {
  }

  /** price: valid exactly when it is a number that is not negative. */
  lemma PriceValidIff(v: FormValue)
    ensures PriceValid(v) <==> v.Num? && v.x >= 0.0
  {
  }

  /** quantity: valid exactly when it is an integer of at least 1. */
  lemma QuantityValidIff(v: FormValue)
    ensures QuantityValid(v) <==> exists n: int :: n >= 1 && v == IntValue(n)
  {
    if QuantityValid(v) {
      var n := v.x.Floor;
      assert n >= 1 && v == IntValue(n);
    }
  }

  /** The form that shows a product's fields. */
  function FormOf(f: ProductFields): (s: FormState)
    ensures s.name == f.name && s.category == f.category
  {
    FormState(f.name, f.category, Num(f.price), IntValue(f.quantity))
  }

  /**
   * The form's value as the service receives it. A valid form holds numbers in
   * its numeric controls, so this loses nothing and meets the product bounds.
   */
  function Payload(f: FormState): (p: ProductFields)
    requires FormValid(f)
    ensures FormOf(p) == f
    ensures ValidFields(p)
  {
    ProductFields(f.name, f.category, f.price.x, f.quantity.x.Floor)
  }

  /** A form is valid exactly when it shows fields that meet the product bounds. */
  lemma FormValidIff(s: FormState)
    ensures FormValid(s) <==> exists f :: ValidFields(f) && s == FormOf(f)
  {
    if FormValid(s) {
      assert ValidFields(Payload(s)) && s == FormOf(Payload(s));
    } else if f :| ValidFields(f) && s == FormOf(f) {
      IntegerValidatorAcceptsIntegers(f.quantity);
    }
  }

  /** The create form starts as ('', '', 0, 0). */
  function InitialCreateForm(): (f: FormState)
    ensures !FormValid(f)
  {
    FormState("", "", Num(0.0), Num(0.0))
  }

  /** The update form starts from the dialog data; a missing field becomes '', '', 0 or 0. */
  function InitialUpdateForm(data: ProductData): (f: FormState)
    ensures data.name.None? ==> f.name == ""
    ensures data.category.None? ==> f.category == ""
    ensures data.price.None? ==> f.price == Num(0.0)
    ensures data.quantity.None? ==> f.quantity == Num(0.0)
    ensures data.name.Some? ==> f.name == data.name.value
    ensures data.category.Some? ==> f.category == data.category.value
    ensures data.price.Some? ==> f.price == Num(data.price.value)
    ensures data.quantity.Some? ==> f.quantity == IntValue(data.quantity.value)
  {
    FormState(
      data.name.GetOr(""),
      data.category.GetOr(""),
      Num(data.price.GetOr(0.0)),
      Num(data.quantity.GetOr(0) as real))
  }

  /**
   * Opening the update form on a row of the list shows that product; if the
   * product meets the bounds, submitting it unchanged sends back its own fields.
   */
  lemma InitialUpdateFormOfProduct(p: Product)
    ensures InitialUpdateForm(DataOf(p)) == FormOf(Rest(p))
    ensures ValidFields(Rest(p)) ==> FormValid(InitialUpdateForm(DataOf(p)))
    ensures ValidFields(Rest(p)) ==> Payload(InitialUpdateForm(DataOf(p))) == Rest(p)
  {
    var f := InitialUpdateForm(DataOf(p));
    if ValidFields(Rest(p)) {
      IntegerValidatorAcceptsIntegers(p.quantity);
      assert FormValid(f);
      FormOfInjective(Payload(f), Rest(p));
    }
  }

  lemma FormOfInjective(a: ProductFields, b: ProductFields)
    requires FormOf(a) == FormOf(b)
    ensures a == b
  {
  }

  /** The validation examples of both dialogs' tests. */
  lemma ValidationVectors()
    ensures !LabelValid("P") && LabelValid("Cat") && !LabelValid("")
    ensures LabelValid("\U{1F600}\U{1F600}")
    ensures !PriceValid(Num(-10.0)) && PriceValid(Num(0.0)) && PriceValid(Num(10.0))
    ensures !QuantityValid(Num(0.0)) && !QuantityValid(Num(-2.0)) && !QuantityValid(Num(3.5))
    ensures QuantityValid(Num(4.0))
    ensures IntegerValidator(Num(5.0)).None? && IntegerValidator(Num(0.0)).None? && IntegerValidator(Num(-3.0)).None?
    ensures IntegerValidator(Num(5.5)).Some? && IntegerValidator(Str("5")).Some?
    ensures IntegerValidator(Str("abc")).Some? && IntegerValidator(Null).Some? && IntegerValidator(Undefined).Some?
    ensures InitialUpdateForm(ProductData(1, Some("Partial Product"), None, None, None))
            == FormState("Partial Product", "", Num(0.0), Num(0.0))
  {
    IntegerValidatorAcceptsIntegers(4);
    IntegerValidatorAcceptsIntegers(5);
    IntegerValidatorAcceptsIntegers(-3);
  }
}
