/**
 * The voucher-creation schema (backend/schema.py:3-7), read as marshmallow
 * applies it on `load`: a field error map, one message per failing field, or
 * the loaded voucher when there is none. Unknown keys are errors
 * (marshmallow's default `RAISE`).
 */
module VoucherSchema {
  import opened Common
  import opened Json

  datatype Voucher = Voucher(code: string, title: Option<string>, discountType: string, discountValue: real)

  const MissingMsg := "Missing data for required field."
  const NullMsg := "Field may not be null."
  const NotStringMsg := "Not a valid string."
  const NotNumberMsg := "Not a valid number."
  const OneOfMsg := "Must be one of: flat, percentage."
  const RangeMsg := "Must be greater than or equal to 2."
  const UnknownMsg := "Unknown field."
  const InputTypeMsg := "Invalid input type."

  const Declared: set<string> := {"code", "title", "discount_type", "discount_value"}

  /** The fate of one declared field. */
  datatype Field<T> = Absent | Loaded(value: T) | Failed(message: string)

  /** `fields.Str(required=…)`: a string, or an error; `None` is refused. */
  function StrField(d: Object, key: string, required: bool): (f: Field<string>)
    ensures f.Loaded? <==> key in d && d[key].VStr?
    ensures f.Absent? <==> key !in d && !required
  {
    if key !in d then (if required then Failed(MissingMsg) else Absent)
    else match d[key]
      case VNull => Failed(NullMsg)
      case VStr(s) => Loaded(s)
      case _ => Failed(NotStringMsg)
  }

  /** `validate.OneOf(["flat", "percentage"])` after the string check. */
  function DiscountTypeField(d: Object): (f: Field<string>)
    ensures f.Loaded? <==> "discount_type" in d && d["discount_type"] in {VStr("flat"), VStr("percentage")}
  {
    match StrField(d, "discount_type", true)
    case Loaded(s) => if s == "flat" || s == "percentage" then Loaded(s) else Failed(OneOfMsg)
    case other => other
  }

  /**
   * `fields.Float(required=True, validate=validate.Range(min=2))`: booleans are
   * refused outright, other values go through `float(v)`, and the bound is inclusive.
   */
  function DiscountValueField(d: Object, parse: NumberParsers): (f: Field<real>)
    ensures f.Loaded? ==> f.value >= 2.0
    ensures !f.Absent?
  {
    if "discount_value" !in d then Failed(MissingMsg)
    else
      var v := d["discount_value"];
      if v.VNull? then Failed(NullMsg)
      else if v.VBool? then Failed(NotNumberMsg)
      else match PyFloat(v, parse)
        case Converted(x) => if x >= 2.0 then Loaded(x) else Failed(RangeMsg)
        case _ => Failed(NotNumberMsg)
  }

  function FieldErrors<T>(key: string, f: Field<T>): map<string, string>
  {
    if f.Failed? then map[key := f.message] else map[]
  }

  /** "Unknown field." for every key the schema does not declare. */
  function UnknownErrors(d: Object): (e: map<string, string>)
    ensures e.Keys == d.Keys - Declared
  {
    map k | k in d.Keys && k !in Declared :: UnknownMsg
  }

  function AllErrors(d: Object, parse: NumberParsers): map<string, string>
  {
    UnknownErrors(d)
    + FieldErrors("code", StrField(d, "code", true))
    + FieldErrors("title", StrField(d, "title", false))
    + FieldErrors("discount_type", DiscountTypeField(d))
    + FieldErrors("discount_value", DiscountValueField(d, parse))
  }

  /** `VoucherCreateSchema().load(input)`. */
  function Load(input: Value, parse: NumberParsers): Result<Voucher, map<string, string>>
  {
    if !input.VObj? then Err(map["_schema" := InputTypeMsg])
    else
      var d := input.fields;
      var errors := AllErrors(d, parse);
      if errors != map[] then Err(errors)
      else
        var title := StrField(d, "title", false);
        Ok(Voucher(StrField(d, "code", true).value,
                   if title.Loaded? then Some(title.value) else None,
                   DiscountTypeField(d).value,
                   DiscountValueField(d, parse).value))
  }

  /** What the schema promises of every voucher it lets through. */
  predicate WellFormed(v: Voucher)
  {
    (v.discountType == "flat" || v.discountType == "percentage") && v.discountValue >= 2.0
  }

  /** The JSON object a client would send for `v`. */
  function Dump(v: Voucher): Object
  {
    map["code" := VStr(v.code), "discount_type" := VStr(v.discountType), "discount_value" := VFloat(v.discountValue)]
    + (if v.title.Some? then map["title" := VStr(v.title.value)] else map[])
  }

  /** Everything `Load` accepts satisfies the declared constraints. */
  lemma LoadedIsWellFormed(input: Value, parse: NumberParsers)
    requires Load(input, parse).Ok?
    ensures WellFormed(Load(input, parse).value)
  {
    var d := input.fields;
    assert "discount_type" !in AllErrors(d, parse);
    assert "discount_value" !in AllErrors(d, parse);
  }

  /** Loading the object written for a well-formed voucher gives that voucher back. */
  lemma LoadDumpRoundTrip(v: Voucher, parse: NumberParsers)
    requires WellFormed(v)
    ensures Load(VObj(Dump(v)), parse) == Ok(v)
  {
    var d := Dump(v);
    assert d.Keys <= Declared;
    assert UnknownErrors(d) == map[];
    assert AllErrors(d, parse) == map[];
  }

  /** The lower bound is inclusive: 2 is accepted, anything below it is refused with the range message. */
  lemma DiscountValueBoundary(code: string, x: real, parse: NumberParsers)
    ensures var d := map["code" := VStr(code), "discount_type" := VStr("flat"), "discount_value" := VFloat(x)];
      && (x >= 2.0 ==> Load(VObj(d), parse).Ok?)
      && (x < 2.0 ==> Load(VObj(d), parse) == Err(map["discount_value" := RangeMsg]))
  {
    var d := map["code" := VStr(code), "discount_type" := VStr("flat"), "discount_value" := VFloat(x)];
    assert UnknownErrors(d) == map[];
    assert FieldErrors("code", StrField(d, "code", true)) == map[];
    assert FieldErrors("title", StrField(d, "title", false)) == map[];
    assert FieldErrors("discount_type", DiscountTypeField(d)) == map[];
    if x < 2.0 {
      assert AllErrors(d, parse) == map["discount_value" := RangeMsg];
    }
  }

  /** A boolean discount is not a number, although Python's `float(True)` would read 1.0. */
  lemma BooleanDiscountRefused(d: Object, b: bool, parse: NumberParsers)
    ensures Load(VObj(d["discount_value" := VBool(b)]), parse).Err?
    ensures Load(VObj(d["discount_value" := VBool(b)]), parse).error["discount_value"] == NotNumberMsg
  {
    var d' := d["discount_value" := VBool(b)];
    assert AllErrors(d', parse)["discount_value"] == NotNumberMsg;
  }

  /** A missing code is refused; a missing title is not. */
  lemma CodeRequiredTitleOptional(v: Voucher, parse: NumberParsers)
    requires WellFormed(v) && v.title == None
    ensures Load(VObj(Dump(v) - {"code"}), parse).Err?
    ensures Load(VObj(Dump(v) - {"code"}), parse).error == map["code" := MissingMsg]
  {
    var d := Dump(v) - {"code"};
    assert UnknownErrors(d) == map[];
  }

  /** An extra key fails the whole load. */
  lemma UnknownKeyRefused(v: Voucher, key: string, x: Value, parse: NumberParsers)
    requires WellFormed(v) && key !in Declared
    ensures Load(VObj(Dump(v)[key := x]), parse) == Err(map[key := UnknownMsg])
  {
    var d := Dump(v)[key := x];
    assert d.Keys - Declared == {key};
    assert UnknownErrors(d) == map[key := UnknownMsg];
    assert StrField(d, "code", true).Loaded? && StrField(d, "title", false) == StrField(Dump(v), "title", false);
    assert DiscountTypeField(d).Loaded? && DiscountValueField(d, parse).Loaded?;
    assert AllErrors(d, parse) == map[key := UnknownMsg];
  }
}
