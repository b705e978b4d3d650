/**
 * validator_error.py: the error taxonomy built from the configuration
 * records of validator_data.py. Number errors keep the configuration and
 * forward `minvalue`/`maxvalue` to it; string errors copy its fields.
 */
module ValidatorErrors {
  import opened Values
  import opened ValidatorData
  import Validator

  /** One variant per error class, named after it. */
  datatype Error =
    | ValidateError(value: Value)
    | OneOfError(value: Value, options: set<Value>)
    | NumberError(value: Value, data: Number0)
    | NumberTypeError(value: Value, data: Number0)
    | NumberLowError(value: Value, data: Number0)
    | NumberHighError(value: Value, data: Number0)
    | StringError(value: Value, minsize: int, maxsize: int, pred: Predicate)
    | StringShortError(value: Value, minsize: int, maxsize: int, pred: Predicate)
    | StringLongError(value: Value, minsize: int, maxsize: int, pred: Predicate)
    | StringPredicateError(value: Value, minsize: int, maxsize: int, pred: Predicate)

  /** `isinstance(e, NumberError)`. */
  predicate IsNumberError(e: Error) {
    e.NumberError? || e.NumberTypeError? || e.NumberLowError? || e.NumberHighError?
  }

  /** `isinstance(e, StringError)`. */
  predicate IsStringError(e: Error) {
    e.StringError? || e.StringShortError? || e.StringLongError? || e.StringPredicateError?
  }

  /** `type(e).__name__`: each name is its family's prefix, the class's own
      word and the suffix `Error`. */
  function TypeName(e: Error): (r: string)
    ensures |r| >= 10 && r[|r|-5..] == "Error"
    ensures IsNumberError(e) <==> "Number" <= r
    ensures IsStringError(e) <==> "String" <= r
  {
    match e
    case ValidateError(_) => assert "Validate"[0] == 'V'; "Validate" + "Error"
    case OneOfError(_, _) => assert "OneOf"[0] == 'O'; "OneOf" + "Error"
    case NumberError(_, _) => assert "Number"[0] == 'N'; "Number" + "Error"
    case NumberTypeError(_, _) => assert "Number"[0] == 'N'; "Number" + "Type" + "Error"
    case NumberLowError(_, _) => assert "Number"[0] == 'N'; "Number" + "Low" + "Error"
    case NumberHighError(_, _) => assert "Number"[0] == 'N'; "Number" + "High" + "Error"
    case StringError(_, _, _, _) => assert "String"[0] == 'S'; "String" + "Error"
    case StringShortError(_, _, _, _) => assert "String"[0] == 'S'; "String" + "Short" + "Error"
    case StringLongError(_, _, _, _) => assert "String"[0] == 'S'; "String" + "Long" + "Error"
    case StringPredicateError(_, _, _, _) => assert "String"[0] == 'S'; "String" + "Predicate" + "Error"
  }

  /** `OneOfError(value, data)`: the options are taken from the configuration. */
  function NewOneOfError(value: Value, data: OneOf0): (e: Error)
    ensures e.OneOfError? && e.value == value && e.options == data.options
  {
    OneOfError(value, data.options)
  }

  /** Which `StringError` class to build. */
  datatype StringKind = AnyString | Short | Long | PredicateFails

  /** `StringError.__init__` and its subclasses: sizes and predicate are
      copied from the configuration when the error is built. */
  function NewStringError(kind: StringKind, value: Value, data: String0): (e: Error)
    ensures IsStringError(e) && e.value == value
    ensures e.minsize == data.minsize && e.maxsize == data.maxsize && e.pred == data.pred
    ensures kind == Short <==> e.StringShortError?
    ensures kind == Long <==> e.StringLongError?
    ensures kind == PredicateFails <==> e.StringPredicateError?
  {
    match kind
    case AnyString => StringError(value, data.minsize, data.maxsize, data.pred)
    case Short => StringShortError(value, data.minsize, data.maxsize, data.pred)
    case Long => StringLongError(value, data.minsize, data.maxsize, data.pred)
    case PredicateFails => StringPredicateError(value, data.minsize, data.maxsize, data.pred)
  }

  /** `NumberError.__getattr__`: `minvalue` and `maxvalue` are read from the
      configuration the error refers to; any other name raises AttributeError. */
  function GetAttr(e: Error, name: string): (r: Result<Option<int>>)
    requires IsNumberError(e)
    ensures r.Ok? <==> name == "minvalue" || name == "maxvalue"
    ensures r.Ok? ==> r.value == if name == "minvalue" then e.data.minvalue else e.data.maxvalue
    ensures r.Err? ==> r == Err(AttributeError, NoAttribute(TypeName(e), name))
  {
    if name == "minvalue" then Ok(e.data.minvalue)
    else if name == "maxvalue" then Ok(e.data.maxvalue)
    else Err(AttributeError, NoAttribute(TypeName(e), name))
  }

  /** A number error built from a configuration reports that
      configuration's bounds. */
  lemma ForwardedBoundsMatchConfig(value: Value, data: Number0)
    ensures forall e :: e in {NumberTypeError(value, data), NumberLowError(value, data), NumberHighError(value, data)} ==>
              GetAttr(e, "minvalue") == Ok(data.minvalue) && GetAttr(e, "maxvalue") == Ok(data.maxvalue)
  {
  }

  /** `str(e)`. Classes without `__str__` show their single argument. */
  function Str(e: Error): (m: Message)
    ensures !m.NoAttribute? && !m.PredicateNotTrue? && m.value == e.value
    ensures e.OneOfError? ==> m == NotInSet(e.value, e.options)
    ensures e.NumberTypeError? ==> m == NotNumeric(e.value)
    ensures e.NumberLowError? ==> m.BelowMin? && GetAttr(e, "minvalue") == Ok(m.minvalue)
    ensures e.NumberHighError? ==> m.AboveMax? && GetAttr(e, "maxvalue") == Ok(m.maxvalue)
    ensures e.StringShortError? ==> m == TooShort(e.value, e.minsize)
    ensures e.StringLongError? ==> m == TooLong(e.value, e.maxsize)
    ensures e.StringPredicateError? ==> m == PredicateFalse(e.pred.name, e.value)
    ensures e.ValidateError? || e.NumberError? || e.StringError? ==> m == Plain(e.value)
  {
    match e
    case OneOfError(v, options) => NotInSet(v, options)
    case NumberTypeError(v, _) => NotNumeric(v)
    case NumberLowError(v, data) => BelowMin(v, data.minvalue)
    case NumberHighError(v, data) => AboveMax(v, data.maxvalue)
    case StringShortError(v, lo, _, _) => TooShort(v, lo)
    case StringLongError(v, _, hi, _) => TooLong(v, hi)
    case StringPredicateError(v, _, _, p) => PredicateFalse(p.name, v)
    case _ => Plain(e.value)
  }

  /** The messages validator.py raises from `Number.validate` are those of
      the number errors built from the same value and configuration. */
  lemma NumberMessagesMatchErrors(minvalue: Option<int>, maxvalue: Option<int>, v: Value)
    ensures var o := Validator.CheckNumber(minvalue, maxvalue, v);
            var data := Number0(minvalue, maxvalue);
            (o.Raise? && o.msg.NotNumeric? ==> o.msg == Str(NumberTypeError(v, data))) &&
            (o.Raise? && o.msg.BelowMin? ==> o.msg == Str(NumberLowError(v, data))) &&
            (o.Raise? && o.msg.AboveMax? ==> o.msg == Str(NumberHighError(v, data)))
  {
  }

  /** Likewise for the length checks of `String.validate`; its predicate
      message differs (it shows `str()` of the predicate and of the value). */
  lemma StringMessagesMatchErrors(minsize: int, maxsize: int, pred: Predicate, v: Value)
    ensures var o := Validator.CheckString(minsize, maxsize, pred, v);
            var data := String0(minsize, maxsize, pred);
            (o.Raise? && o.msg.TooShort? ==> o.msg == Str(NewStringError(Short, v, data))) &&
            (o.Raise? && o.msg.TooLong? ==> o.msg == Str(NewStringError(Long, v, data)))
  {
  }
}
