/**
 * validate_error.py: an error taxonomy whose errors carry their
 * context as plain constructor arguments.
 */
module ValidateErrors {
  import opened Values

  /** One variant per error class, named after it. The number errors'
      bounds default to `None`, as in `NumberError.__init__`. */
  datatype Error =
    | ValidateError(value: Value)
    | OneOfError(value: Value, options: set<Value>)
    | NumberError(value: Value, minvalue: Option<int> := None, maxvalue: Option<int> := None)
    | NumberTypeError(value: Value, minvalue: Option<int> := None, maxvalue: Option<int> := None)
    | NumberLowError(value: Value, minvalue: Option<int> := None, maxvalue: Option<int> := None)
    | NumberHighError(value: Value, minvalue: Option<int> := None, maxvalue: Option<int> := None)
    | StringError(value: Value)
    | StringShortError(value: Value)
    | StringLongError(value: Value)
    | StringPredicateError(value: Value)

  /** `isinstance(e, StringError)`: these classes add no field to `value`. */
  predicate IsStringError(e: Error) {
    e.StringError? || e.StringShortError? || e.StringLongError? || e.StringPredicateError?
  }

  /** Number errors built without bounds have both bounds `None`. */
  lemma NumberBoundsDefaultToNone(v: Value)
    ensures NumberError(v) == NumberError(v, None, None)
    ensures NumberTypeError(v) == NumberTypeError(v, None, None)
    ensures NumberLowError(v) == NumberLowError(v, None, None)
    ensures NumberHighError(v) == NumberHighError(v, None, None)
  {
  }

  /** `str(e)`. Classes without `__str__` show their single argument. */
  function Str(e: Error): (m: Message)
    ensures !m.NoAttribute? && !m.PredicateNotTrue? && m.value == e.value
    ensures e.OneOfError? ==> m == NotInSet(e.value, e.options)
    ensures e.NumberTypeError? ==> m == NotNumeric(e.value)
    ensures e.NumberLowError? ==> m == BelowMin(e.value, e.minvalue)
    ensures e.NumberHighError? ==> m == AboveMax(e.value, e.maxvalue)
    ensures IsStringError(e) || e.ValidateError? || e.NumberError? ==> m == Plain(e.value)
  {
    match e
    case OneOfError(v, options) => NotInSet(v, options)
    case NumberTypeError(v, _, _) => NotNumeric(v)
    case NumberLowError(v, lo, _) => BelowMin(v, lo)
    case NumberHighError(v, _, hi) => AboveMax(v, hi)
    case _ => Plain(e.value)
  }
}
