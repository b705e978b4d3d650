/**
 * validator_data.py: the rule configurations as plain records (`OneOf0`,
 * `Number0`, `String0`). Its descriptor is the one modelled in Binding.
 */
module ValidatorData {
  import opened Values

  /** `OneOf0`: the options kept as a set. */
  datatype OneOf0 = OneOf0(options: set<Value>)

  /** `Number0`, with its constructor's defaults (`None` is `None`). */
  datatype Number0 = Number0(minvalue: Option<int> := Some(0), maxvalue: Option<int> := None)

  /** `String0`: sizes and predicate as given, with no check that
      `minsize <= maxsize`. */
  datatype String0 = String0(minsize: int, maxsize: int, pred: Predicate)

  /** `OneOf0(*options)`: `set(options)`. */
  function NewOneOf0(options: seq<Value>): (c: OneOf0)
    ensures forall x :: x in c.options <==> x in options
  {
    OneOf0(set x | x in options)
  }

  /** Duplicates and order of the given options do not matter. */
  lemma NewOneOf0IgnoresOrderAndRepeats(a: seq<Value>, b: seq<Value>)
    requires forall x :: x in a <==> x in b
    ensures NewOneOf0(a) == NewOneOf0(b)
  {
  }

  /** `Number0()` has `minvalue=0` and `maxvalue=None`. */
  lemma Number0Defaults(lo: int)
    ensures Number0() == Number0(Some(0), None)
    ensures Number0(Some(lo)) == Number0(Some(lo), None)
  {
  }
}
