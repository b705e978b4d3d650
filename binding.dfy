/**
 * The field-binding descriptor (`Validator.__set_name__`, `__get__`,
 * `__set__`). The repository carries three copies of it. Those of
 * validator.py and validator_data.py keep the private key in the descriptor
 * attribute `private_name` and also record it on the descriptor, mapped to
 * the public name. That of validate.py keeps the key in the attribute `name`
 * and records nothing else. `privateName` below stands for either attribute.
 */
module Binding {
  import opened Values

  /** The private storage key of public field `name`. */
  function PrivateKey(name: string): (k: string)
    ensures |k| == |name| + 1 && k[0] == '_' && k[1..] == name
  {
    "_" + name
  }

  lemma PrivateKeyInjective(f: string, g: string)
    requires PrivateKey(f) == PrivateKey(g)
    ensures f == g
  {
  }

  /** A private key never names a public field (one not starting with `_`). */
  lemma PrivateKeyNotPublic(f: string, g: string)
    requires g == [] || g[0] != '_'
    ensures PrivateKey(f) != g
  {
  }

  /** `getattr(obj, key)` for an instance dictionary `dict`; `key` is `None`
      while the descriptor has not been bound to a field yet. */
  function Read(key: Option<string>, dict: map<string, Value>): (r: Result<Value>)
    ensures r.Ok? <==> key.Some? && key.value in dict
    ensures r.Ok? ==> r.value == dict[key.value]
    ensures r.Err? ==> r.exc == AttributeError
  {
    match key
    case None => Err(AttributeError, NoAttribute("Validator", "private_name"))
    case Some(k) => if k in dict then Ok(dict[k]) else Err(AttributeError, NoAttribute("object", k))
  }

  /** What `__set__` raises, given the verdict of `validate`: the verdict
      first, then the lookup of the private name. */
  function SetOutcome(verdict: Outcome, key: Option<string>): (o: Outcome)
    ensures o.Pass? <==> verdict.Pass? && key.Some?
    ensures verdict.Raise? ==> o == verdict
  {
    if verdict.Raise? then verdict
    else if key.None? then Raise(AttributeError, NoAttribute("Validator", "private_name"))
    else Pass
  }

  /** The instance dictionary after `__set__`: the value is stored under the
      private key exactly when the assignment passed. */
  function Stored(verdict: Outcome, key: Option<string>, dict: map<string, Value>, v: Value): (d: map<string, Value>)
    ensures SetOutcome(verdict, key).Pass? ==> d == dict[key.value := v]
    ensures SetOutcome(verdict, key).Raise? ==> d == dict
  {
    if SetOutcome(verdict, key).Pass? then dict[key.value := v] else dict
  }

  /** A successful `__set__` is read back by `__get__`. */
  lemma ReadAfterSet(verdict: Outcome, key: Option<string>, dict: map<string, Value>, v: Value)
    requires SetOutcome(verdict, key).Pass?
    ensures Read(key, Stored(verdict, key, dict, v)) == Ok(v)
  {
  }

  /** `__set__` on one field leaves the reads of every other field as they were. */
  lemma SetLeavesOtherFields(verdict: Outcome, key: Option<string>, other: Option<string>,
                             dict: map<string, Value>, v: Value)
    requires other != key
    ensures Read(other, Stored(verdict, key, dict, v)) == Read(other, dict)
  {
  }

  /** An instance of the owning record: its attribute dictionary. */
  class Instance {
    var dict: map<string, Value>

    constructor ()
      ensures dict == map[]
    {
      dict := map[];
    }
  }

  /** One rule bound to one field: the rule's `validate` and the state that
      `__set_name__` gives the descriptor. */
  class Field {
    const validate: Value -> Outcome
    var privateName: Option<string>
    /** Attributes that `__set_name__` stores on the descriptor itself. */
    var attrs: map<string, string>

    constructor (validate: Value -> Outcome)
      ensures this.validate == validate
      ensures privateName == None && attrs == map[]
    {
      this.validate := validate;
      privateName := None;
      attrs := map[];
    }

    /** `__set_name__` of validate.py: only derives the private key (kept
        there in the attribute `name`). */
    method BindName(name: string)
      modifies this
      ensures privateName == Some(PrivateKey(name))
      ensures attrs == old(attrs)
    {
      privateName := Some(PrivateKey(name));
    }

    /** `__set_name__` of validator.py and validator_data.py: derives the
        private key and also records it on the descriptor, mapped to the
        public name. */
    method SetName(name: string)
      modifies this
      ensures privateName == Some(PrivateKey(name))
      ensures attrs == old(attrs)[PrivateKey(name) := name]
    {
      BindName(name);
      attrs := attrs[PrivateKey(name) := name];
    }

    /** `__get__`: the value stored under the private key. */
    method Get(obj: Instance) returns (r: Result<Value>)
      ensures r == Read(privateName, obj.dict)
    {
      if privateName.None? {
        return Err(AttributeError, NoAttribute("Validator", "private_name"));
      }
      var k := privateName.value;
      if k in obj.dict {
        r := Ok(obj.dict[k]);
      } else {
        r := Err(AttributeError, NoAttribute("object", k));
      }
    }

    /** `__set__`: validate first, store only if validation passed. */
    method Set(obj: Instance, v: Value) returns (o: Outcome)
      modifies obj
      ensures o == SetOutcome(validate(v), privateName)
      ensures obj.dict == Stored(validate(v), privateName, old(obj.dict), v)
    {
      o := validate(v);
      if o.Raise? {
        return;
      }
      if privateName.None? {
        return Raise(AttributeError, NoAttribute("Validator", "private_name"));
      }
      obj.dict := obj.dict[privateName.value := v];
    }
  }
}
