/**
 * validate.py: a single rule kind (`OneOf` over a set of options) and a
 * one-field `Component`.
 */
module Validate {
  import opened Values
  import opened Binding

  /** `OneOf(*options)`: the options kept as `set(options)`. */
  function OneOf(options: seq<Value>): (allowed: set<Value>)
    ensures forall x :: x in allowed <==> x in options
  {
    set x | x in options
  }

  /** `OneOf.validate`: membership in the set, else ValueError. */
  function CheckOneOf(allowed: set<Value>, v: Value): (r: Outcome)
    ensures r.Pass? <==> v in allowed
    ensures r.Raise? ==> r == Raise(ValueError, NotInSet(v, allowed))
  {
    if v !in allowed then Raise(ValueError, NotInSet(v, allowed)) else Pass
  }

  const KindOptions: set<Value> := OneOf([Str("wood"), Str("metal"), Str("plastic")])

  /** The `Component` class object: its one descriptor. */
  class Component {
    const kind: Field

    ghost predicate Valid()
      reads kind
    {
      kind.privateName == Some("_kind") &&
      forall v :: kind.validate(v) == CheckOneOf(KindOptions, v)
    }

    /** Executing the class body: the descriptor is created and bound to
        `kind`; this copy records nothing on the descriptor itself. */
    constructor ()
      ensures Valid() && fresh(kind) && kind.attrs == map[]
    {
      var k := new Field(v => CheckOneOf(KindOptions, v));
      k.BindName("kind");
      kind := k;
      new;
      assert PrivateKey("kind") == "_kind";
    }

    /** `Component(kind)`. */
    method New(k: Value) returns (obj: Instance?, o: Outcome)
      requires Valid()
      ensures o == CheckOneOf(KindOptions, k)
      ensures obj != null <==> o.Pass?
      ensures obj != null ==> fresh(obj) && obj.dict == map["_kind" := k]
    {
      var inst := new Instance();
      o := kind.Set(inst, k);
      if o.Raise? {
        return null, o;
      }
      obj := inst;
    }
  }

  /** The script's two calls: `Component('wood')` is built and
      `Component('glass')` raises ValueError. */
  lemma ScriptOutcomes()
    ensures CheckOneOf(KindOptions, Str("wood")) == Pass
    ensures CheckOneOf(KindOptions, Str("glass")) == Raise(ValueError, NotInSet(Str("glass"), KindOptions))
  {
  }
}
