/**
 * validator.py: the three rule kinds and their `validate`, and the
 * `Component` record whose fields are bound to them.
 */
module Validator {
  import opened Values
  import opened Binding

  /** A rule and its configuration. `Number`'s defaults are those of its
      Python constructor. */
  datatype Rule =
    | OneOf(options: seq<Value>)
    | Number(minvalue: Option<int> := Some(0), maxvalue: Option<int> := None)
    | String(minsize: int, maxsize: int, pred: Predicate)

  /** `OneOf.validate`: membership in the options tuple. */
  function CheckOneOf(options: seq<Value>, v: Value): (r: Outcome)
    ensures r.Pass? <==> v in options
    ensures r.Raise? ==> r == Raise(ValueError, NotOneOf(v, options))
  {
    if v !in options then Raise(ValueError, NotOneOf(v, options)) else Pass
  }

  /** `Number.validate` as written: type check, then `value < minvalue`,
      then `maxvalue < value`. Comparing a number with a `None` bound raises
      `TypeError`, so a missing bound rejects every number that reaches it. */
  function CheckNumber(minvalue: Option<int>, maxvalue: Option<int>, v: Value): (r: Outcome)
    ensures r.Pass? <==> v.Int? && minvalue.Some? && maxvalue.Some? &&
                         minvalue.value <= v.n <= maxvalue.value
    ensures !v.Int? ==> r == Raise(TypeError, NotNumeric(v))
    ensures v.Int? && minvalue.Some? && v.n < minvalue.value ==> r == Raise(ValueError, BelowMin(v, minvalue))
    ensures v.Int? && minvalue.Some? && maxvalue.Some? && minvalue.value <= v.n && maxvalue.value < v.n ==>
              r == Raise(ValueError, AboveMax(v, maxvalue))
    ensures v.Int? && (minvalue.None? || (minvalue.value <= v.n && maxvalue.None?)) ==>
              r == Raise(TypeError, Unorderable(v))
  {
    if !v.Int? then Raise(TypeError, NotNumeric(v))
    else if minvalue.None? then Raise(TypeError, Unorderable(v))
    else if v.n < minvalue.value then Raise(ValueError, BelowMin(v, minvalue))
    else if maxvalue.None? then Raise(TypeError, Unorderable(v))
    else if maxvalue.value < v.n then Raise(ValueError, AboveMax(v, maxvalue))
    else Pass
  }

  /** `Number.validate` as evidently intended: a `None` bound means no bound
      on that side. */
  function CheckNumberUnbounded(minvalue: Option<int>, maxvalue: Option<int>, v: Value): (r: Outcome)
    ensures r.Pass? <==> v.Int? && (minvalue.None? || minvalue.value <= v.n) &&
                                   (maxvalue.None? || v.n <= maxvalue.value)
    ensures !v.Int? ==> r == Raise(TypeError, NotNumeric(v))
    ensures v.Int? && minvalue.Some? && v.n < minvalue.value ==> r == Raise(ValueError, BelowMin(v, minvalue))
    ensures v.Int? && (minvalue.None? || minvalue.value <= v.n) && maxvalue.Some? && maxvalue.value < v.n ==>
              r == Raise(ValueError, AboveMax(v, maxvalue))
  {
    if !v.Int? then Raise(TypeError, NotNumeric(v))
    else if minvalue.Some? && v.n < minvalue.value then Raise(ValueError, BelowMin(v, minvalue))
    else if maxvalue.Some? && maxvalue.value < v.n then Raise(ValueError, AboveMax(v, maxvalue))
    else Pass
  }

  /** With both bounds configured the two readings agree. */
  lemma NumberReadingsAgree(minvalue: Option<int>, maxvalue: Option<int>, v: Value)
    requires minvalue.Some? && maxvalue.Some?
    ensures CheckNumber(minvalue, maxvalue, v) == CheckNumberUnbounded(minvalue, maxvalue, v)
  {
  }

  /** `Number()` with its default bounds accepts no value at all. */
  lemma DefaultNumberAcceptsNothing(v: Value)
    ensures Number().minvalue == Some(0) && Number().maxvalue == None
    ensures CheckNumber(Number().minvalue, Number().maxvalue, v).Raise?
    ensures v.Int? && v.n >= 0 ==> CheckNumber(Number().minvalue, Number().maxvalue, v) == Raise(TypeError, Unorderable(v))
  {
  }

  /** The smallest witness: `Number().validate(5)` raises TypeError although
      5 is within the default range [0, unbounded). */
  lemma DefaultNumberRejectsFive()
    ensures CheckNumber(Some(0), None, Int(5)) == Raise(TypeError, Unorderable(Int(5)))
    ensures CheckNumberUnbounded(Some(0), None, Int(5)) == Pass
  {
  }

  /** `String.validate`: length lower bound, length upper bound, predicate;
      the first failing check is the one reported. A value without a length
      makes `len()` raise TypeError. */
  function CheckString(minsize: int, maxsize: int, pred: Predicate, v: Value): (r: Outcome)
    ensures r.Pass? <==> v.Str? && minsize <= |v.s| <= maxsize && pred.test(v.s)
    ensures !v.Str? ==> r == Raise(TypeError, NoLength(v))
    ensures v.Str? && |v.s| < minsize ==> r == Raise(ValueError, TooShort(v, minsize))
    ensures v.Str? && minsize <= |v.s| && maxsize < |v.s| ==> r == Raise(ValueError, TooLong(v, maxsize))
    ensures v.Str? && minsize <= |v.s| <= maxsize && !pred.test(v.s) ==>
              r == Raise(ValueError, PredicateNotTrue(pred.text, v.s))
  {
    if !v.Str? then Raise(TypeError, NoLength(v))
    else if |v.s| < minsize then Raise(ValueError, TooShort(v, minsize))
    else if |v.s| > maxsize then Raise(ValueError, TooLong(v, maxsize))
    else if !pred.test(v.s) then Raise(ValueError, PredicateNotTrue(pred.text, v.s))
    else Pass
  }

  /** With `minsize > maxsize` (never rejected at construction) no value passes. */
  lemma InvertedSizesRejectAll(minsize: int, maxsize: int, pred: Predicate, v: Value)
    requires maxsize < minsize
    ensures CheckString(minsize, maxsize, pred, v).Raise?
  {
  }

  /** A string that is both too short and fails the predicate is reported as too short. */
  lemma LengthBeforePredicate(minsize: int, maxsize: int, pred: Predicate, s: string)
    requires |s| < minsize && !pred.test(s)
    ensures CheckString(minsize, maxsize, pred, Str(s)) == Raise(ValueError, TooShort(Str(s), minsize))
  {
  }

  /** `validate` of each rule kind, as written. */
  function Validate(rule: Rule, v: Value): (r: Outcome)
    ensures r.Raise? ==> r.exc == TypeError || r.exc == ValueError
    ensures r.Pass? <==> match rule
      case OneOf(options) => v in options
      case Number(lo, hi) => v.Int? && lo.Some? && hi.Some? && lo.value <= v.n <= hi.value
      case String(lo, hi, p) => v.Str? && lo <= |v.s| <= hi && p.test(v.s)
  {
    match rule
    case OneOf(options) => CheckOneOf(options, v)
    case Number(lo, hi) => CheckNumber(lo, hi, v)
    case String(lo, hi, p) => CheckString(lo, hi, p, v)
  }

  /** `validate` with the intended reading of `None` bounds. */
  function ValidateIntended(rule: Rule, v: Value): (r: Outcome)
    ensures rule.Number? && rule.minvalue.Some? && rule.maxvalue.Some? ==> r == Validate(rule, v)
    ensures !rule.Number? ==> r == Validate(rule, v)
  {
    match rule
    case Number(lo, hi) => CheckNumberUnbounded(lo, hi, v)
    case _ => Validate(rule, v)
  }

  // The class attributes of `Component`.
  const KindOptions: seq<Value> := [Str("wood"), Str("metal"), Str("plastic")]
  const KindRule: Rule := OneOf(KindOptions)
  const QuantityRule: Rule := Number(Some(3), Some(25))
  const NameRule: Rule := String(3, 10, Predicate("isupper", "<method 'isupper' of 'str' objects>", IsUpper))

  /** On `Component`'s three rules the intended and the written readings agree. */
  lemma ComponentRulesAsWritten(v: Value)
    ensures ValidateIntended(KindRule, v) == Validate(KindRule, v)
    ensures ValidateIntended(QuantityRule, v) == Validate(QuantityRule, v)
    ensures ValidateIntended(NameRule, v) == Validate(NameRule, v)
  {
  }

  /** `Component.__init__` as seen by its caller: the three assignments in
      declared order, the first failing one aborting construction. */
  function Construct(kind: Value, quantity: Value, name: Value): (r: Outcome)
    ensures r.Pass? <==> Validate(KindRule, kind).Pass? && Validate(QuantityRule, quantity).Pass? &&
                         Validate(NameRule, name).Pass?
    ensures Validate(KindRule, kind).Raise? ==> r == Validate(KindRule, kind)
    ensures Validate(KindRule, kind).Pass? && Validate(QuantityRule, quantity).Raise? ==>
              r == Validate(QuantityRule, quantity)
    ensures r.Raise? ==> r in {Validate(KindRule, kind), Validate(QuantityRule, quantity), Validate(NameRule, name)}
  {
    var k := Validate(KindRule, kind);
    if k.Raise? then k
    else
      var q := Validate(QuantityRule, quantity);
      if q.Raise? then q
      else Validate(NameRule, name)
  }

  /** `", ".join(parts)`. */
  function Join(sep: string, parts: seq<string>): (r: string)
    ensures parts == [] ==> r == []
    ensures |parts| == 1 ==> r == parts[0]
  {
    if parts == [] then []
    else if |parts| == 1 then parts[0]
    else parts[0] + sep + Join(sep, parts[1..])
  }

  /** `s` does not contain the separator ", ". */
  predicate NoSeparator(s: string) {
    forall i :: 0 <= i < |s| - 1 ==> !(s[i] == ',' && s[i + 1] == ' ')
  }

  /** Cuts a string at every ", " (the inverse of joining with ", "). */
  function Split(s: string): (r: seq<string>)
    ensures |r| > 0
  {
    if |s| < 2 then [s]
    else if s[0] == ',' && s[1] == ' ' then [""] + Split(s[2..])
    else
      var rest := Split(s[1..]);
      [[s[0]] + rest[0]] + rest[1..]
  }

  lemma {:induction false} SplitLast(p: string)
    requires NoSeparator(p)
    ensures Split(p) == [p]
  {
    if |p| >= 2 {
      assert NoSeparator(p[1..]);
      SplitLast(p[1..]);
      assert [p[0]] + p[1..] == p;
    }
  }

  lemma {:induction false} SplitFirst(p: string, t: string)
    requires NoSeparator(p)
    ensures Split(p + ", " + t) == [p] + Split(t)
  {
    var s := p + ", " + t;
    if p == [] {
      assert s[2..] == t;
    } else {
      assert NoSeparator(p[1..]);
      assert s[1..] == p[1..] + ", " + t;
      SplitFirst(p[1..], t);
      assert !(s[0] == ',' && s[1] == ' ');
      assert [p[0]] + p[1..] == p;
    }
  }

  /** Joining parts free of the separator and splitting again gives the parts back. */
  lemma {:induction false} SplitJoin(parts: seq<string>)
    requires |parts| > 0
    requires forall i :: 0 <= i < |parts| ==> NoSeparator(parts[i])
    ensures Split(Join(", ", parts)) == parts
  {
    if |parts| == 1 {
      SplitLast(parts[0]);
    } else {
      SplitJoin(parts[1..]);
      SplitFirst(parts[0], Join(", ", parts[1..]));
    }
  }

  /** `Component.__str__` on the three stored values. */
  function Render(kind: Value, quantity: Value, name: Value): (r: string)
    ensures |r| == |PyStr(kind)| + |PyStr(quantity)| + |PyStr(name)| + 4
    ensures r[..|PyStr(kind)|] == PyStr(kind) && r[|PyStr(kind)|..|PyStr(kind)| + 2] == ", "
    ensures r[|r| - |PyStr(name)|..] == PyStr(name)
    ensures r == PyStr(kind) + ", " + PyStr(quantity) + ", " + PyStr(name)
  {
    var parts := [PyStr(kind), PyStr(quantity), PyStr(name)];
    assert parts[1..] == [PyStr(quantity), PyStr(name)];
    assert parts[1..][1..] == [PyStr(name)];
    assert Join(", ", parts[1..]) == PyStr(quantity) + ", " + PyStr(name);
    assert Join(", ", parts) == PyStr(kind) + ", " + PyStr(quantity) + ", " + PyStr(name);
    Join(", ", parts)
  }

  /** The text of a Component gives its fields back: the kind and the name
      when they contain no ", ", and an integer quantity by its digits. */
  lemma RenderRoundTrip(kind: string, quantity: int, name: string)
    requires NoSeparator(kind) && NoSeparator(name)
    ensures var parts := Split(Render(Str(kind), Int(quantity), Str(name)));
      |parts| == 3 && parts[0] == kind && parts[2] == name &&
      |parts[1]| > 0 && (parts[1][0] == '-' || IsDigit(parts[1][0])) &&
      (forall k :: 0 < k < |parts[1]| ==> IsDigit(parts[1][k])) &&
      ParseInt(parts[1]) == quantity
  {
    var q := ShowInt(quantity);
    ShowIntRoundTrip(quantity);
    assert NoSeparator(q);
    SplitJoin([kind, q, name]);
  }

  /** `str()` of a Component instance whose dictionary is `d`: each field is
      read through its descriptor, in the order kind, quantity, name. */
  function Text(d: map<string, Value>): (r: Result<string>)
    ensures r.Ok? <==> "_kind" in d && "_quantity" in d && "_name" in d
    ensures r.Ok? ==> r.value == Render(d["_kind"], d["_quantity"], d["_name"])
  {
    if "_kind" !in d then Err(AttributeError, NoAttribute("object", "_kind"))
    else if "_quantity" !in d then Err(AttributeError, NoAttribute("object", "_quantity"))
    else if "_name" !in d then Err(AttributeError, NoAttribute("object", "_name"))
    else Ok(Render(d["_kind"], d["_quantity"], d["_name"]))
  }

  /** The `Component` class object: the three descriptors its body declares. */
  class Component {
    const kind: Field
    const quantity: Field
    const name: Field

    ghost predicate Valid()
      reads kind, quantity, name
    {
      kind.privateName == Some("_kind") &&
      quantity.privateName == Some("_quantity") &&
      name.privateName == Some("_name") &&
      (forall v :: kind.validate(v) == Validate(KindRule, v)) &&
      (forall v :: quantity.validate(v) == Validate(QuantityRule, v)) &&
      (forall v :: name.validate(v) == Validate(NameRule, v))
    }

    /** Executing the class body: each descriptor is created and then bound
        to its field name by `__set_name__`. */
    constructor ()
      ensures Valid()
      ensures fresh(kind) && fresh(quantity) && fresh(name)
      ensures kind.attrs == map["_kind" := "kind"]
      ensures quantity.attrs == map["_quantity" := "quantity"]
      ensures name.attrs == map["_name" := "name"]
    {
      var k := new Field(v => Validate(KindRule, v));
      var q := new Field(v => Validate(QuantityRule, v));
      var n := new Field(v => Validate(NameRule, v));
      k.SetName("kind");
      q.SetName("quantity");
      n.SetName("name");
      kind, quantity, name := k, q, n;
      new;
      assert PrivateKey("kind") == "_kind" && PrivateKey("quantity") == "_quantity" && PrivateKey("name") == "_name";
    }

    /** `Component(kind, quantity, name)`: a fresh instance whose three
        fields were assigned through their descriptors, or the error of the
        first assignment that failed and no instance. */
    method New(k: Value, q: Value, n: Value) returns (obj: Instance?, o: Outcome)
      requires Valid()
      ensures o == Construct(k, q, n)
      ensures obj != null <==> o.Pass?
      ensures obj != null ==> fresh(obj) && obj.dict == map["_kind" := k, "_quantity" := q, "_name" := n]
    {
      var inst := new Instance();
      o := kind.Set(inst, k);
      if o.Raise? {
        return null, o;
      }
      o := quantity.Set(inst, q);
      if o.Raise? {
        return null, o;
      }
      o := name.Set(inst, n);
      if o.Raise? {
        return null, o;
      }
      obj := inst;
    }

    /** `Component.__str__`. */
    method Str(obj: Instance) returns (r: Result<string>)
      requires Valid()
      ensures r == Text(obj.dict)
    {
      var k := kind.Get(obj);
      if k.Err? {
        return Err(k.exc, k.msg);
      }
      var q := quantity.Get(obj);
      if q.Err? {
        return Err(q.exc, q.msg);
      }
      var n := name.Get(obj);
      if n.Err? {
        return Err(n.exc, n.msg);
      }
      r := Ok(Render(k.value, q.value, n.value));
    }
  }

  // The unit tests of validator.py, as facts about Construct and Render.

  /** test_nok1: a quantity given as a string is a TypeError. */
  lemma TestNok1()
    ensures Construct(Str("wood"), Str("10"), Str("FOO")) == Raise(TypeError, NotNumeric(Str("10")))
  {
  }

  /** test_nok2: the arguments come in (name, kind, quantity) order, so it is
      the kind "Widget" that fails, with ValueError. */
  lemma TestNok2()
    ensures Construct(Str("Widget"), Str("metal"), Int(5)) == Raise(ValueError, NotOneOf(Str("Widget"), KindOptions))
  {
  }

  /** test_nok3: the kind "WIDGET" fails with ValueError. */
  lemma TestNok3()
    ensures Construct(Str("WIDGET"), Str("metle"), Int(5)) == Raise(ValueError, NotOneOf(Str("WIDGET"), KindOptions))
  {
  }

  /** test_nok4: again the kind "WIDGET" fails, before the quantity -5 is looked at. */
  lemma TestNok4()
    ensures Construct(Str("WIDGET"), Str("metal"), Int(-5)) == Raise(ValueError, NotOneOf(Str("WIDGET"), KindOptions))
  {
  }

  /** test_ok1: `Component("wood", 10, "FOO")` is built and renders as "wood, 10, FOO". */
  lemma TestOk1()
    ensures Construct(Str("wood"), Int(10), Str("FOO")) == Pass
    ensures Render(Str("wood"), Int(10), Str("FOO")) == "wood, 10, FOO"
  {
    assert Construct(Str("wood"), Int(10), Str("FOO")) == Pass by {
      IsUpperCases();
    }
    RenderOk1();
  }

  /** The text that test_ok1 compares against. */
  lemma RenderOk1()
    ensures Render(Str("wood"), Int(10), Str("FOO")) == "wood, 10, FOO"
  {
    assert PyStr(Int(10)) == "10" by {
      assert ShowNat(10) == ShowNat(1) + [DigitChar(0)];
    }
    var parts := ["wood", "10", "FOO"];
    assert Join(", ", parts[1..]) == "10, FOO" by {
      assert parts[1..][1..] == ["FOO"];
    }
  }
}
