/**
 * The Python values, exceptions and messages that the validation layer
 * passes around, reduced to what the rules look at.
 */
module Values {

  datatype Option<+T> = None | Some(value: T)

  /** A Python value as the rules see it: a `str`, an `int`, or anything else
      (`None`, a list, ...), which is kept only through its `str()` text. */
  datatype Value = Str(s: string) | Int(n: int) | Other(text: string)

  /** The built-in exception classes the layer raises. */
  datatype Exc = TypeError | ValueError | AttributeError

  /** A raised message, one variant per message shape; each keeps exactly the
      values the message interpolates. */
  datatype Message =
    | NotOneOf(value: Value, options: seq<Value>)      // "Expected v be one of (tuple)"
    | NotInSet(value: Value, allowed: set<Value>)      // "Expected v to be one of {set}"
    | NotNumeric(value: Value)                         // "Expected v of type int or float"
    | BelowMin(value: Value, minvalue: Option<int>)    // "Expected v >= minvalue"
    | AboveMax(value: Value, maxvalue: Option<int>)    // "Expected v <= maxvalue"
    | TooShort(value: Value, minsize: int)             // "Expected len(v) >= minsize"
    | TooLong(value: Value, maxsize: int)              // "Expected len(v) <= maxsize"
    | PredicateFalse(name: string, value: Value)       // "Expected name(repr(v)) is true"
    | PredicateNotTrue(callable: string, arg: string)  // "Expected str(pred)(str(v)) is true"
    | Unorderable(value: Value)                        // a comparison of a number with None
    | NoLength(value: Value)                           // len() of a value that has no length
    | NoAttribute(owner: string, attribute: string)    // a failed attribute lookup
    | Plain(value: Value)                              // str() of an exception built from one value

  /** What a call to `validate` or `__set__` does: return normally or raise. */
  datatype Outcome = Pass | Raise(exc: Exc, msg: Message)

  /** A call that returns a value or raises. */
  datatype Result<T> = Ok(value: T) | Err(exc: Exc, msg: Message)

  /** A string predicate together with its `__name__` and its `str()`. */
  datatype Predicate = Predicate(name: string, text: string, test: string -> bool)

  /** Python's `str.isupper` restricted to ASCII: at least one cased character
      and no lower-case one. */
  predicate IsUpper(s: string)
    ensures IsUpper(s) ==> |s| > 0
  {
    (exists i :: 0 <= i < |s| && 'A' <= s[i] <= 'Z') &&
    forall i :: 0 <= i < |s| ==> !('a' <= s[i] <= 'z')
  }

  /** `isupper` needs at least one cased character and no lower-case one:
      digits alone do not count, and one lower-case letter spoils it. */
  lemma IsUpperCases()
    ensures IsUpper("FOO") && IsUpper("A1")
    ensures !IsUpper("Foo") && !IsUpper("123") && !IsUpper("")
  {
    assert "FOO"[0] == 'F';
    assert "A1"[0] == 'A';
    assert "Foo"[1] == 'o';
  }

  predicate IsDigit(c: char) {
    '0' <= c <= '9'
  }

  function DigitChar(d: nat): (c: char)
    requires d < 10
    ensures IsDigit(c) && c as int - '0' as int == d
  {
    ('0' as int + d) as char
  }

  /** The decimal text of a natural number, most significant digit first. */
  function ShowNat(n: nat): (r: string)
    ensures |r| > 0 && forall i :: 0 <= i < |r| ==> IsDigit(r[i])
    ensures n >= 10 <==> |r| > 1
  {
    if n < 10 then [DigitChar(n)] else ShowNat(n / 10) + [DigitChar(n % 10)]
  }

  /** The value of a string of decimal digits. */
  function ParseNat(s: string): nat
    requires forall i :: 0 <= i < |s| ==> IsDigit(s[i])
  {
    if s == [] then 0
    else
      assert IsDigit(s[|s| - 1]);
      ParseNat(s[..|s| - 1]) * 10 + (s[|s| - 1] as int - '0' as int)
  }

  lemma {:induction false} ParseShowNat(n: nat)
    ensures ParseNat(ShowNat(n)) == n
  {
    if n >= 10 {
      var s := ShowNat(n);
      assert s[..|s| - 1] == ShowNat(n / 10);
      ParseShowNat(n / 10);
    }
  }

  /** `str()` of a Python int: an optional minus sign, then the digits. */
  function ShowInt(i: int): (r: string)
    ensures |r| > 0 && (r[0] == '-' <==> i < 0)
    ensures forall k :: (if i < 0 then 1 else 0) <= k < |r| ==> IsDigit(r[k])
  {
    if i < 0 then "-" + ShowNat(-i) else ShowNat(i)
  }

  /** The inverse of ShowInt on the strings it produces. */
  function ParseInt(s: string): int
    requires |s| > 0
    requires forall i :: 0 < i < |s| ==> IsDigit(s[i])
    requires s[0] == '-' || IsDigit(s[0])
  {
    if s[0] == '-' then -(ParseNat(s[1..]) as int) else ParseNat(s)
  }

  lemma ShowIntRoundTrip(i: int)
    ensures var s := ShowInt(i);
      |s| > 0 && (s[0] == '-' || IsDigit(s[0])) &&
      (forall k :: 0 < k < |s| ==> IsDigit(s[k])) &&
      ParseInt(s) == i
  {
    ParseShowNat(if i < 0 then -i else i);
    if i < 0 {
      assert ShowInt(i)[1..] == ShowNat(-i);
    }
  }

  /** `str()` of a value. */
  function PyStr(v: Value): (r: string)
    ensures !v.Int? ==> r == (if v.Str? then v.s else v.text)
    ensures v.Int? ==> |r| > 0 && (r[0] == '-' <==> v.n < 0)
  {
    match v
    case Str(s) => s
    case Int(n) => ShowInt(n)
    case Other(text) => text
  }
}
