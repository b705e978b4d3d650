# Declarative field validation, modelled in Dafny

The repository is a small Python field-validation layer. A rule object is
declared as a class attribute of a record type. Its descriptor methods
(`__set_name__`, `__get__`, `__set__`) derive a private slot `"_" + field`.
Every assignment to the field is sent through the rule's `validate` first.
The value is stored only if validation passes; otherwise an exception
propagates. Three rule kinds exist:

- `OneOf`: membership in a fixed collection of options.
- `Number`: a type check, then `minvalue`, then `maxvalue`.
- `String`: a minimum length, then a maximum length, then a named predicate.

`Component` is the example record. It has the fields `kind`, `quantity` and
`name`, and its constructor assigns them in that order. The repository holds
several variants of the design:

- validator.py: the rules, the descriptor and `Component`.
- validator_data.py: the rule configurations as plain records.
- validator_error.py and validate_error.py: two variants of an error taxonomy.
- validate.py: a set-based `OneOf` and a one-field `Component`.

Module layout (one Dafny module per source file, plus two shared ones):

- `Values` (values.dfy) holds the shared types. `Value` is a Python value: `Str`, `Int` or `Other`. `Exc` is a built-in exception class. `Outcome` is "returns or raises". `Message` is a structured message with one variant per f-string shape. It also holds `str()` of integers and an ASCII `str.isupper`.
- `Binding` (binding.dfy) is the descriptor, written once. The three copies in validator.py:8-22, validator_data.py:8-22 and validate.py:7-20 differ in two ways. validate.py keeps the private key in the descriptor attribute `name`, where the other two use `private_name`. And validate.py's `__set_name__` does not also record the key on the descriptor. The field `Field.privateName` stands for either attribute. The validate.py copy is modelled by `Field.BindName`, and the other two by `Field.SetName`. An owner instance is a `class Instance` whose attribute dictionary is a `map`. `Field.Set` updates that map in place.
- `Validator` (validator.dfy), `ValidatorData` (validator_data.dfy), `ValidatorErrors` (validator_error.dfy), `ValidateErrors` (validate_error.dfy) and `Validate` (validate.dfy) each model one source file.

The rules' `validate` methods are pure check chains, so they are functions
here. `__set__` and `Component.__init__` change an instance in place, so they
are methods of classes. Each method is tied by its `ensures` to a specification
function (`Read`, `Stored`, `Construct`, `Text`). The properties are proved
about those functions.

test_nok2, test_nok3 and test_nok4 of validator.py pass their arguments as
(name, kind, quantity), while `Component.__init__` takes (kind, quantity,
name); test_nok1 and test_ok1 use the constructor's order. So those three
raise `ValueError` from the `kind` check, whatever the other two arguments
are. Their `assertRaises(ValueError)` is still satisfied, because the kind
check raises `ValueError` first; `TestNok2` to `TestNok4` state this of the
model.

## Model

| member | source | states |
|---|---|---|
| `Values.ParseShowNat` | validator.py:74 | the decimal text of a natural number reads back as that number |
| `Values.ShowInt` | validator.py:74 | `str()` of an int is non-empty, starts with `-` exactly when the int is negative, and is digits after that |
| `Values.PyStr` | validator.py:74 | `str()` of a string is the string itself; `str()` of an int is non-empty and signed as the int |
| `Values.IsUpper` | validator.py:66 | a string that `isupper` accepts is non-empty |
| `Values.IsUpperCases` | validator.py:66 | `"FOO"` and `"A1"` are upper-case; `"Foo"`, `"123"` and `""` are not, so `isupper` needs a cased character and no lower-case one |
| `Values.ShowIntRoundTrip` | validator.py:74 | `str()` of an int is an optional `-` followed by digits, and it reads back as the same int |
| `Binding.PrivateKey` | validator.py:10 | the storage key of field `f` is `_` followed by `f` |
| `Binding.PrivateKeyInjective` | validator_data.py:10 | distinct fields get distinct storage keys |
| `Binding.PrivateKeyNotPublic` | validate.py:9 | a storage key never equals a public field name (one not starting with `_`) |
| `Binding.Read` | validator.py:13-14 | `__get__` returns the value stored under the key; it raises AttributeError when nothing is stored or the descriptor is unbound |
| `Binding.SetOutcome` | validate.py:14-16 | `__set__` raises exactly what `validate` raises; otherwise it passes once the descriptor is bound |
| `Binding.Stored` | validator_data.py:16-18 | the instance dictionary gains the value under the key iff the assignment passed; on failure it is unchanged |
| `Binding.ReadAfterSet` | validator.py:13-18 | after a successful `__set__`, `__get__` returns exactly the value set |
| `Binding.SetLeavesOtherFields` | validator.py:16-18 | `__set__` on one field leaves every other field's read unchanged |
| `Binding.Field.BindName` | validate.py:8-9 | validate.py's `__set_name__` sets the key to `_name` and records nothing else |
| `Binding.Field.SetName` | validator_data.py:9-11 | `__set_name__` sets the key to `_name` and records, on the descriptor itself, that key mapped to the plain name |
| `Binding.Field.Get` | validator.py:13-14 | `__get__` behaves as `Read` on the instance's current dictionary |
| `Binding.Field.Set` | validator.py:16-18 | `__set__` validates first; the instance's new dictionary is `Stored` of the old one, so it changes only on success |
| `Validator.CheckOneOf` | validator.py:29-31 | passes iff the value equals one of the options; otherwise raises ValueError citing the value and the options |
| `Validator.CheckNumber` | validator.py:39-45 | a non-number raises TypeError before any bound is looked at; a number below `minvalue` raises ValueError whatever `maxvalue` is; one above `maxvalue` raises ValueError; a `None` bound reached by the comparison raises TypeError; it passes iff both bounds are set and `minvalue <= v <= maxvalue` |
| `Validator.CheckNumberUnbounded` | validator.py:34-45 | the corrected check, where a `None` bound is no bound: it passes iff the value is a number within the bounds that are set, with the same ordered errors |
| `Validator.NumberReadingsAgree` | validator.py:42-45 | when both bounds are set, the as-written and corrected checks return the same outcome for every value |
| `Validator.DefaultNumberAcceptsNothing` | validator.py:35-45 | `Number()` has defaults 0 and `None`, and it rejects every value; every non-negative number gets TypeError |
| `Validator.DefaultNumberRejectsFive` | validator.py:35-45 | `Number().validate(5)` raises TypeError, while the corrected check accepts 5 |
| `Validator.CheckString` | validator.py:54-60 | passes iff the value is a string with `minsize <= len <= maxsize` that satisfies the predicate; failures are checked in order (too short, then too long, then predicate false), and the first one is reported; a value without a length raises TypeError |
| `Validator.InvertedSizesRejectAll` | validator.py:49-58 | with `minsize > maxsize` (which construction allows), every value is rejected |
| `Validator.LengthBeforePredicate` | validator.py:55-60 | a string that is too short and also fails the predicate is reported as too short |
| `Validator.Validate` | validator.py:25-60 | each rule kind accepts exactly its declared set of values; it raises only TypeError or ValueError |
| `Validator.ValidateIntended` | validator.py:34-45 | it differs from `Validate` only for `Number` rules with a missing bound |
| `Validator.ComponentRulesAsWritten` | validator.py:63-66 | on Component's three rules, the corrected and as-written validation agree on every value |
| `Validator.Construct` | validator.py:68-71 | construction passes iff all three values pass their rules; otherwise the first failing field (kind, then quantity, then name) decides the error |
| `Validator.Join` | validator.py:74 | joining no parts gives the empty string, and joining one part gives that part |
| `Validator.SplitJoin` | validator.py:74 | splitting a `", "`-join at `", "` gives back the parts, when no part contains the separator |
| `Validator.Render` | validator.py:73-74 | a Component's text is its kind's text, `", "`, the quantity's text, `", "` and the name's text: it starts with the kind followed by `", "`, ends with the name, and is exactly four characters longer than the three texts together |
| `Validator.RenderRoundTrip` | validator.py:73-74 | a Component's text gives back its kind, its name and its integer quantity |
| `Validator.Text` | validator.py:73-74 | `str()` of an instance succeeds iff all three slots are set, and is then the three `str()` forms joined by `", "` |
| `Validator.Component.constructor` | validator.py:63-66 | the class body creates the three descriptors, each validating by its rule, binds them to `_kind`, `_quantity` and `_name`, and records each key on its descriptor |
| `Validator.Component.New` | validator.py:68-71 | returns a fresh instance holding exactly the three values iff `Construct` passes; otherwise returns no instance and the first error |
| `Validator.Component.Str` | validator.py:73-74 | `__str__` reads the three fields through their descriptors and returns `Text` of the instance |
| `Validator.TestNok1` | validator.py:78-80 | `Component("wood", "10", "FOO")` raises TypeError for the string quantity |
| `Validator.TestNok2` | validator.py:82-84 | `Component("Widget", "metal", 5)` raises ValueError, from the kind "Widget" |
| `Validator.TestNok3` | validator.py:86-88 | `Component("WIDGET", "metle", 5)` raises ValueError, from the kind "WIDGET" |
| `Validator.TestNok4` | validator.py:90-92 | `Component("WIDGET", "metal", -5)` raises ValueError, from the kind, before the quantity is checked |
| `Validator.TestOk1` | validator.py:94-95 | `Component("wood", 10, "FOO")` is built and renders as `"wood, 10, FOO"` |
| `Validator.RenderOk1` | validator.py:95 | the text of a Component holding "wood", 10 and "FOO" is `"wood, 10, FOO"` |
| `ValidatorData.NewOneOf0` | validator_data.py:26-27 | the options are exactly the set of the given values |
| `ValidatorData.NewOneOf0IgnoresOrderAndRepeats` | validator_data.py:26-27 | two argument lists with the same members give the same configuration (duplicates collapse, order is irrelevant) |
| `ValidatorData.Number0Defaults` | validator_data.py:31-33 | `minvalue` defaults to 0 and `maxvalue` to `None` |
| `ValidatorErrors.NewOneOfError` | validator_error.py:14-16 | the error keeps the rejected value and the options of the configuration it was built from |
| `ValidatorErrors.NewStringError` | validator_error.py:52-56 | every string error keeps the value and copies `minsize`, `maxsize` and the predicate from its configuration; the kind requested decides the class |
| `ValidatorErrors.TypeName` | validator_error.py:32 | `type(e).__name__` ends in `Error`, and it starts with `Number` exactly for the number errors and with `String` exactly for the string errors, as the class hierarchy groups them |
| `ValidatorErrors.GetAttr` | validator_error.py:27-32 | `minvalue` and `maxvalue` are read from the referenced configuration; any other name raises AttributeError naming the error's class and the attribute |
| `ValidatorErrors.ForwardedBoundsMatchConfig` | validator_error.py:22-29 | each number error reports the bounds of the configuration it was built from |
| `ValidatorErrors.Str` | validator_error.py:18-74 | every message cites the rejected value; a OneOf message cites the options, a Low message the forwarded `minvalue` and a High message the forwarded `maxvalue`; the Type message cites only the value; Short cites `minsize`, Long cites `maxsize`, and Predicate cites the predicate's `__name__`; classes without `__str__` show the value alone |
| `ValidatorErrors.NumberMessagesMatchErrors` | validator_error.py:36-48 | each message `Number.validate` raises is the message of the number error of the same kind built from the same value and configuration |
| `ValidatorErrors.StringMessagesMatchErrors` | validator_error.py:59-66 | the same holds for `String.validate`'s too-short and too-long messages |
| `ValidateErrors.NumberBoundsDefaultToNone` | validate_error.py:21-25 | each of the four number errors built without bounds equals the same error built with both bounds `None` |
| `ValidateErrors.Str` | validate_error.py:17-56 | every message cites the value; OneOf cites the options, Low cites `minvalue` and High cites `maxvalue`; Type cites only the value; the string errors, which add no fields, show the value alone |
| `Validate.OneOf` | validate.py:24-25 | the options are kept as the set of the given values |
| `Validate.CheckOneOf` | validate.py:27-30 | passes iff the value is in the set; otherwise raises ValueError citing the value and the set |
| `Validate.Component.constructor` | validate.py:33-34 | the class body binds one descriptor to `_kind` and records nothing on it |
| `Validate.Component.New` | validate.py:36-37 | returns a fresh instance holding the kind iff it is one of the options; otherwise returns no instance and the ValueError |
| `Validate.ScriptOutcomes` | validate.py:40-42 | `Component('wood')` is built and `Component('glass')` raises ValueError |

## Findings

| source | as written | input that shows it | evidently intended | confidence | as-written member | corrected member |
|---|---|---|---|---|---|---|
| validator.py:35-45 | `Number`'s default is `maxvalue=None`, and `validate` evaluates `self.maxvalue < value`; in Python 3, ordering `None` against a number raises TypeError (a `None` minvalue fails the same way) | `Number().validate(5)` | a missing bound means no bound on that side, so 5 passes with the defaults | high; not executed | `Validator.DefaultNumberRejectsFive` | `Validator.CheckNumberUnbounded` |

Component's descriptors validate with `Validate`, the code as written.
`ComponentRulesAsWritten` proves that on Component's rules it agrees with
`ValidateIntended`, which uses the corrected check: the one Number rule
(quantity) sets both bounds.

## Left out

- Floating-point numbers, NaN comparisons and `bool` counting as `int` are not modelled. Numbers are unbounded integers (`Int`).
- Message text is not reproduced byte for byte. Each message is a `Message` variant holding the values the f-string interpolates. `repr()` quoting, the printed form of tuples and sets, and the exact wording are not modelled.
- Python's attribute machinery is reduced to explicit state: `setattr`/`getattr` on dictionaries, and `__getattr__` as the function `GetAttr`. The rule that `__getattr__` is reached only for names that normal lookup misses is not modelled.
- `ValidatorErrors.GetAttr`: configurations are immutable values here. So "read live from the configuration" and "copied at construction" cannot be told apart. Reassigning a configuration's bounds after an error was built is not modelled.
- In Python, `OneOf0`, `Number0` and `String0` cannot be instantiated directly, because `validate` stays abstract. That ABC instantiation check is not modelled: they are records here.
- A predicate is a pure `string -> bool` with a name and a `str()` text. `str.isupper` is modelled for ASCII only; Unicode case rules are not modelled.
- `Other` stands for values that are neither numbers nor strings, and it has no length. Passing a list or another sized object to `String.validate` is not modelled.
- Membership uses structural equality of `Value`. Python's cross-type equality (`1 == 1.0`) and the TypeError from looking up an unhashable value in a set are not modelled.
- `ValidateErrors.Str`: `OneOfError`'s options are a `set<Value>` here, while validate_error.py stores whatever object the caller passes (a tuple, say, which keeps order and duplicates).
- `ValidatorData.NewOneOf0` always succeeds here. In the source, `set(options)` raises TypeError at construction when an option is unhashable (validator_data.py:27).
- `Validate.OneOf` always succeeds here, while `set(options)` at validate.py:25 raises TypeError on an unhashable option.
- The AttributeError of a descriptor used before `__set_name__` names the attribute `private_name` in every copy; in validate.py it would name `name`.
- The bounds of `Number` are integers or `None`. Bounds of other types are not modelled.
- Reading a descriptor through the class (`obj` is `None` in `__get__`) is not modelled.
- The unittest runner and the `__main__` blocks are not modelled; their expected outcomes are stated as lemmas.
