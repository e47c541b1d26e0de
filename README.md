# envclasses binding engine, modelled in Dafny

`envclasses` turns a class whose body lists annotated fields (`name: type = default`)
into a dataclass whose defaults come from the process environment. For every
declared field, in declaration order, `EnvClassMeta.__new__` looks up the
upper-cased variable, then the lower-cased one, then the class-body default, and
casts what it finds with a None-preserving wrapper around the field's converter
(`bool_caster` for `bool`, the type itself otherwise). It adds an init-only
`env_ignore_errors` flag, read from `ENV_IGNORE_ERRORS` through `bool_caster`, and
installs `post_init`, which raises one `RuntimeError` naming every field still
`None` unless the flag is set.

The model is split by component:

- `wrappers.dfy` (`Wrappers`): `Option`, `Result` (a value or a raised exception) and `Outcome`.
- `text.dfy` (`Text`): ASCII `str.lower`/`str.upper` and `sep.join`, with the facts about them the engine needs.
- `decimal.dfy` (`Decimal`): `str(n)` and `int(s)` on plain decimal literals; `int(str(n)) == n` is proved for every integer n.
- `envclasses.dfy` (`EnvClasses`): the engine. Python values are the datatype `Value`
  (`PyNone`, `PyStr`, `PyInt`, `PyBool`). The environment is a `map<string, string>`.
  A class body is a `seq<FieldDecl>`. Exceptions are `Error` values carried in a `Result`.
  `NewEnvClass` is the binding loop of `__new__`, written as a method with a `while`
  loop. It returns an `EnvClass` holding one bound default per field, plus the flag's default.
  A class body with no annotated field has no `__annotations__` entry, so the lookup at
  `envclasses/__init__.py:105` raises `KeyError`; `NewEnvClass` returns that error for an empty declaration list.
  `PostInit` and `Instantiate` are the validation that runs when an instance is built.
- `scenarios.dfy` (`EnvClassesScenarios`): the three class declarations of
  `test_env_class_meta` (`tests/test_envclasses.py:16-44`), with their outcomes proved from the contracts of `NewEnvClass` and `Instantiate`.

The flag is read only from `ENV_IGNORE_ERRORS`, never from `env_ignore_errors`
(`envclasses/__init__.py:115`); `IgnoreFlagNotLowerCase` proves that the lower-case
variable has no effect. `tests/test_envclasses.py:52-81` use a lazy binding mode that the
engine does not define, so only eager binding is modelled.

## Model

| member | source | states |
|---|---|---|
| EnvClasses.Truthy | envclasses/__init__.py:56 | `bool(value)` is false exactly for None, "", 0 and False |
| EnvClasses.BoolCaster | envclasses/__init__.py:54-56 | only a non-empty string can raise, and then with KeyError of its lower-cased form; any other input gives `bool(value)`; a true result comes only from a truthy input |
| EnvClasses.BoolCasterTokens | envclasses/__init__.py:54-55 | a non-empty string gives true exactly when its lower-case form is "yes" or "true", false exactly when it is "no" or "false", and otherwise raises KeyError carrying the lower-cased key, never a default |
| EnvClasses.BoolCasterIgnoresCase | envclasses/__init__.py:55 | two strings with the same lower-case form cast to the same result |
| EnvClasses.BoolCasterFallback | envclasses/__init__.py:54-56 | the empty string and every non-string take the `bool(value)` path, so "", False, None and 0 give false and cannot raise |
| EnvClasses.PyStrOf | envclasses/__init__.py:84 | `str(value)` leaves a string unchanged, and the text it gives an int or a bool is read back to that int by `int()` and to that bool by `bool_caster` |
| EnvClasses.PyIntOf | envclasses/__init__.py:84 | `int(value)` returns an int unchanged and maps a bool to a number that is non-zero exactly for True; it raises only TypeError for None or ValueError carrying a string that is not an integer literal |
| EnvClasses.Convert | envclasses/__init__.py:107 | a successful conversion has the annotated type; for bool fields it succeeds exactly when `bool_caster` does and yields its result |
| EnvClasses.Cast | envclasses/__init__.py:82-84 | the result is None exactly when the input is None; any other input gives what the field's converter gives; a success is None or of the annotated type |
| EnvClasses.NoneOnlyFromWrapper | envclasses/__init__.py:82-83 | casting None gives None, while every bare converter applied to None gives something else, so only the wrapper keeps absence visible |
| EnvClasses.ConvertTyped | envclasses/__init__.py:84 | a value that already has the declared type, such as a typed class default, converts to itself |
| EnvClasses.CastIdempotent | envclasses/__init__.py:82-84 | casting a bound value again leaves it unchanged |
| EnvClasses.StrRoundTrip | envclasses/__init__.py:84 | the text `str()` gives an int or a bool casts back to the same int or bool under the int converter and `bool_caster` |
| Decimal.NatToString | envclasses/__init__.py:84 | `str(n)` for n >= 0 is a non-empty digit string without a leading zero that denotes n |
| Decimal.IntToString | envclasses/__init__.py:84 | `int(str(n)) == n` for every integer n |
| Decimal.ParseInt | envclasses/__init__.py:84 | a string is accepted exactly when it is one or more digits, or a '+' or '-' followed by one or more digits, so "", a bare sign and "1a" are rejected; a digit string gives the number it denotes, '-' digits gives its negation and '+' digits the number itself |
| Text.Lower | envclasses/__init__.py:55 | ASCII model of `str.lower()`: same length; exactly the upper-case ASCII letters change, each into its lower-case letter (32 code points on), and no upper-case ASCII letter is left |
| Text.Upper | envclasses/__init__.py:110 | ASCII model of `str.upper()`: same length; exactly the lower-case ASCII letters change, each into its upper-case letter (32 code points back), and no lower-case ASCII letter is left |
| EnvClasses.Resolve | envclasses/__init__.py:110 | the upper-cased variable wins when set; the raw value is always the class default or the value of one of the two case forms of the name; it is None exactly when neither variable is set and the default is None or missing |
| EnvClasses.BoundField | envclasses/__init__.py:107-110 | a bound value is None or of the annotated type; it is None exactly when the raw value is None; with neither variable set it is the cast class default |
| EnvClasses.ResolutionOrder | envclasses/__init__.py:108-110 | the upper-cased variable wins, then the lower-cased one, then the class default, and with none of them the raw value is None |
| EnvClasses.ResolveLocal | envclasses/__init__.py:110 | a field's raw value depends on no environment variable other than its upper- and lower-cased names |
| EnvClasses.DefaultIsCast | envclasses/__init__.py:108-110 | with neither variable set, the bound value is the class default cast like an environment value, and None with no default |
| EnvClasses.BoundNoneIff | envclasses/__init__.py:108-110 | a field is bound to None exactly when neither variable is set and it has no default (or a None default) |
| EnvClasses.IgnoreErrorsVar | envclasses/__init__.py:115 | the flag's variable is `IGNORE_ERRORS_FLAG` upper-cased, i.e. "ENV_IGNORE_ERRORS" |
| EnvClasses.IgnoreFlag | envclasses/__init__.py:115 | the flag is false when ENV_IGNORE_ERRORS is unset; it can only be true, or raise KeyError of the lower-cased value, when that variable is set |
| EnvClasses.IgnoreFlagSource | envclasses/__init__.py:114-116 | the flag depends only on ENV_IGNORE_ERRORS: it is false when that variable is unset and `bool_caster` of it otherwise |
| EnvClasses.IgnoreFlagNotLowerCase | envclasses/__init__.py:115 | setting the lower-case `env_ignore_errors` variable does not change the flag |
| EnvClasses.NewEnvClass | envclasses/__init__.py:105-116 | an empty class body raises KeyError('__annotations__'); otherwise class creation succeeds exactly when every field casts and the flag casts; the class then keeps the declarations, one bound default per field equal to that field's resolved-and-cast value, and the flag's value; on failure the error is that of the first field that fails in declaration order, or else the flag's |
| EnvClasses.UndefinedNames | envclasses/__init__.py:32-37 | the list `post_init` builds from the first n fields has at most n names, and it is empty exactly when none of those fields is None (apart from `env_ignore_errors`) |
| EnvClasses.UndefinedIndicesExact | envclasses/__init__.py:32-36 | the positions the comprehension keeps are exactly those of the fields that are None and are not `env_ignore_errors`, strictly increasing |
| EnvClasses.UndefinedNamesAtIndices | envclasses/__init__.py:33 | the k-th listed name is the upper-cased name of the k-th kept field |
| EnvClasses.UndefinedNamesExact | envclasses/__init__.py:32-36 | the list `post_init` builds consists of the upper-cased names of exactly the fields that are None and are not `env_ignore_errors`, each once, in declaration order |
| Text.Join | envclasses/__init__.py:38 | joining no names gives "", and joining one name gives that name alone; for more names the layout is stated by `JoinContains`, `JoinSeparators` and `JoinLength` |
| Text.JoinContains | envclasses/__init__.py:38 | every element of a joined list occurs in the joined text at its offset, in list order |
| Text.JoinSeparators | envclasses/__init__.py:38 | between each element and the next, the joined text holds exactly the separator |
| Text.JoinLength | envclasses/__init__.py:38 | the joined text ends where its last element ends, so the elements and the separators between them make up all of it |
| EnvClasses.UndefinedMessage | envclasses/__init__.py:38 | the message starts with the fixed prefix "The following environment variables are undefined: ", and for one name it is the prefix followed by that name |
| EnvClasses.UndefinedMessageNames | envclasses/__init__.py:38 | every undefined name appears in the error message after the fixed prefix, at its offset in list order |
| EnvClasses.UndefinedMessageSeparators | envclasses/__init__.py:38 | consecutive undefined names are separated in the message by exactly ", " |
| EnvClasses.UndefinedMessageLength | envclasses/__init__.py:38 | the message ends with the last undefined name, so it is the prefix followed by the names joined with ", " and nothing else |
| EnvClasses.PostInit | envclasses/__init__.py:31-38 | with the flag set it never fails; without it, it fails exactly when some non-flag field is None, and the one error carries the full list of names |
| EnvClasses.Instantiate | envclasses/__init__.py:117-119 | building an instance either yields the class's bound defaults unchanged, None fields included, or raises; it cannot raise when the flag is set, and it raises exactly when the flag is unset and some field is None, with the one RuntimeError listing every such field |
| EnvClassesScenarios.BoundFields | tests/test_envclasses.py:13-20 | with `int_field=8080` and `bool_field=yes` set in lower case, str_field binds to its default, int_field to 8080 over the default 8888, and bool_field to true |
| EnvClassesScenarios.CreateTestClass | tests/test_envclasses.py:13-44 | the test class, with or without a str_field default, is created under the suite's environment with defaults (str default, 8080, True) and the flag True only for ENV_IGNORE_ERRORS=yes |
| EnvClassesScenarios.IgnoreFlags | tests/test_envclasses.py:29-39 | ENV_IGNORE_ERRORS unset or "no" gives false, "yes" gives true |
| EnvClassesScenarios.UndefinedStrFieldMessage | envclasses/__init__.py:38 | the error text for a single missing STR_FIELD is the fixed prefix followed by that name |
| EnvClassesScenarios.DefaultsOverridden | tests/test_envclasses.py:13-26 | the first test class instantiates to `("", 8080, True)` |
| EnvClassesScenarios.MissingFieldRaises | tests/test_envclasses.py:29-37 | with no str_field default and ENV_IGNORE_ERRORS=no, instantiation raises one RuntimeError naming STR_FIELD |
| EnvClassesScenarios.MissingFieldIgnored | tests/test_envclasses.py:39-49 | with ENV_IGNORE_ERRORS=yes, instantiation succeeds with str_field None, int_field 8080 and bool_field true |

## Left out

- Lazy, re-read-on-access binding: `tests/test_envclasses.py:52-81` refers to a refresh flag that the engine does not define, so only eager binding is modelled.
- The real process environment and its mutation: the environment is passed in as an immutable map. Eager binding's "later environment changes have no effect" therefore holds by construction: `Instantiate` takes no environment.
- The metaclass, `dataclass`, `InitVar`, `field` and `inspect.getmembers` machinery: a class body is an explicit declaration sequence, and the class is the `EnvClass` value that `NewEnvClass` returns.
- Constructor arguments: these would override field values without casting, or pass `env_ignore_errors` explicitly. `Instantiate` uses the class defaults. `PostInit` is stated over any values and any flag, so it covers both.
- A field declared under the name `env_ignore_errors`: the model casts it in the loop, as the code does, and excludes it from validation. It does not model that `InitVar` then removes that field from the instance.
- `float` fields and arbitrary callable annotations: these involve floating point and foreign constructors. Only `str`, `int` and `bool` are modelled.
- Class-body defaults of other kinds: a default is None, a str, an int or a bool. Python also accepts others, such as a float (`x: int = 3.9` binds 3 through `int()`, and `x: str = 1.5` binds "1.5"), which `Value` cannot represent.
- Decimal.ParseInt: models `int()` on an optional `+`/`-` sign followed by ASCII digits only. Python also accepts surrounding whitespace, `_` separators and non-ASCII digits; these are not modelled.
- Text.Lower: `str.lower`/`str.upper` are modelled on ASCII letters only. Python's Unicode case mapping, where lengths can change, is not modelled.
- Exception messages other than post_init's: `KeyError` carries the key, and `ValueError` carries the rejected literal.
- `setup.py` (packaging, version lookup over the network) and `test/test_envclasses.py` (a copy of the first test for another package name) are not part of this model.
