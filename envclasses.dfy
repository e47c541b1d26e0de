/** The binding engine of envclasses: fields declared on a configuration class are
    resolved from the process environment, cast to their declared type, and checked
    for presence once an instance is built. */
module EnvClasses {
  import opened Wrappers
  import opened Text
  import opened Decimal

  /** A Python value as it can reach the engine: the absent marker None, an
      environment string, or a literal class-body default. */
  datatype Value = PyNone | PyStr(s: string) | PyInt(n: int) | PyBool(b: bool)

  /** The type annotation of a declared field. */
  datatype Annotation = StrType | IntType | BoolType

  /** `name: annotation` or `name: annotation = default` in the class body. */
  datatype FieldDecl = FieldDecl(name: string, annotation: Annotation, default: Option<Value>)

  /** The exceptions the engine lets escape. */
  datatype Error =
    | KeyError(key: string)                 // a string bool_caster does not know
    | ValueError(literal: string)           // int() of a string that is not an integer literal
    | TypeError                             // int(None)
    | RuntimeError(undefined: seq<string>)  // post_init: the upper-cased names of the undefined fields

  /** The process environment: variable name to value. */
  type Environ = map<string, string>

  /** The class a declaration list becomes: one default per declared field, in
      declaration order, and the default of the env_ignore_errors init-only flag. */
  datatype EnvClass = EnvClass(fields: seq<FieldDecl>, defaults: seq<Value>, ignoreErrors: bool)

  /** BOOL_MAP: the strings bool_caster accepts, in lower case. */
  const BoolMap: map<string, bool> := map["yes" := true, "true" := true, "false" := false, "no" := false]

  /** IGNORE_ERRORS_FLAG: the name of the flag that disables the presence check. */
  const IgnoreErrorsFlag: string := "env_ignore_errors"

  const UndefinedPrefix: string := "The following environment variables are undefined: "

  // ---------------------------------------------------------------------------
  // Casting

  /** bool(v): Python truthiness. */
  predicate Truthy(v: Value)
    ensures !Truthy(v) <==> v in {PyNone, PyStr(""), PyInt(0), PyBool(false)}
  {
    match v
    case PyNone => false
    case PyStr(s) => s != ""
    case PyInt(n) => n != 0
    case PyBool(b) => b
  }

  /** bool_caster: a non-empty string is looked up, ignoring case, in BoolMap and
      raises KeyError when it is not there; anything else is bool(value). */
  function BoolCaster(v: Value): (r: Result<bool, Error>)
    ensures r.Err? ==> v.PyStr? && v.s != "" && r.error == KeyError(Lower(v.s))
    ensures (v.PyStr? ==> v.s == "") ==> r == Ok(Truthy(v))
    ensures r == Ok(true) ==> Truthy(v)
  {
    if v.PyStr? && v.s != "" then
      var key := Lower(v.s);
      if key in BoolMap then Ok(BoolMap[key]) else Err(KeyError(key))
    else
      Ok(Truthy(v))
  }

  /** The value has the Python type the annotation names. */
  predicate HasType(v: Value, a: Annotation) {
    match a
    case StrType => v.PyStr?
    case IntType => v.PyInt?
    case BoolType => v.PyBool?
  }

  /** str(v) */
  function PyStrOf(v: Value): (r: string)
    ensures v.PyStr? ==> r == v.s
    ensures v.PyInt? ==> ParseInt(r) == Some(v.n)
    ensures v.PyBool? ==> BoolCaster(PyStr(r)) == Ok(v.b)
  {
    match v
    case PyNone => "None"
    case PyStr(s) => s
    case PyInt(n) => IntToString(n)
    case PyBool(b) =>
      var t := if b then "True" else "False";
      assert Lower(t) == (if b then "true" else "false") by {
        if b {
          assert Lower(t)[0] == 't' && Lower(t)[1] == 'r' && Lower(t)[2] == 'u' && Lower(t)[3] == 'e';
        } else {
          assert Lower(t)[0] == 'f' && Lower(t)[1] == 'a' && Lower(t)[2] == 'l';
          assert Lower(t)[3] == 's' && Lower(t)[4] == 'e';
        }
      }
      t
  }

  /** int(v) */
  function PyIntOf(v: Value): (r: Result<int, Error>)
    ensures v.PyInt? ==> r == Ok(v.n)
    ensures v.PyStr? ==> (r.Ok? <==> ParseInt(v.s).Some?)
    ensures r.Err? ==> (v == PyNone && r.error == TypeError) || (v.PyStr? && r.error == ValueError(v.s))
    ensures r.Ok? && v.PyBool? ==> (r.value != 0 <==> v.b)
  {
    match v
    case PyNone => Err(TypeError)
    case PyStr(s) => if ParseInt(s).Some? then Ok(ParseInt(s).value) else Err(ValueError(s))
    case PyInt(n) => Ok(n)
    case PyBool(b) => Ok(if b then 1 else 0)
  }

  /** The converter chosen for a field: bool_caster for bool fields, the annotation
      itself (str or int) otherwise, applied to v. */
  function Convert(a: Annotation, v: Value): (r: Result<Value, Error>)
    ensures r.Ok? ==> HasType(r.value, a)
    ensures a == BoolType ==> r.Ok? == BoolCaster(v).Ok? && (r.Ok? ==> r.value == PyBool(BoolCaster(v).value))
  {
    match a
    case StrType => Ok(PyStr(PyStrOf(v)))
    case IntType =>
      (match PyIntOf(v)
       case Ok(n) => Ok(PyInt(n))
       case Err(e) => Err(e))
    case BoolType =>
      (match BoolCaster(v)
       case Ok(b) => Ok(PyBool(b))
       case Err(e) => Err(e))
  }

  /** make_cast_function(converter) applied to v: None passes through untouched,
      every other value goes through the converter. */
  function Cast(a: Annotation, v: Value): (r: Result<Value, Error>)
    ensures r == Ok(PyNone) <==> v == PyNone
    ensures v != PyNone ==> r == Convert(a, v)
    ensures r.Ok? ==> r.value == PyNone || HasType(r.value, a)
  {
    if v == PyNone then Ok(v) else Convert(a, v)
  }

  /** The four tokens, in any ASCII case, and nothing else, are accepted as strings. */
  lemma BoolCasterTokens(s: string)
    requires s != ""
    ensures BoolCaster(PyStr(s)) == Ok(true) <==> Lower(s) == "yes" || Lower(s) == "true"
    ensures BoolCaster(PyStr(s)) == Ok(false) <==> Lower(s) == "no" || Lower(s) == "false"
    ensures BoolCaster(PyStr(s)).Err? <==> Lower(s) !in {"yes", "true", "no", "false"}
    ensures BoolCaster(PyStr(s)).Err? ==> BoolCaster(PyStr(s)).error == KeyError(Lower(s))
  {
  }

  /** Strings that agree up to ASCII case cast alike. */
  lemma BoolCasterIgnoresCase(s: string, t: string)
    requires Lower(s) == Lower(t)
    ensures BoolCaster(PyStr(s)) == BoolCaster(PyStr(t))
  {
    assert |s| == |Lower(s)| == |t|;
  }

  /** The empty string and every non-string take the truthiness fallback; only a
      non-empty string can raise. */
  lemma BoolCasterFallback(v: Value)
    requires !v.PyStr? || v.s == ""
    ensures BoolCaster(v) == Ok(Truthy(v))
    ensures v == PyStr("") || v == PyBool(false) || v == PyNone || v == PyInt(0) ==> BoolCaster(v) == Ok(false)
  {
  }

  /** A value that already has the declared type converts to itself, so a typed
      class-body default is bound unchanged. */
  lemma ConvertTyped(a: Annotation, v: Value)
    requires HasType(v, a)
    ensures Convert(a, v) == Ok(v)
  {
  }

  /** Casting is idempotent: a bound value casts to itself. */
  lemma CastIdempotent(a: Annotation, v: Value, w: Value)
    requires Cast(a, v) == Ok(w)
    ensures Cast(a, w) == Ok(w)
  {
    if w != PyNone {
      ConvertTyped(a, w);
    }
  }

  /** The text str() gives an int or a bool is cast back by the int converter and by
      bool_caster, so a value written into the environment reads back equal. */
  lemma StrRoundTrip(n: int, b: bool)
    ensures Cast(IntType, PyStr(PyStrOf(PyInt(n)))) == Ok(PyInt(n))
    ensures Cast(BoolType, PyStr(PyStrOf(PyBool(b)))) == Ok(PyBool(b))
  {
  }

  /** None can only come back from a cast as itself: every converter turns it into a
      real value or an error, so the wrapper is what keeps absence visible. */
  lemma NoneOnlyFromWrapper(a: Annotation)
    ensures Cast(a, PyNone) == Ok(PyNone)
    ensures Convert(a, PyNone) != Ok(PyNone)
  {
  }

  // ---------------------------------------------------------------------------
  // Resolution

  /** os.environ.get(key, fallback) */
  function EnvGet(env: Environ, key: string, fallback: Value): Value {
    if key in env then PyStr(env[key]) else fallback
  }

  /** attributes.get(name): the class-body default, None when there is none. */
  function DefaultOf(f: FieldDecl): Value {
    match f.default
    case Some(v) => v
    case None => PyNone
  }

  /** The raw value of a field: the upper-cased variable, else the lower-cased
      variable, else the class-body default, else None. */
  function Resolve(env: Environ, f: FieldDecl): (r: Value)
    ensures Upper(f.name) in env ==> r == PyStr(env[Upper(f.name)])
    ensures r == DefaultOf(f) || exists k :: k in env && (k == Upper(f.name) || k == Lower(f.name)) && r == PyStr(env[k])
    ensures r == PyNone <==> Upper(f.name) !in env && Lower(f.name) !in env && DefaultOf(f) == PyNone
  {
    EnvGet(env, Upper(f.name), EnvGet(env, Lower(f.name), DefaultOf(f)))
  }

  /** The default a field is bound to at class creation. */
  function BoundField(env: Environ, f: FieldDecl): (r: Result<Value, Error>)
    ensures r.Ok? ==> r.value == PyNone || HasType(r.value, f.annotation)
    ensures r == Ok(PyNone) <==> Resolve(env, f) == PyNone
    ensures Upper(f.name) !in env && Lower(f.name) !in env ==> r == Cast(f.annotation, DefaultOf(f))
  {
    Cast(f.annotation, Resolve(env, f))
  }

  /** The environment variable the ignore flag is read from. */
  function IgnoreErrorsVar(): (k: string)
    ensures k == "ENV_IGNORE_ERRORS"
  {
    var k := Upper(IgnoreErrorsFlag);
    assert k == "ENV_IGNORE_ERRORS" by {
      assert |k| == 17;
      assert k[0] == 'E' && k[1] == 'N' && k[2] == 'V' && k[3] == '_';
      assert k[4] == 'I' && k[5] == 'G' && k[6] == 'N' && k[7] == 'O' && k[8] == 'R' && k[9] == 'E' && k[10] == '_';
      assert k[11] == 'E' && k[12] == 'R' && k[13] == 'R' && k[14] == 'O' && k[15] == 'R' && k[16] == 'S';
    }
    k
  }

  /** The default of env_ignore_errors: bool_caster of ENV_IGNORE_ERRORS, False when unset. */
  function IgnoreFlag(env: Environ): (r: Result<bool, Error>)
    ensures "ENV_IGNORE_ERRORS" !in env ==> r == Ok(false)
    ensures r.Err? ==> "ENV_IGNORE_ERRORS" in env && r.error == KeyError(Lower(env["ENV_IGNORE_ERRORS"]))
    ensures r == Ok(true) ==> "ENV_IGNORE_ERRORS" in env
  {
    BoolCaster(EnvGet(env, IgnoreErrorsVar(), PyBool(false)))
  }

  /** The lookup order: upper-cased variable, lower-cased variable, class default, None. */
  lemma ResolutionOrder(env: Environ, f: FieldDecl)
    ensures Upper(f.name) in env ==> Resolve(env, f) == PyStr(env[Upper(f.name)])
    ensures Upper(f.name) !in env && Lower(f.name) in env ==> Resolve(env, f) == PyStr(env[Lower(f.name)])
    ensures Upper(f.name) !in env && Lower(f.name) !in env && f.default.Some? ==> Resolve(env, f) == f.default.value
    ensures Upper(f.name) !in env && Lower(f.name) !in env && f.default.None? ==> Resolve(env, f) == PyNone
  {
  }

  /** A field reads no environment variable other than its two case forms. */
  lemma ResolveLocal(env: Environ, env': Environ, f: FieldDecl)
    requires forall k :: k == Upper(f.name) || k == Lower(f.name) ==> (k in env <==> k in env') && (k in env ==> env[k] == env'[k])
    ensures Resolve(env, f) == Resolve(env', f)
  {
    assert Upper(f.name) in env <==> Upper(f.name) in env';
    assert Lower(f.name) in env <==> Lower(f.name) in env';
  }

  /** With neither variable set, the class default is cast exactly as an environment value would be. */
  lemma DefaultIsCast(env: Environ, f: FieldDecl)
    requires Upper(f.name) !in env && Lower(f.name) !in env
    ensures BoundField(env, f) == Cast(f.annotation, DefaultOf(f))
    ensures f.default.None? ==> BoundField(env, f) == Ok(PyNone)
  {
  }

  /** An unset field with no default binds to None whatever its type; with a default or a
      variable it never does. */
  lemma BoundNoneIff(env: Environ, f: FieldDecl)
    ensures BoundField(env, f) == Ok(PyNone) <==> Resolve(env, f) == PyNone
    ensures Resolve(env, f) == PyNone <==> Upper(f.name) !in env && Lower(f.name) !in env && DefaultOf(f) == PyNone
  {
  }

  /** The flag reads ENV_IGNORE_ERRORS only, defaults to False and goes through bool_caster. */
  lemma IgnoreFlagSource(env: Environ, k: string, x: string)
    requires k != "ENV_IGNORE_ERRORS"
    ensures IgnoreFlag(env[k := x]) == IgnoreFlag(env)
    ensures "ENV_IGNORE_ERRORS" !in env ==> IgnoreFlag(env) == Ok(false)
    ensures "ENV_IGNORE_ERRORS" in env ==> IgnoreFlag(env) == BoolCaster(PyStr(env["ENV_IGNORE_ERRORS"]))
  {
  }

  /** In particular the lower-cased env_ignore_errors variable has no effect. */
  lemma IgnoreFlagNotLowerCase(env: Environ, x: string)
    ensures IgnoreFlag(env[IgnoreErrorsFlag := x]) == IgnoreFlag(env)
  {
    IgnoreFlagSource(env, IgnoreErrorsFlag, x);
  }

  // ---------------------------------------------------------------------------
  // Binding (EnvClassMeta.__new__)

  /** Field i is the first declared field whose binding raises. */
  ghost predicate FirstFailureAt(env: Environ, decls: seq<FieldDecl>, i: int) {
    && 0 <= i < |decls|
    && BoundField(env, decls[i]).Err?
    && forall j :: 0 <= j < i ==> BoundField(env, decls[j]).Ok?
  }

  /** A class body without annotated fields has no __annotations__ entry. */
  const AnnotationsKey: string := "__annotations__"

  /** Binds every declared field, in declaration order, then the ignore flag. The
      first exception raised aborts class creation; a body with no annotated field
      raises KeyError when its annotations are looked up. */
  method NewEnvClass(env: Environ, decls: seq<FieldDecl>) returns (r: Result<EnvClass, Error>)
    ensures decls == [] ==> r == Err(KeyError(AnnotationsKey))
    ensures r.Ok? <==> decls != [] && (forall i :: 0 <= i < |decls| ==> BoundField(env, decls[i]).Ok?) && IgnoreFlag(env).Ok?
    ensures r.Ok? ==> r.value.fields == decls && |r.value.defaults| == |decls|
    ensures r.Ok? ==> forall i :: 0 <= i < |decls| ==> BoundField(env, decls[i]) == Ok(r.value.defaults[i])
    ensures r.Ok? ==> IgnoreFlag(env) == Ok(r.value.ignoreErrors)
    ensures r.Err? ==>
      || (decls == [] && r.error == KeyError(AnnotationsKey))
      || (exists i :: FirstFailureAt(env, decls, i) && BoundField(env, decls[i]) == Err(r.error))
      || ((forall i :: 0 <= i < |decls| ==> BoundField(env, decls[i]).Ok?) && IgnoreFlag(env) == Err(r.error))
  {
    if decls == [] {
      return Err(KeyError(AnnotationsKey));
    }
    var defaults: seq<Value> := [];
    var i := 0;
    while i < |decls|
      invariant 0 <= i <= |decls|
      invariant |defaults| == i
      invariant forall j :: 0 <= j < i ==> BoundField(env, decls[j]) == Ok(defaults[j])
    {
      var f := decls[i];
      var raw := EnvGet(env, Upper(f.name), EnvGet(env, Lower(f.name), DefaultOf(f)));
      var cast := Cast(f.annotation, raw);
      if cast.Err? {
        assert FirstFailureAt(env, decls, i);
        return Err(cast.error);
      }
      defaults := defaults + [cast.value];
      i := i + 1;
    }
    var flag := BoolCaster(EnvGet(env, IgnoreErrorsVar(), PyBool(false)));
    if flag.Err? {
      return Err(flag.error);
    }
    r := Ok(EnvClass(decls, defaults, flag.value));
  }

  // ---------------------------------------------------------------------------
  // Validation (post_init)

  /** Field i is None and is not the ignore flag itself. */
  predicate IsUndefinedAt(fields: seq<FieldDecl>, values: seq<Value>, i: int)
    requires |values| == |fields|
  {
    0 <= i < |fields| && values[i] == PyNone && fields[i].name != IgnoreErrorsFlag
  }

  /** The list post_init builds: the upper-cased names of the undefined fields
      among the first n, in declaration order. */
  function UndefinedNames(fields: seq<FieldDecl>, values: seq<Value>, n: nat): (r: seq<string>)
    requires |values| == |fields| && n <= |fields|
    ensures |r| <= n
    ensures r == [] <==> forall i :: 0 <= i < n ==> !IsUndefinedAt(fields, values, i)
  {
    if n == 0 then []
    else UndefinedNames(fields, values, n - 1)
         + (if IsUndefinedAt(fields, values, n - 1) then [Upper(fields[n - 1].name)] else [])
  }

  /** The positions of the undefined fields among the first n. */
  ghost function UndefinedIndices(fields: seq<FieldDecl>, values: seq<Value>, n: nat): seq<int>
    requires |values| == |fields| && n <= |fields|
  {
    if n == 0 then []
    else UndefinedIndices(fields, values, n - 1)
         + (if IsUndefinedAt(fields, values, n - 1) then [n - 1] else [])
  }

  /** The indices are exactly the undefined fields among the first n, strictly
      increasing: declaration order, each field once. */
  lemma {:induction false} UndefinedIndicesExact(fields: seq<FieldDecl>, values: seq<Value>, n: nat)
    requires |values| == |fields| && n <= |fields|
    ensures var idx := UndefinedIndices(fields, values, n);
      && (forall k :: 0 <= k < |idx| ==> 0 <= idx[k] < n)
      && (forall k, l :: 0 <= k < l < |idx| ==> idx[k] < idx[l])
      && (forall i :: i in idx <==> 0 <= i < n && IsUndefinedAt(fields, values, i))
  {
    if n > 0 {
      UndefinedIndicesExact(fields, values, n - 1);
    }
  }

  /** The k-th name post_init lists is the upper-cased name of the k-th undefined field. */
  lemma {:induction false} UndefinedNamesAtIndices(fields: seq<FieldDecl>, values: seq<Value>, n: nat)
    requires |values| == |fields| && n <= |fields|
    ensures var idx := UndefinedIndices(fields, values, n);
      && (forall k :: 0 <= k < |idx| ==> 0 <= idx[k] < |fields|)
      && |UndefinedNames(fields, values, n)| == |idx|
      && forall k :: 0 <= k < |idx| ==> UndefinedNames(fields, values, n)[k] == Upper(fields[idx[k]].name)
  {
    if n > 0 {
      UndefinedNamesAtIndices(fields, values, n - 1);
    }
  }

  /** The list post_init builds consists of the upper-cased names of exactly the
      undefined fields, each once, in declaration order. */
  lemma UndefinedNamesExact(fields: seq<FieldDecl>, values: seq<Value>)
    requires |values| == |fields|
    ensures var idx := UndefinedIndices(fields, values, |fields|);
      && (forall i :: i in idx <==> IsUndefinedAt(fields, values, i))
      && (forall k :: 0 <= k < |idx| ==> 0 <= idx[k] < |fields|)
      && (forall k, l :: 0 <= k < l < |idx| ==> idx[k] < idx[l])
      && |UndefinedNames(fields, values, |fields|)| == |idx|
      && forall k :: 0 <= k < |idx| ==> UndefinedNames(fields, values, |fields|)[k] == Upper(fields[idx[k]].name)
  {
    UndefinedIndicesExact(fields, values, |fields|);
    UndefinedNamesAtIndices(fields, values, |fields|);
  }

  /** The text of the RuntimeError post_init raises. */
  function UndefinedMessage(names: seq<string>): (r: string)
    ensures |UndefinedPrefix| <= |r| && r[..|UndefinedPrefix|] == UndefinedPrefix
    ensures |names| == 1 ==> r == UndefinedPrefix + names[0]
    ensures names == [] ==> r == UndefinedPrefix
  {
    UndefinedPrefix + Join(names, ", ")
  }

  /** Each undefined name stands in the message, in list order, after the fixed prefix. */
  lemma UndefinedMessageNames(names: seq<string>, k: nat)
    requires k < |names|
    ensures var at := |UndefinedPrefix| + JoinOffset(names, ", ", k);
      at + |names[k]| <= |UndefinedMessage(names)| && UndefinedMessage(names)[at..at + |names[k]|] == names[k]
  {
    var joined := Join(names, ", ");
    assert UndefinedMessage(names) == UndefinedPrefix + joined;
    JoinContains(names, ", ", k);
    SliceOfSuffix(UndefinedPrefix, joined, JoinOffset(names, ", ", k), |names[k]|);
  }

  /** Consecutive undefined names are separated in the message by exactly ", ". */
  lemma UndefinedMessageSeparators(names: seq<string>, k: nat)
    requires k + 1 < |names|
    ensures var from := |UndefinedPrefix| + JoinOffset(names, ", ", k) + |names[k]|;
      var to := |UndefinedPrefix| + JoinOffset(names, ", ", k + 1);
      from + 2 == to <= |UndefinedMessage(names)| && UndefinedMessage(names)[from..to] == ", "
  {
    var joined := Join(names, ", ");
    JoinSeparators(names, ", ", k);
    SliceOfSuffix(UndefinedPrefix, joined, JoinOffset(names, ", ", k) + |names[k]|, 2);
    assert UndefinedMessage(names) == UndefinedPrefix + joined;
  }

  /** The message ends with the last undefined name: nothing follows it. */
  lemma UndefinedMessageLength(names: seq<string>)
    requires names != []
    ensures |UndefinedMessage(names)| == |UndefinedPrefix| + JoinOffset(names, ", ", |names|) - 2
  {
    JoinLength(names, ", ");
  }

  /** post_init: unless errors are ignored, fail once, naming every undefined field. */
  function PostInit(fields: seq<FieldDecl>, values: seq<Value>, ignore: bool): (r: Outcome<Error>)
    requires |values| == |fields|
    ensures ignore ==> r == Pass
    ensures r.Fail? <==> !ignore && exists i :: IsUndefinedAt(fields, values, i)
    ensures r.Fail? ==> r.error == RuntimeError(UndefinedNames(fields, values, |fields|))
  {
    if ignore then Pass
    else
      var errors := UndefinedNames(fields, values, |fields|);
      if errors != [] then Fail(RuntimeError(errors)) else Pass
  }

  /** Instantiating the class with no arguments: every field takes its bound default,
      then post_init runs with the flag's default. */
  function Instantiate(cls: EnvClass): (r: Result<seq<Value>, Error>)
    requires |cls.defaults| == |cls.fields|
    ensures r.Ok? ==> r.value == cls.defaults
    ensures cls.ignoreErrors ==> r.Ok?
    ensures r.Err? <==> !cls.ignoreErrors && exists i :: IsUndefinedAt(cls.fields, cls.defaults, i)
    ensures r.Err? ==> r.error == RuntimeError(UndefinedNames(cls.fields, cls.defaults, |cls.fields|))
  {
    match PostInit(cls.fields, cls.defaults, cls.ignoreErrors)
    case Pass => Ok(cls.defaults)
    case Fail(e) => Err(e)
  }
}
