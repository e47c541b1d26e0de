/** The scenarios of the envclasses test suite, proved against the model: one class
    declared three times under different environments. */
module EnvClassesScenarios {
  import opened Wrappers
  import opened Text
  import opened Decimal
  import opened EnvClasses

  const StrWithDefault := FieldDecl("str_field", StrType, Some(PyStr("")))
  const StrNoDefault := FieldDecl("str_field", StrType, None)
  const IntDecl := FieldDecl("int_field", IntType, Some(PyInt(8888)))
  const BoolDecl := FieldDecl("bool_field", BoolType, Some(PyBool(false)))

  /** The variables the suite sets, in lower case, plus ENV_IGNORE_ERRORS when given. */
  function TestEnv(ignore: Option<string>): Environ {
    var env := map["int_field" := "8080", "bool_field" := "yes"];
    match ignore
    case Some(x) => env["ENV_IGNORE_ERRORS" := x]
    case None => env
  }

  /** The field names are lower case, so only their lower-case variables can be set. */
  lemma FieldNames(ignore: Option<string>)
    ensures Lower("str_field") == "str_field" && Upper("str_field") !in TestEnv(ignore)
    ensures Lower("int_field") == "int_field" && Upper("int_field") !in TestEnv(ignore)
    ensures Lower("bool_field") == "bool_field" && Upper("bool_field") !in TestEnv(ignore)
    ensures "str_field" !in TestEnv(ignore)
    ensures Upper("str_field") == "STR_FIELD"
  {
    LowerOfLowerCase("str_field");
    LowerOfLowerCase("int_field");
    LowerOfLowerCase("bool_field");
    var u := Upper("str_field");
    assert u[0] == 'S' && u[1] == 'T' && u[2] == 'R' && u[3] == '_' && u[4] == 'F';
    assert u[5] == 'I' && u[6] == 'E' && u[7] == 'L' && u[8] == 'D';
    assert Upper("int_field")[0] == 'I' && Upper("int_field")[1] == 'N';
    assert Upper("bool_field")[0] == 'B';
  }

  /** int("8080") == 8080 */
  lemma Parse8080()
    ensures ParseInt("8080") == Some(8080)
  {
    var s := "8080";
    assert AllDigits(s);
    assert DigitsValue("8") == 8 by { assert "8"[..0] == ""; }
    assert DigitsValue("80") == 80 by { assert "80"[..1] == "8"; }
    assert DigitsValue("808") == 808 by { assert "808"[..2] == "80"; }
    assert DigitsValue(s) == 8080 by { assert s[..3] == "808"; }
  }

  /** With `int_field=8080` and `bool_field=yes` set in lower case, str_field binds to its
      default, int_field to 8080 over its default 8888, and bool_field to True. */
  lemma BoundFields(ignore: Option<string>, str: FieldDecl)
    requires str == StrWithDefault || str == StrNoDefault
    ensures BoundField(TestEnv(ignore), str) == Ok(DefaultOf(str))
    ensures BoundField(TestEnv(ignore), IntDecl) == Ok(PyInt(8080))
    ensures BoundField(TestEnv(ignore), BoolDecl) == Ok(PyBool(true))
  {
    FieldNames(ignore);
    assert Resolve(TestEnv(ignore), IntDecl) == PyStr("8080");
    Parse8080();
    assert Resolve(TestEnv(ignore), BoolDecl) == PyStr("yes");
    LowerOfLowerCase("yes");
  }

  /** The three bound defaults, field by field. */
  lemma BoundTestClass(ignore: Option<string>, str: FieldDecl)
    requires str == StrWithDefault || str == StrNoDefault
    ensures var decls := [str, IntDecl, BoolDecl];
      forall i :: 0 <= i < |decls| ==>
        BoundField(TestEnv(ignore), decls[i]) == Ok([DefaultOf(str), PyInt(8080), PyBool(true)][i])
  {
    BoundFields(ignore, str);
  }

  /** ENV_IGNORE_ERRORS unset or "no" gives False, "yes" gives True. */
  lemma IgnoreFlags(ignore: Option<string>)
    requires ignore == None || ignore == Some("no") || ignore == Some("yes")
    ensures IgnoreFlag(TestEnv(ignore)) == Ok(ignore == Some("yes"))
  {
    LowerOfLowerCase("no");
    LowerOfLowerCase("yes");
    assert "ENV_IGNORE_ERRORS" !in TestEnv(None);
  }

  /** Creating the test class under the suite's environment: the first exception-free
      path through the binding loop, with each field bound as the tests expect. */
  method CreateTestClass(ignore: Option<string>, str: FieldDecl) returns (c: EnvClass)
    requires ignore == None || ignore == Some("no") || ignore == Some("yes")
    requires str == StrWithDefault || str == StrNoDefault
    ensures c == EnvClass([str, IntDecl, BoolDecl], [DefaultOf(str), PyInt(8080), PyBool(true)], ignore == Some("yes"))
  {
    var decls := [str, IntDecl, BoolDecl];
    var values := [DefaultOf(str), PyInt(8080), PyBool(true)];
    BoundTestClass(ignore, str);
    IgnoreFlags(ignore);
    var cls := NewEnvClass(TestEnv(ignore), decls);
    c := cls.value;
    assert c.defaults == values;
  }

  /** Lower-case variables override the class defaults; str_field keeps its default "". */
  method DefaultsOverridden() returns (instance: Result<seq<Value>, Error>)
    ensures instance == Ok([PyStr(""), PyInt(8080), PyBool(true)])
  {
    var c := CreateTestClass(None, StrWithDefault);
    assert !IsUndefinedAt(c.fields, c.defaults, 0) && !IsUndefinedAt(c.fields, c.defaults, 1);
    assert !IsUndefinedAt(c.fields, c.defaults, 2);
    instance := Instantiate(c);
  }

  lemma UndefinedStrFieldMessage()
    ensures UndefinedMessage(["STR_FIELD"]) == "The following environment variables are undefined: STR_FIELD"
  {
    assert Join(["STR_FIELD"], ", ") == "STR_FIELD";
  }

  /** With ENV_IGNORE_ERRORS=no, the unset str_field makes construction fail, naming STR_FIELD. */
  method MissingFieldRaises() returns (instance: Result<seq<Value>, Error>)
    ensures instance == Err(RuntimeError(["STR_FIELD"]))
    ensures UndefinedMessage(instance.error.undefined) == "The following environment variables are undefined: STR_FIELD"
  {
    FieldNames(Some("no"));
    var c := CreateTestClass(Some("no"), StrNoDefault);
    assert IsUndefinedAt(c.fields, c.defaults, 0);
    instance := Instantiate(c);
    assert UndefinedNames(c.fields, c.defaults, 3) == [Upper("str_field")] by {
      assert !IsUndefinedAt(c.fields, c.defaults, 1) && !IsUndefinedAt(c.fields, c.defaults, 2);
      assert UndefinedNames(c.fields, c.defaults, 1) == [Upper("str_field")];
      assert UndefinedNames(c.fields, c.defaults, 2) == [Upper("str_field")];
    }
    UndefinedStrFieldMessage();
  }

  /** With ENV_IGNORE_ERRORS=yes, construction succeeds and str_field stays None. */
  method MissingFieldIgnored() returns (instance: Result<seq<Value>, Error>)
    ensures instance == Ok([PyNone, PyInt(8080), PyBool(true)])
  {
    var c := CreateTestClass(Some("yes"), StrNoDefault);
    instance := Instantiate(c);
  }
}
