/** The library's own test fixtures, as values, and what the engine makes of
    them: the direct-transfer, method-invocation and parameter cases. */
module Scenarios {
  import opened Wrappers
  import opened Reflect
  import opened Resolution

  const StringT: Type := Class("java.lang.String")
  const IntegerT: Type := Class("java.lang.Integer")

  function StringOf(s: string): Value
  {
    Lit(ClassDecl("java.lang.String", {"java.lang.Object"}, [], [], None, None), s)
  }

  function IntegerOf(s: string): Value
  {
    Lit(BoxClass(Int), s)
  }

  const BooleanT: Type := Class("java.lang.Boolean")

  function BooleanOf(s: string): Value
  {
    Lit(BoxClass(Boolean), s)
  }

  /** No method qualifies, so the method scan yields nothing. */
  lemma NoCandidate(ms: seq<MethodDecl>, f: FieldDecl, data: Value, ctx: Ctx)
    requires forall i :: 0 <= i < |ms| ==> !Candidate(ms[i], f)
    ensures ByMethod(ms, f, data, ctx).None?
  {
  }

  /** An attempt settled by the direct copy. */
  lemma CopyStep(f: FieldDecl, data: Value, ctx: Ctx, fuel: nat, sf: FieldDecl)
    requires !data.Null? && ByMethod(ClassOf(data).methods, f, data, ctx).None?
    requires DeclaredField(ClassOf(data), f.name) == Some(sf) && Wrap(f.ty) == Wrap(sf.ty)
    requires !(f.ty.Primitive? && Read(data, sf).Null?)
    ensures Step(Some(f), data, ctx, fuel) == Assign(Read(data, sf))
  {
  }

  /** A run of one attempt that assigns. */
  lemma RunAssignOne(f1: FieldDecl, v1: Value, data: Value, state: map<string, Value>, ctx: Ctx, fuel: nat)
    requires Step(Some(f1), data, ctx, fuel) == Assign(v1)
    ensures Run([Some(f1)], data, state, ctx, fuel) == Outcome(state[f1.name := v1], None)
  {
    assert [Some(f1)][1..] == [];
  }

  /** A run of two attempts, the first assigning and the second keeping. */
  lemma RunAssignKeep(f1: FieldDecl, f2: FieldDecl, v1: Value, data: Value, state: map<string, Value>, ctx: Ctx, fuel: nat)
    requires Step(Some(f1), data, ctx, fuel) == Assign(v1) && Step(Some(f2), data, ctx, fuel) == Keep
    ensures Run([Some(f1), Some(f2)], data, state, ctx, fuel) == Outcome(state[f1.name := v1], None)
  {
    assert [Some(f1), Some(f2)][1..] == [Some(f2)] && [Some(f2)][1..] == [];
    assert Run([Some(f2)], data, state[f1.name := v1], ctx, fuel) == Run([], data, state[f1.name := v1], ctx, fuel);
  }

  /** A run of two attempts that each assign. */
  lemma RunAssignTwo(f1: FieldDecl, f2: FieldDecl, v1: Value, v2: Value,
                     data: Value, state: map<string, Value>, ctx: Ctx, fuel: nat)
    requires Step(Some(f1), data, ctx, fuel) == Assign(v1) && Step(Some(f2), data, ctx, fuel) == Assign(v2)
    ensures Run([Some(f1), Some(f2)], data, state, ctx, fuel) == Outcome(state[f1.name := v1][f2.name := v2], None)
  {
    assert [Some(f1), Some(f2)][1..] == [Some(f2)];
    RunAssignOne(f2, v2, data, state[f1.name := v1], ctx, fuel);
  }

  /** A run of three attempts that each assign. */
  lemma RunAssignThree(f1: FieldDecl, f2: FieldDecl, f3: FieldDecl, v1: Value, v2: Value, v3: Value,
                       data: Value, state: map<string, Value>, ctx: Ctx, fuel: nat)
    requires Step(Some(f1), data, ctx, fuel) == Assign(v1) && Step(Some(f2), data, ctx, fuel) == Assign(v2)
    requires Step(Some(f3), data, ctx, fuel) == Assign(v3)
    ensures Run([Some(f1), Some(f2), Some(f3)], data, state, ctx, fuel) ==
            Outcome(state[f1.name := v1][f2.name := v2][f3.name := v3], None)
  {
    assert [Some(f1), Some(f2), Some(f3)][1..] == [Some(f2), Some(f3)];
    RunAssignTwo(f2, f3, v2, v3, data, state[f1.name := v1], ctx, fuel);
  }

  /** `create` of a class whose population run ends without an exception. */
  lemma CreatedByRun(data: Value, c: ClassDecl, ctx: Ctx, fuel: nat, after: map<string, Value>)
    requires c.ctor.Some? && Run(Attempts(c, ctx.template), data, c.ctor.value, ctx, fuel) == Outcome(after, None)
    ensures Created(data, c, ctx, fuel) == Success(Obj(c, after))
  {
  }

  /** `Data1`: template "template1" lists `f1` and `f2`. */
  const Data1: ClassDecl := ClassDecl(
    "Data1", {"java.lang.Object"},
    [FieldDecl("f1", StringT), FieldDecl("f2", StringT), FieldDecl("fdata", Class("Data2"))],
    [],
    Some([Template("template1", ["f1", "f2"])]),
    Some(map["f1" := Null, "f2" := Null, "fdata" := Null]))

  /** `Data2`: an entity without templates. */
  const Data2: ClassDecl := ClassDecl(
    "Data2", {"java.lang.Object"},
    [FieldDecl("f1", IntegerT), FieldDecl("f2", IntegerT), FieldDecl("f3", StringT)],
    [],
    Some([]),
    Some(map["f1" := Null, "f2" := Null, "f3" := Null]))

  /** `Source`: fields `f1 = "Bulle"`, `int f2 = 123`, `boolean fx = true` and
      `Source2 fdata`, and the methods `Integer f1()` and `String _f3(Data1, Data3)`.
      Its field `latjo` is read only by the destination-method test, which this
      code does not pass, and is omitted. */
  const SourceClass: ClassDecl := ClassDecl(
    "Source", {"java.lang.Object"},
    [FieldDecl("f1", StringT), FieldDecl("f2", Primitive(Int)), FieldDecl("fx", Primitive(Boolean)),
     FieldDecl("fdata", Class("Source2"))],
    [MethodDecl("f1", IntegerT, []), MethodDecl("_f3", StringT, [Class("Data1"), Class("Data3")])],
    None,
    Some(map[]))

  /** `Source2`: `vilja = "Vilja"`, `Double hungra = 1.23`, `boolean sant = true`.
      Its field `int flyta`, which no destination names, is omitted. */
  const Source2Class: ClassDecl := ClassDecl(
    "Source2", {"java.lang.Object"},
    [FieldDecl("vilja", StringT), FieldDecl("hungra", Class("java.lang.Double")),
     FieldDecl("sant", Primitive(Boolean))],
    [],
    None,
    Some(map[]))

  const source2: Value := Ref(Obj(Source2Class, map["vilja" := StringOf("Vilja"),
                                                    "hungra" := Lit(BoxClass(Double), "1.23"), "sant" := BooleanOf("true")]))

  const source: Value := Ref(Obj(SourceClass, map["f1" := StringOf("Bulle"), "f2" := IntegerOf("123"),
                                                  "fx" := BooleanOf("true"), "fdata" := source2]))

  /** The bodies of `Source.f1()` (666) and `Source._f3` (its first argument's `f1`, or null). */
  function SourceMethods(receiver: Value, m: MethodDecl, args: seq<Value>): Option<Value>
  {
    if m.name == "f1" then Some(IntegerOf("666"))
    else if m.name == "_f3" && |args| == 2 then
      Some(if args[0].Ref? then Read(args[0], FieldDecl("f1", StringT)) else Null)
    else None
  }

  /** `Data3`: template "kvida" lists `fdata`, of entity type `Data4`. */
  const Data3: ClassDecl := ClassDecl(
    "Data3", {"java.lang.Object"},
    [FieldDecl("fdata", Class("Data4"))],
    [],
    Some([Template("kvida", ["fdata"])]),
    Some(map["fdata" := Null]))

  /** `Data4`: template "kvida" lists `hungra` and `vilja`. */
  const Data4: ClassDecl := ClassDecl(
    "Data4", {"java.lang.Object"},
    [FieldDecl("vilja", StringT), FieldDecl("hungra", Primitive(Double))],
    [],
    Some([Template("kvida", ["hungra", "vilja"])]),
    Some(map["vilja" := Null, "hungra" := Lit(BoxClass(Double), "0.0")]))

  /** `Data9`: template "primitive" lists `fx`, `f2` and `fdata`, of entity type `Data10`. */
  const Data9: ClassDecl := ClassDecl(
    "Data9", {"java.lang.Object"},
    [FieldDecl("fx", BooleanT), FieldDecl("f2", IntegerT), FieldDecl("fdata", Class("Data10"))],
    [],
    Some([Template("primitive", ["fx", "f2", "fdata"])]),
    Some(map["fx" := Null, "f2" := Null, "fdata" := Null]))

  /** `Data10`: template "primitive" lists `sant`. */
  const Data10: ClassDecl := ClassDecl(
    "Data10", {"java.lang.Object"},
    [FieldDecl("sant", BooleanT)],
    [],
    Some([Template("primitive", ["sant"])]),
    Some(map["sant" := Null]))

  const world: World := World(map["Data1" := Data1, "Data2" := Data2, "Data3" := Data3, "Data4" := Data4,
                                  "Data9" := Data9, "Data10" := Data10], SourceMethods)

  const template1: Ctx := Ctx(world, Some("template1"), [])

  /** `Data1.f1`: the `String f1` source field copied as is. */
  lemma Data1F1(ctx: Ctx, fuel: nat)
    ensures Step(Some(FieldDecl("f1", StringT)), source, ctx, fuel) == Assign(StringOf("Bulle"))
  {
    var f1 := FieldDecl("f1", StringT);
    var ms := SourceClass.methods;
    assert !Candidate(ms[0], f1) && !Candidate(ms[1], f1) by {
      assert ms[0].ret != f1.ty;
      assert ms[1].name != "f1" && ms[1].name != "_f1" by { assert ms[1].name[1] == 'f' && ms[1].name[2] == '3'; }
    }
    NoCandidate(ms, f1, source, ctx);
    CopyStep(f1, source, ctx, fuel, f1);
  }

  /** `Data1.f2`: no method, and `int f2` does not fit a `String`, which is no
      entity: the field is left as it was. */
  lemma Data1F2(ctx: Ctx, fuel: nat)
    requires ctx.world == world
    ensures Step(Some(FieldDecl("f2", StringT)), source, ctx, fuel) == Keep
  {
    var f2, sf := FieldDecl("f2", StringT), FieldDecl("f2", Primitive(Int));
    var ms := SourceClass.methods;
    assert !Candidate(ms[0], f2) && !Candidate(ms[1], f2) by {
      assert ms[0].name != "f2" && ms[0].name != "_f2" by { assert ms[0].name[1] == '1'; }
      assert ms[1].name != "f2" && ms[1].name != "_f2" by { assert ms[1].name[2] == '3'; }
    }
    NoCandidate(ms, f2, source, ctx);
    assert DeclaredField(SourceClass, "f2") == Some(sf) by {
      assert "f1" != "f2" by { assert "f1"[1] != "f2"[1]; }
      assert SourceClass.fields[1..][0] == sf;
    }
    assert Wrap(sf.ty) != Wrap(StringT) by { assert BoxName(Int)[10] == 'I'; }
    assert ByCopy(f2, source) == Keep;
    assert StringT.name !in world.reg by {
      forall k | k in world.reg ensures k != StringT.name { assert k[0] == 'D'; }
    }
    assert ByNesting(f2, source, ctx, fuel) == Keep;
  }

  lemma Data1Attempts()
    ensures Attempts(Data1, template1.template) == [Some(FieldDecl("f1", StringT)), Some(FieldDecl("f2", StringT))]
  {
    assert EqualsIgnoreCase("template1", Some("template1"));
    assert TemplateFields(Data1, template1.template) == Some(["f1", "f2"]);
    assert DeclaredField(Data1, "f2") == Some(FieldDecl("f2", StringT)) by {
      assert "f1" != "f2" by { assert "f1"[1] != "f2"[1]; }
      assert Data1.fields[1..][0] == FieldDecl("f2", StringT);
    }
  }

  lemma Data1Run(ctx: Ctx, fuel: nat)
    requires ctx.world == world
    ensures Run([Some(FieldDecl("f1", StringT)), Some(FieldDecl("f2", StringT))], source, Data1.ctor.value, ctx, fuel) ==
            Outcome(map["f1" := StringOf("Bulle"), "f2" := Null, "fdata" := Null], None)
  {
    Data1F1(ctx, fuel);
    Data1F2(ctx, fuel);
    RunAssignKeep(FieldDecl("f1", StringT), FieldDecl("f2", StringT), StringOf("Bulle"), source, Data1.ctor.value, ctx, fuel);
    Data1Updated();
  }

  /** The constructed state with the run's assignments, as one map. */
  lemma Data1Updated()
    ensures Data1.ctor.value["f1" := StringOf("Bulle")] == map["f1" := StringOf("Bulle"), "f2" := Null, "fdata" := Null]
  {
  }

  /** testDirectTransfer: under "template1", `f1` is copied, `f2` (listed, but
      `int` is not `String`) and `fdata` (unlisted) stay null. */
  lemma DirectTransfer()
    ensures Created(source, Data1, template1, 1) ==
            Success(Obj(Data1, map["f1" := StringOf("Bulle"), "f2" := Null, "fdata" := Null]))
  {
    Data1Attempts();
    Data1Run(template1, 1);
    CreatedByRun(source, Data1, template1, 1, map["f1" := StringOf("Bulle"), "f2" := Null, "fdata" := Null]);
  }

  const untemplated: Ctx := Ctx(world, None, [])

  lemma Data2F1()
    ensures Step(Some(FieldDecl("f1", IntegerT)), source, untemplated, 1) == Assign(IntegerOf("666"))
  {
    var ms := SourceClass.methods;
    assert Candidate(ms[0], FieldDecl("f1", IntegerT));
  }

  lemma Data2F2()
    ensures Step(Some(FieldDecl("f2", IntegerT)), source, untemplated, 1) == Assign(IntegerOf("123"))
  {
    var f2 := FieldDecl("f2", IntegerT);
    var ms := SourceClass.methods;
    assert !Candidate(ms[0], f2) && !Candidate(ms[1], f2) by {
      assert ms[0].name != "f2" && ms[0].name != "_f2" by { assert ms[0].name[1] == '1'; }
      assert ms[1].name != "f2" && ms[1].name != "_f2" by { assert ms[1].name[2] == '3'; }
    }
    assert ByMethod(ms, f2, source, untemplated) == None;
    assert "f1" != "f2" by { assert "f1"[1] != "f2"[1]; }
    assert DeclaredField(SourceClass, "f2") == Some(FieldDecl("f2", Primitive(Int))) by {
      assert SourceClass.fields[1..][0] == FieldDecl("f2", Primitive(Int));
    }
    assert ByCopy(f2, source) == Assign(IntegerOf("123"));
  }

  lemma Data2F3()
    ensures Step(Some(FieldDecl("f3", StringT)), source, untemplated, 1) == Assign(Null)
  {
    var f3 := FieldDecl("f3", StringT);
    var ms := SourceClass.methods;
    assert !Candidate(ms[0], f3) by { assert ms[0].name != "f3" && ms[0].name != "_f3" by { assert ms[0].name[1] == '1'; } }
    assert Candidate(ms[1], f3);
    assert !Disqualified(ms[1].params, []);
    assert Slots(ms[1].params, []).value == [Null, Null];
    assert ByMethod(ms, f3, source, untemplated) == Some(Null) by {
      assert ms[1..][0] == ms[1];
    }
  }

  lemma Data2Attempts()
    ensures Attempts(Data2, None) == [Some(FieldDecl("f1", IntegerT)), Some(FieldDecl("f2", IntegerT)), Some(FieldDecl("f3", StringT))]
  {
  }

  lemma Data2Run()
    ensures Run([Some(FieldDecl("f1", IntegerT)), Some(FieldDecl("f2", IntegerT)), Some(FieldDecl("f3", StringT))],
                source, Data2.ctor.value, untemplated, 1) ==
            Outcome(map["f1" := IntegerOf("666"), "f2" := IntegerOf("123"), "f3" := Null], None)
  {
    Data2F1();
    Data2F2();
    Data2F3();
    RunAssignThree(FieldDecl("f1", IntegerT), FieldDecl("f2", IntegerT), FieldDecl("f3", StringT),
                   IntegerOf("666"), IntegerOf("123"), Null, source, Data2.ctor.value, untemplated, 1);
    Data2Updated();
  }

  lemma Data2Updated()
    ensures Data2.ctor.value["f1" := IntegerOf("666")]["f2" := IntegerOf("123")]["f3" := Null] ==
            map["f1" := IntegerOf("666"), "f2" := IntegerOf("123"), "f3" := Null]
  {
  }

  /** testMethodInvocationTransfer: `f1` from the method `f1()` (666, although a
      `String f1` field exists), `f2` copied from `int f2`, and `f3` from
      `_f3(null, null)`, which returns null. */
  lemma MethodInvocationTransfer()
    ensures Created(source, Data2, untemplated, 1) ==
            Success(Obj(Data2, map["f1" := IntegerOf("666"), "f2" := IntegerOf("123"), "f3" := Null]))
  {
    Data2Attempts();
    Data2Run();
    CreatedByRun(source, Data2, untemplated, 1, map["f1" := IntegerOf("666"), "f2" := IntegerOf("123"), "f3" := Null]);
  }

  /** `Data1` used as a parameter, with `f1 = "param f1"`, and a `Data3` instance. */
  const param: Param := Ref(Obj(Data1, map["f1" := StringOf("param f1")]))
  const param3: Param := Ref(Obj(Data3, map[]))

  lemma ParamF3Both()
    ensures Resolve(FieldDecl("f3", StringT), source, Ctx(world, None, [param, param3]), 1) == Assign(StringOf("param f1"))
  {
    var f3 := FieldDecl("f3", StringT);
    var ms := SourceClass.methods;
    assert !Candidate(ms[0], f3) by { assert ms[0].name != "f3" && ms[0].name != "_f3" by { assert ms[0].name[1] == '1'; } }
    assert ms[1..][0] == ms[1];
    assert "Data1" != "Data3" by { assert "Data1"[4] != "Data3"[4]; }
    assert "java.lang.Object" != "Data3" by { assert "java.lang.Object"[0] != "Data3"[0]; }
    assert !Assignable(Class("Data3"), param);
    assert !Assignable(Class("Data1"), param3);
    assert FirstAssignable(Class("Data1"), [param, param3]) == Some(param);
    assert FirstAssignable(Class("Data3"), [param, param3]) == Some(param3) by {
      assert [param, param3][1..] == [param3];
    }
    assert !Disqualified(ms[1].params, [param, param3]);
    assert Slots(ms[1].params, [param, param3]).value == [param, param3];
    assert ByMethod(ms, f3, source, Ctx(world, None, [param, param3])) == Some(StringOf("param f1"));
  }

  lemma ParamF3Alone()
    ensures Resolve(FieldDecl("f3", StringT), source, Ctx(world, None, [param]), 1) == Assign(StringOf("param f1"))
  {
    var f3 := FieldDecl("f3", StringT);
    var ms := SourceClass.methods;
    assert !Candidate(ms[0], f3) by { assert ms[0].name != "f3" && ms[0].name != "_f3" by { assert ms[0].name[1] == '1'; } }
    assert ms[1..][0] == ms[1];
    assert "Data1" != "Data3" by { assert "Data1"[4] != "Data3"[4]; }
    assert "java.lang.Object" != "Data3" by { assert "java.lang.Object"[0] != "Data3"[0]; }
    assert !Assignable(Class("Data3"), param);
    assert FirstAssignable(Class("Data1"), [param]) == Some(param);
    assert FirstAssignable(Class("Data3"), [param]) == None;
    assert !Disqualified(ms[1].params, [param]);
    assert Slots(ms[1].params, [param]).value == [param, Null];
    assert ByMethod(ms, f3, source, Ctx(world, None, [param])) == Some(StringOf("param f1"));
  }

  /** testParam: `_f3` receives the `Data1` parameter in its first slot, whether
      or not the `Data3` parameter is also supplied. */
  lemma ParamTransfer()
    ensures Resolve(FieldDecl("f3", StringT), source, Ctx(world, None, [param, param3]), 1) == Assign(StringOf("param f1"))
    ensures Resolve(FieldDecl("f3", StringT), source, Ctx(world, None, [param]), 1) == Assign(StringOf("param f1"))
  {
    ParamF3Both();
    ParamF3Alone();
  }

  const kvida: Ctx := Ctx(world, Some("kvida"), [])

  const nestedData4: Obj := Obj(Data4, map["vilja" := StringOf("Vilja"), "hungra" := Lit(BoxClass(Double), "1.23")])

  /** The nested `Data4`, built from `Source2` under "kvida". */
  lemma Data4Attempts()
    ensures Attempts(Data4, kvida.template) == [Some(FieldDecl("hungra", Primitive(Double))), Some(FieldDecl("vilja", StringT))]
  {
    assert EqualsIgnoreCase("kvida", Some("kvida"));
    assert TemplateFields(Data4, kvida.template) == Some(["hungra", "vilja"]);
    assert "vilja" != "hungra" by { assert "vilja"[0] != "hungra"[0]; }
    assert DeclaredField(Data4, "hungra") == Some(Data4.fields[1]) by { assert Data4.fields[1..][0] == Data4.fields[1]; }
  }

  /** `Data4.hungra`: a `Double` source field copied into a `double`. */
  lemma Data4Hungra(ctx: Ctx, fuel: nat)
    ensures Step(Some(FieldDecl("hungra", Primitive(Double))), source2, ctx, fuel) == Assign(Lit(BoxClass(Double), "1.23"))
  {
    var hungra, sf := FieldDecl("hungra", Primitive(Double)), FieldDecl("hungra", Class("java.lang.Double"));
    assert DeclaredField(Source2Class, "hungra") == Some(sf) by {
      assert "vilja" != "hungra" by { assert "vilja"[0] != "hungra"[0]; }
      assert Source2Class.fields[1..][0] == sf;
    }
    NoCandidate(Source2Class.methods, hungra, source2, ctx);
    CopyStep(hungra, source2, ctx, fuel, sf);
  }

  /** `Data4.vilja`: a `String` source field copied as is. */
  lemma Data4Vilja(ctx: Ctx, fuel: nat)
    ensures Step(Some(FieldDecl("vilja", StringT)), source2, ctx, fuel) == Assign(StringOf("Vilja"))
  {
    var vilja := FieldDecl("vilja", StringT);
    NoCandidate(Source2Class.methods, vilja, source2, ctx);
    CopyStep(vilja, source2, ctx, fuel, vilja);
  }

  lemma Data4Run()
    ensures Run([Some(FieldDecl("hungra", Primitive(Double))), Some(FieldDecl("vilja", StringT))],
                source2, Data4.ctor.value, kvida, 0) == Outcome(nestedData4.state, None)
  {
    Data4Hungra(kvida, 0);
    Data4Vilja(kvida, 0);
    RunAssignTwo(FieldDecl("hungra", Primitive(Double)), FieldDecl("vilja", StringT),
                 Lit(BoxClass(Double), "1.23"), StringOf("Vilja"), source2, Data4.ctor.value, kvida, 0);
    Data4Updated();
  }

  lemma Data4Updated()
    ensures Data4.ctor.value["hungra" := Lit(BoxClass(Double), "1.23")]["vilja" := StringOf("Vilja")] == nestedData4.state
  {
  }

  lemma NestedData4()
    ensures Created(source2, Data4, kvida, 0) == Success(nestedData4)
  {
    Data4Attempts();
    Data4Run();
    CreatedByRun(source2, Data4, kvida, 0, nestedData4.state);
  }

  /** `Data3.fdata`: no method, no copy (`Source2` is not `Data4`), so nesting. */
  lemma Data3FData()
    ensures Step(Some(FieldDecl("fdata", Class("Data4"))), source, kvida, 1) == Assign(Ref(nestedData4))
  {
    var fdata := FieldDecl("fdata", Class("Data4"));
    var ms := SourceClass.methods;
    assert !Candidate(ms[0], fdata) && !Candidate(ms[1], fdata) by {
      assert ms[0].ret != fdata.ty && ms[1].ret != fdata.ty;
    }
    assert ByMethod(ms, fdata, source, kvida) == None;
    var sf := FieldDecl("fdata", Class("Source2"));
    assert DeclaredField(SourceClass, "fdata") == Some(sf) by {
      var fs := SourceClass.fields;
      assert fs[0].name != "fdata" by { assert fs[0].name[1] != "fdata"[1]; }
      assert fs[1].name != "fdata" by { assert fs[1].name[1] != "fdata"[1]; }
      assert fs[2].name != "fdata" by { assert fs[2].name[1] != "fdata"[1]; }
      assert fs[1..][1..][1..][0] == fs[3];
    }
    assert Wrap(sf.ty) != Wrap(fdata.ty) by { assert "Source2"[0] != "Data4"[0]; }
    assert EntityClass(world, fdata.ty) == Some(Data4);
    assert Read(source, sf) == source2;
    NestedData4();
  }

  /** testNested: under "kvida", `Data3.fdata` becomes a new `Data4` populated
      from `Source.fdata` under the same name, so with `hungra` (a `Double`
      copied into a `double`) and `vilja`. */
  lemma NestedTransfer()
    ensures Created(source, Data3, kvida, 1) == Success(Obj(Data3, map["fdata" := Ref(nestedData4)]))
  {
    assert EqualsIgnoreCase("kvida", Some("kvida"));
    var fdata := FieldDecl("fdata", Class("Data4"));
    var attempts := Attempts(Data3, kvida.template);
    assert attempts == [Some(fdata)];
    Data3FData();
    assert attempts[1..] == [];
    Data3Updated();
  }

  lemma Data3Updated()
    ensures Data3.ctor.value["fdata" := Ref(nestedData4)] == map["fdata" := Ref(nestedData4)]
  {
  }

  const primitive: Ctx := Ctx(world, Some("primitive"), [])

  const nestedData10: Obj := Obj(Data10, map["sant" := BooleanOf("true")])

  /** The nested `Data10`, built from `Source2` under "primitive": `sant` is
      copied from `boolean sant`. */
  lemma NestedData10()
    ensures Created(source2, Data10, primitive, 0) == Success(nestedData10)
  {
    var sant := FieldDecl("sant", BooleanT);
    assert EqualsIgnoreCase("primitive", Some("primitive"));
    assert Attempts(Data10, primitive.template) == [Some(sant)] by {
      assert TemplateFields(Data10, primitive.template) == Some(["sant"]);
    }
    assert DeclaredField(Source2Class, "sant") == Some(FieldDecl("sant", Primitive(Boolean))) by {
      var fs := Source2Class.fields;
      assert fs[0].name != "sant" && fs[1].name != "sant" by {
        assert fs[0].name[0] != 's' && fs[1].name[0] != 's';
      }
      assert fs[1..][1..][0] == fs[2];
    }
    assert Step(Some(sant), source2, primitive, 0) == Assign(BooleanOf("true"));
    RunAssignOne(sant, BooleanOf("true"), source2, Data10.ctor.value, primitive, 0);
    Data10Updated();
    CreatedByRun(source2, Data10, primitive, 0, nestedData10.state);
  }

  lemma Data10Updated()
    ensures Data10.ctor.value["sant" := BooleanOf("true")] == nestedData10.state
  {
  }

  lemma Data9Attempts()
    ensures Attempts(Data9, primitive.template) ==
            [Some(FieldDecl("fx", BooleanT)), Some(FieldDecl("f2", IntegerT)), Some(FieldDecl("fdata", Class("Data10")))]
  {
    assert EqualsIgnoreCase("primitive", Some("primitive"));
    assert TemplateFields(Data9, primitive.template) == Some(["fx", "f2", "fdata"]);
    var fs := Data9.fields;
    assert DeclaredField(Data9, "f2") == Some(fs[1]) by {
      assert fs[0].name != "f2" by { assert fs[0].name[1] != "f2"[1]; }
      assert fs[1..][0] == fs[1];
    }
    assert DeclaredField(Data9, "fdata") == Some(fs[2]) by {
      assert fs[0].name != "fdata" && fs[1].name != "fdata" by {
        assert fs[0].name[1] != "fdata"[1] && fs[1].name[1] != "fdata"[1];
      }
      assert fs[1..][1..][0] == fs[2];
    }
  }

  /** `Data9.fx`: a `boolean` source field copied into a `Boolean`, whatever
      the template, parameters and depth. */
  lemma Data9Fx(ctx: Ctx, fuel: nat)
    ensures Step(Some(FieldDecl("fx", BooleanT)), source, ctx, fuel) == Assign(BooleanOf("true"))
  {
    var fx, sf := FieldDecl("fx", BooleanT), FieldDecl("fx", Primitive(Boolean));
    var ms := SourceClass.methods;
    assert DeclaredField(SourceClass, "fx") == Some(sf) by {
      var fs := SourceClass.fields;
      assert fs[0].name != "fx" && fs[1].name != "fx" by { assert fs[0].name[1] != 'x' && fs[1].name[1] != 'x'; }
      assert fs[1..][1..][0] == sf;
    }
    assert !Candidate(ms[0], fx) && !Candidate(ms[1], fx) by {
      assert ms[0].ret != fx.ty && ms[1].ret != fx.ty;
    }
    NoCandidate(ms, fx, source, ctx);
    CopyStep(fx, source, ctx, fuel, sf);
  }

  /** `Data9.f2`: an `int` source field copied into an `Integer`, whatever the
      template, parameters and depth. */
  lemma Data9F2(ctx: Ctx, fuel: nat)
    ensures Step(Some(FieldDecl("f2", IntegerT)), source, ctx, fuel) == Assign(IntegerOf("123"))
  {
    var f2, sf := FieldDecl("f2", IntegerT), FieldDecl("f2", Primitive(Int));
    var ms := SourceClass.methods;
    assert DeclaredField(SourceClass, "f2") == Some(sf) by {
      assert "f1" != "f2" by { assert "f1"[1] != "f2"[1]; }
      assert SourceClass.fields[1..][0] == sf;
    }
    assert !Candidate(ms[0], f2) by { assert ms[0].name != "f2" && ms[0].name != "_f2" by { assert ms[0].name[1] == '1'; } }
    assert !Candidate(ms[1], f2) by { assert ms[1].ret != f2.ty; }
    NoCandidate(ms, f2, source, ctx);
    CopyStep(f2, source, ctx, fuel, sf);
  }

  /** `Data9.fdata`: no method, no copy (`Source2` is not `Data10`), so nesting. */
  lemma Data9FData()
    ensures Step(Some(FieldDecl("fdata", Class("Data10"))), source, primitive, 1) == Assign(Ref(nestedData10))
  {
    var fdata := FieldDecl("fdata", Class("Data10"));
    var ms := SourceClass.methods;
    assert !Candidate(ms[0], fdata) && !Candidate(ms[1], fdata) by {
      assert ms[0].ret != fdata.ty && ms[1].ret != fdata.ty;
    }
    assert ByMethod(ms, fdata, source, primitive) == None;
    var sf := FieldDecl("fdata", Class("Source2"));
    assert DeclaredField(SourceClass, "fdata") == Some(sf) by {
      var fs := SourceClass.fields;
      assert fs[0].name != "fdata" by { assert fs[0].name[1] != "fdata"[1]; }
      assert fs[1].name != "fdata" by { assert fs[1].name[1] != "fdata"[1]; }
      assert fs[2].name != "fdata" by { assert fs[2].name[1] != "fdata"[1]; }
      assert fs[1..][1..][1..][0] == fs[3];
    }
    assert Wrap(sf.ty) != Wrap(fdata.ty) by { assert "Source2"[0] != "Data10"[0]; }
    assert EntityClass(world, fdata.ty) == Some(Data10);
    assert Read(source, sf) == source2;
    NestedData10();
  }

  lemma Data9Run()
    ensures Run([Some(FieldDecl("fx", BooleanT)), Some(FieldDecl("f2", IntegerT)), Some(FieldDecl("fdata", Class("Data10")))],
                source, Data9.ctor.value, primitive, 1) ==
            Outcome(map["fx" := BooleanOf("true"), "f2" := IntegerOf("123"), "fdata" := Ref(nestedData10)], None)
  {
    Data9Fx(primitive, 1);
    Data9F2(primitive, 1);
    Data9FData();
    RunAssignThree(FieldDecl("fx", BooleanT), FieldDecl("f2", IntegerT), FieldDecl("fdata", Class("Data10")),
                   BooleanOf("true"), IntegerOf("123"), Ref(nestedData10), source, Data9.ctor.value, primitive, 1);
    Data9Updated();
  }

  lemma Data9Updated()
    ensures Data9.ctor.value["fx" := BooleanOf("true")]["f2" := IntegerOf("123")]["fdata" := Ref(nestedData10)] ==
            map["fx" := BooleanOf("true"), "f2" := IntegerOf("123"), "fdata" := Ref(nestedData10)]
  {
  }

  /** testPrimitives: under "primitive", `fx` and `f2` are copied from the
      primitive `boolean fx` and `int f2` into their boxed fields, and `fdata`
      becomes a new `Data10` whose `sant` is copied from `boolean sant`. */
  lemma PrimitiveTransfer()
    ensures Created(source, Data9, primitive, 1) ==
            Success(Obj(Data9, map["fx" := BooleanOf("true"), "f2" := IntegerOf("123"), "fdata" := Ref(nestedData10)]))
  {
    Data9Attempts();
    Data9Run();
    CreatedByRun(source, Data9, primitive, 1,
                 map["fx" := BooleanOf("true"), "f2" := IntegerOf("123"), "fdata" := Ref(nestedData10)]);
  }
}
