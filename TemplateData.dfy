/** The imperative engine: `populate` and `addField` write the destination's
    fields in place, `create`, `createList` and `fill` are the public entry
    points. Each method is proved to compute what module Resolution specifies. */
module TemplateData {
  import opened Wrappers
  import opened Reflect
  import opened Resolution

  /** A destination object: its class, and its field values, which population
      writes in place. */
  class Instance {
    const cls: ClassDecl
    var state: map<string, Value>

    /** A no-argument construction of `c`, yielding `init`. */
    constructor (c: ClassDecl, init: map<string, Value>)
      ensures cls == c && state == init
    {
      cls := c;
      state := init;
    }

    /** The object as a value, as it is stored in a field that refers to it. */
    function Snapshot(): Obj
      reads this
    {
      Obj(cls, state)
    }
  }

  /** The labelled `outer` loop of `addField`: each slot takes the first
      parameter assignable to it; an unfilled reference slot takes null and an
      unfilled primitive slot clears `ok`. */
  method FillSlots(slots: seq<Type>, ps: seq<Param>) returns (args: seq<Value>, ok: bool)
    ensures ok <==> Slots(slots, ps).Some?
    ensures ok ==> args == Slots(slots, ps).value
  {
    var invokeParams := new Value[|slots|](_ => Null);
    ok := true;
    label outer:
    for i := 0 to |slots|
      invariant ok <==> forall k :: 0 <= k < i ==> !(slots[k].Primitive? && FirstAssignable(slots[k], ps).None?)
      invariant ok ==> Filled(invokeParams[..], slots, ps, i)
    {
      var slot := slots[i];
      ghost var before := invokeParams[..];
      for j := 0 to |ps|
        invariant forall k :: 0 <= k < j ==> !Assignable(slot, ps[k])
        invariant invokeParams[..] == before
      {
        if Assignable(slot, ps[j]) {
          invokeParams[i] := ps[j];
          FirstAssignableAt(slot, ps, j);
          continue outer;
        }
      }
      assert FirstAssignable(slot, ps).None?;
      if slot.Primitive? {
        ok := false;
      } else {
        invokeParams[i] := Null;
      }
    }
    args := invokeParams[..];
    if ok {
      assert !Disqualified(slots, ps);
      assert args == Slots(slots, ps).value;
    }
  }

  /** The first `i` arguments hold the values their slots receive. */
  ghost predicate Filled(args: seq<Value>, slots: seq<Type>, ps: seq<Param>, i: nat)
  {
    i <= |args| && i <= |slots| && forall k :: 0 <= k < i ==> args[k] == SlotValue(slots[k], ps)
  }

  /** The parameter at `j` is the first one the slot accepts. */
  lemma FirstAssignableAt(slot: Type, ps: seq<Param>, j: nat)
    requires j < |ps| && Assignable(slot, ps[j])
    requires forall k :: 0 <= k < j ==> !Assignable(slot, ps[k])
    ensures FirstAssignable(slot, ps) == Some(ps[j])
  {
  }

  /** The destination state after one attempt with effect `e` on field `name`. */
  function Apply(state: map<string, Value>, name: string, e: Effect): map<string, Value>
  {
    if e.Assign? then state[name := e.v] else state
  }

  /** The search loop of `populate`: the field list of the first template
      whose name equals `template` ignoring case, or null. */
  method FindTemplateFields(c: ClassDecl, template: Option<string>) returns (fields: Option<seq<string>>)
    ensures fields == TemplateFields(c, template)
  {
    fields := None;
    if c.entity.Some? {
      var templates := c.entity.value;
      for i := 0 to |templates|
        invariant fields.None?
        invariant MatchTemplate(templates, template) == MatchTemplate(templates[i..], template)
      {
        assert templates[i..][0] == templates[i] && templates[i..][1..] == templates[i + 1..];
        if EqualsIgnoreCase(templates[i].name, template) {
          fields := Some(templates[i].fields);
          break;
        }
      }
      assert templates[|templates|..] == [];
    }
  }

  /** `populate`: resolve the template's field list, then attempt each field. */
  method Populate(data: Value, dest: Instance, ctx: Ctx, fuel: nat) returns (thrown: Option<Failure>)
    modifies dest
    decreases fuel, 4, 0
    ensures dest.state == Populated(data, dest.cls, old(dest.state), ctx, fuel).state
    ensures thrown == Populated(data, dest.cls, old(dest.state), ctx, fuel).thrown
  {
    thrown := None;
    var fields := FindTemplateFields(dest.cls, ctx.template);
    ghost var attempts := Attempts(dest.cls, ctx.template);
    ghost var goal := Run(attempts, data, dest.state, ctx, fuel);
    assert attempts[0..] == attempts;
    assert attempts[|attempts|..] == [];

    if fields.Some? {
      var names := fields.value;
      for i := 0 to |names|
        invariant thrown.None?
        invariant goal == Run(attempts[i..], data, dest.state, ctx, fuel)
      {
        RunAt(attempts, i, data, dest.state, ctx, fuel);
        var field := DeclaredField(dest.cls, names[i]);
        if field.Some? {
          thrown := AddField(field.value, data, dest, ctx, fuel);
          if thrown.Some? {
            return;
          }
        } else if data.Null? {
          // the error report for an undeclared name calls getClass() on the source
          thrown := Some(NullSource);
          return;
        }
      }
    } else if ctx.template.None? {
      var declared := dest.cls.fields;
      for i := 0 to |declared|
        invariant thrown.None?
        invariant goal == Run(attempts[i..], data, dest.state, ctx, fuel)
      {
        RunAt(attempts, i, data, dest.state, ctx, fuel);
        thrown := AddField(declared[i], data, dest, ctx, fuel);
        if thrown.Some? {
          return;
        }
      }
    }
  }

  /** The method scan of `addField`: each source method named `f` or `_f` whose return
      type is exactly the field's type is invoked, with its argument slots filled from the
      parameters; the first invocation that returns ends the scan, a failed one is skipped. */
  method InvokeCandidates(methods: seq<MethodDecl>, f: FieldDecl, data: Value, ctx: Ctx) returns (r: Option<Value>)
    ensures r == ByMethod(methods, f, data, ctx)
  {
    for i := 0 to |methods|
      invariant ByMethod(methods, f, data, ctx) == ByMethod(methods[i..], f, data, ctx)
    {
      var m := methods[i];
      assert methods[i..][0] == m && methods[i..][1..] == methods[i + 1..];
      if (m.name == f.name || m.name == "_" + f.name) && m.ret == f.ty {
        if |m.params| > 0 {
          var invokeParams, methodOk := FillSlots(m.params, ctx.params);
          if methodOk {
            var result := ctx.world.call(data, m, invokeParams);
            if result.Some? {
              return result;
            }
            // a failed invocation is reported, and the scan goes on
          }
        }
        if |m.params| == 0 {
          var result := ctx.world.call(data, m, []);
          if result.Some? {
            return result;
          }
        }
      }
    }
    assert methods[|methods|..] == [];
    return None;
  }

  /** `addField`: source methods first, then a direct copy, then nested population;
      the first strategy that yields a value writes the field and ends the chain. */
  method AddField(f: FieldDecl, data: Value, dest: Instance, ctx: Ctx, fuel: nat) returns (thrown: Option<Failure>)
    modifies dest
    decreases fuel, 2, 0
    ensures var e := Step(Some(f), data, ctx, fuel);
            dest.state == Apply(old(dest.state), f.name, e) &&
            thrown == (if e.Throw? then Some(e.failure) else None)
  {
    if data.Null? {
      return Some(NullSource);
    }
    var methods := ClassOf(data).methods;
    var byMethod := InvokeCandidates(methods, f, data, ctx);
    if byMethod.Some? {
      dest.state := dest.state[f.name := byMethod.value];
      return None;
    }

    var dataField := DeclaredField(ClassOf(data), f.name);
    if dataField.Some? {
      var fieldType := Wrap(f.ty);
      var dataFieldType := Wrap(dataField.value.ty);
      if fieldType == dataFieldType {
        var value := Read(data, dataField.value);
        if f.ty.Primitive? && value.Null? {
          // Field.set refuses null for a primitive field
          return Some(NullToPrimitive(f.name));
        }
        dest.state := dest.state[f.name := value];
        return None;
      }
    }

    assert ByMethod(methods, f, data, ctx).None? && ByCopy(f, data).Keep?;
    thrown := AddNested(f, data, dest, ctx, fuel);
  }

  /** The last strategy of `addField`: when the field's type is an entity, construct it,
      populate it from the same-named source field and store it. */
  method AddNested(f: FieldDecl, data: Value, dest: Instance, ctx: Ctx, fuel: nat) returns (thrown: Option<Failure>)
    requires !data.Null?
    modifies dest
    decreases fuel, 1, 0
    ensures var e := ByNesting(f, data, ctx, fuel);
            dest.state == Apply(old(dest.state), f.name, e) &&
            thrown == (if e.Throw? then Some(e.failure) else None)
  {
    var entity := EntityClass(ctx.world, f.ty);
    if entity.Some? {
      var nc := entity.value;
      if nc.ctor.None? {
        return Some(Instantiation(nc.name));
      }
      var instance := new Instance(nc, nc.ctor.value);
      var source := DeclaredField(ClassOf(data), f.name);
      if source.Some? {
        if fuel == 0 {
          return Some(DepthExhausted);
        }
        ghost var nested := Populated(Read(data, source.value), nc, nc.ctor.value, ctx, fuel - 1);
        thrown := Populate(Read(data, source.value), instance, ctx, fuel - 1);
        assert thrown == nested.thrown && instance.state == nested.state;
        assert Created(Read(data, source.value), nc, ctx, fuel - 1) ==
               if nested.thrown.Some? then Failure(nested.thrown.value) else Success(Obj(nc, nested.state));
        if thrown.Some? {
          return;
        }
        dest.state := dest.state[f.name := Ref(instance.Snapshot())];
      }
    }
    return None;
  }

  /** `create(data, template, c, params...)`: construct, populate, return. */
  method Create(data: Value, template: Option<string>, c: ClassDecl, params: seq<Param>, world: World, fuel: nat)
    returns (r: Result<Instance, Failure>)
    ensures var expected := Created(data, c, Ctx(world, template, params), fuel);
            r.Success? == expected.Success? &&
            (r.Success? ==> fresh(r.value) && r.value.Snapshot() == expected.value) &&
            (r.Failure? ==> r.error == expected.error)
  {
    if c.ctor.None? {
      return Failure(Instantiation(c.name));
    }
    var templateData := new Instance(c, c.ctor.value);
    var thrown := Populate(data, templateData, Ctx(world, template, params), fuel);
    if thrown.Some? {
      return Failure(thrown.value);
    }
    return Success(templateData);
  }

  /** `create(data, c, params...)`: the overload without a template name. */
  method CreateUntemplated(data: Value, c: ClassDecl, params: seq<Param>, world: World, fuel: nat)
    returns (r: Result<Instance, Failure>)
    ensures var expected := Created(data, c, Ctx(world, None, params), fuel);
            r.Success? == expected.Success? &&
            (r.Success? ==> fresh(r.value) && r.value.Snapshot() == expected.value) &&
            (r.Failure? ==> r.error == expected.error)
  {
    r := Create(data, None, c, params, world, fuel);
  }

  /** The instances built so far, ahead of what `createList` makes of the rest. */
  ghost function Prepended(done: seq<Obj>, rest: Result<seq<Obj>, Failure>): Result<seq<Obj>, Failure>
  {
    match rest
    case Success(os) => Success(done + os)
    case Failure(e) => Failure(e)
  }

  /** One element of `createList`, seen from index `i`. */
  lemma CreatedListAt(data: seq<Value>, i: nat, c: ClassDecl, ctx: Ctx, fuel: nat, done: seq<Obj>)
    requires i < |data|
    ensures var e := Created(data[i], c, ctx, fuel);
            Prepended(done, CreatedList(data[i..], c, ctx, fuel)) ==
            if e.Failure? then Failure(e.error)
            else Prepended(done + [e.value], CreatedList(data[i + 1..], c, ctx, fuel))
  {
    assert data[i..][0] == data[i] && data[i..][1..] == data[i + 1..];
    var e := Created(data[i], c, ctx, fuel);
    if e.Success? {
      match CreatedList(data[i + 1..], c, ctx, fuel)
      case Success(os) => assert done + ([e.value] + os) == (done + [e.value]) + os;
      case Failure(_) =>
    }
  }

  /** `createList(data, template, c, params...)`: `create` per element, appended
      in order; each element is a new, distinct instance. */
  method CreateList(data: seq<Value>, template: Option<string>, c: ClassDecl, params: seq<Param>, world: World, fuel: nat)
    returns (r: Result<seq<Instance>, Failure>)
    ensures var expected := CreatedList(data, c, Ctx(world, template, params), fuel);
            r.Success? == expected.Success? &&
            (r.Success? ==> |r.value| == |expected.value| &&
                            forall i :: 0 <= i < |r.value| ==> fresh(r.value[i]) && r.value[i].Snapshot() == expected.value[i]) &&
            (r.Success? ==> forall i, j :: 0 <= i < j < |r.value| ==> r.value[i] != r.value[j]) &&
            (r.Failure? ==> r.error == expected.error)
  {
    var ctx := Ctx(world, template, params);
    var result: seq<Instance> := [];
    ghost var done: seq<Obj> := [];
    assert data[0..] == data;
    match CreatedList(data, c, ctx, fuel) {
      case Success(os) => assert [] + os == os;
      case Failure(_) =>
    }
    for i := 0 to |data|
      invariant |result| == |done|
      invariant forall k :: 0 <= k < |result| ==> fresh(result[k]) && result[k].Snapshot() == done[k]
      invariant forall k, l :: 0 <= k < l < |result| ==> result[k] != result[l]
      invariant CreatedList(data, c, ctx, fuel) == Prepended(done, CreatedList(data[i..], c, ctx, fuel))
    {
      CreatedListAt(data, i, c, ctx, fuel, done);
      var created := Create(data[i], template, c, params, world, fuel);
      if created.Failure? {
        return Failure(created.error);
      }
      result := result + [created.value];
      done := done + [created.value.Snapshot()];
    }
    assert data[|data|..] == [];
    assert done + [] == done;
    return Success(result);
  }

  /** `createList(data, c, params...)`: the overload without a template name. */
  method CreateListUntemplated(data: seq<Value>, c: ClassDecl, params: seq<Param>, world: World, fuel: nat)
    returns (r: Result<seq<Instance>, Failure>)
    ensures var expected := CreatedList(data, c, Ctx(world, None, params), fuel);
            r.Success? == expected.Success? &&
            (r.Success? ==> |r.value| == |expected.value| &&
                            forall i :: 0 <= i < |r.value| ==> fresh(r.value[i]) && r.value[i].Snapshot() == expected.value[i]) &&
            (r.Success? ==> forall i, j :: 0 <= i < j < |r.value| ==> r.value[i] != r.value[j]) &&
            (r.Failure? ==> r.error == expected.error)
  {
    r := CreateList(data, None, c, params, world, fuel);
  }

  /** `fill(data, template, destination, params...)`: populate the caller's
      object and return that same object. */
  method Fill(data: Value, template: Option<string>, destination: Instance, params: seq<Param>, world: World, fuel: nat)
    returns (r: Result<Instance, Failure>)
    modifies destination
    ensures var expected := Populated(data, destination.cls, old(destination.state), Ctx(world, template, params), fuel);
            destination.state == expected.state &&
            r.Success? == expected.thrown.None? &&
            (r.Success? ==> r.value == destination) &&
            (r.Failure? ==> Some(r.error) == expected.thrown)
  {
    var thrown := Populate(data, destination, Ctx(world, template, params), fuel);
    if thrown.Some? {
      return Failure(thrown.value);
    }
    return Success(destination);
  }

  /** `fill(data, destination, params...)`: the overload without a template name. */
  method FillUntemplated(data: Value, destination: Instance, params: seq<Param>, world: World, fuel: nat)
    returns (r: Result<Instance, Failure>)
    modifies destination
    ensures var expected := Populated(data, destination.cls, old(destination.state), Ctx(world, None, params), fuel);
            destination.state == expected.state &&
            r.Success? == expected.thrown.None? &&
            (r.Success? ==> r.value == destination) &&
            (r.Failure? ==> Some(r.error) == expected.thrown)
  {
    r := Fill(data, None, destination, params, world, fuel);
  }
}
