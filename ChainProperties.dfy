/** The strategy chain for one field: methods before direct copy before nested
    population, and what each strategy needs to apply. */
module ChainProperties {
  import opened Wrappers
  import opened Reflect
  import opened Resolution
  import opened TypeProperties
  import RunProperties

  /** The first candidate method, in declaration order, whose invocation succeeds
      gives the field its value, even when a same-named field of a matching
      type exists on the source. */
  lemma FirstSucceedingMethodWins(f: FieldDecl, data: Value, ctx: Ctx, fuel: nat, i: nat)
    requires !data.Null?
    requires var ms := ClassOf(data).methods;
             i < |ms| && Succeeds(ms[i], f, data, ctx) && forall j :: 0 <= j < i ==> !Succeeds(ms[j], f, data, ctx)
    ensures Resolve(f, data, ctx, fuel) == Assign(Invoke(ClassOf(data).methods[i], data, ctx).value)
  {
    var ms := ClassOf(data).methods;
    var r := ByMethod(ms, f, data, ctx);
    var i' :| 0 <= i' < |ms| && Succeeds(ms[i'], f, data, ctx) && r == Invoke(ms[i'], data, ctx) &&
              forall j :: 0 <= j < i' ==> !Succeeds(ms[j], f, data, ctx);
    assert i' == i;
  }

  /** A method qualifies only with the field's name (plain or `_`-prefixed) and
      exactly the field's type: a boxed return type does not stand in for a
      primitive field type. */
  lemma BoxedReturnDoesNotQualify(m: MethodDecl, f: FieldDecl)
    requires f.ty.Primitive? && m.ret == Class(BoxName(f.ty.kind))
    ensures !Candidate(m, f)
  {
  }

  /** When every candidate method fails (or there is none), a same-named source
      field whose type matches up to boxing is copied unchanged, provided it is
      not a null going into a primitive field. */
  lemma CopyAfterFailedMethods(f: FieldDecl, data: Value, ctx: Ctx, fuel: nat, sf: FieldDecl)
    requires !data.Null?
    requires forall i :: 0 <= i < |ClassOf(data).methods| ==> !Succeeds(ClassOf(data).methods[i], f, data, ctx)
    requires DeclaredField(ClassOf(data), f.name) == Some(sf) && SameAfterBoxing(f.ty, sf.ty)
    requires !(f.ty.Primitive? && Read(data, sf).Null?)
    ensures Resolve(f, data, ctx, fuel) == Assign(Read(data, sf))
  {
    ByCopyApplies(f, data);
  }

  /** The same copy of a null into a primitive field (a boxed source field left
      null) throws instead, and the exception escapes the field's attempt. */
  lemma NullIntoPrimitiveThrows(f: FieldDecl, data: Value, ctx: Ctx, fuel: nat, sf: FieldDecl)
    requires !data.Null?
    requires forall i :: 0 <= i < |ClassOf(data).methods| ==> !Succeeds(ClassOf(data).methods[i], f, data, ctx)
    requires DeclaredField(ClassOf(data), f.name) == Some(sf) && SameAfterBoxing(f.ty, sf.ty)
    requires f.ty.Primitive? && Read(data, sf).Null?
    ensures Resolve(f, data, ctx, fuel) == Throw(NullToPrimitive(f.name))
    ensures Step(Some(f), data, ctx, fuel) == Throw(NullToPrimitive(f.name))
  {
    ByCopyApplies(f, data);
  }

  /** A field neither a method nor a copy resolves, whose type is no entity,
      is left as it was. */
  lemma UnresolvedNonEntityKept(f: FieldDecl, data: Value, ctx: Ctx, fuel: nat)
    requires !data.Null?
    requires forall i :: 0 <= i < |ClassOf(data).methods| ==> !Succeeds(ClassOf(data).methods[i], f, data, ctx)
    requires var sf := DeclaredField(ClassOf(data), f.name); sf.Some? ==> !SameAfterBoxing(f.ty, sf.value.ty)
    requires EntityClass(ctx.world, f.ty).None?
    ensures Resolve(f, data, ctx, fuel) == Keep
  {
    ByCopyApplies(f, data);
  }

  /** Nested population: when neither earlier strategy applies and the field's
      type is an entity, the field receives a fresh instance populated from the
      same-named source field under the same template and parameters. */
  lemma NestedUnderSameTemplate(f: FieldDecl, data: Value, ctx: Ctx, fuel: nat, nc: ClassDecl, sf: FieldDecl)
    requires !data.Null? && fuel > 0
    requires forall i :: 0 <= i < |ClassOf(data).methods| ==> !Succeeds(ClassOf(data).methods[i], f, data, ctx)
    requires DeclaredField(ClassOf(data), f.name) == Some(sf) && !SameAfterBoxing(f.ty, sf.ty)
    requires EntityClass(ctx.world, f.ty) == Some(nc) && nc.ctor.Some?
    requires Populated(Read(data, sf), nc, nc.ctor.value, ctx, fuel - 1).thrown.None?
    ensures Resolve(f, data, ctx, fuel) ==
            Assign(Ref(Obj(nc, Populated(Read(data, sf), nc, nc.ctor.value, ctx, fuel - 1).state)))
  {
    ByCopyApplies(f, data);
    assert Created(Read(data, sf), nc, ctx, fuel - 1) ==
           Success(Obj(nc, Populated(Read(data, sf), nc, nc.ctor.value, ctx, fuel - 1).state));
  }

  /** An entity class that cannot be constructed makes the nested strategy throw
      whenever it is reached, whether or not the source has a same-named field:
      `newInstance` comes first and its failure is rethrown. */
  lemma NestedConstructionFailureThrows(f: FieldDecl, data: Value, ctx: Ctx, fuel: nat, nc: ClassDecl)
    requires !data.Null?
    requires forall i :: 0 <= i < |ClassOf(data).methods| ==> !Succeeds(ClassOf(data).methods[i], f, data, ctx)
    requires ByCopy(f, data).Keep?
    requires EntityClass(ctx.world, f.ty) == Some(nc) && nc.ctor.None?
    ensures Resolve(f, data, ctx, fuel) == Throw(Instantiation(nc.name))
  {
  }

  /** An exception that escapes the nested population (a null source
      sub-object, a null copied into a primitive field, a deeper construction
      failure) escapes the field's attempt too: nothing catches it. */
  lemma NestedFailureEscapes(f: FieldDecl, data: Value, ctx: Ctx, fuel: nat, nc: ClassDecl, sf: FieldDecl, e: Failure)
    requires !data.Null? && fuel > 0
    requires forall i :: 0 <= i < |ClassOf(data).methods| ==> !Succeeds(ClassOf(data).methods[i], f, data, ctx)
    requires DeclaredField(ClassOf(data), f.name) == Some(sf) && !SameAfterBoxing(f.ty, sf.ty)
    requires EntityClass(ctx.world, f.ty) == Some(nc) && nc.ctor.Some?
    requires Populated(Read(data, sf), nc, nc.ctor.value, ctx, fuel - 1).thrown == Some(e)
    ensures Resolve(f, data, ctx, fuel) == Throw(e)
  {
    ByCopyApplies(f, data);
    assert Created(Read(data, sf), nc, ctx, fuel - 1) == Failure(e);
  }

  /** Without a same-named source field the nested strategy does not apply, but
      the instance is constructed first, so a construction failure still escapes. */
  lemma NestedWithoutSourceField(f: FieldDecl, data: Value, ctx: Ctx, fuel: nat, nc: ClassDecl)
    requires !data.Null?
    requires forall i :: 0 <= i < |ClassOf(data).methods| ==> !Succeeds(ClassOf(data).methods[i], f, data, ctx)
    requires DeclaredField(ClassOf(data), f.name).None?
    requires EntityClass(ctx.world, f.ty) == Some(nc)
    ensures Resolve(f, data, ctx, fuel) == if nc.ctor.Some? then Keep else Throw(Instantiation(nc.name))
  {
  }

  /** Under a template name, the nested instance gets only the fields its own
      class lists for that name: every other field keeps its constructed value. */
  lemma NestedRestrictedByTemplate(src: Value, nc: ClassDecl, ctx: Ctx, fuel: nat, name: string)
    requires nc.ctor.Some? && name in nc.ctor.value
    requires TemplateFields(nc, ctx.template).Some? && name !in TemplateFields(nc, ctx.template).value
    ensures var o := Populated(src, nc, nc.ctor.value, ctx, fuel);
            name in o.state && o.state[name] == nc.ctor.value[name]
  {
    var attempts := Attempts(nc, ctx.template);
    var names := TemplateFields(nc, ctx.template).value;
    forall i | 0 <= i < |attempts| && attempts[i].Some?
      ensures attempts[i].value.name != name
    {
      assert attempts[i] == DeclaredField(nc, names[i]);
      assert names[i] in names;
    }
    RunProperties.RunKeepsUnresolved(attempts, src, nc.ctor.value, ctx, fuel, name);
  }
}
