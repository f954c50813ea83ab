/** The public entry points and the recursion bound. */
module EntryProperties {
  import opened Wrappers
  import opened Reflect
  import opened Resolution

  /** `createList` succeeds exactly when `create` succeeds on every element; its
      result has the input's length and element `i` is `create` of input
      element `i`. Otherwise it fails with the failure of the first element
      that fails. */
  lemma {:induction false} CreatedListElementwise(data: seq<Value>, c: ClassDecl, ctx: Ctx, fuel: nat)
    ensures var r := CreatedList(data, c, ctx, fuel);
            r.Success? <==> forall i :: 0 <= i < |data| ==> Created(data[i], c, ctx, fuel).Success?
    ensures var r := CreatedList(data, c, ctx, fuel);
            r.Success? ==> |r.value| == |data| &&
                           forall i :: 0 <= i < |data| ==> r.value[i] == Created(data[i], c, ctx, fuel).value
    ensures var r := CreatedList(data, c, ctx, fuel);
            r.Failure? ==> exists i :: 0 <= i < |data| && Created(data[i], c, ctx, fuel) == Failure(r.error) &&
                                       forall j :: 0 <= j < i ==> Created(data[j], c, ctx, fuel).Success?
  {
    if data != [] {
      CreatedListElementwise(data[1..], c, ctx, fuel);
      assert forall i :: 1 <= i < |data| ==> data[i] == data[1..][i - 1];
      var r := CreatedList(data, c, ctx, fuel);
      var rest := CreatedList(data[1..], c, ctx, fuel);
      if Created(data[0], c, ctx, fuel).Success? && rest.Failure? {
        var i :| 0 <= i < |data| - 1 && Created(data[1..][i], c, ctx, fuel) == Failure(rest.error) &&
                 forall j :: 0 <= j < i ==> Created(data[1..][j], c, ctx, fuel).Success?;
        assert Created(data[i + 1], c, ctx, fuel) == Failure(r.error);
      }
    }
  }

  // ----- Fuel only bounds the recursion -----
  // A result that does not report exhausted depth is the result any larger
  // fuel gives: the fuel stands for the call stack, not for behaviour.

  lemma {:induction false} RunFuel(attempts: seq<Option<FieldDecl>>, data: Value, state: map<string, Value>, ctx: Ctx, fuel: nat)
    requires Run(attempts, data, state, ctx, fuel).thrown != Some(DepthExhausted)
    ensures Run(attempts, data, state, ctx, fuel + 1) == Run(attempts, data, state, ctx, fuel)
    decreases fuel, 3, |attempts|
  {
    if attempts != [] {
      var e := Step(attempts[0], data, ctx, fuel);
      StepFuel(attempts[0], data, ctx, fuel);
      if !e.Throw? {
        var next := if e.Keep? then state else state[attempts[0].value.name := e.v];
        RunFuel(attempts[1..], data, next, ctx, fuel);
      }
    }
  }

  lemma {:induction false} StepFuel(a: Option<FieldDecl>, data: Value, ctx: Ctx, fuel: nat)
    requires Step(a, data, ctx, fuel) != Throw(DepthExhausted)
    ensures Step(a, data, ctx, fuel + 1) == Step(a, data, ctx, fuel)
    decreases fuel, 2, 0
  {
    if !data.Null? && a.Some? {
      var f := a.value;
      if ByMethod(ClassOf(data).methods, f, data, ctx).None? && ByCopy(f, data).Keep? {
        NestingFuel(f, data, ctx, fuel);
      }
    }
  }

  lemma {:induction false} NestingFuel(f: FieldDecl, data: Value, ctx: Ctx, fuel: nat)
    requires !data.Null?
    requires ByNesting(f, data, ctx, fuel) != Throw(DepthExhausted)
    ensures ByNesting(f, data, ctx, fuel + 1) == ByNesting(f, data, ctx, fuel)
    decreases fuel, 0, 0
  {
    var nc := EntityClass(ctx.world, f.ty);
    if nc.Some? && nc.value.ctor.Some? {
      var sf := DeclaredField(ClassOf(data), f.name);
      if sf.Some? {
        CreatedFuel(Read(data, sf.value), nc.value, ctx, fuel - 1);
      }
    }
  }

  lemma {:induction false} CreatedFuel(data: Value, c: ClassDecl, ctx: Ctx, fuel: nat)
    requires Created(data, c, ctx, fuel) != Failure(DepthExhausted)
    ensures Created(data, c, ctx, fuel + 1) == Created(data, c, ctx, fuel)
    decreases fuel, 5, 0
  {
    if c.ctor.Some? {
      RunFuel(Attempts(c, ctx.template), data, c.ctor.value, ctx, fuel);
    }
  }
}
