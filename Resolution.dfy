/** The population engine as functions of its inputs: which fields a call
    attempts, how argument slots are filled, the three-strategy chain for one
    field, and what `populate`, `create` and `createList` leave behind. The
    imperative engine in module TemplateData is proved to compute exactly these. */
module Resolution {
  import opened Wrappers
  import opened Reflect

  /** What invoking a method does: the receiver, the method and the argument
      list give the returned value, or `None` when the invocation fails
      (an access failure, or an exception thrown by the method body). */
  type Invoker = (Value, MethodDecl, seq<Value>) -> Option<Value>

  /** What the engine cannot see: the entity classes by name, and method bodies. */
  datatype World = World(reg: map<string, ClassDecl>, call: Invoker)

  /** The arguments threaded unchanged through every (nested) population call. */
  datatype Ctx = Ctx(world: World, template: Option<string>, params: seq<Param>)

  /** The exceptions the engine lets escape: a null source reached through
      `getClass()`, a failed no-argument construction, a direct copy of null
      into a primitive field (`Field.set` refuses it with an
      `IllegalArgumentException`, which nothing catches), and unbounded nesting
      (the fuel stands for the call stack). */
  datatype Failure = NullSource | Instantiation(cls: string) | NullToPrimitive(field: string) | DepthExhausted

  /** What one attempt does to the destination. */
  datatype Effect = Assign(v: Value) | Keep | Throw(failure: Failure)

  /** The destination's field values after a run, and the exception that ended it, if any. */
  datatype Outcome = Outcome(state: map<string, Value>, thrown: Option<Failure>)

  // ----- Template resolution -----

  /** The field list of the first template whose name equals `template` ignoring case. */
  function MatchTemplate(ts: seq<Template>, template: Option<string>): (r: Option<seq<string>>)
    ensures r.None? <==> forall i :: 0 <= i < |ts| ==> !EqualsIgnoreCase(ts[i].name, template)
    ensures r.Some? ==> exists i :: 0 <= i < |ts| && EqualsIgnoreCase(ts[i].name, template) &&
                                    r.value == ts[i].fields &&
                                    forall j :: 0 <= j < i ==> !EqualsIgnoreCase(ts[j].name, template)
  {
    if ts == [] then None
    else if EqualsIgnoreCase(ts[0].name, template) then Some(ts[0].fields)
    else
      var r := MatchTemplate(ts[1..], template);
      assert r.Some? ==> exists i :: 1 <= i < |ts| && EqualsIgnoreCase(ts[i].name, template) &&
                                     r.value == ts[i].fields &&
                                     forall j :: 0 <= j < i ==> !EqualsIgnoreCase(ts[j].name, template)
      by {
        if r.Some? {
          var k :| 0 <= k < |ts| - 1 && EqualsIgnoreCase(ts[1..][k].name, template) &&
                   r.value == ts[1..][k].fields &&
                   forall j :: 0 <= j < k ==> !EqualsIgnoreCase(ts[1..][j].name, template);
          assert forall j :: 0 <= j < k + 1 ==> !EqualsIgnoreCase(ts[j].name, template) by {
            forall j | 0 <= j < k + 1 ensures !EqualsIgnoreCase(ts[j].name, template) {
              if j > 0 { assert ts[j] == ts[1..][j - 1]; }
            }
          }
        }
      }
      r
  }

  /** The `fields` variable of `populate`: the matched template's list, or null. */
  function TemplateFields(c: ClassDecl, template: Option<string>): Option<seq<string>>
  {
    if c.entity.Some? then MatchTemplate(c.entity.value, template) else None
  }

  /** The attempts `populate` makes, in order: a declared field, or `None` for a
      listed name the class does not declare. All declared fields without a
      template; the matched list with one; nothing when a template is named but
      not matched. */
  function Attempts(c: ClassDecl, template: Option<string>): seq<Option<FieldDecl>>
  {
    match TemplateFields(c, template)
    case Some(names) => seq(|names|, i requires 0 <= i < |names| => DeclaredField(c, names[i]))
    case None =>
      if template.None? then seq(|c.fields|, i requires 0 <= i < |c.fields| => Some(c.fields[i]))
      else []
  }

  // ----- Argument slots -----

  /** The first parameter, in list order, assignable to `slot`. */
  function FirstAssignable(slot: Type, ps: seq<Param>): (r: Option<Param>)
    ensures r.None? <==> forall j :: 0 <= j < |ps| ==> !Assignable(slot, ps[j])
    ensures r.Some? ==> exists j :: 0 <= j < |ps| && ps[j] == r.value && Assignable(slot, ps[j]) &&
                                    forall k :: 0 <= k < j ==> !Assignable(slot, ps[k])
  {
    if ps == [] then None
    else if Assignable(slot, ps[0]) then Some(ps[0])
    else
      var r := FirstAssignable(slot, ps[1..]);
      assert r.Some? ==> exists j :: 1 <= j < |ps| && ps[j] == r.value && Assignable(slot, ps[j]) &&
                                     forall k :: 0 <= k < j ==> !Assignable(slot, ps[k])
      by {
        if r.Some? {
          var j :| 0 <= j < |ps| - 1 && ps[1..][j] == r.value && Assignable(slot, ps[1..][j]) &&
                   forall k :: 0 <= k < j ==> !Assignable(slot, ps[1..][k]);
          forall k | 0 <= k < j + 1 ensures !Assignable(slot, ps[k]) {
            if k > 0 { assert ps[k] == ps[1..][k - 1]; }
          }
        }
      }
      r
  }

  /** The argument a slot receives: the first assignable parameter, else null. */
  function SlotValue(slot: Type, ps: seq<Param>): Value
  {
    match FirstAssignable(slot, ps)
    case Some(p) => p
    case None => Null
  }

  /** A primitive slot no parameter fills disqualifies the method. */
  predicate Disqualified(slots: seq<Type>, ps: seq<Param>)
  {
    exists i :: 0 <= i < |slots| && slots[i].Primitive? && FirstAssignable(slots[i], ps).None?
  }

  /** The argument list for a method with these parameter types, or `None` when
      it is disqualified. */
  function Slots(slots: seq<Type>, ps: seq<Param>): Option<seq<Value>>
  {
    if Disqualified(slots, ps) then None
    else Some(seq(|slots|, i requires 0 <= i < |slots| => SlotValue(slots[i], ps)))
  }

  // ----- The strategy chain for one field -----

  /** A source method qualifies by name (`f` or `_f`) and exact return type. */
  predicate Candidate(m: MethodDecl, f: FieldDecl)
  {
    (m.name == f.name || m.name == "_" + f.name) && m.ret == f.ty
  }

  /** Invoking a candidate: with arguments from the parameter list when it has
      parameters (none when disqualified), with none otherwise. */
  function Invoke(m: MethodDecl, data: Value, ctx: Ctx): Option<Value>
  {
    if |m.params| > 0 then
      match Slots(m.params, ctx.params)
      case Some(args) => ctx.world.call(data, m, args)
      case None => None
    else ctx.world.call(data, m, [])
  }

  /** A candidate whose invocation returns a value. */
  predicate Succeeds(m: MethodDecl, f: FieldDecl, data: Value, ctx: Ctx)
  {
    Candidate(m, f) && Invoke(m, data, ctx).Some?
  }

  /** Strategy 1: the result of the first candidate, in declaration order,
      whose invocation succeeds. */
  function ByMethod(ms: seq<MethodDecl>, f: FieldDecl, data: Value, ctx: Ctx): (r: Option<Value>)
    ensures r.None? <==> forall i :: 0 <= i < |ms| ==> !Succeeds(ms[i], f, data, ctx)
    ensures r.Some? ==> exists i :: 0 <= i < |ms| && Succeeds(ms[i], f, data, ctx) &&
                                    r == Invoke(ms[i], data, ctx) &&
                                    forall j :: 0 <= j < i ==> !Succeeds(ms[j], f, data, ctx)
  {
    if ms == [] then None
    else if Succeeds(ms[0], f, data, ctx) then Invoke(ms[0], data, ctx)
    else
      var r := ByMethod(ms[1..], f, data, ctx);
      assert r.Some? ==> exists i :: 1 <= i < |ms| && Succeeds(ms[i], f, data, ctx) &&
                                     r == Invoke(ms[i], data, ctx) &&
                                     forall j :: 0 <= j < i ==> !Succeeds(ms[j], f, data, ctx)
      by {
        if r.Some? {
          var i :| 0 <= i < |ms| - 1 && Succeeds(ms[1..][i], f, data, ctx) &&
                   r == Invoke(ms[1..][i], data, ctx) &&
                   forall j :: 0 <= j < i ==> !Succeeds(ms[1..][j], f, data, ctx);
          forall j | 0 <= j < i + 1 ensures !Succeeds(ms[j], f, data, ctx) {
            if j > 0 { assert ms[j] == ms[1..][j - 1]; }
          }
        }
      }
      r
  }

  /** Strategy 2: the value of the same-named source field, when its type equals
      the destination field's type after wrapping primitives; `Keep` when the
      strategy does not apply. A null copied into a primitive field throws. */
  function ByCopy(f: FieldDecl, data: Value): Effect
    requires !data.Null?
  {
    match DeclaredField(ClassOf(data), f.name)
    case Some(sf) =>
      if Wrap(f.ty) != Wrap(sf.ty) then Keep
      else if f.ty.Primitive? && Read(data, sf).Null? then Throw(NullToPrimitive(f.name))
      else Assign(Read(data, sf))
    case None => Keep
  }

  /** The entity class a field type names, if it carries `@TemplateEntity`. */
  function EntityClass(w: World, t: Type): Option<ClassDecl>
  {
    if t.Class? && t.name in w.reg && w.reg[t.name].entity.Some? then Some(w.reg[t.name]) else None
  }

  /** Strategy 3: a fresh instance of the field's entity type, populated from the
      same-named source field under the same template and parameters. */
  function ByNesting(f: FieldDecl, data: Value, ctx: Ctx, fuel: nat): Effect
    requires !data.Null?
    decreases fuel, 0, 0
  {
    match EntityClass(ctx.world, f.ty)
    case None => Keep
    case Some(nc) =>
      if nc.ctor.None? then Throw(Instantiation(nc.name))
      else
        match DeclaredField(ClassOf(data), f.name)
        case None => Keep
        case Some(sf) =>
          if fuel == 0 then Throw(DepthExhausted)
          else
            match Created(Read(data, sf), nc, ctx, fuel - 1)
            case Success(o) => Assign(Ref(o))
            case Failure(e) => Throw(e)
  }

  /** `addField`: the first strategy that yields a value wins. */
  function Resolve(f: FieldDecl, data: Value, ctx: Ctx, fuel: nat): Effect
    requires !data.Null?
    decreases fuel, 1, 0
  {
    match ByMethod(ClassOf(data).methods, f, data, ctx)
    case Some(v) => Assign(v)
    case None =>
      var copy := ByCopy(f, data);
      if copy.Keep? then ByNesting(f, data, ctx, fuel) else copy
  }

  /** One attempt of `populate`. A null source fails on `getClass()` for every
      attempt, a declared field or not. */
  function Step(a: Option<FieldDecl>, data: Value, ctx: Ctx, fuel: nat): Effect
    decreases fuel, 2, 0
  {
    if data.Null? then Throw(NullSource)
    else
      match a
      case None => Keep
      case Some(f) => Resolve(f, data, ctx, fuel)
  }

  /** The attempts run in order; an escaping exception ends the run. */
  function Run(attempts: seq<Option<FieldDecl>>, data: Value, state: map<string, Value>, ctx: Ctx, fuel: nat): Outcome
    decreases fuel, 3, |attempts|
  {
    if attempts == [] then Outcome(state, None)
    else
      match Step(attempts[0], data, ctx, fuel)
      case Throw(e) => Outcome(state, Some(e))
      case Keep => Run(attempts[1..], data, state, ctx, fuel)
      case Assign(v) => Run(attempts[1..], data, state[attempts[0].value.name := v], ctx, fuel)
  }

  /** One step of a run, seen from the attempt at index `i`. */
  lemma RunAt(attempts: seq<Option<FieldDecl>>, i: nat, data: Value, state: map<string, Value>, ctx: Ctx, fuel: nat)
    requires i < |attempts|
    ensures var e := Step(attempts[i], data, ctx, fuel);
            Run(attempts[i..], data, state, ctx, fuel) ==
            if e.Throw? then Outcome(state, Some(e.failure))
            else if e.Keep? then Run(attempts[i + 1..], data, state, ctx, fuel)
            else Run(attempts[i + 1..], data, state[attempts[i].value.name := e.v], ctx, fuel)
  {
    assert attempts[i..][0] == attempts[i] && attempts[i..][1..] == attempts[i + 1..];
  }

  /** `populate(data, template, dest, params)` on a destination of class `c` in `state`. */
  function Populated(data: Value, c: ClassDecl, state: map<string, Value>, ctx: Ctx, fuel: nat): Outcome
    decreases fuel, 4, 0
  {
    Run(Attempts(c, ctx.template), data, state, ctx, fuel)
  }

  /** `create(data, template, c, params)`: a new instance, populated. */
  function Created(data: Value, c: ClassDecl, ctx: Ctx, fuel: nat): Result<Obj, Failure>
    decreases fuel, 5, 0
  {
    match c.ctor
    case None => Failure(Instantiation(c.name))
    case Some(init) =>
      var o := Populated(data, c, init, ctx, fuel);
      if o.thrown.Some? then Failure(o.thrown.value) else Success(Obj(c, o.state))
  }

  /** `createList(data, template, c, params)`: one `create` per element, in order. */
  function CreatedList(data: seq<Value>, c: ClassDecl, ctx: Ctx, fuel: nat): Result<seq<Obj>, Failure>
  {
    if data == [] then Success([])
    else
      match Created(data[0], c, ctx, fuel)
      case Failure(e) => Failure(e)
      case Success(o) =>
        match CreatedList(data[1..], c, ctx, fuel)
        case Failure(e) => Failure(e)
        case Success(os) => Success([o] + os)
  }
}
