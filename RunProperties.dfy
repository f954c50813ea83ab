/** A population run: attempts are independent, only an escaping exception
    stops the run, and fields no attempt resolves keep their values. */
module RunProperties {
  import opened Wrappers
  import opened Reflect
  import opened Resolution

  /** The run ends with an exception exactly when some attempt throws, and then
      with the exception of the first attempt that does. */
  lemma {:induction false} RunThrowsIffSomeStepThrows(attempts: seq<Option<FieldDecl>>, data: Value, state: map<string, Value>, ctx: Ctx, fuel: nat)
    ensures var o := Run(attempts, data, state, ctx, fuel);
            o.thrown.None? <==> forall i :: 0 <= i < |attempts| ==> !Step(attempts[i], data, ctx, fuel).Throw?
    ensures var o := Run(attempts, data, state, ctx, fuel);
            o.thrown.Some? ==> exists i :: 0 <= i < |attempts| && Step(attempts[i], data, ctx, fuel) == Throw(o.thrown.value) &&
                                           forall j :: 0 <= j < i ==> !Step(attempts[j], data, ctx, fuel).Throw?
    decreases |attempts|
  {
    if attempts != [] {
      var e := Step(attempts[0], data, ctx, fuel);
      if !e.Throw? {
        var next := if e.Keep? then state else state[attempts[0].value.name := e.v];
        RunThrowsIffSomeStepThrows(attempts[1..], data, next, ctx, fuel);
        var o := Run(attempts[1..], data, next, ctx, fuel);
        assert forall i :: 1 <= i < |attempts| ==> attempts[i] == attempts[1..][i - 1];
        if o.thrown.Some? {
          var i :| 0 <= i < |attempts| - 1 && Step(attempts[1..][i], data, ctx, fuel) == Throw(o.thrown.value) &&
                   forall j :: 0 <= j < i ==> !Step(attempts[1..][j], data, ctx, fuel).Throw?;
          assert Step(attempts[i + 1], data, ctx, fuel) == Throw(o.thrown.value);
        }
      }
    }
  }

  /** No attempt writes `name` unless it resolves a field of that name: a field
      no attempt resolves keeps its prior value (or stays absent). */
  lemma {:induction false} RunKeepsUnresolved(attempts: seq<Option<FieldDecl>>, data: Value, state: map<string, Value>, ctx: Ctx, fuel: nat, name: string)
    requires forall i :: 0 <= i < |attempts| && attempts[i].Some? && attempts[i].value.name == name ==>
                         !Step(attempts[i], data, ctx, fuel).Assign?
    ensures var o := Run(attempts, data, state, ctx, fuel);
            (name in o.state <==> name in state) && (name in state ==> o.state[name] == state[name])
    decreases |attempts|
  {
    if attempts != [] {
      var e := Step(attempts[0], data, ctx, fuel);
      if !e.Throw? {
        var next := if e.Keep? then state else state[attempts[0].value.name := e.v];
        assert forall i :: 1 <= i < |attempts| ==> attempts[i] == attempts[1..][i - 1];
        RunKeepsUnresolved(attempts[1..], data, next, ctx, fuel, name);
      }
    }
  }

  /** A resolved field keeps the value it was given, whatever its siblings do,
      as long as nothing throws and no later attempt is for the same name. */
  lemma {:induction false} RunKeepsResolved(attempts: seq<Option<FieldDecl>>, i: nat, data: Value, state: map<string, Value>, ctx: Ctx, fuel: nat)
    requires i < |attempts| && attempts[i].Some? && Step(attempts[i], data, ctx, fuel).Assign?
    requires forall j :: 0 <= j < |attempts| ==> !Step(attempts[j], data, ctx, fuel).Throw?
    requires forall j :: i < j < |attempts| && attempts[j].Some? ==> attempts[j].value.name != attempts[i].value.name
    ensures var o := Run(attempts, data, state, ctx, fuel);
            var name := attempts[i].value.name;
            name in o.state && o.state[name] == Step(attempts[i], data, ctx, fuel).v
    decreases |attempts|
  {
    var e := Step(attempts[0], data, ctx, fuel);
    var next := if e.Keep? then state else state[attempts[0].value.name := e.v];
    assert forall j :: 1 <= j < |attempts| ==> attempts[j] == attempts[1..][j - 1];
    if i == 0 {
      RunKeepsUnresolved(attempts[1..], data, next, ctx, fuel, attempts[0].value.name);
    } else {
      RunKeepsResolved(attempts[1..], i - 1, data, next, ctx, fuel);
    }
  }

  /** A listed name the destination does not declare is skipped: the run is the
      run without it. */
  lemma {:induction false} UndeclaredNameSkipped(attempts: seq<Option<FieldDecl>>, k: nat, data: Value, state: map<string, Value>, ctx: Ctx, fuel: nat)
    requires !data.Null?
    requires k < |attempts| && attempts[k].None?
    ensures Run(attempts, data, state, ctx, fuel) == Run(attempts[..k] + attempts[k + 1..], data, state, ctx, fuel)
    decreases k
  {
    if k == 0 {
      assert attempts[..0] + attempts[1..] == attempts[1..];
    } else {
      var rest := attempts[..k] + attempts[k + 1..];
      assert rest[0] == attempts[0];
      assert rest[1..] == attempts[1..][..k - 1] + attempts[1..][k..];
      var e := Step(attempts[0], data, ctx, fuel);
      if !e.Throw? {
        var next := if e.Keep? then state else state[attempts[0].value.name := e.v];
        UndeclaredNameSkipped(attempts[1..], k - 1, data, next, ctx, fuel);
      }
    }
  }

  /** A null source fails at the first attempt, before any field is written. */
  lemma NullSourceThrows(attempts: seq<Option<FieldDecl>>, state: map<string, Value>, ctx: Ctx, fuel: nat)
    requires attempts != []
    ensures Run(attempts, Null, state, ctx, fuel) == Outcome(state, Some(NullSource))
  {
  }

  /** `fill` leaves every field that no attempt resolves at its prior value. */
  lemma FillKeepsUnresolved(data: Value, c: ClassDecl, state: map<string, Value>, ctx: Ctx, fuel: nat, name: string)
    requires name in state
    requires forall i :: 0 <= i < |Attempts(c, ctx.template)| && Attempts(c, ctx.template)[i].Some? &&
                         Attempts(c, ctx.template)[i].value.name == name ==>
                         !Step(Attempts(c, ctx.template)[i], data, ctx, fuel).Assign?
    ensures var o := Populated(data, c, state, ctx, fuel);
            name in o.state && o.state[name] == state[name]
  {
    RunKeepsUnresolved(Attempts(c, ctx.template), data, state, ctx, fuel, name);
  }
}
