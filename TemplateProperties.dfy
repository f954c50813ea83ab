/** Template resolution: which destination fields a call attempts. */
module TemplateProperties {
  import opened Wrappers
  import opened Reflect
  import opened Resolution

  /** Without a template name (a null `template`) every declared field is
      attempted, in declaration order. */
  lemma NullTemplateAttemptsEveryField(c: ClassDecl)
    ensures |Attempts(c, None)| == |c.fields|
    ensures forall i :: 0 <= i < |c.fields| ==> Attempts(c, None)[i] == Some(c.fields[i])
  {
  }

  /** With a template name, the attempts are the names of the first template
      whose name matches ignoring case, in listed order; a listed name the class
      does not declare is an attempt that finds no field. */
  lemma MatchedTemplateAttemptsListed(c: ClassDecl, template: Option<string>, i: nat)
    requires c.entity.Some? && i < |c.entity.value|
    requires EqualsIgnoreCase(c.entity.value[i].name, template)
    requires forall j :: 0 <= j < i ==> !EqualsIgnoreCase(c.entity.value[j].name, template)
    ensures var names := c.entity.value[i].fields;
            |Attempts(c, template)| == |names| &&
            forall k :: 0 <= k < |names| ==> Attempts(c, template)[k] == DeclaredField(c, names[k])
  {
    var ts := c.entity.value;
    var r := MatchTemplate(ts, template);
    var i' :| 0 <= i' < |ts| && EqualsIgnoreCase(ts[i'].name, template) && r.value == ts[i'].fields &&
              forall j :: 0 <= j < i' ==> !EqualsIgnoreCase(ts[j].name, template);
    assert i' == i;
  }

  /** A named template that the class does not declare (or a class without
      `@TemplateEntity`) attempts nothing: the destination is left as it was. */
  lemma UnmatchedTemplateChangesNothing(data: Value, c: ClassDecl, state: map<string, Value>, ctx: Ctx, fuel: nat)
    requires ctx.template.Some?
    requires c.entity.Some? ==> forall i :: 0 <= i < |c.entity.value| ==> !EqualsIgnoreCase(c.entity.value[i].name, ctx.template)
    ensures Populated(data, c, state, ctx, fuel) == Outcome(state, None)
  {
  }

  /** So `create` under such a name yields an object indistinguishable from a
      freshly constructed one. */
  lemma UnmatchedTemplateCreatesDefault(data: Value, c: ClassDecl, ctx: Ctx, fuel: nat)
    requires ctx.template.Some?
    requires c.entity.Some? ==> forall i :: 0 <= i < |c.entity.value| ==> !EqualsIgnoreCase(c.entity.value[i].name, ctx.template)
    ensures c.ctor.Some? ==> Created(data, c, ctx, fuel) == Success(Obj(c, c.ctor.value))
    ensures c.ctor.None? ==> Created(data, c, ctx, fuel) == Failure(Instantiation(c.name))
  {
    if c.ctor.Some? {
      UnmatchedTemplateChangesNothing(data, c, c.ctor.value, ctx, fuel);
    }
  }

  /** Case-insensitive equality carries over from one spelling to another. */
  lemma IgnoreCaseTransfers(n: string, a: string, b: string)
    requires EqualsIgnoreCase(a, Some(b))
    ensures EqualsIgnoreCase(n, Some(a)) <==> EqualsIgnoreCase(n, Some(b))
  {
  }

  /** Template names that differ only in letter case select the same field list. */
  lemma {:induction false} TemplateNameIgnoresCase(ts: seq<Template>, a: string, b: string)
    requires EqualsIgnoreCase(a, Some(b))
    ensures MatchTemplate(ts, Some(a)) == MatchTemplate(ts, Some(b))
  {
    if ts != [] {
      IgnoreCaseTransfers(ts[0].name, a, b);
      TemplateNameIgnoresCase(ts[1..], a, b);
    }
  }
}
